/** Long messages in chunks (k2do/channels/telegram.py, 82-99). `blank` stands for
    `str.isspace` of one character. */
module SplitMessage {
  /** The characters that are not white space. */
  function Ink(s: string, blank: char -> bool): string {
    if s == "" then "" else (if blank(s[0]) then "" else [s[0]]) + Ink(s[1..], blank)
  }

  function Flat(chunks: seq<string>): string {
    if chunks == [] then "" else Flat(chunks[..|chunks| - 1]) + chunks[|chunks| - 1]
  }

  lemma {:induction false} InkAppend(a: string, b: string, blank: char -> bool)
    ensures Ink(a + b, blank) == Ink(a, blank) + Ink(b, blank)
  {
    if a == "" {
      assert a + b == b;
    } else {
      InkAppend(a[1..], b, blank);
      assert (a + b)[1..] == a[1..] + b;
    }
  }

  lemma {:induction false} FlatAppend(chunks: seq<string>, chunk: string)
    ensures Flat(chunks + [chunk]) == Flat(chunks) + chunk
  {
    assert (chunks + [chunk])[..|chunks|] == chunks;
  }

  /** `str.rfind` of one character. */
  method RightFind(s: string, c: char) returns (pos: int)
    ensures -1 <= pos < |s|
    ensures pos >= 0 ==> s[pos] == c
    ensures forall i | pos < i < |s| :: s[i] != c
  {
    pos := |s| - 1;
    while pos >= 0 && s[pos] != c
      invariant -1 <= pos < |s|
      invariant forall i | pos < i < |s| :: s[i] != c
    {
      pos := pos - 1;
    }
  }

  /** `str.lstrip`. */
  function LeftStrip(s: string, blank: char -> bool): (rest: string)
    ensures |rest| <= |s| && (s != "" && blank(s[0]) ==> |rest| < |s|)
    ensures rest != "" ==> !blank(rest[0])
  {
    if s != "" && blank(s[0]) then LeftStrip(s[1..], blank) else s
  }

  lemma {:induction false} StripKeepsInk(s: string, blank: char -> bool)
    ensures Ink(LeftStrip(s, blank), blank) == Ink(s, blank)
  {
    if s != "" && blank(s[0]) {
      StripKeepsInk(s[1..], blank);
    }
  }

  /** Where the next chunk ends: at the last line break of the window, else at its last space,
      else at its end. */
  predicate CutsAt(content: string, maxLen: nat, pos: nat) {
    && pos <= maxLen <= |content|
    && if pos == maxLen then forall i | 0 <= i < maxLen :: content[i] != '\n' && content[i] != ' '
       else if content[pos] == '\n' then forall i | pos < i < maxLen :: content[i] != '\n'
       else content[pos] == ' ' && (forall i | 0 <= i < maxLen :: content[i] != '\n')
            && forall i | pos < i < maxLen :: content[i] != ' '
  }

  method CutPosition(content: string, maxLen: nat) returns (pos: nat)
    requires maxLen < |content|
    ensures CutsAt(content, maxLen, pos)
  {
    var cut := content[..maxLen];
    var found := RightFind(cut, '\n');
    if found == -1 {
      found := RightFind(cut, ' ');
    }
    if found == -1 {
      return maxLen;
    }
    return found;
  }

  /** `rest` is `text` without the white space in front. */
  predicate IsStripped(text: string, blank: char -> bool, rest: string) {
    && |rest| <= |text| && rest == text[|text| - |rest|..] && (rest != "" ==> !blank(rest[0]))
    && forall i | 0 <= i < |text| - |rest| :: blank(text[i])
  }

  lemma {:induction false} OneMoreBlank(text: string, blank: char -> bool, rest: string)
    requires text != "" && blank(text[0]) && IsStripped(text[1..], blank, rest)
    ensures IsStripped(text, blank, rest)
  {
    var tail := text[1..];
    assert tail[|tail| - |rest|..] == text[|text| - |rest|..];
    forall i | 0 <= i < |text| - |rest| ensures blank(text[i]) {
      assert i > 0 ==> text[i] == tail[i - 1];
    }
  }

  lemma {:induction false} StripsOnlyBlanks(s: string, blank: char -> bool)
    ensures IsStripped(s, blank, LeftStrip(s, blank))
  {
    if s != "" && blank(s[0]) {
      StripsOnlyBlanks(s[1..], blank);
      OneMoreBlank(s, blank, LeftStrip(s[1..], blank));
    }
  }

  /** `chunk` is cut from `content`, and `rest` is what remains. */
  predicate IsCut(content: string, maxLen: nat, blank: char -> bool, chunk: string, rest: string) {
    if content == "" then false
    else if |content| <= maxLen then chunk == content && rest == ""
    else
      CutsAt(content, maxLen, |chunk|) && chunk == content[..|chunk|] && IsStripped(content[|chunk|..], blank, rest)
  }

  function Following(contents: seq<string>, rest: string, k: nat): string {
    if k + 1 < |contents| then contents[k + 1] else rest
  }

  /** Each chunk is cut from what the chunks before it left over; `rest` is left in the end. */
  predicate AreCuts(content: string, maxLen: nat, blank: char -> bool, chunks: seq<string>, contents: seq<string>, rest: string) {
    && |contents| == |chunks|
    && (if chunks == [] then rest == content else contents[0] == content)
    && forall k | 0 <= k < |chunks| ::
         IsCut(contents[k], maxLen, blank, chunks[k], Following(contents, rest, k))
  }

  lemma {:induction false} OneMoreCut(content: string, maxLen: nat, blank: char -> bool, chunks: seq<string>, contents: seq<string>,
                                      rest: string, chunk: string, rest': string)
    requires AreCuts(content, maxLen, blank, chunks, contents, rest) && IsCut(rest, maxLen, blank, chunk, rest')
    ensures AreCuts(content, maxLen, blank, chunks + [chunk], contents + [rest], rest')
  {
    var more, all := chunks + [chunk], contents + [rest];
    forall k | 0 <= k < |more| ensures IsCut(all[k], maxLen, blank, more[k], Following(all, rest', k)) {
      if k < |chunks| {
        assert Following(all, rest', k) == Following(contents, rest, k);
        assert IsCut(contents[k], maxLen, blank, chunks[k], Following(contents, rest, k));
      }
    }
  }

  lemma {:induction false} OneCut(done: string, content: string, pos: nat, rest: string, whole: string, blank: char -> bool)
    requires pos <= |content| && Ink(rest, blank) == Ink(content[pos..], blank)
    requires Ink(done, blank) + Ink(content, blank) == whole
    ensures Ink(done + content[..pos], blank) + Ink(rest, blank) == whole
  {
    InkAppend(done, content[..pos], blank);
    InkAppend(content[..pos], content[pos..], blank);
    assert content[..pos] + content[pos..] == content;
  }

  /** One chunk of a text that is too long. */
  method CutOff(content: string, maxLen: nat, blank: char -> bool) returns (chunk: string, rest: string)
    requires 0 < maxLen < |content| && blank('\n') && blank(' ')
    ensures IsCut(content, maxLen, blank, chunk, rest) && |chunk| <= maxLen && |rest| < |content|
    ensures chunk == content[..|chunk|] && Ink(rest, blank) == Ink(content[|chunk|..], blank)
  {
    var pos := CutPosition(content, maxLen);
    chunk := content[..pos];
    rest := LeftStrip(content[pos..], blank);
    StripKeepsInk(content[pos..], blank);
    StripsOnlyBlanks(content[pos..], blank);
  }

  /** It halts, no chunk is too long, and everything but white space is kept, in order. */
  method Split(content: string, maxLen: nat, blank: char -> bool) 
    returns (chunks: seq<string>, ghost contents: seq<string>)
    requires maxLen > 0 && blank('\n') && blank(' ')
    ensures forall k | 0 <= k < |chunks| :: |chunks[k]| <= maxLen
    ensures Ink(Flat(chunks), blank) == Ink(content, blank)
    ensures |content| <= maxLen ==> chunks == [content]
    ensures |content| > maxLen ==> AreCuts(content, maxLen, blank, chunks, contents, "")
  {
    if |content| <= maxLen {
      FlatAppend([], content);
      assert [] + [content] == [content] && Flat([]) + content == content;
      return [content], [content];
    }
    chunks, contents := [], [];
    var remaining := content;
    while remaining != ""
      invariant forall k | 0 <= k < |chunks| :: |chunks[k]| <= maxLen
      invariant AreCuts(content, maxLen, blank, chunks, contents, remaining)
      invariant Ink(Flat(chunks), blank) + Ink(remaining, blank) == Ink(content, blank)
      decreases |remaining|
    {
      if |remaining| <= maxLen {
        FlatAppend(chunks, remaining);
        InkAppend(Flat(chunks), remaining, blank);
        OneMoreCut(content, maxLen, blank, chunks, contents, remaining, remaining, "");
        chunks, contents := chunks + [remaining], contents + [remaining];
        return;
      }
      var chunk, rest := CutOff(remaining, maxLen, blank);
      FlatAppend(chunks, chunk);
      OneCut(Flat(chunks), remaining, |chunk|, rest, Ink(content, blank), blank);
      OneMoreCut(content, maxLen, blank, chunks, contents, remaining, chunk, rest);
      chunks, contents := chunks + [chunk], contents + [remaining];
      remaining := rest;
    }
  }
}
