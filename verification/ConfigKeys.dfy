/** Configuration keys between snake_case and camelCase (k2do/config/loader.py, 187-205),
    on ASCII names. */
module ConfigKeys {
  predicate IsLower(c: char) { 'a' <= c <= 'z' }

  predicate IsUpper(c: char) { 'A' <= c <= 'Z' }

  predicate IsDigit(c: char) { '0' <= c <= '9' }

  predicate IsLetter(c: char) { IsLower(c) || IsUpper(c) }

  function Up(c: char): char {
    if IsLower(c) then (c as int - 32) as char else c
  }

  function Down(c: char): char {
    if IsUpper(c) then (c as int + 32) as char else c
  }

  function Upper(s: string): string {
    if s == "" then "" else [Up(s[0])] + Upper(s[1..])
  }

  function Lower(s: string): string {
    if s == "" then "" else [Down(s[0])] + Lower(s[1..])
  }

  /** `str.title`: a letter behind a letter is lowered, any other one raised. */
  function Title(s: string, inWord: bool): string {
    if s == "" then ""
    else [if inWord then Down(s[0]) else Up(s[0])] + Title(s[1..], IsLetter(s[0]))
  }

  function Dashes(s: string): string {
    if s == "" then "" else [if s[0] == '-' then '_' else s[0]] + Dashes(s[1..])
  }

  /** `str.split("_")`. */
  function Split(s: string): (parts: seq<string>)
    ensures parts != []
  {
    if s == "" then [""]
    else
      var rest := Split(s[1..]);
      if s[0] == '_' then [""] + rest else [[s[0]] + rest[0]] + rest[1..]
  }

  function Titles(parts: seq<string>): string {
    if parts == [] then "" else Title(parts[0], false) + Titles(parts[1..])
  }

  function SnakeToCamel(name: string): string {
    var components := Split(name);
    components[0] + Titles(components[1..])
  }

  predicate AllSnake(s: string) {
    forall i | 0 <= i < |s| :: IsLower(s[i]) || IsDigit(s[i]) || s[i] == '_'
  }

  /** The run of lower-case letters at the front. */
  function LowerRun(s: string): (n: nat)
    ensures n <= |s|
  {
    if s == "" || !IsLower(s[0]) then 0 else 1 + LowerRun(s[1..])
  }

  /** Put an underscore between a character and a capital with lower-case letters behind it. */
  function SplitTitles(s: string): string
    decreases |s|
  {
    if s == "" then ""
    else if |s| >= 3 && s[0] != '\n' && IsUpper(s[1]) && IsLower(s[2]) then
      var n := 2 + LowerRun(s[2..]);
      [s[0], '_'] + s[1..n] + SplitTitles(s[n..])
    else [s[0]] + SplitTitles(s[1..])
  }

  /** Put an underscore between a lower-case letter or digit and a capital. */
  function SplitHumps(s: string): string
    decreases |s|
  {
    if s == "" then ""
    else if |s| >= 2 && (IsLower(s[0]) || IsDigit(s[0])) && IsUpper(s[1]) then
      [s[0], '_', s[1]] + SplitHumps(s[2..])
    else [s[0]] + SplitHumps(s[1..])
  }

  function CamelToSnake(name: string): string {
    var name := Dashes(name);
    if name == "" then name
    else if Upper(name) == name then Lower(name)
    else if AllSnake(name) then name
    else Lower(SplitHumps(SplitTitles(name)))
  }

  // ---------- names made of words ----------

  predicate IsWord(w: string) {
    w != "" && forall i | 0 <= i < |w| :: IsLower(w[i])
  }

  predicate AreWords(ws: seq<string>) {
    forall i | 0 <= i < |ws| :: IsWord(ws[i])
  }

  /** Each word behind an underscore. */
  function Tail(ws: seq<string>): string {
    if ws == [] then "" else "_" + ws[0] + Tail(ws[1..])
  }

  /** The words joined by single underscores. */
  function Join(ws: seq<string>): string
    requires ws != []
  {
    ws[0] + Tail(ws[1..])
  }

  predicate NoShortPair(ws: seq<string>) {
    forall i | 0 <= i < |ws| - 1 :: |ws[i]| >= 2 || |ws[i + 1]| >= 2
  }

  // ---------- to camel case ----------

  function Capital(w: string): string
    requires w != ""
  {
    [Up(w[0])] + w[1..]
  }

  function Capitals(ws: seq<string>): string
    requires AreWords(ws)
  {
    if ws == [] then "" else Capital(ws[0]) + Capitals(ws[1..])
  }

  lemma {:induction false} SplitWord(w: string, rest: string)
    requires forall i | 0 <= i < |w| :: w[i] != '_'
    ensures Split(w + "_" + rest) == [w] + Split(rest)
    ensures Split(w) == [w]
  {
    if w == "" {
      assert w + "_" + rest == "_" + rest;
      assert ("_" + rest)[1..] == rest;
    } else {
      SplitWord(w[1..], rest);
      assert (w + "_" + rest)[1..] == w[1..] + "_" + rest;
      assert [w[0]] + w[1..] == w;
    }
  }

  lemma {:induction false} JoinStep(ws: seq<string>)
    requires |ws| > 1
    ensures Join(ws) == ws[0] + "_" + Join(ws[1..])
  {
    assert ws[1..][0] == ws[1] && ws[1..][1..] == ws[2..];
    assert Tail(ws[1..]) == "_" + ws[1] + Tail(ws[2..]);
  }

  lemma {:induction false} SplitJoin(ws: seq<string>)
    requires ws != [] && AreWords(ws)
    ensures Split(Join(ws)) == ws
  {
    if |ws| > 1 {
      JoinStep(ws);
      SplitWord(ws[0], Join(ws[1..]));
      SplitJoin(ws[1..]);
    } else {
      SplitWord(ws[0], "");
      assert Join(ws) == ws[0];
    }
  }

  lemma {:induction false} TitleInWord(w: string)
    requires forall i | 0 <= i < |w| :: IsLower(w[i])
    ensures Title(w, true) == w
  {
    if w != "" {
      TitleInWord(w[1..]);
    }
  }

  lemma {:induction false} TitlesAreCapitals(ws: seq<string>)
    requires AreWords(ws)
    ensures Titles(ws) == Capitals(ws)
  {
    if ws != [] {
      TitleInWord(ws[0][1..]);
      TitlesAreCapitals(ws[1..]);
    }
  }

  lemma {:induction false} CamelOfJoin(ws: seq<string>)
    requires ws != [] && AreWords(ws)
    ensures SnakeToCamel(Join(ws)) == ws[0] + Capitals(ws[1..])
  {
    SplitJoin(ws);
    TitlesAreCapitals(ws[1..]);
  }

  // ---------- and back ----------

  /** The capitalized words after the first pass; `free` says that the character in front of
      them has not been used up by a match. */
  function Titled(ws: seq<string>, free: bool): string
    requires AreWords(ws)
  {
    if ws == [] then ""
    else
      var marked := free && |ws[0]| >= 2;
      var core := Capital(ws[0]) + Titled(ws[1..], !marked);
      if marked then "_" + core else core
  }

  /** The words after both passes, lowered; `low` says that a lower-case letter is in front. */
  function Humped(ws: seq<string>, low: bool, free: bool): string
    requires AreWords(ws)
  {
    if ws == [] then ""
    else
      var marked := free && |ws[0]| >= 2;
      var core := Capital(ws[0]) + Humped(ws[1..], |ws[0]| >= 2, !marked);
      if marked || low then "_" + core else core
  }

  function Lowered(ws: seq<string>, low: bool, free: bool): string
    requires AreWords(ws)
  {
    if ws == [] then ""
    else
      var marked := free && |ws[0]| >= 2;
      var core := ws[0] + Lowered(ws[1..], |ws[0]| >= 2, !marked);
      if marked || low then "_" + core else core
  }

  lemma {:induction false} CapitalShape(w: string)
    requires IsWord(w)
    ensures IsUpper(Capital(w)[0]) && Capital(w)[1..] == w[1..] && |Capital(w)| == |w|
    ensures Lower(Capital(w)) == w
  {
    LowerIsLow(w[1..]);
  }

  lemma {:induction false} LowerIsLow(w: string)
    requires forall i | 0 <= i < |w| :: IsLower(w[i])
    ensures Lower(w) == w
  {
    if w != "" {
      LowerIsLow(w[1..]);
    }
  }

  lemma {:induction false} LowerAppend(a: string, b: string)
    ensures Lower(a + b) == Lower(a) + Lower(b)
  {
    if a == "" {
      assert a + b == b;
    } else {
      LowerAppend(a[1..], b);
      assert (a + b)[1..] == a[1..] + b;
    }
  }

  lemma {:induction false} RunOfWord(w: string, rest: string)
    requires forall i | 0 <= i < |w| :: IsLower(w[i])
    requires rest != "" ==> !IsLower(rest[0])
    ensures LowerRun(w + rest) == |w|
  {
    if w == "" {
      assert w + rest == rest;
    } else {
      RunOfWord(w[1..], rest);
      assert (w + rest)[1..] == w[1..] + rest;
    }
  }

  lemma {:induction false} CapitalsStart(ws: seq<string>)
    requires AreWords(ws)
    ensures ws != [] ==> Capitals(ws) != "" && IsUpper(Capitals(ws)[0])
    ensures ws == [] ==> Capitals(ws) == ""
  {
  }

  lemma {:induction false} Slices(c: char, t: string, rest: string)
    requires t != ""
    ensures var s := [c] + (t + rest);
            && s[1..1 + |t|] == t && s[1 + |t|..] == rest && s[2..] == t[1..] + rest
            && s[1] == t[0] && (|t| >= 2 ==> s[2] == t[1])
  {
    var s := [c] + (t + rest);
    assert s[1..1 + |t|] == t;
    assert s[1 + |t|..] == rest;
    assert s[2..] == t[1..] + rest;
  }

  lemma {:induction false} Reassociate(c: char, t: string, done: string)
    ensures [c, '_'] + t + done == [c] + ("_" + (t + done))
  {
  }

  /** A capitalized word is split off from the character in front of it. */
  lemma {:induction false} TitleIsSplit(c: char, w: string, rest: string, done: string)
    requires IsWord(w) && |w| >= 2 && c != '\n' && (rest != "" ==> !IsLower(rest[0]))
    requires SplitTitles(rest) == done
    ensures SplitTitles([c] + (Capital(w) + rest)) == [c] + ("_" + (Capital(w) + done))
  {
    CapitalShape(w);
    Slices(c, Capital(w), rest);
    RunOfWord(w[1..], rest);
    assert Capital(w)[1] == w[1];
    Reassociate(c, Capital(w), done);
  }

  lemma {:induction false} NoTitleHere(c: char, y: string)
    requires |y| >= 2 && IsUpper(y[0]) ==> !IsLower(y[1])
    ensures SplitTitles([c] + y) == [c] + SplitTitles(y)
  {
    assert ([c] + y)[1..] == y;
  }

  /** First pass from any one character on. */
  lemma {:induction false} TitlesAfterChar(c: char, ws: seq<string>)
    requires AreWords(ws) && c != '\n'
    ensures SplitTitles([c] + Capitals(ws)) == [c] + Titled(ws, true)
    decreases |ws|, 1
  {
    if ws == [] {
      NoTitleHere(c, "");
    } else {
      CapitalShape(ws[0]);
      CapitalsStart(ws[1..]);
      if |ws[0]| >= 2 {
        TitlesAfresh(ws[1..]);
        TitleIsSplit(c, ws[0], Capitals(ws[1..]), Titled(ws[1..], false));
      } else {
        assert |Capitals(ws)| >= 2 ==> Capitals(ws)[1] == Capitals(ws[1..])[0];
        NoTitleHere(c, Capitals(ws));
        TitlesAfresh(ws);
      }
    }
  }

  /** First pass from the front of a word on, the character in front being used up. */
  lemma {:induction false} TitlesAfresh(ws: seq<string>)
    requires AreWords(ws)
    ensures SplitTitles(Capitals(ws)) == Titled(ws, false)
    decreases |ws|, 0
  {
    if ws != [] {
      CapitalShape(ws[0]);
      TitlesAfterLower(Capital(ws[0])[0], ws[0][1..], ws[1..]);
      Peel(Capital(ws[0]), Capitals(ws[1..]));
      Peel(Capital(ws[0]), Titled(ws[1..], true));
    }
  }

  /** First pass from some character and lower-case letters on. */
  lemma {:induction false} TitlesAfterLower(c: char, u: string, ws: seq<string>)
    requires AreWords(ws) && c != '\n' && forall i | 0 <= i < |u| :: IsLower(u[i])
    ensures SplitTitles([c] + (u + Capitals(ws))) == [c] + (u + Titled(ws, true))
    decreases |ws|, 2, |u|
  {
    if u == "" {
      TitlesAfterChar(c, ws);
      assert u + Capitals(ws) == Capitals(ws) && u + Titled(ws, true) == Titled(ws, true);
    } else {
      TitlesAfterLower(u[0], u[1..], ws);
      Peel(u, Capitals(ws));
      Peel(u, Titled(ws, true));
      NoTitleHere(c, u + Capitals(ws));
    }
  }

  lemma {:induction false} Peel(u: string, rest: string)
    requires u != ""
    ensures [u[0]] + (u[1..] + rest) == u + rest
  {
  }

  lemma {:induction false} HumpStep(c: char, y: string)
    ensures SplitHumps([c] + y) ==
            if (IsLower(c) || IsDigit(c)) && y != "" && IsUpper(y[0]) then [c, '_', y[0]] + SplitHumps(y[1..])
            else [c] + SplitHumps(y)
  {
    assert ([c] + y)[1..] == y;
    if y != "" {
      assert ([c] + y)[2..] == y[1..];
    }
  }

  /** Second pass from the capital of a word on, given what it does behind the capital. */
  lemma {:induction false} HumpsFromCapital(w: string, rest: string, done: string)
    requires IsWord(w) && SplitHumps(w[1..] + rest) == w[1..] + done
    ensures SplitHumps(Capital(w) + rest) == Capital(w) + done
    ensures (Capital(w) + rest)[0] == Capital(w)[0] && (Capital(w) + rest)[1..] == w[1..] + rest
  {
    CapitalShape(w);
    var c := Capital(w)[0];
    assert Capital(w) + rest == [c] + (w[1..] + rest);
    HumpStep(c, w[1..] + rest);
    assert Capital(w) + done == [c] + (w[1..] + done);
  }

  lemma {:induction false} Regroup(a: char, c: char, rest: string)
    ensures [a, '_', c] + rest == [a] + ("_" + ([c] + rest))
  {
  }

  lemma {:induction false} HumpIntoCapital(c: char, w: string, rest: string, done: string)
    requires IsLower(c) && IsWord(w) && SplitHumps(w[1..] + rest) == w[1..] + done
    ensures SplitHumps([c] + (Capital(w) + rest)) == [c] + ("_" + (Capital(w) + done))
  {
    CapitalShape(w);
    HumpsFromCapital(w, rest, done);
    HumpStep(c, Capital(w) + rest);
    var capital := Capital(w)[0];
    assert Capital(w) + done == [capital] + (w[1..] + done);
    Regroup(c, capital, w[1..] + done);
  }

  lemma {:induction false} HumpIntoMark(c: char, core: string, done: string)
    requires SplitHumps(core) == done
    ensures SplitHumps("_" + core) == "_" + done && SplitHumps([c] + ("_" + core)) == [c] + ("_" + done)
  {
    HumpStep('_', core);
    HumpStep(c, "_" + core);
  }

  /** Second pass from lower-case letters on. */
  lemma {:induction false} Humps(v: string, ws: seq<string>, free: bool)
    requires AreWords(ws) && forall i | 0 <= i < |v| :: IsLower(v[i])
    ensures SplitHumps(v + Titled(ws, free)) == v + Humped(ws, v != "", free)
    decreases |ws|, |v|
  {
    if |v| >= 2 {
      Humps(v[1..], ws, free);
      Peel(v, Titled(ws, free));
      HumpStep(v[0], v[1..] + Titled(ws, free));
      Peel(v, Humped(ws, true, free));
    } else if ws == [] {
      assert v + Titled(ws, free) == v;
      assert v + Humped(ws, v != "", free) == v;
    } else {
      var w, marked := ws[0], free && |ws[0]| >= 2;
      var rest, done := Titled(ws[1..], !marked), Humped(ws[1..], |w| >= 2, !marked);
      assert IsWord(w);
      Humps(w[1..], ws[1..], !marked);
      HumpsFromCapital(w, rest, done);
      if v == "" {
        assert v + Titled(ws, free) == Titled(ws, free);
        HumpIntoMark('_', Capital(w) + rest, Capital(w) + done);
        assert v + Humped(ws, false, free) == Humped(ws, false, free);
      } else {
        assert v == [v[0]];
        if marked {
          HumpIntoMark(v[0], Capital(w) + rest, Capital(w) + done);
        } else {
          HumpIntoCapital(v[0], w, rest, done);
        }
      }
    }
  }

  lemma {:induction false} HumpedLowers(ws: seq<string>, low: bool, free: bool)
    requires AreWords(ws)
    ensures Lower(Humped(ws, low, free)) == Lowered(ws, low, free)
  {
    if ws != [] {
      var marked := free && |ws[0]| >= 2;
      var rest := Humped(ws[1..], |ws[0]| >= 2, !marked);
      CapitalShape(ws[0]);
      HumpedLowers(ws[1..], |ws[0]| >= 2, !marked);
      LowerAppend(Capital(ws[0]), rest);
      LowerAppend("_", Capital(ws[0]) + rest);
      assert Lower("_") == "_";
    }
  }

  // ---------- when the round trip is exact ----------

  lemma {:induction false} LoweredIsShorter(ws: seq<string>, low: bool, free: bool)
    requires AreWords(ws)
    ensures |Lowered(ws, low, free)| <= |Tail(ws)|
  {
    if ws != [] {
      LoweredIsShorter(ws[1..], |ws[0]| >= 2, !(free && |ws[0]| >= 2));
    }
  }

  lemma {:induction false} NoShortPairStep(ws: seq<string>)
    requires |ws| > 1
    ensures NoShortPair(ws) <==> (|ws[0]| >= 2 || |ws[1]| >= 2) && NoShortPair(ws[1..])
  {
    if NoShortPair(ws) {
      forall i | 0 <= i < |ws[1..]| - 1 ensures |ws[1..][i]| >= 2 || |ws[1..][i + 1]| >= 2 {
        assert |ws[i + 1]| >= 2 || |ws[i + 1 + 1]| >= 2;
      }
    }
    if (|ws[0]| >= 2 || |ws[1]| >= 2) && NoShortPair(ws[1..]) {
      forall i | 0 <= i < |ws| - 1 ensures |ws[i]| >= 2 || |ws[i + 1]| >= 2 {
        if i > 0 {
          assert |ws[1..][i - 1]| >= 2 || |ws[1..][i - 1 + 1]| >= 2;
        }
      }
    }
  }

  lemma {:induction false} SameUnderscore(w: string, a: string, b: string)
    ensures "_" + (w + a) == "_" + w + b <==> a == b
    ensures |a| <= |b| ==> w + a != "_" + w + b
  {
    assert "_" + (w + a) == "_" + w + a;
    SameHead("_" + w, a, b);
    if |a| <= |b| {
      assert |w + a| < |"_" + w + b|;
    }
  }

  /** Every underscore comes back exactly when no two one-letter words are neighbours. */
  lemma {:induction false} LoweredIsTail(ws: seq<string>, low: bool, free: bool)
    requires AreWords(ws) && (low || free)
    ensures Lowered(ws, low, free) == Tail(ws) <==> NoShortPair(ws) && (low || ws == [] || |ws[0]| >= 2)
  {
    if ws != [] {
      var marked := free && |ws[0]| >= 2;
      LoweredIsTail(ws[1..], |ws[0]| >= 2, !marked);
      LoweredIsShorter(ws[1..], |ws[0]| >= 2, !marked);
      SameUnderscore(ws[0], Lowered(ws[1..], |ws[0]| >= 2, !marked), Tail(ws[1..]));
      if |ws| > 1 {
        NoShortPairStep(ws);
      }
    }
  }

  lemma {:induction false} SameHead(head: string, a: string, b: string)
    ensures head + a == head + b <==> a == b
  {
    if head + a == head + b {
      assert a == (head + a)[|head|..] == (head + b)[|head|..] == b;
    }
  }

  lemma {:induction false} CapitalsAreLetters(ws: seq<string>)
    requires AreWords(ws)
    ensures forall i | 0 <= i < |Capitals(ws)| :: IsLetter(Capitals(ws)[i])
  {
    if ws != [] {
      CapitalsAreLetters(ws[1..]);
    }
  }

  lemma {:induction false} NoDashes(s: string)
    requires forall i | 0 <= i < |s| :: s[i] != '-'
    ensures Dashes(s) == s
  {
    if s != "" {
      NoDashes(s[1..]);
    }
  }

  /** What becomes of a name made of words on its way there and back. */
  lemma {:induction false} ThereAndBack(ws: seq<string>)
    requires ws != [] && AreWords(ws)
    ensures CamelToSnake(SnakeToCamel(Join(ws))) == ws[0] + Lowered(ws[1..], true, true)
  {
    var first, rest := ws[0], ws[1..];
    var camel := first + Capitals(rest);
    assert IsWord(first);
    CamelOfJoin(ws);
    CapitalsAreLetters(rest);
    NoDashes(camel);
    assert Upper(camel)[0] == Up(first[0]) != camel[0];
    CapitalsStart(rest);
    if rest == [] {
      assert camel == first;
    } else {
      assert !AllSnake(camel) by {
        assert IsUpper(camel[|first|]);
      }
      TitlesAfterLower(first[0], first[1..], rest);
      Peel(first, Capitals(rest));
      Peel(first, Titled(rest, true));
      Humps(first, rest, true);
      HumpedLowers(rest, true, true);
      LowerAppend(first, Humped(rest, true, true));
      LowerIsLow(first);
    }
  }

  /** A name of lower-case words survives the trip to camel case and back exactly when no two
      one-letter words are neighbours after the first word. */
  lemma {:induction false} RoundTripExactly(ws: seq<string>)
    requires ws != [] && AreWords(ws)
    ensures CamelToSnake(SnakeToCamel(Join(ws))) == Join(ws) <==> NoShortPair(ws[1..])
  {
    ThereAndBack(ws);
    LoweredIsTail(ws[1..], true, true);
    SameHead(ws[0], Lowered(ws[1..], true, true), Tail(ws[1..]));
  }
}
