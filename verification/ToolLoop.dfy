/** The agent's tool loop, run against an arbitrary model
    (k2do/agent/loop.py, 1085-1477; k2do/agent/context.py, 187-200). */
module ToolLoop {
  import opened Prelude
  import opened ToolRegistry

  /** A requested call; `cancelled` says that executing it raises instead of returning. */
  datatype Call = Call(id: string, name: string, cancelled: bool)

  /** What the model answers: native calls, else a text that may hold one inline call and
      may look like a plan. `Unavailable` means that every model and every retry failed. */
  datatype Response = Reply(calls: seq<Call>, inlineCall: Option<Call>, plan: bool) | Unavailable

  datatype Message =
    | Assistant(callIds: seq<string>)
    | ToolAnswer(id: string, name: string, executed: bool)
    | User

  datatype Settings = Settings(
    maxIterations: int, requireConcrete: bool, allowReasoning: bool, maxReasoning: int)

  datatype Outcome = Final | Exhausted | Raised

  predicate IsReasoning(name: string) {
    name == "deepthink" || name == "refine"
  }

  function Limit(settings: Settings): int {
    if settings.maxReasoning < 1 then 1 else settings.maxReasoning
  }

  // ---------- which requested calls run ----------

  function ReasoningCalls(executed: seq<string>): nat {
    if executed == [] then 0
    else ReasoningCalls(executed[..|executed| - 1]) + if IsReasoning(executed[|executed| - 1]) then 1 else 0
  }

  predicate LastIsReasoning(executed: seq<string>) {
    executed != [] && IsReasoning(executed[|executed| - 1])
  }

  /** May a call of `name` run after the calls in `executed`? */
  predicate Permitted(settings: Settings, executed: seq<string>, name: string) {
    && !IsMcpToolAttempt(name)
    && (IsReasoning(name) ==>
          settings.allowReasoning && ReasoningCalls(executed) < Limit(settings) && !LastIsReasoning(executed))
  }

  /** The calls that run when `names` are requested in this order. */
  function Executed(settings: Settings, names: seq<string>): seq<string> {
    if names == [] then []
    else
      var before := Executed(settings, names[..|names| - 1]);
      var name := names[|names| - 1];
      if Permitted(settings, before, name) then before + [name] else before
  }

  // ---------- what has been requested ----------

  /** The requests so far, once `k` of `calls` have been reached after the requests `before`. */
  function Asked(before: seq<string>, calls: seq<Call>, k: nat): seq<string>
    requires k <= |calls|
  {
    if k == 0 then before else Asked(before, calls, k - 1) + [calls[k - 1].name]
  }

  /** The requests so far, once `response` has been worked through. */
  function AskedBy(before: seq<string>, response: Response): seq<string> {
    if response.Unavailable? then before
    else if response.calls != [] then Asked(before, response.calls, |response.calls|)
    else if response.inlineCall.Some? then before + [response.inlineCall.value.name]
    else before
  }

  function Requested(responses: seq<Response>, n: nat): seq<string>
    requires n <= |responses|
  {
    if n == 0 then [] else AskedBy(Requested(responses, n - 1), responses[n - 1])
  }

  // ---------- the history the loop writes ----------

  function Decimal(n: nat): string {
    (if n < 10 then "" else Decimal(n / 10)) + [("0123456789")[n % 10]]
  }

  /** The id made up for an inline call. */
  function InlineId(iteration: nat, name: string): string {
    "inline_" + Decimal(iteration) + "_" + name
  }

  function AnswerTo(settings: Settings, before: seq<string>, id: string, name: string): Message {
    ToolAnswer(id, SafeToolName(name), Permitted(settings, Executed(settings, before), name))
  }

  function Answers(settings: Settings, before: seq<string>, calls: seq<Call>, k: nat): (answers: seq<Message>)
    requires k <= |calls|
    ensures |answers| == k
  {
    if k == 0 then []
    else Answers(settings, before, calls, k - 1)
         + [AnswerTo(settings, Asked(before, calls, k - 1), calls[k - 1].id, calls[k - 1].name)]
  }

  function CallIds(calls: seq<Call>): (ids: seq<string>)
    ensures |ids| == |calls|
  {
    if calls == [] then [] else CallIds(calls[..|calls| - 1]) + [calls[|calls| - 1].id]
  }

  /** What one reply adds to the history. */
  function Turn(settings: Settings, before: seq<string>, iteration: nat, response: Response): seq<Message>
    requires response.Reply?
  {
    if response.calls != [] then
      [Assistant(CallIds(response.calls))] + Answers(settings, before, response.calls, |response.calls|) + [User]
    else if response.inlineCall.Some? then
      var name := response.inlineCall.value.name;
      [Assistant([]), AnswerTo(settings, before, InlineId(iteration, SafeToolName(name)), name), User]
    else
      [Assistant([]), User]
  }

  predicate AllReplies(responses: seq<Response>, n: nat)
    requires n <= |responses|
  {
    n > 0 ==> AllReplies(responses, n - 1) && responses[n - 1].Reply?
  }

  function Turns(settings: Settings, responses: seq<Response>, n: nat): (turns: seq<seq<Message>>)
    requires n <= |responses| && AllReplies(responses, n)
    ensures |turns| == n
  {
    if n == 0 then []
    else Turns(settings, responses, n - 1) + [Turn(settings, Requested(responses, n - 1), n, responses[n - 1])]
  }

  function Flat(turns: seq<seq<Message>>): seq<Message> {
    if turns == [] then [] else Flat(turns[..|turns| - 1]) + turns[|turns| - 1]
  }

  /** What the loop adds to the messages in its first `n` iterations. */
  function History(settings: Settings, responses: seq<Response>, n: nat): seq<Message>
    requires n <= |responses| && AllReplies(responses, n)
  {
    Flat(Turns(settings, responses, n))
  }

  // ---------- where the loop ends ----------

  predicate IsText(response: Response) {
    response.Reply? && response.calls == [] && response.inlineCall.None?
  }

  predicate OnlyReasoning(executed: seq<string>) {
    forall i | 0 <= i < |executed| :: IsReasoning(executed[i])
  }

  /** Whether a text is sent back, once, with a demand for concrete tools. */
  predicate AsksForTools(settings: Settings, prompted: bool, executed: seq<string>, plan: bool) {
    && !prompted && OnlyReasoning(executed)
    && (settings.requireConcrete || ("deepthink" in executed && plan))
  }

  predicate HasText(responses: seq<Response>, n: nat)
    requires n <= |responses|
  {
    n > 0 && (HasText(responses, n - 1) || IsText(responses[n - 1]))
  }

  /** The reply number `n` is the final answer: a text that is not sent back. */
  predicate Ends(settings: Settings, responses: seq<Response>, n: nat)
    requires n < |responses|
  {
    && IsText(responses[n])
    && !AsksForTools(settings, HasText(responses, n), Executed(settings, Requested(responses, n)), responses[n].plan)
  }

  predicate InterruptedAt(settings: Settings, before: seq<string>, calls: seq<Call>, k: nat)
    requires k < |calls|
  {
    calls[k].cancelled && Permitted(settings, Executed(settings, Asked(before, calls, k)), calls[k].name)
  }

  /** One of the first `k` calls is interrupted. */
  predicate Interrupted(settings: Settings, before: seq<string>, calls: seq<Call>, k: nat)
    requires k <= |calls|
  {
    k > 0 && (Interrupted(settings, before, calls, k - 1) || InterruptedAt(settings, before, calls, k - 1))
  }

  /** Working through `response` raises: there is none, or a call that runs is cancelled. */
  predicate Breaks(settings: Settings, before: seq<string>, response: Response) {
    if response.Unavailable? then true
    else if response.calls != [] then Interrupted(settings, before, response.calls, |response.calls|)
    else if response.inlineCall.Some? then
      var call := response.inlineCall.value;
      call.cancelled && Permitted(settings, Executed(settings, before), call.name)
    else false
  }

  /** The loop goes on after each of the first `n` answers. */
  predicate GoesOn(settings: Settings, responses: seq<Response>, n: nat)
    requires n <= |responses|
  {
    n > 0 ==>
      && GoesOn(settings, responses, n - 1) && !Ends(settings, responses, n - 1)
      && !Breaks(settings, Requested(responses, n - 1), responses[n - 1])
  }

  // ---------- properties of the rule ----------

  lemma {:induction false} ExecutedAppend(settings: Settings, names: seq<string>, name: string)
    ensures Executed(settings, names + [name]) ==
            Executed(settings, names) + if Permitted(settings, Executed(settings, names), name) then [name] else []
  {
    assert (names + [name])[..|names|] == names;
  }

  lemma {:induction false} ReasoningAppend(executed: seq<string>, name: string)
    ensures ReasoningCalls(executed + [name]) == ReasoningCalls(executed) + if IsReasoning(name) then 1 else 0
  {
    assert (executed + [name])[..|executed|] == executed;
  }

  predicate NoReasoningPair(executed: seq<string>) {
    forall i | 0 <= i < |executed| - 1 :: !IsReasoning(executed[i]) || !IsReasoning(executed[i + 1])
  }

  lemma {:induction false} NothingForbiddenRuns(settings: Settings, names: seq<string>)
    ensures forall name | name in Executed(settings, names) :: !IsMcpToolAttempt(name)
  {
    if names != [] {
      NothingForbiddenRuns(settings, names[..|names| - 1]);
    }
  }

  lemma {:induction false} ReasoningIsSpaced(settings: Settings, names: seq<string>)
    ensures NoReasoningPair(Executed(settings, names))
  {
    if names != [] {
      ReasoningIsSpaced(settings, names[..|names| - 1]);
    }
  }

  lemma {:induction false} ReasoningIsBounded(settings: Settings, names: seq<string>)
    ensures ReasoningCalls(Executed(settings, names)) <= if settings.allowReasoning then Limit(settings) else 0
  {
    if names != [] {
      var front := Executed(settings, names[..|names| - 1]);
      ReasoningIsBounded(settings, names[..|names| - 1]);
      ReasoningAppend(front, names[|names| - 1]);
    }
  }

  /** Whatever is requested: no MCP-shaped name runs, no two reasoning tools run next to
      each other, and reasoning runs at most `max(1, limit)` times, or never when disabled. */
  lemma {:induction false} ExecutedIsDisciplined(settings: Settings, names: seq<string>)
    ensures forall name | name in Executed(settings, names) :: !IsMcpToolAttempt(name)
    ensures NoReasoningPair(Executed(settings, names))
    ensures ReasoningCalls(Executed(settings, names)) <= if settings.allowReasoning then Limit(settings) else 0
  {
    NothingForbiddenRuns(settings, names);
    ReasoningIsSpaced(settings, names);
    ReasoningIsBounded(settings, names);
  }

  /** Every other tool runs whenever it is requested. */
  lemma {:induction false} ConcreteToolsAlwaysRun(settings: Settings, names: seq<string>, name: string)
    requires !IsMcpToolAttempt(name) && !IsReasoning(name)
    ensures Executed(settings, names + [name]) == Executed(settings, names) + [name]
  {
    ExecutedAppend(settings, names, name);
  }

  // ---------- properties of the history ----------

  predicate AnswersCall(message: Message, id: string) {
    message.ToolAnswer? && message.id == id
  }

  /** An assistant message with native calls is followed by one answer per call, in order and
      under its own id, and then by a user message; one without is followed by at most one
      answer and then a user message. */
  predicate AnsweredFrom(h: seq<Message>, i: nat)
    requires i < |h| && h[i].Assistant?
  {
    var ids := h[i].callIds;
    if ids != [] then
      && i + |ids| + 1 < |h| && h[i + |ids| + 1].User?
      && forall j | 0 <= j < |ids| :: AnswersCall(h[i + 1 + j], ids[j])
    else
      i + 1 < |h| && (h[i + 1].ToolAnswer? ==> i + 2 < |h| && h[i + 2].User?) && !h[i + 1].Assistant?
  }

  /** A tool answer stands behind an assistant message or another answer, never behind a user
      message: there is none outside the block of an assistant message. */
  predicate InBlock(h: seq<Message>, i: nat)
    requires i < |h|
  {
    h[i].ToolAnswer? ==> i > 0 && !h[i - 1].User?
  }

  /** Every assistant message gets its answers, and there are no others. */
  predicate WellAnswered(h: seq<Message>) {
    && (forall i | 0 <= i < |h| && h[i].Assistant? :: AnsweredFrom(h, i))
    && (forall i | 0 <= i < |h| :: InBlock(h, i))
  }

  lemma {:induction false} AnsweredInside(a: seq<Message>, b: seq<Message>, i: nat)
    requires i < |a| && a[i].Assistant? && AnsweredFrom(a, i)
    ensures AnsweredFrom(a + b, i)
  {
    var h, ids := a + b, a[i].callIds;
    if ids != [] {
      forall j | 0 <= j < |ids| ensures AnswersCall(h[i + 1 + j], ids[j]) {
        assert h[i + 1 + j] == a[i + 1 + j];
      }
    }
  }

  lemma {:induction false} AnsweredShifted(a: seq<Message>, b: seq<Message>, i: nat)
    requires i < |b| && b[i].Assistant? && AnsweredFrom(b, i)
    ensures AnsweredFrom(a + b, |a| + i)
  {
    var h, ids := a + b, b[i].callIds;
    if ids != [] {
      assert h[|a| + i + |ids| + 1] == b[i + |ids| + 1];
      forall j | 0 <= j < |ids| ensures AnswersCall(h[|a| + i + 1 + j], ids[j]) {
        assert h[|a| + i + 1 + j] == b[i + 1 + j];
      }
    } else {
      assert h[|a| + i + 1] == b[i + 1];
    }
  }

  lemma {:induction false} WellAnsweredAppend(a: seq<Message>, b: seq<Message>)
    requires WellAnswered(a) && WellAnswered(b)
    ensures WellAnswered(a + b)
  {
    forall i | 0 <= i < |a + b| && (a + b)[i].Assistant? ensures AnsweredFrom(a + b, i) {
      if i < |a| {
        AnsweredInside(a, b, i);
      } else {
        AnsweredShifted(a, b, i - |a|);
      }
    }
    forall i | 0 <= i < |a + b| ensures InBlock(a + b, i) {
      assert if i < |a| then InBlock(a, i) else InBlock(b, i - |a|);
    }
  }

  lemma {:induction false} AnswersAt(settings: Settings, before: seq<string>, calls: seq<Call>, k: nat, j: nat)
    requires j < k <= |calls|
    ensures Answers(settings, before, calls, k)[j] ==
            AnswerTo(settings, Asked(before, calls, j), calls[j].id, calls[j].name)
  {
    if j < k - 1 {
      AnswersAt(settings, before, calls, k - 1, j);
    }
  }

  lemma {:induction false} CallIdAt(calls: seq<Call>, i: nat)
    requires i < |calls|
    ensures CallIds(calls)[i] == calls[i].id
  {
    if i < |calls| - 1 {
      CallIdAt(calls[..|calls| - 1], i);
    }
  }

  lemma {:induction false} NativeTurnAnswered(settings: Settings, before: seq<string>, calls: seq<Call>)
    requires calls != []
    ensures WellAnswered([Assistant(CallIds(calls))] + Answers(settings, before, calls, |calls|) + [User])
  {
    var answers := Answers(settings, before, calls, |calls|);
    var h := [Assistant(CallIds(calls))] + answers + [User];
    forall j | 0 <= j < |calls| ensures AnswersCall(h[1 + j], CallIds(calls)[j]) {
      AnswersAt(settings, before, calls, |calls|, j);
      CallIdAt(calls, j);
      assert h[1 + j] == answers[j];
    }
    forall i | 0 <= i < |h| ensures InBlock(h, i) {
      if 1 < i <= |calls| {
        assert AnswersCall(h[1 + (i - 2)], CallIds(calls)[i - 2]);
      }
    }
    assert h[0].callIds == CallIds(calls);
    forall i | 0 <= i < |h| && h[i].Assistant? ensures AnsweredFrom(h, i) {
      if 0 < i <= |calls| {
        assert h[i].ToolAnswer? by { assert AnswersCall(h[1 + (i - 1)], CallIds(calls)[i - 1]); }
      }
    }
  }

  lemma {:induction false} TurnAnswered(settings: Settings, before: seq<string>, iteration: nat, response: Response)
    requires response.Reply?
    ensures WellAnswered(Turn(settings, before, iteration, response))
  {
    if response.calls != [] {
      NativeTurnAnswered(settings, before, response.calls);
    } else if response.inlineCall.Some? {
      var turn := Turn(settings, before, iteration, response);
      assert turn[0].Assistant? && turn[1].ToolAnswer? && turn[2].User?;
    }
  }

  lemma {:induction false} FlatGrows(turns: seq<seq<Message>>, turn: seq<Message>)
    ensures Flat(turns + [turn]) == Flat(turns) + turn
  {
    assert (turns + [turn])[..|turns|] == turns;
  }

  lemma {:induction false} FlatIsWellAnswered(turns: seq<seq<Message>>)
    requires forall turn | turn in turns :: WellAnswered(turn)
    ensures WellAnswered(Flat(turns))
  {
    if turns != [] {
      FlatIsWellAnswered(turns[..|turns| - 1]);
      WellAnsweredAppend(Flat(turns[..|turns| - 1]), turns[|turns| - 1]);
    }
  }

  lemma {:induction false} TurnsAreAnswered(settings: Settings, responses: seq<Response>, n: nat)
    requires n <= |responses| && AllReplies(responses, n)
    ensures forall turn | turn in Turns(settings, responses, n) :: WellAnswered(turn)
  {
    if n > 0 {
      TurnsAreAnswered(settings, responses, n - 1);
      TurnAnswered(settings, Requested(responses, n - 1), n, responses[n - 1]);
    }
  }

  /** In the history of every run, every native call is answered exactly once, in order and
      under its own id, before the next assistant message. */
  lemma {:induction false} HistoryIsWellAnswered(settings: Settings, responses: seq<Response>, n: nat)
    requires n <= |responses| && AllReplies(responses, n)
    ensures WellAnswered(History(settings, responses, n))
  {
    TurnsAreAnswered(settings, responses, n);
    FlatIsWellAnswered(Turns(settings, responses, n));
  }

  function Ran(message: Message): seq<string> {
    if message.ToolAnswer? && message.executed then [message.name] else []
  }

  /** The names under which the first `k` messages report that something ran. */
  function Reported(h: seq<Message>, k: nat): seq<string>
    requires k <= |h|
  {
    if k == 0 then [] else Reported(h, k - 1) + Ran(h[k - 1])
  }

  lemma {:induction false} ReportedPrefix(a: seq<Message>, b: seq<Message>, k: nat)
    requires k <= |a|
    ensures Reported(a + b, k) == Reported(a, k)
  {
    if k > 0 {
      ReportedPrefix(a, b, k - 1);
    }
  }

  lemma {:induction false} ReportedAppend(a: seq<Message>, b: seq<Message>, k: nat)
    requires k <= |b|
    ensures Reported(a + b, |a| + k) == Reported(a, |a|) + Reported(b, k)
  {
    if k == 0 {
      ReportedPrefix(a, b, |a|);
    } else {
      ReportedAppend(a, b, k - 1);
    }
  }

  lemma {:induction false} ReportedSnoc(h: seq<Message>, message: Message)
    ensures Reported(h + [message], |h| + 1) == Reported(h, |h|) + Ran(message)
  {
    ReportedPrefix(h, [message], |h|);
  }

  lemma {:induction false} RegroupNames(a: seq<string>, b: seq<string>, c: seq<string>)
    ensures a + b + c == a + (b + c)
  {
  }

  lemma {:induction false} AnswersReport(settings: Settings, before: seq<string>, calls: seq<Call>, k: nat)
    requires k <= |calls|
    ensures Executed(settings, before) + Reported(Answers(settings, before, calls, k), k) ==
            Executed(settings, Asked(before, calls, k))
  {
    if k > 0 {
      AnswersReport(settings, before, calls, k - 1);
      var asked := Asked(before, calls, k - 1);
      var answer := AnswerTo(settings, asked, calls[k - 1].id, calls[k - 1].name);
      ReportedSnoc(Answers(settings, before, calls, k - 1), answer);
      ExecutedAppend(settings, asked, calls[k - 1].name);
      RegroupNames(Executed(settings, before), Reported(Answers(settings, before, calls, k - 1), k - 1), Ran(answer));
    }
  }

  lemma {:induction false} ReportedHead(head: Message, answers: seq<Message>)
    requires !head.ToolAnswer?
    ensures Reported([head] + answers, |answers| + 1) == Reported(answers, |answers|)
  {
    ReportedAppend([head], answers, |answers|);
    assert Reported([head], 1) == [];
  }

  lemma {:induction false} ReportedTail(body: seq<Message>, tail: Message)
    requires !tail.ToolAnswer?
    ensures Reported(body + [tail], |body| + 1) == Reported(body, |body|)
  {
    ReportedPrefix(body, [tail], |body|);
  }

  lemma {:induction false} ReportedWrapped(head: Message, answers: seq<Message>, tail: Message)
    requires !head.ToolAnswer? && !tail.ToolAnswer?
    ensures Reported([head] + answers + [tail], |answers| + 2) == Reported(answers, |answers|)
  {
    ReportedHead(head, answers);
    ReportedTail([head] + answers, tail);
  }

  lemma {:induction false} InlineReports(settings: Settings, before: seq<string>, id: string, name: string)
    ensures Executed(settings, before) + Reported([Assistant([]), AnswerTo(settings, before, id, name), User], 3) ==
            Executed(settings, before + [name])
  {
    var answer := AnswerTo(settings, before, id, name);
    ReportedWrapped(Assistant([]), [answer], User);
    assert [Assistant([])] + [answer] + [User] == [Assistant([]), answer, User];
    ExecutedAppend(settings, before, name);
  }

  lemma {:induction false} TurnReports(settings: Settings, before: seq<string>, iteration: nat, response: Response)
    requires response.Reply?
    ensures var turn := Turn(settings, before, iteration, response);
            Executed(settings, before) + Reported(turn, |turn|) == Executed(settings, AskedBy(before, response))
  {
    if response.calls != [] {
      ReportedWrapped(Assistant(CallIds(response.calls)), Answers(settings, before, response.calls, |response.calls|), User);
      AnswersReport(settings, before, response.calls, |response.calls|);
    } else if response.inlineCall.Some? {
      var name := response.inlineCall.value.name;
      InlineReports(settings, before, InlineId(iteration, SafeToolName(name)), name);
    } else {
      ReportedWrapped(Assistant([]), [], User);
      assert [Assistant([])] + [] + [User] == [Assistant([]), User];
    }
  }

  lemma {:induction false} ReportedStep(turns: seq<seq<Message>>, turn: seq<Message>, before: seq<string>, after: seq<string>)
    requires Reported(Flat(turns), |Flat(turns)|) == before && before + Reported(turn, |turn|) == after
    ensures Reported(Flat(turns + [turn]), |Flat(turns + [turn])|) == after
  {
    FlatGrows(turns, turn);
    ReportedAppend(Flat(turns), turn, |turn|);
  }

  lemma {:induction false} NextTurnReports(settings: Settings, responses: seq<Response>, n: nat)
    requires 0 < n <= |responses| && AllReplies(responses, n)
    ensures Turns(settings, responses, n) == Turns(settings, responses, n - 1) + [Turns(settings, responses, n)[n - 1]]
    ensures var turn := Turns(settings, responses, n)[n - 1];
            Executed(settings, Requested(responses, n - 1)) + Reported(turn, |turn|) ==
            Executed(settings, Requested(responses, n))
  {
    TurnReports(settings, Requested(responses, n - 1), n, responses[n - 1]);
  }

  /** What the history says has run is exactly what has run, in order. */
  lemma {:induction false} HistoryReportsExecution(settings: Settings, responses: seq<Response>, n: nat)
    requires n <= |responses| && AllReplies(responses, n)
    ensures var h := History(settings, responses, n);
            Reported(h, |h|) == Executed(settings, Requested(responses, n))
  {
    if n > 0 {
      HistoryReportsExecution(settings, responses, n - 1);
      NextTurnReports(settings, responses, n);
      ReportedStep(Turns(settings, responses, n - 1), Turns(settings, responses, n)[n - 1],
                   Executed(settings, Requested(responses, n - 1)), Executed(settings, Requested(responses, n)));
    }
  }

  // ---------- the loop ----------

  /** The request's bookkeeping: local variables of the loop. */
  datatype Progress = Progress(
    toolsUsed: seq<string>,        // the list the loop returns
    executed: seq<string>,         // every call of the registry's execute
    reasoningCalls: int,
    concreteSinceReasoning: bool,
    mcpTainted: bool,
    nonMcpAttempted: bool,
    prompted: bool)                // the demand for concrete tools has been sent

  /** The bookkeeping is right for a request in which `executed` has run. */
  predicate Tracks(p: Progress, executed: seq<string>) {
    && p.executed == executed
    && p.toolsUsed == executed
    && p.reasoningCalls == ReasoningCalls(executed)
    && (p.concreteSinceReasoning <==> !LastIsReasoning(executed))
    && !p.mcpTainted
  }

  lemma {:induction false} LastCounts(executed: seq<string>)
    requires LastIsReasoning(executed)
    ensures ReasoningCalls(executed) > 0
  {
  }

  /** One requested call: refused, executed, or interrupted while executing. */
  method HandleCall(settings: Settings, p: Progress, call: Call, ghost before: seq<string>)
    returns (p': Progress, executed: bool, raised: bool)
    requires Tracks(p, Executed(settings, before))
    ensures executed == Permitted(settings, Executed(settings, before), call.name)
    ensures Tracks(p', Executed(settings, before + [call.name]))
    ensures p'.prompted == p.prompted
    ensures raised <==> executed && call.cancelled
  {
    ExecutedAppend(settings, before, call.name);
    p' := p;
    if IsMcpToolAttempt(call.name) {
      return p, false, false;
    }
    if p.mcpTainted {
      assert false;
    }
    var isMcpTool := IsMcpToolAttempt(call.name);
    if isMcpTool && p.nonMcpAttempted {
      assert false;
    }
    var isReasoning := IsReasoning(call.name);
    if LastIsReasoning(p.executed) { LastCounts(p.executed); }
    if (!settings.allowReasoning && isReasoning)
       || (isReasoning && p.reasoningCalls >= Limit(settings))
       || (isReasoning && p.reasoningCalls > 0 && !p.concreteSinceReasoning)
    {
      return p, false, false;
    }
    ReasoningAppend(p.executed, call.name);
    if isReasoning {
      p' := p'.(reasoningCalls := p'.reasoningCalls + 1, concreteSinceReasoning := false);
    }
    p' := p'.(toolsUsed := p'.toolsUsed + [SafeToolName(call.name)]);
    p' := if isMcpTool then p'.(mcpTainted := true) else p'.(nonMcpAttempted := true);
    p' := p'.(executed := p'.executed + [call.name]);
    if !isReasoning {
      p' := p'.(concreteSinceReasoning := true);
    }
    return p', true, call.cancelled;
  }

  lemma {:induction false} AskedGrows(settings: Settings, before: seq<string>, calls: seq<Call>, k: nat, n: nat)
    requires k <= n <= |calls|
    ensures Asked(before, calls, k) <= Asked(before, calls, n)
    ensures Interrupted(settings, before, calls, k) ==> Interrupted(settings, before, calls, n)
    decreases n - k
  {
    if k < n {
      AskedGrows(settings, before, calls, k + 1, n);
    }
  }

  lemma {:induction false} Regroup<T>(a: seq<T>, b: seq<T>, c: seq<T>)
    ensures a + b + c == a + (b + c)
  {
  }

  lemma {:induction false} OneMoreAnswer(settings: Settings, before: seq<string>, calls: seq<Call>, k: nat,
                                         start: seq<Message>)
    requires k < |calls|
    ensures start + Answers(settings, before, calls, k + 1) ==
            start + Answers(settings, before, calls, k)
            + [AnswerTo(settings, Asked(before, calls, k), calls[k].id, calls[k].name)]
  {
  }

  lemma {:induction false} NativeTurn(settings: Settings, before: seq<string>, calls: seq<Call>, messages: seq<Message>)
    ensures messages + [Assistant(CallIds(calls))] + Answers(settings, before, calls, |calls|) + [User] ==
            messages + ([Assistant(CallIds(calls))] + Answers(settings, before, calls, |calls|) + [User])
  {
  }

  /** The native branch has dealt with the first `k` calls. */
  predicate Midway(settings: Settings, before: seq<string>, calls: seq<Call>, k: nat,
                   start: seq<Message>, messages: seq<Message>, prompted: bool, p: Progress)
    requires k <= |calls|
  {
    && Tracks(p, Executed(settings, Asked(before, calls, k))) && p.prompted == prompted
    && !Interrupted(settings, before, calls, k)
    && messages == start + Answers(settings, before, calls, k)
  }

  /** One native call and its answer. */
  method AnswerCall(settings: Settings, messages: seq<Message>, p: Progress, calls: seq<Call>, k: nat,
                    ghost before: seq<string>, ghost start: seq<Message>)
    returns (messages': seq<Message>, p': Progress, raised: bool)
    requires k < |calls| && Midway(settings, before, calls, k, start, messages, p.prompted, p)
    ensures raised <==> InterruptedAt(settings, before, calls, k)
    ensures Tracks(p', Executed(settings, Asked(before, calls, k + 1))) && p'.prompted == p.prompted
    ensures !raised ==> Midway(settings, before, calls, k + 1, start, messages', p.prompted, p')
  {
    var executed;
    messages' := messages;
    p', executed, raised := HandleCall(settings, p, calls[k], Asked(before, calls, k));
    if raised {
      return;
    }
    OneMoreAnswer(settings, before, calls, k, start);
    messages' := messages' + [ToolAnswer(calls[k].id, SafeToolName(calls[k].name), executed)];
  }

  /** The native branch: the assistant message, one tool answer per call, the user prompt. */
  method AnswerCalls(settings: Settings, messages: seq<Message>, p: Progress, calls: seq<Call>, ghost before: seq<string>)
    returns (messages': seq<Message>, p': Progress, raised: bool, ghost asked: seq<string>)
    requires Tracks(p, Executed(settings, before))
    ensures Tracks(p', Executed(settings, asked))
    ensures p'.prompted == p.prompted
    ensures raised <==> Interrupted(settings, before, calls, |calls|)
    ensures asked <= Asked(before, calls, |calls|)
    ensures !raised ==> asked == Asked(before, calls, |calls|)
    ensures !raised ==>
              messages' == messages + ([Assistant(CallIds(calls))] + Answers(settings, before, calls, |calls|) + [User])
  {
    messages' := messages + [Assistant(CallIds(calls))];
    ghost var start := messages';
    p' := p;
    var k := 0;
    while k < |calls|
      invariant 0 <= k <= |calls|
      invariant Midway(settings, before, calls, k, start, messages', p.prompted, p')
    {
      messages', p', raised := AnswerCall(settings, messages', p', calls, k, before, start);
      k := k + 1;
      if raised {
        AskedGrows(settings, before, calls, k, |calls|);
        asked := Asked(before, calls, k);
        return;
      }
    }
    NativeTurn(settings, before, calls, messages);
    messages' := messages' + [User];
    raised := false;
    asked := Asked(before, calls, |calls|);
  }

  /** The inline branch: one call found in the text. */
  method AnswerInline(settings: Settings, messages: seq<Message>, p: Progress, call: Call, iteration: nat,
                      ghost before: seq<string>)
    returns (messages': seq<Message>, p': Progress, raised: bool)
    requires Tracks(p, Executed(settings, before))
    ensures Tracks(p', Executed(settings, before + [call.name]))
    ensures p'.prompted == p.prompted
    ensures raised <==> call.cancelled && Permitted(settings, Executed(settings, before), call.name)
    ensures !raised ==>
              messages' == messages + [Assistant([]),
                AnswerTo(settings, before, InlineId(iteration, SafeToolName(call.name)), call.name), User]
  {
    var executed;
    p', executed, raised := HandleCall(settings, p, call, before);
    var name := SafeToolName(call.name);
    messages' := messages + [Assistant([])];
    if raised {
      return;
    }
    messages' := messages' + [ToolAnswer(InlineId(iteration, name), name, executed)];
    messages' := messages' + [User];
  }

  /** One pass of the loop body; `done` says whether the loop ends here. */
  method Iterate(settings: Settings, response: Response, iteration: nat, messages: seq<Message>, p: Progress,
                 ghost before: seq<string>)
    returns (done: Option<Outcome>, messages': seq<Message>, p': Progress, ghost asked: seq<string>)
    requires Tracks(p, Executed(settings, before))
    ensures Tracks(p', Executed(settings, asked))
    ensures asked <= AskedBy(before, response)
    ensures done == Some(Raised) <==> Breaks(settings, before, response)
    ensures done == Some(Final) <==>
              IsText(response) && !AsksForTools(settings, p.prompted, Executed(settings, before), response.plan)
    ensures done != Some(Exhausted)
    ensures done == Some(Final) ==> messages' == messages && p' == p
    ensures done.None? ==>
              && response.Reply? && asked == AskedBy(before, response)
              && messages' == messages + Turn(settings, before, iteration, response)
              && p'.prompted == (p.prompted || IsText(response))
  {
    asked, p', messages' := before, p, messages;
    if response.Unavailable? {
      done := Some(Raised);
    } else if response.calls != [] {
      var raised;
      messages', p', raised, asked := AnswerCalls(settings, messages, p, response.calls, before);
      done := if raised then Some(Raised) else None;
    } else if response.inlineCall.Some? {
      var raised;
      var call := response.inlineCall.value;
      messages', p', raised := AnswerInline(settings, messages, p, call, iteration, before);
      asked := before + [call.name];
      done := if raised then Some(Raised) else None;
    } else if AsksForTools(settings, p.prompted, p.toolsUsed, response.plan) {
      p' := p.(prompted := true);
      messages' := messages + [Assistant([])];
      messages' := messages' + [User];
      done := None;
    } else {
      done := Some(Final);
    }
  }

  /** What holds once `n` answers of the model have been worked through. */
  predicate Reached(settings: Settings, responses: seq<Response>, initial: seq<Message>, n: nat,
                    messages: seq<Message>, p: Progress) {
    && n <= |responses| && AllReplies(responses, n) && GoesOn(settings, responses, n)
    && Tracks(p, Executed(settings, Requested(responses, n)))
    && p.prompted == HasText(responses, n)
    && messages == initial + History(settings, responses, n)
  }

  lemma {:induction false} HistoryGrows(settings: Settings, responses: seq<Response>, initial: seq<Message>, n: nat)
    requires n < |responses| && AllReplies(responses, n + 1)
    ensures initial + History(settings, responses, n + 1) ==
            initial + History(settings, responses, n) + Turn(settings, Requested(responses, n), n + 1, responses[n])
  {
    FlatGrows(Turns(settings, responses, n), Turn(settings, Requested(responses, n), n + 1, responses[n]));
    Regroup(initial, History(settings, responses, n), Turn(settings, Requested(responses, n), n + 1, responses[n]));
  }

  lemma {:induction false} Advance(settings: Settings, responses: seq<Response>, initial: seq<Message>, n: nat,
                                   messages: seq<Message>, p: Progress, p': Progress)
    requires Reached(settings, responses, initial, n, messages, p) && n < |responses| && responses[n].Reply?
    requires !Ends(settings, responses, n) && !Breaks(settings, Requested(responses, n), responses[n])
    requires Tracks(p', Executed(settings, AskedBy(Requested(responses, n), responses[n])))
    requires p'.prompted == (p.prompted || IsText(responses[n]))
    ensures Reached(settings, responses, initial, n + 1,
                    messages + Turn(settings, Requested(responses, n), n + 1, responses[n]), p')
  {
    HistoryGrows(settings, responses, initial, n);
    assert AllReplies(responses, n + 1) && GoesOn(settings, responses, n + 1);
  }

  const FRESH := Progress([], [], 0, true, false, false, false)

  lemma {:induction false} StartReached(settings: Settings, responses: seq<Response>, initial: seq<Message>)
    ensures Reached(settings, responses, initial, 0, initial, FRESH)
  {
    assert initial + [] == initial;
  }

  /** One iteration, seen from the whole run. */
  method Pass(settings: Settings, responses: seq<Response>, initial: seq<Message>, n: nat,
              messages: seq<Message>, p: Progress)
    returns (done: Option<Outcome>, messages': seq<Message>, p': Progress, ghost asked: seq<string>)
    requires n < |responses| && Reached(settings, responses, initial, n, messages, p)
    ensures Tracks(p', Executed(settings, asked)) && asked <= Requested(responses, n + 1)
    ensures done == Some(Raised) <==> Breaks(settings, Requested(responses, n), responses[n])
    ensures done == Some(Final) <==> Ends(settings, responses, n)
    ensures done == Some(Final) ==> messages' == messages && p' == p
    ensures done != Some(Exhausted)
    ensures done.None? ==> Reached(settings, responses, initial, n + 1, messages', p')
  {
    done, messages', p', asked := Iterate(settings, responses[n], n + 1, messages, p, Requested(responses, n));
    if done.None? {
      Advance(settings, responses, initial, n, messages, p, p');
    }
  }

  /** The loop. `responses` are the answers the model would give, one per iteration. */
  method RunAgentLoop(settings: Settings, responses: seq<Response>, initial: seq<Message>)
    returns (outcome: Outcome, messages: seq<Message>, progress: Progress, iterations: nat, ghost asked: seq<string>)
    requires |responses| >= settings.maxIterations
    ensures iterations <= |responses| && (iterations == 0 || iterations <= settings.maxIterations)
    ensures Tracks(progress, Executed(settings, asked)) && asked <= Requested(responses, iterations)
    ensures outcome.Exhausted? ==>
              && iterations >= settings.maxIterations
              && Reached(settings, responses, initial, iterations, messages, progress)
    ensures outcome.Final? ==>
              && iterations > 0 && Ends(settings, responses, iterations - 1)
              && Reached(settings, responses, initial, iterations - 1, messages, progress)
    ensures outcome.Raised? ==>
              && iterations > 0 && GoesOn(settings, responses, iterations - 1)
              && Breaks(settings, Requested(responses, iterations - 1), responses[iterations - 1])
  {
    progress := FRESH;
    messages := initial;
    iterations := 0;
    StartReached(settings, responses, initial);
    while iterations < settings.maxIterations
      invariant iterations <= |responses| && (iterations == 0 || iterations <= settings.maxIterations)
      invariant Reached(settings, responses, initial, iterations, messages, progress)
    {
      var done, messages', progress';
      done, messages', progress', asked :=
        Pass(settings, responses, initial, iterations, messages, progress);
      iterations := iterations + 1;
      if done.Some? {
        return done.value, messages', progress', iterations, asked;
      }
      messages, progress := messages', progress';
    }
    return Exhausted, messages, progress, iterations, Requested(responses, iterations);
  }
}
