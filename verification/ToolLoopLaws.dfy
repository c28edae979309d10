/** The tool loop's rules (k2do/agent/loop.py, 1085-1477), said of the list of executed tools
    and of the history alone. */
module ToolLoopLaws {
  import opened ToolRegistry
  import opened ToolLoop

  const REASONING: seq<string> := ["deepthink", "refine"]

  // ---------- which calls run ----------

  function CountReasoning(executed: seq<string>): nat {
    if executed == [] then 0 else (if executed[0] in REASONING then 1 else 0) + CountReasoning(executed[1..])
  }

  /** What a list of executed tools must satisfy: no MCP-shaped name, no two reasoning tools in
      a row, no reasoning at all when it is off, else at most `maxReasoning` or one. */
  predicate Disciplined(settings: Settings, executed: seq<string>) {
    && (forall i | 0 <= i < |executed| :: !("mcp_" <= executed[i]))
    && (forall i | 0 <= i < |executed| - 1 :: executed[i] in REASONING ==> executed[i + 1] !in REASONING)
    && (if settings.allowReasoning then CountReasoning(executed) <= 1 || CountReasoning(executed) <= settings.maxReasoning
        else CountReasoning(executed) == 0)
  }

  lemma {:induction false} CountAppend(executed: seq<string>, name: string)
    ensures CountReasoning(executed + [name]) == CountReasoning(executed) + if name in REASONING then 1 else 0
  {
    if executed == [] {
      assert [] + [name] == [name];
    } else {
      assert (executed + [name])[1..] == executed[1..] + [name];
      CountAppend(executed[1..], name);
    }
  }

  lemma {:induction false} CountsAgree(executed: seq<string>)
    ensures CountReasoning(executed) == ReasoningCalls(executed)
  {
    if executed != [] {
      var front, last := executed[..|executed| - 1], executed[|executed| - 1];
      CountsAgree(front);
      CountAppend(front, last);
      assert front + [last] == executed;
    }
  }

  lemma {:induction false} OneMoreDisciplined(settings: Settings, executed: seq<string>, name: string)
    requires Disciplined(settings, executed)
    ensures Disciplined(settings, executed + [name]) <==> Permitted(settings, executed, name)
  {
    var more := executed + [name];
    CountAppend(executed, name);
    CountsAgree(executed);
    if Permitted(settings, executed, name) {
      forall i | 0 <= i < |more| ensures !("mcp_" <= more[i]) {
        if i < |executed| { assert more[i] == executed[i]; }
      }
      forall i | 0 <= i < |more| - 1 ensures more[i] in REASONING ==> more[i + 1] !in REASONING {
        if i < |executed| - 1 { assert more[i + 1] == executed[i + 1]; }
      }
    }
    if Disciplined(settings, more) {
      assert more[|executed|] == name;
      if executed != [] && name in REASONING {
        assert more[|executed| - 1] == executed[|executed| - 1] && more[|executed| - 1 + 1] == name;
      }
    }
  }

  /** The executed list is disciplined. */
  lemma {:induction false} AlwaysDisciplined(settings: Settings, names: seq<string>)
    ensures Disciplined(settings, Executed(settings, names))
  {
    if names != [] {
      var front, name := names[..|names| - 1], names[|names| - 1];
      AlwaysDisciplined(settings, front);
      OneMoreDisciplined(settings, Executed(settings, front), name);
    }
  }

  /** A requested call runs exactly when the list stays disciplined with it: nothing is refused
      that could have run, and nothing else is changed by a refusal. */
  lemma {:induction false} RefusedOnlyWhenForbidden(settings: Settings, names: seq<string>, name: string)
    ensures var executed := Executed(settings, names);
            Executed(settings, names + [name]) ==
            if Disciplined(settings, executed + [name]) then executed + [name] else executed
  {
    AlwaysDisciplined(settings, names);
    OneMoreDisciplined(settings, Executed(settings, names), name);
    ExecutedAppend(settings, names, name);
    assert Executed(settings, names) + [] == Executed(settings, names);
  }

  // ---------- when a text is final ----------

  predicate TextBefore(responses: seq<Response>, n: nat)
    requires n <= |responses|
  {
    exists i | 0 <= i < n :: IsText(responses[i])
  }

  lemma {:induction false} TextsAgree(responses: seq<Response>, n: nat)
    requires n <= |responses|
    ensures HasText(responses, n) <==> TextBefore(responses, n)
  {
    if n > 0 {
      TextsAgree(responses, n - 1);
    }
  }

  /** A text does not end the loop exactly when it is the first one, nothing but reasoning has
      run so far, and concrete tools are demanded: by the settings, or by a plan that follows
      a deepthink call. */
  lemma {:induction false} TextIsSentBackExactly(settings: Settings, responses: seq<Response>, n: nat)
    requires n < |responses| && GoesOn(settings, responses, n) && IsText(responses[n])
    ensures var executed := Executed(settings, Requested(responses, n));
            GoesOn(settings, responses, n + 1) <==>
            && !TextBefore(responses, n) && (forall name | name in executed :: name in REASONING)
            && (settings.requireConcrete || ("deepthink" in executed && responses[n].plan))
  {
    TextsAgree(responses, n);
    var executed := Executed(settings, Requested(responses, n));
    OnlyReasoningIs(executed);
  }

  lemma {:induction false} OnlyReasoningIs(executed: seq<string>)
    ensures OnlyReasoning(executed) <==> forall name | name in executed :: name in REASONING
  {
    if OnlyReasoning(executed) {
      forall name | name in executed ensures name in REASONING {
        var i :| 0 <= i < |executed| && executed[i] == name;
        assert IsReasoning(executed[i]);
      }
    }
    if forall name | name in executed :: name in REASONING {
      forall i | 0 <= i < |executed| ensures IsReasoning(executed[i]) {
        assert executed[i] in executed;
      }
    }
  }

  /** So at most one text is sent back in a run. */
  lemma {:induction false} OneTextSentBack(settings: Settings, responses: seq<Response>, n: nat, i: nat, j: nat)
    requires n <= |responses| && GoesOn(settings, responses, n) && i < j < n
    ensures !(IsText(responses[i]) && IsText(responses[j]))
  {
    if IsText(responses[i]) && IsText(responses[j]) {
      GoesOnBefore(settings, responses, n, j + 1);
      TextIsSentBackExactly(settings, responses, j);
    }
  }

  lemma {:induction false} GoesOnBefore(settings: Settings, responses: seq<Response>, n: nat, k: nat)
    requires k <= n <= |responses| && GoesOn(settings, responses, n)
    ensures GoesOn(settings, responses, k)
  {
    if k < n {
      GoesOnBefore(settings, responses, n - 1, k);
    }
  }

  // ---------- the history ----------

  /** The native call ids of the assistant messages, in order. */
  function AssistantIds(h: seq<Message>): seq<seq<string>> {
    if h == [] then []
    else AssistantIds(h[..|h| - 1]) + if h[|h| - 1].Assistant? then [h[|h| - 1].callIds] else []
  }

  lemma {:induction false} IdsAppend(a: seq<Message>, b: seq<Message>)
    ensures AssistantIds(a + b) == AssistantIds(a) + AssistantIds(b)
  {
    if b == [] {
      assert a + b == a;
    } else {
      assert (a + b)[..|a + b| - 1] == a + b[..|b| - 1];
      IdsAppend(a, b[..|b| - 1]);
    }
  }

  lemma {:induction false} NoAssistants(h: seq<Message>)
    requires forall i | 0 <= i < |h| :: !h[i].Assistant?
    ensures AssistantIds(h) == []
  {
    if h != [] {
      NoAssistants(h[..|h| - 1]);
    }
  }

  lemma {:induction false} TurnIds(settings: Settings, before: seq<string>, iteration: nat, response: Response)
    requires response.Reply?
    ensures AssistantIds(Turn(settings, before, iteration, response)) == [CallIds(response.calls)]
  {
    var turn := Turn(settings, before, iteration, response);
    forall i | 1 <= i < |turn| ensures !turn[i].Assistant? {
      if response.calls != [] && i <= |response.calls| {
        AnswersAt(settings, before, response.calls, |response.calls|, i - 1);
      }
    }
    assert turn == [turn[0]] + turn[1..];
    IdsAppend([turn[0]], turn[1..]);
    NoAssistants(turn[1..]);
    assert [turn[0]][..0] == [];
  }

  /** The ids are those of the calls in the answer, in order. */
  predicate IdsOf(ids: seq<string>, response: Response) {
    response.Reply? && |ids| == |response.calls| && forall j | 0 <= j < |ids| :: ids[j] == response.calls[j].id
  }

  lemma {:induction false} CallIdsOf(response: Response)
    requires response.Reply?
    ensures IdsOf(CallIds(response.calls), response)
  {
    var ids := CallIds(response.calls);
    forall j | 0 <= j < |ids| ensures ids[j] == response.calls[j].id {
      CallIdAt(response.calls, j);
    }
  }

  lemma {:induction false} OneMoreAssistant(settings: Settings, responses: seq<Response>, n: nat)
    requires 0 < n <= |responses| && AllReplies(responses, n)
    ensures AssistantIds(History(settings, responses, n)) ==
            AssistantIds(History(settings, responses, n - 1)) + [CallIds(responses[n - 1].calls)]
  {
    var turn := Turn(settings, Requested(responses, n - 1), n, responses[n - 1]);
    FlatGrows(Turns(settings, responses, n - 1), turn);
    IdsAppend(History(settings, responses, n - 1), turn);
    TurnIds(settings, Requested(responses, n - 1), n, responses[n - 1]);
  }

  /** The history holds exactly one assistant message per answer of the model, in order, with
      the ids of that answer's calls. */
  lemma {:induction false} OneAssistantPerAnswer(settings: Settings, responses: seq<Response>, n: nat)
    requires n <= |responses| && AllReplies(responses, n)
    ensures |AssistantIds(History(settings, responses, n))| == n
    ensures forall i | 0 <= i < n :: IdsOf(AssistantIds(History(settings, responses, n))[i], responses[i])
  {
    if n > 0 {
      OneAssistantPerAnswer(settings, responses, n - 1);
      OneMoreAssistant(settings, responses, n);
      CallIdsOf(responses[n - 1]);
    }
  }
}
