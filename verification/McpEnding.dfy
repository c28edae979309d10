/** Every lifespan can come to its end (k2do/agent/loop.py, 341-807): from every reachable
    state there is a way on, without new work, without a cancellation and without an owner
    that stops untold, after which no lifespan is active. */
module McpEnding {
  import opened Prelude
  import opened ToolRegistry
  import opened McpFields
  import opened McpProtocol
  import opened McpTransport
  import opened McpLease
  import opened McpProgress

  /** An event that brings things to an end. */
  predicate Ends(s: State, e: Event) {
    match e
    case OwnerFail(gen) => ToldGen(s.f, s.gens, gen)
    case OwnerStop(gen) => ToldGen(s.f, s.gens, gen)
    case ActivateScope(_, cancelled) => !cancelled
    case _ =>
      || e.LeaveLease? || e.Finish? || e.GiveUpScope? || e.Connect? || e.Started? || e.OwnerEnded? || e.ResetTransport?
      || e.LeaveBody? || e.RevokeScope? || e.ScanBorrowers? || e.Reaped? || e.ForgetScope? || e.CloseScope?
      || e.OwnerRun? || e.OwnerPublish? || e.OwnerExit?
  }

  /** A run of such events. */
  ghost predicate Ending(s: State, events: seq<Event>, end: State)
    decreases |events|
  {
    if events == [] then s == end
    else Enabled(s, events[0]) && Ends(s, events[0]) && Ending(Step(s, events[0]), events[1..], end)
  }

  ghost predicate CanEnd(s: State) {
    exists events, end :: Ending(s, events, end) && end.scopeLock.None?
  }

  lemma {:induction false} EndsAfter(s: State, e: Event)
    requires Enabled(s, e) && Ends(s, e) && CanEnd(Step(s, e))
    ensures CanEnd(s)
  {
    var events, end :| Ending(Step(s, e), events, end) && end.scopeLock.None?;
    assert ([e] + events)[1..] == events;
    assert Ending(s, [e] + events, end);
  }

  lemma {:induction false} Ended(s: State)
    requires s.scopeLock.None?
    ensures CanEnd(s)
  {
    assert Ending(s, [], s);
  }

  lemma {:induction false} EndingIsRun(s: State, events: seq<Event>, end: State)
    requires Ending(s, events, end)
    ensures Run(s, events, end) && Public(events)
    decreases |events|
  {
    if events != [] {
      var rest := events[1..];
      EndingIsRun(Step(s, events[0]), rest, end);
      forall i | 0 <= i < |events| ensures !events[i].CallConnect? {
        assert i > 0 ==> events[i] == rest[i - 1];
      }
    }
  }

  /** Task `t` holds the scope lock in a reachable state, and stands at `pc`. */
  ghost predicate Holds(s: State, t: Task, pc: Pc) {
    && LeaseInv(s) && Told(s) && s.scopeLock == Some(t)
    && t in s.tasks && !s.tasks[t].done && s.tasks[t].frames == [Call(true, pc)]
  }

  lemma {:induction false} Kept(s: State, e: Event)
    requires LeaseInv(s) && Told(s) && Enabled(s, e) && !e.CallConnect?
    ensures LeaseInv(Step(s, e)) && Told(Step(s, e))
  {
    StepKeepsLeases(s, e);
    StepTold(s, e);
  }

  // ---------- the transport ----------

  lemma {:induction false} ResetEnds(s: State, t: Task, gen: Gen)
    requires Holds(s, t, AbortReset(gen)) || Holds(s, t, CloseReset(gen))
    ensures CanEnd(s)
  {
    HolderFacts(s, t);
    EndsAfter(s, ResetTransport(t)) by {
      Ended(Step(s, ResetTransport(t)));
    }
  }

  function Left(phase: Phase): nat {
    match phase case Created => 3 case Connecting => 2 case Serving => 2 case Cleaning => 1 case Finished => 0
  }

  predicate AwaitsOwner(pc: Pc) {
    pc.AbortOwner? || pc.CloseOwner?
  }

  lemma {:induction false} OwnerEventKeeps(s: State, t: Task, pc: Pc, e: Event)
    requires Holds(s, t, pc) && Enabled(s, e) && !IsEntry(e) && !IsConnect(e) && !IsScope(e)
    ensures Holds(Step(s, e), t, pc)
  {
    OwnerStepSafe(s, e);
    OwnerTold(s, e);
    OwnerStepFrame(s, e);
    HoldsOn(s, Step(s, e), t, pc);
  }

  lemma {:induction false} HoldsOn(s: State, s': State, t: Task, pc: Pc)
    requires Holds(s, t, pc) && LeaseInv(s') && Told(s') && s'.tasks == s.tasks && s'.scopeLock == s.scopeLock
    ensures Holds(s', t, pc)
  {
  }

  lemma {:induction false} ToldOwner(s: State, t: Task, pc: Pc)
    requires Holds(s, t, pc) && AwaitsOwner(pc)
    ensures ToldGen(s.f, s.gens, pc.gen) && pc.gen in s.gens
    ensures s.gens[pc.gen].started == Some(false) ==> s.gens[pc.gen].phase == Cleaning || s.gens[pc.gen].phase == Finished
  {
    assert ToldTask(s.f, s.gens, s.tasks[t]);
    HolderFacts(s, t);
    assert GenOk(s.f.transportTask == Some(pc.gen), s.gens[pc.gen]);
  }

  function OwnerEvent(phase: Phase, gen: Gen): Event {
    match phase
    case Created => OwnerRun(gen)
    case Connecting => OwnerFail(gen)
    case Serving => OwnerStop(gen)
    case _ => OwnerExit(gen)
  }

  lemma {:induction false} OwnerGoesOn(s: State, gen: Gen)
    requires gen in s.gens && s.gens[gen].phase != Finished && ToldGen(s.f, s.gens, gen)
    ensures var e := OwnerEvent(s.gens[gen].phase, gen);
            Enabled(s, e) && Ends(s, e) && gen in Step(s, e).gens && Left(Step(s, e).gens[gen].phase) < Left(s.gens[gen].phase)
  {
  }

  lemma {:induction false} OwnerEnds(s: State, t: Task, pc: Pc)
    requires Holds(s, t, pc) && AwaitsOwner(pc) && pc.gen in s.gens
    ensures CanEnd(s)
    decreases Left(s.gens[pc.gen].phase)
  {
    ToldOwner(s, t, pc);
    var gen := pc.gen;
    if s.gens[gen].phase == Finished {
      OwnerIsSeen(s, t, pc);
    } else {
      var e := OwnerEvent(s.gens[gen].phase, gen);
      OwnerGoesOn(s, gen);
      OwnerEventKeeps(s, t, pc, e);
      OwnerEnds(Step(s, e), t, pc);
      EndsAfter(s, e);
    }
  }

  lemma {:induction false} OwnerIsSeen(s: State, t: Task, pc: Pc)
    requires Holds(s, t, pc) && AwaitsOwner(pc) && InPhase(s, pc.gen, Finished)
    ensures CanEnd(s)
  {
    var s' := Step(s, OwnerEnded(t));
    Kept(s, OwnerEnded(t));
    ResetEnds(s', t, pc.gen);
    EndsAfter(s, OwnerEnded(t));
  }

  lemma {:induction false} OwnerAwaitedEnds(s: State, t: Task, pc: Pc)
    requires Holds(s, t, pc) && AwaitsOwner(pc)
    ensures CanEnd(s)
  {
    ToldOwner(s, t, pc);
    OwnerEnds(s, t, pc);
  }

  // ---------- leaving the scope ----------

  lemma {:induction false} CloseEnds(s: State, t: Task)
    requires Holds(s, t, BeginClose)
    ensures CanEnd(s)
  {
    HolderFacts(s, t);
    Kept(s, CloseScope(t));
    OwnerAwaitedEnds(Step(s, CloseScope(t)), t, CloseOwner(s.f.transportTask.value));
    EndsAfter(s, CloseScope(t));
  }

  lemma {:induction false} ForgettingEnds(s: State, t: Task, hold: Hold)
    requires Holds(s, t, Forgetting(hold))
    ensures CanEnd(s)
  {
    HolderFacts(s, t);
    Kept(s, ForgetScope(t));
    CloseEnds(Step(s, ForgetScope(t)), t);
    EndsAfter(s, ForgetScope(t));
  }

  lemma {:induction false} LastScanEnds(s: State, t: Task, hold: Hold, reaped: set<Task>)
    requires Holds(s, t, Scanning(hold, Some(reaped)))
    ensures CanEnd(s)
  {
    SecondPassFindsNobody(s, t);
    Kept(s, ScanBorrowers(t));
    ForgettingEnds(Step(s, ScanBorrowers(t)), t, hold);
    EndsAfter(s, ScanBorrowers(t));
  }

  // ---------- other tasks ----------

  /** The unfinished ones among `tasks`. */
  function Unfinished(s: State, tasks: set<Task>): set<Task> {
    set u | u in tasks && !(u in s.tasks && s.tasks[u].done)
  }

  function Retirement(s: State, u: Task): Event
    requires u in s.tasks
  {
    if s.tasks[u].frames == [] then Finish(u)
    else if Top(s.tasks[u]).Lease? then LeaveLease(u)
    else GiveUpScope(u)
  }

  lemma {:induction false} Retires(s: State, u: Task)
    requires u in s.tasks && !s.tasks[u].done && OtherTask(s.f, s.tasks[u])
    ensures var e := Retirement(s, u);
            && Enabled(s, e) && Ends(s, e) && !e.CallConnect? && Step(s, e).scopeLock == s.scopeLock
            && u in Step(s, e).tasks && Step(s, e).tasks == s.tasks[u := Step(s, e).tasks[u]]
            && (Step(s, e).tasks[u].done || |Step(s, e).tasks[u].frames| < |s.tasks[u].frames|)
  {
  }

  /** One step of task `u` towards its end. */
  lemma {:induction false} OneRetires(s: State, t: Task, pc: Pc, u: Task)
    requires Holds(s, t, pc) && u in s.tasks && !s.tasks[u].done && u != t
    ensures var e := Retirement(s, u);
            && Enabled(s, e) && Ends(s, e) && Holds(Step(s, e), t, pc)
            && u in Step(s, e).tasks && Step(s, e).tasks == s.tasks[u := Step(s, e).tasks[u]]
            && (Step(s, e).tasks[u].done || |Step(s, e).tasks[u].frames| < |s.tasks[u].frames|)
  {
    Retires(s, u) by {
      assert OtherTask(s.f, s.tasks[u]);
    }
    Kept(s, Retirement(s, u));
  }

  lemma {:induction false} ReapingEnds(s: State, t: Task, hold: Hold, remaining: set<Task>)
    requires Holds(s, t, Reaping(hold, remaining)) && remaining <= s.tasks.Keys && t !in remaining
    ensures CanEnd(s)
    decreases |Unfinished(s, remaining)|
  {
    if Unfinished(s, remaining) == {} {
      AllReaped(s, t, hold, remaining);
    } else {
      var u :| u in Unfinished(s, remaining);
      RetiringEnds(s, t, hold, remaining, u);
    }
  }

  lemma {:induction false} AllReaped(s: State, t: Task, hold: Hold, remaining: set<Task>)
    requires Holds(s, t, Reaping(hold, remaining)) && Unfinished(s, remaining) == {}
    ensures CanEnd(s)
  {
    forall u | u in remaining ensures u in s.tasks && s.tasks[u].done {
      assert u !in Unfinished(s, remaining);
    }
    Kept(s, Reaped(t));
    LastScanEnds(Step(s, Reaped(t)), t, hold, remaining);
    EndsAfter(s, Reaped(t));
  }

  lemma {:induction false} RetiringEnds(s: State, t: Task, hold: Hold, remaining: set<Task>, u: Task)
    requires Holds(s, t, Reaping(hold, remaining)) && remaining <= s.tasks.Keys && t !in remaining
    requires u in Unfinished(s, remaining)
    ensures CanEnd(s)
    decreases |Unfinished(s, remaining)|, |s.tasks[u].frames|
  {
    var e := Retirement(s, u);
    OneRetires(s, t, Reaping(hold, remaining), u);
    var s' := Step(s, e);
    FewerUnfinished(s, s', remaining, u);
    if s'.tasks[u].done {
      ReapingEnds(s', t, hold, remaining);
    } else {
      RetiringEnds(s', t, hold, remaining, u);
    }
    EndsAfter(s, e);
  }

  lemma {:induction false} FewerUnfinished(s: State, s': State, tasks: set<Task>, u: Task)
    requires u in Unfinished(s, tasks) && u in s.tasks && u in s'.tasks && s'.tasks == s.tasks[u := s'.tasks[u]]
    ensures if s'.tasks[u].done then |Unfinished(s', tasks)| < |Unfinished(s, tasks)| else Unfinished(s', tasks) == Unfinished(s, tasks)
  {
    if s'.tasks[u].done {
      assert Unfinished(s', tasks) == Unfinished(s, tasks) - {u};
    }
  }

  lemma {:induction false} ScanGoes(s: State, t: Task, hold: Hold) returns (pc: Pc)
    requires Holds(s, t, Scanning(hold, None))
    ensures Enabled(s, ScanBorrowers(t)) && Holds(Step(s, ScanBorrowers(t)), t, pc)
    ensures pc == Forgetting(hold) || (pc.Reaping? && pc.hold == hold)
  {
    Kept(s, ScanBorrowers(t));
    var f := Scan(s.f, FinishedTasks(s));
    pc := if f.borrowers == map[] then Forgetting(hold) else Reaping(hold, f.borrowers.Keys);
  }

  lemma {:induction false} ScanEnds(s: State, t: Task, hold: Hold)
    requires Holds(s, t, Scanning(hold, None))
    ensures CanEnd(s)
  {
    var pc := ScanGoes(s, t, hold);
    if pc == Forgetting(hold) {
      ForgettingEnds(Step(s, ScanBorrowers(t)), t, hold);
    } else {
      WaitEnds(Step(s, ScanBorrowers(t)), t, hold, pc.remaining);
    }
    EndsAfter(s, ScanBorrowers(t));
  }

  lemma {:induction false} WaitEnds(s: State, t: Task, hold: Hold, remaining: set<Task>)
    requires Holds(s, t, Reaping(hold, remaining))
    ensures CanEnd(s)
  {
    HolderFacts(s, t);
    ReapingEnds(s, t, hold, remaining);
  }

  // ---------- the body and before ----------

  lemma {:induction false} RevokingEnds(s: State, t: Task, hold: Hold)
    requires Holds(s, t, Revoking(hold))
    ensures CanEnd(s)
  {
    Kept(s, RevokeScope(t));
    ScanEnds(Step(s, RevokeScope(t)), t, hold);
    EndsAfter(s, RevokeScope(t));
  }

  lemma {:induction false} BodyEnds(s: State, t: Task, hold: Hold)
    requires Holds(s, t, Body(hold))
    ensures CanEnd(s)
  {
    Kept(s, LeaveBody(t));
    RevokingEnds(Step(s, LeaveBody(t)), t, hold);
    EndsAfter(s, LeaveBody(t));
  }

  /** With reuses of its own scope open, they are left first. */
  lemma {:induction false} ReusingBodyEnds(s: State, t: Task)
    requires LeaseInv(s) && Told(s) && s.scopeLock == Some(t) && t in s.tasks && |s.tasks[t].frames| >= 1
    requires |s.tasks[t].frames| > 1 || (s.tasks[t].frames[0].Call? && s.tasks[t].frames[0].pc.Body?)
    ensures CanEnd(s)
    decreases |s.tasks[t].frames|
  {
    assert HolderTask(s.f, s.tasks, t);
    var frames := s.tasks[t].frames;
    assert TaskOk(s.f, s.gens, t, s.tasks[t]);
    if |frames| == 1 {
      assert frames == [Call(true, frames[0].pc)];
      BodyEnds(s, t, frames[0].pc.hold);
    } else {
      assert Suspended(frames[0]);
      Kept(s, LeaveLease(t));
      ReusingBodyEnds(Step(s, LeaveLease(t)), t);
      EndsAfter(s, LeaveLease(t));
    }
  }

  lemma {:induction false} ActivatingEnds(s: State, t: Task, owns: bool)
    requires Holds(s, t, Activating(owns))
    ensures CanEnd(s)
  {
    var e := ActivateScope(t, false);
    Kept(s, e);
    BodyEnds(Step(s, e), t, Hold(s.nextToken, owns, s.tasks[t].context));
    EndsAfter(s, e);
  }

  lemma {:induction false} StartEnds(s: State, t: Task, gen: Gen, initiator: bool)
    requires Holds(s, t, AwaitStart(gen, initiator)) && gen in s.gens && s.gens[gen].started.Some?
    ensures CanEnd(s)
  {
    var s' := Step(s, Started(t));
    Kept(s, Started(t));
    if s.gens[gen].started.value {
      ActivatingEnds(s', t, initiator);
    } else {
      OwnerAwaitedEnds(s', t, AbortOwner(gen));
    }
    EndsAfter(s, Started(t));
  }

  lemma {:induction false} AwaitEnds(s: State, t: Task, gen: Gen, initiator: bool)
    requires Holds(s, t, AwaitStart(gen, initiator))
    ensures CanEnd(s)
  {
    HolderFacts(s, t);
    assert GenOk(s.f.transportTask == Some(gen), s.gens[gen]);
    if s.gens[gen].started.Some? {
      StartEnds(s, t, gen, initiator);
    } else if s.gens[gen].phase == Created {
      OwnerEventKeeps(s, t, AwaitStart(gen, initiator), OwnerRun(gen));
      PublishingEnds(Step(s, OwnerRun(gen)), t, gen, initiator);
      EndsAfter(s, OwnerRun(gen));
    } else {
      PublishingEnds(s, t, gen, initiator);
    }
  }

  lemma {:induction false} PublishingEnds(s: State, t: Task, gen: Gen, initiator: bool)
    requires Holds(s, t, AwaitStart(gen, initiator)) && InPhase(s, gen, Connecting)
    ensures CanEnd(s)
  {
    OwnerEventKeeps(s, t, AwaitStart(gen, initiator), OwnerPublish(gen));
    StartEnds(Step(s, OwnerPublish(gen)), t, gen, initiator);
    EndsAfter(s, OwnerPublish(gen));
  }

  lemma {:induction false} Fresh(used: set<nat>) returns (n: nat)
    ensures n !in used && forall x | x in used :: x < n
  {
    if used == {} {
      n := 0;
    } else {
      var x :| x in used;
      var m := Fresh(used - {x});
      n := if x < m then m else x + 1;
      assert used == (used - {x}) + {x};
    }
  }

  lemma {:induction false} ConnectEnds(s: State, t: Task)
    requires Holds(s, t, BeginConnect)
    ensures CanEnd(s)
  {
    var gen := Fresh(s.gens.Keys + s.f.signals);
    HolderFacts(s, t);
    Kept(s, Connect(t, gen));
    AwaitEnds(Step(s, Connect(t, gen)), t, gen, true);
    EndsAfter(s, Connect(t, gen));
  }

  lemma {:induction false} HolderEnds(s: State, t: Task, pc: Pc)
    requires Holds(s, t, pc)
    ensures CanEnd(s)
  {
    HolderFacts(s, t);
    match pc {
      case BeginConnect => ConnectEnds(s, t);
      case AwaitStart(gen, initiator) => AwaitEnds(s, t, gen, initiator);
      case AbortOwner(gen) => OwnerAwaitedEnds(s, t, pc);
      case AbortReset(gen) => ResetEnds(s, t, gen);
      case Activating(owns) => ActivatingEnds(s, t, owns);
      case Body(hold) => BodyEnds(s, t, hold);
      case Revoking(hold) => RevokingEnds(s, t, hold);
      case Scanning(hold, None) => ScanEnds(s, t, hold);
      case Scanning(hold, Some(reaped)) => LastScanEnds(s, t, hold, reaped);
      case Reaping(hold, remaining) => WaitEnds(s, t, hold, remaining);
      case Forgetting(hold) => ForgettingEnds(s, t, hold);
      case BeginClose => CloseEnds(s, t);
      case CloseOwner(gen) => OwnerAwaitedEnds(s, t, pc);
      case CloseReset(gen) => ResetEnds(s, t, gen);
    }
  }

  lemma {:induction false} ActiveEnds(s: State)
    requires LeaseInv(s) && Told(s)
    ensures CanEnd(s)
  {
    if s.scopeLock.None? {
      Ended(s);
    } else {
      var t := s.scopeLock.value;
      assert HolderTask(s.f, s.tasks, t);
      if |s.tasks[t].frames| > 1 {
        ReusingBodyEnds(s, t);
      } else {
        HolderEnds(s, t, s.tasks[t].frames[0].pc);
      }
    }
  }

  /** From every reachable state of every run there is a way on, without new work, without a
      cancellation and without an owner that stops untold, to a state in which no lifespan is
      active and the registry and every MCP field are those of the start. */
  lemma {:induction false} EveryLifespanCanEnd(start: State, events: seq<Event>, s: State)
    returns (more: seq<Event>, end: State)
    requires Initial(start) && Run(start, events, s) && Public(events)
    ensures Ending(s, more, end) && Run(s, more, end)
    ensures end.scopeLock.None? && end.f == start.f.(signals := end.f.signals)
  {
    Reachable(start, events, s);
    InitialTransport(start);
    RunTold(start, events, s);
    ActiveEnds(s);
    more, end :| Ending(s, more, end) && end.scopeLock.None?;
    EndingIsRun(s, more, end);
    RunKeepsLeases(s, more, end);
    NativeIsConstant(start, events, s);
    NativeIsConstant(s, more, end);
  }
}
