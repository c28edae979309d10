/** What admission, scheduling and the terminal close bring about (k2do/agent/loop.py,
    1617-1636, 1719-1851): who is admitted, what is scheduled, that every consolidation task
    is cancelled, and when a close can return. */
module AgentProgress {
  import opened Prelude
  import opened AgentClose

  /** A task enters exactly when the agent is open: its own depth rises by one, and leaving
      again gives the agent's books back. */
  lemma {:induction false} AdmittedExactly(events: seq<Event>, t: Task)
    requires Possible(Initial(), events) && Enabled(Run(Initial(), events), Enter(t))
    ensures var s := Run(Initial(), events);
            var s' := Step(s, Enter(t));
            if s.gate.closing then s' == s
            else
              && s'.gate.entries == s.gate.entries[t := Frames(s, t) + 1] && Frames(s', t) == Frames(s, t) + 1
              && Enabled(s', Leave(t)) && Step(s', Leave(t)).gate == s.gate && Frames(Step(s', Leave(t)), t) == Frames(s, t)
  {
    InitialInv();
    RunInv(Initial(), events);
    if !Run(Initial(), events).gate.closing {
      BooksOfOne(Run(Initial(), events), t);
    }
  }

  lemma {:induction false} BooksOfOne(s: State, t: Task)
    requires Inv(s) && Enabled(s, Enter(t)) && !s.gate.closing
    ensures var s' := Step(s, Enter(t));
            && s'.gate.entries == s.gate.entries[t := Frames(s, t) + 1] && Frames(s', t) == Frames(s, t) + 1
            && Enabled(s', Leave(t)) && Step(s', Leave(t)).gate == s.gate && Frames(Step(s', Leave(t)), t) == Frames(s, t)
  {
    var s' := Step(s, Enter(t));
    assert Step(s', Leave(t)).gate.entries == s.gate.entries;
  }

  /** Scheduling creates a task exactly when the agent is open and no unfinished task is
      registered under the key. */
  lemma {:induction false} ScheduledExactly(s: State, key: Key, t: Task)
    requires Enabled(s, Schedule(key, t))
    ensures var s' := Step(s, Schedule(key, t));
            if !s.gate.closing && !(key in s.gate.jobs && s.gate.jobs[key] !in s.done)
            then s'.gate.jobs == s.gate.jobs[key := t] && t in s'.jobTasks && t in s'.known
            else s' == s
  {
  }

  /** In every run, a stop cancels every unfinished consolidation task that was not cancelled
      before, and so does a drain when it starts, but for the task it excludes and the tasks
      inside a public operation; from then on the drain awaits all of them, and those. */
  lemma {:induction false} EveryJobIsCancelled(events: seq<Event>, t: Task)
    requires Possible(Initial(), events)
    requires var s := Run(Initial(), events); t in s.jobTasks && t !in s.done
    ensures var s := Run(Initial(), events); t in Step(s, Stop).everCancelled
    ensures var s := Run(Initial(), events);
            forall d | Enabled(s, DrainStarts(d)) && t != s.drains[d].excluded ::
              && (t !in s.gate.entries ==> t in Step(s, DrainStarts(d)).everCancelled)
              && t in Awaited(Step(s, DrainStarts(d)).drains[d])
  {
    InitialInv();
    RunInv(Initial(), events);
    var s := Run(Initial(), events);
    forall d | Enabled(s, DrainStarts(d)) && t != s.drains[d].excluded
      ensures (t !in s.gate.entries ==> t in Step(s, DrainStarts(d)).everCancelled)
      ensures t in Awaited(Step(s, DrainStarts(d)).drains[d])
    {
      JobCancelled(s, t, d);
    }
  }

  lemma {:induction false} JobCancelled(s: State, t: Task, d: Drain)
    requires Inv(s) && t in s.jobTasks && t !in s.done && Enabled(s, DrainStarts(d)) && t != s.drains[d].excluded
    ensures t !in s.gate.entries ==> t in Step(s, DrainStarts(d)).everCancelled
    ensures t in Awaited(Step(s, DrainStarts(d)).drains[d])
  {
  }

  /** A close that returns forgets the drain it waited for, if that is the recorded one, and
      then the next close starts a drain of its own. */
  lemma {:induction false} ReturnForgets(s: State, t: Task, u: Task, d: Drain)
    requires Enabled(s, CloseReturns(t))
    ensures var s' := Step(s, CloseReturns(t));
            && s'.gate.closeTask == (if s.gate.closeTask == Some(s.waiters[t].drain) then None else s.gate.closeTask)
            && t !in s'.waiters && s'.drains == s.drains
            && (Enabled(s', CallClose(u, d)) && u !in s'.gate.entries ==>
                  WaitsFor(Step(s', CallClose(u, d)), u, if s'.gate.closeTask.Some? then s'.gate.closeTask.value else d))
  {
  }

  // ---------- when a close can return ----------

  /** A drain awaits tasks that exist. */
  ghost predicate WaitKnown(s: State) {
    forall d | d in s.drains && s.drains[d].phase.Waiting? :: Awaited(s.drains[d]) <= s.known
  }

  lemma {:induction false} StepKnown(s: State, e: Event)
    requires Inv(s) && WaitKnown(s) && Enabled(s, e)
    ensures WaitKnown(Step(s, e))
  {
    var s' := Step(s, e);
    forall d | d in s'.drains && s'.drains[d].phase.Waiting? ensures Awaited(s'.drains[d]) <= s'.known {
      if e.DrainStarts? && e.drain == d {
        assert FoundActive(s, s.drains[d].excluded) <= s.known;
      }
    }
  }

  lemma {:induction false} RunKnown(s: State, events: seq<Event>)
    requires Inv(s) && WaitKnown(s) && Possible(s, events)
    ensures Inv(Run(s, events)) && WaitKnown(Run(s, events))
    decreases |events|
  {
    if events != [] {
      StepInv(s, events[0]);
      StepKnown(s, events[0]);
      RunKnown(Step(s, events[0]), events[1..]);
    }
  }

  predicate WaitsFor(s: State, t: Task, d: Drain) {
    t in s.waiters && s.waiters[t].drain == d
  }

  predicate Waits(s: State, d: Drain) {
    d in s.drains && s.drains[d].phase.Waiting?
  }

  /** A task that the drain awaits waits for that drain itself, inside `aclose`. */
  predicate AwaitsItsWaiter(s: State, d: Drain, u: Task) {
    Waits(s, d) && u in Awaited(s.drains[d]) && u !in s.done && WaitsFor(s, u, d)
  }

  /** There is a way on, after which the waiter's `aclose` returns. */
  ghost predicate CanReturn(s: State, t: Task, d: Drain) {
    exists events ::
      Possible(s, events) && WaitsFor(Run(s, events), t, d) && Enabled(Run(s, events), CloseReturns(t))
  }

  lemma {:induction false} StuckStep(s: State, e: Event, d: Drain, u: Task)
    requires AwaitsItsWaiter(s, d, u) && Enabled(s, e)
    ensures AwaitsItsWaiter(Step(s, e), d, u)
  {
  }

  lemma {:induction false} StuckForGood(s: State, events: seq<Event>, d: Drain, u: Task)
    requires AwaitsItsWaiter(s, d, u) && Possible(s, events)
    ensures AwaitsItsWaiter(Run(s, events), d, u)
    decreases |events|
  {
    if events != [] {
      StuckStep(s, events[0], d, u);
      StuckForGood(Step(s, events[0]), events[1..], d, u);
    }
  }

  lemma {:induction false} ReturnsAfter(s: State, e: Event, t: Task, d: Drain)
    requires Enabled(s, e) && CanReturn(Step(s, e), t, d)
    ensures CanReturn(s, t, d)
  {
    var events :| Possible(Step(s, e), events) && WaitsFor(Run(Step(s, e), events), t, d)
                  && Enabled(Run(Step(s, e), events), CloseReturns(t));
    assert ([e] + events)[1..] == events;
    assert Possible(s, [e] + events) && Run(s, [e] + events) == Run(Step(s, e), events);
  }

  ghost predicate Ready(s: State, t: Task, d: Drain) {
    Inv(s) && WaitKnown(s) && WaitsFor(s, t, d) && Waits(s, d) && forall u :: !AwaitsItsWaiter(s, d, u)
  }

  lemma {:induction false} AllDoneReturns(s: State, t: Task, d: Drain)
    requires Ready(s, t, d) && Awaited(s.drains[d]) <= s.done
    ensures CanReturn(s, t, d)
  {
    var s' := Step(s, DrainEnds(d));
    assert Possible(s', []) && Run(s', []) == s';
    ReturnsAfter(s, DrainEnds(d), t, d);
  }

  /** The next step of a task towards its end. */
  function Retirement(s: State, u: Task): Event {
    if u in s.waiters then CloseReturns(u) else if Frames(s, u) > 0 then Leave(u) else TaskEnds(u)
  }

  lemma {:induction false} RetiresNext(s: State, t: Task, d: Drain, u: Task)
    requires Ready(s, t, d) && u in Awaited(s.drains[d]) && u !in s.done
    ensures Enabled(s, Retirement(s, u)) && u != t
    ensures var s' := Step(s, Retirement(s, u));
            s'.drains == s.drains && WaitsFor(s', t, d) && forall v | v in s'.waiters :: v in s.waiters && s'.waiters[v] == s.waiters[v]
  {
    assert !AwaitsItsWaiter(s, d, t) && !AwaitsItsWaiter(s, d, u);
  }

  lemma {:induction false} StaysReady(s: State, s': State, t: Task, d: Drain)
    requires Ready(s, t, d) && Inv(s') && WaitKnown(s') && s'.drains == s.drains && WaitsFor(s', t, d) && s.done <= s'.done
    requires forall v | v in s'.waiters :: v in s.waiters && s'.waiters[v] == s.waiters[v]
    ensures Ready(s', t, d)
  {
    forall u ensures !AwaitsItsWaiter(s', d, u) {
      assert !AwaitsItsWaiter(s, d, u);
    }
  }

  lemma {:induction false} ReadyNext(s: State, t: Task, d: Drain, u: Task)
    requires Ready(s, t, d) && u in Awaited(s.drains[d]) && u !in s.done && Enabled(s, Retirement(s, u))
    ensures Ready(Step(s, Retirement(s, u)), t, d)
  {
    var e := Retirement(s, u);
    RetiresNext(s, t, d, u);
    StepInv(s, e);
    StepKnown(s, e);
    StaysReady(s, Step(s, e), t, d);
  }

  lemma {:induction false} Retires(s: State, t: Task, d: Drain, u: Task)
    requires Ready(s, t, d) && u in Awaited(s.drains[d]) && u !in s.done
    ensures CanReturn(s, t, d)
    decreases |Awaited(s.drains[d]) - s.done|, 1, if u in s.waiters then 1 else 0, Frames(s, u)
  {
    var e := Retirement(s, u);
    RetiresNext(s, t, d, u);
    var s' := Step(s, e);
    ReadyNext(s, t, d, u);
    if e.TaskEnds? {
      assert Awaited(s'.drains[d]) - s'.done == (Awaited(s.drains[d]) - s.done) - {u};
      ReadyReturns(s', t, d);
    } else {
      assert s'.done == s.done;
      Retires(s', t, d, u);
    }
    ReturnsAfter(s, e, t, d);
  }

  lemma {:induction false} ReadyReturns(s: State, t: Task, d: Drain)
    requires Ready(s, t, d)
    ensures CanReturn(s, t, d)
    decreases |Awaited(s.drains[d]) - s.done|, 2
  {
    if Awaited(s.drains[d]) <= s.done {
      AllDoneReturns(s, t, d);
    } else {
      var u :| u in Awaited(s.drains[d]) && u !in s.done;
      Retires(s, t, d, u);
    }
  }

  /** In every run, once a drain waits for its tasks, an `aclose` that waits for the drain can
      still return exactly when none of those tasks is itself inside an `aclose` that waits
      for the same drain. */
  lemma {:induction false} CloseCanReturnExactly(events: seq<Event>, t: Task, d: Drain)
    requires Possible(Initial(), events)
    requires WaitsFor(Run(Initial(), events), t, d) && Waits(Run(Initial(), events), d)
    ensures var s := Run(Initial(), events);
            CanReturn(s, t, d) <==> forall u :: !AwaitsItsWaiter(s, d, u)
  {
    InitialInv();
    RunKnown(Initial(), events);
    var s := Run(Initial(), events);
    if forall u :: !AwaitsItsWaiter(s, d, u) {
      ReadyReturns(s, t, d);
    } else {
      var u :| AwaitsItsWaiter(s, d, u);
      forall more | Possible(s, more) && WaitsFor(Run(s, more), t, d) ensures !Enabled(Run(s, more), CloseReturns(t)) {
        StuckForGood(s, more, d, u);
      }
    }
  }

  const DEADLOCK: seq<Event> :=
    [TaskStarts(1), Schedule("k", 2), CallClose(1, 10), CallClose(2, 11), DrainStarts(10)]

  /** A consolidation task that closes the agent behind another caller waits for itself. */
  lemma {:induction false} ClosingJobDeadlocks()
    ensures Possible(Initial(), DEADLOCK) && AwaitsItsWaiter(Run(Initial(), DEADLOCK), 10, 2)
    ensures WaitsFor(Run(Initial(), DEADLOCK), 1, 10) && !CanReturn(Run(Initial(), DEADLOCK), 1, 10)
  {
    DeadlockReached(DEADLOCK);
    CloseCanReturnExactly(DEADLOCK, 1, 10);
  }

  lemma {:induction false} DeadlockReached(events: seq<Event>)
    requires events == DEADLOCK
    ensures Possible(Initial(), events) && AwaitsItsWaiter(Run(Initial(), events), 10, 2) && WaitsFor(Run(Initial(), events), 1, 10)
  {
    var s1 := Step(Initial(), events[0]);
    var s2 := Step(s1, events[1]);
    var s3 := Step(s2, events[2]);
    var s4 := Step(s3, events[3]);
    var s5 := Step(s4, events[4]);
    assert events[1..][1..][1..][1..][1..] == [];
    assert s2.gate.jobs == map["k" := 2];
    assert Run(s4, events[4..]) == s5;
  }
}
