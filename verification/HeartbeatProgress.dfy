/** What the heartbeat's methods bring about (k2do/heartbeat/service.py, 76-191): when a start
    creates a worker, that a stop reaches the worker, and that every wait can end. */
module HeartbeatProgress {
  import opened Prelude
  import opened Heartbeat

  // ---------- when a start creates a worker ----------

  predicate Stops(e: Event) {
    e.Stop? || e.Aclose?
  }

  /** No stop and no aclose happens in the run. */
  predicate Unstopped(events: seq<Event>) {
    forall i | 0 <= i < |events| :: !Stops(events[i])
  }

  lemma {:induction false} OtherStepsKeepGeneration(s: State, e: Event)
    requires Enabled(s, e) && !Stops(e)
    ensures Step(s, e).v.stopGeneration == s.v.stopGeneration
  {
  }

  lemma {:induction false} UnstoppedKeepsGeneration(s: State, events: seq<Event>, end: State)
    requires Run(s, events, end) && Unstopped(events)
    ensures end.v.stopGeneration == s.v.stopGeneration
    decreases |events|
  {
    if events != [] {
      OtherStepsKeepGeneration(s, events[0]);
      UnstoppedKeepsGeneration(Step(s, events[0]), events[1..], end);
    }
  }

  /** A worker of the service is at work. */
  predicate AtWork(s: State) {
    s.v.running && s.v.task.Some? && s.v.task.value in s.workers && s.workers[s.v.task.value].vitals.alive
  }

  lemma {:induction false} ResumedExactly(s: State, c: Caller, worker: Worker, raises: bool)
    requires Enabled(s, ResumeStart(c, worker, raises))
    ensures worker in Step(s, ResumeStart(c, worker, raises)).workers <==>
              !raises && s.v.stopGeneration == s.callers[c].generation && !AtWork(s)
    ensures worker !in Step(s, ResumeStart(c, worker, raises)).workers ==>
              && Step(s, ResumeStart(c, worker, raises)).workers == s.workers
              && Step(s, ResumeStart(c, worker, raises)).v.task == s.v.task
              && Step(s, ResumeStart(c, worker, raises)).v.running == s.v.running
    ensures worker in Step(s, ResumeStart(c, worker, raises)).workers ==>
              && Step(s, ResumeStart(c, worker, raises)).workers == s.workers[worker := WorkerState(Vitals(true, 0), 0)]
              && Step(s, ResumeStart(c, worker, raises)).v.task == Some(worker)
              && Step(s, ResumeStart(c, worker, raises)).v.running
  {
  }

  /** A start whose wait raised, whatever state it comes back in, creates no worker and leaves
      the service's worker and flag alone. */
  lemma {:induction false} RaisedStartCreatesNothing(s: State, c: Caller, worker: Worker)
    requires Enabled(s, ResumeStart(c, worker, true))
    ensures Step(s, ResumeStart(c, worker, true)).workers == s.workers
    ensures Step(s, ResumeStart(c, worker, true)).v.task == s.v.task
    ensures Step(s, ResumeStart(c, worker, true)).v.running == s.v.running
  {
    ResumedExactly(s, c, worker, true);
  }

  /** A start that waited creates its worker exactly when the wait did not raise, no stop and
      no aclose came since it was called, and no worker is at work. */
  lemma {:induction false} PendingStartCreatesExactly(s: State, c: Caller, drain: Drain, worker: Worker,
                                                      events: seq<Event>, end: State, worker': Worker, raises: bool)
    requires Enabled(s, Start(c, drain, worker))
    requires var s' := Step(s, Start(c, drain, worker));
             && c in s'.callers && s'.callers[c].Starting?
             && Run(s', events, end) && StillPending(events, c)
    requires Enabled(end, ResumeStart(c, worker', raises))
    ensures worker' in Step(end, ResumeStart(c, worker', raises)).workers <==>
              !raises && Unstopped(events) && !AtWork(end)
  {
    var s' := Step(s, Start(c, drain, worker));
    PendingStartThroughRun(s', events, end, c);
    StartGeneration(s, c, drain, worker);
    ResumedExactly(end, c, worker', raises);
    if Unstopped(events) {
      UnstoppedKeepsGeneration(s', events, end);
    } else {
      var i :| 0 <= i < |events| && Stops(events[i]);
      assert events[i].Stop? || events[i].Aclose?;
    }
  }

  lemma {:induction false} StartGeneration(s: State, c: Caller, drain: Drain, worker: Worker)
    requires Enabled(s, Start(c, drain, worker))
    ensures var s' := Step(s, Start(c, drain, worker));
            c in s'.callers && s'.callers[c].Starting? ==> s'.callers[c].generation == s'.v.stopGeneration
  {
  }

  /** A start does nothing while a worker is at work; with nothing recorded it creates its
      worker at once; else it creates none and waits for the recorded drain, or for a new
      drain of the recorded worker. */
  lemma {:induction false} StartLaw(s: State, c: Caller, drain: Drain, worker: Worker)
    requires Enabled(s, Start(c, drain, worker))
    ensures var s' := Step(s, Start(c, drain, worker));
            if AtWork(s) then s' == s
            else if s.v.task.None? && s.v.closeTask.None? then
              s' == s.(v := s.v.(running := true, task := Some(worker), cancelRequested := None),
                       workers := s.workers[worker := WorkerState(Vitals(true, 0), 0)])
            else
              && s'.workers == s.workers && s'.v.task == s.v.task && c in s'.callers && s'.callers[c].Starting?
              && s'.v.closeTask == Some(s'.callers[c].drain)
              && (if s.v.closeTask.Some? then s'.v == s.v && s'.drains == s.drains
                  else !s'.v.running && s'.drains == s.drains[drain := DrainState(s.v.task.value, false, false)]
                       && s'.callers[c].drain == drain)
  {
  }

  // ---------- a stop reaches the worker ----------

  /** The worker is finished, was cancelled by the service, or has a cancel pending. */
  predicate Reached(s: State, w: Worker) {
    w in s.workers && (!s.workers[w].vitals.alive || s.workers[w].cancels == 1 || s.workers[w].vitals.cancelling > 0)
  }

  /** The cancel remembered for a live worker was issued. */
  predicate RequestOk(s: State) {
    forall w | w in s.workers && s.workers[w].vitals.alive :: s.v.cancelRequested == Some(w) ==> s.workers[w].cancels > 0
  }

  lemma {:induction false} StepKeepsRequest(s: State, e: Event)
    requires RequestOk(s) && Enabled(s, e)
    requires (s.v.task.Some? ==> s.v.task.value in s.workers)
    requires (forall d | d in s.drains :: s.drains[d].worker in s.workers)
    ensures RequestOk(Step(s, e))
  {
  }

  lemma {:induction false} RunKeepsRequest(s: State, events: seq<Event>, end: State)
    requires Inv(s) && RequestOk(s) && Run(s, events, end) && Obedient(events)
    ensures Inv(end) && RequestOk(end)
    decreases |events|
  {
    if events != [] {
      StepKeepsRequest(s, events[0]);
      StepKeeps(s, events[0]);
      RunKeepsRequest(Step(s, events[0]), events[1..], end);
    }
  }

  /** In every run, after a stop or an aclose, and when a drain begins, the worker concerned
      is finished, was cancelled by the service, or has a cancel pending; and a stop changes
      neither the worker's record nor the recorded drain. */
  lemma {:induction false} StopReachesTheWorker(events: seq<Event>, s: State)
    requires Run(INITIAL, events, s) && Obedient(events)
    ensures !Step(s, Stop).v.running && Step(s, Stop).v.task == s.v.task && Step(s, Stop).v.closeTask == s.v.closeTask
    ensures s.v.task.Some? ==> Reached(Step(s, Stop), s.v.task.value)
    ensures forall c, d | Enabled(s, Aclose(c, d)) && s.v.task.Some? :: Reached(Step(s, Aclose(c, d)), s.v.task.value)
    ensures forall d | Enabled(s, DrainBegins(d)) :: Reached(Step(s, DrainBegins(d)), s.drains[d].worker)
  {
    RunKeepsRequest(INITIAL, events, s);
    StopReaches(s);
    forall c, d | Enabled(s, Aclose(c, d)) && s.v.task.Some? ensures Reached(Step(s, Aclose(c, d)), s.v.task.value) {
      AcloseReaches(s, c, d);
    }
    forall d | Enabled(s, DrainBegins(d)) ensures Reached(Step(s, DrainBegins(d)), s.drains[d].worker) {
      DrainReaches(s, d);
    }
  }

  lemma {:induction false} StopReaches(s: State)
    requires Inv(s) && RequestOk(s)
    ensures !Step(s, Stop).v.running && Step(s, Stop).v.task == s.v.task && Step(s, Stop).v.closeTask == s.v.closeTask
    ensures s.v.task.Some? ==> Reached(Step(s, Stop), s.v.task.value)
  {
  }

  lemma {:induction false} AcloseReaches(s: State, c: Caller, d: Drain)
    requires Inv(s) && RequestOk(s) && Enabled(s, Aclose(c, d)) && s.v.task.Some?
    ensures Reached(Step(s, Aclose(c, d)), s.v.task.value)
  {
    StopReaches(s);
  }

  lemma {:induction false} DrainReaches(s: State, d: Drain)
    requires Inv(s) && RequestOk(s) && Enabled(s, DrainBegins(d))
    ensures Reached(Step(s, DrainBegins(d)), s.drains[d].worker)
  {
  }

  // ---------- every wait can end ----------

  /** A step of a drain or of the end of a worker. */
  predicate Winds(e: Event) {
    e.DrainBegins? || e.WorkerEnds? || e.DrainEnds?
  }

  predicate OnlyWinds(events: seq<Event>) {
    forall i | 0 <= i < |events| :: Winds(events[i])
  }

  lemma {:induction false} OneMore(s: State, e: Event, events: seq<Event>, end: State)
    requires Enabled(s, e) && Winds(e) && Run(Step(s, e), events, end) && OnlyWinds(events)
    ensures Run(s, [e] + events, end) && OnlyWinds([e] + events)
  {
    assert ([e] + events)[1..] == events;
  }

  lemma {:induction false} DrainEndsNext(s: State, d: Drain) returns (more: seq<Event>, end: State)
    requires d in s.drains && s.drains[d].begun && (s.drains[d].done || !Alive(s, s.drains[d].worker))
    ensures Run(s, more, end) && OnlyWinds(more) && end.callers == s.callers && d in end.drains && end.drains[d].done
  {
    if s.drains[d].done {
      more, end := [], s;
    } else {
      end := Step(s, DrainEnds(d));
      OneMore(s, DrainEnds(d), [], end);
      more := [DrainEnds(d)] + [];
    }
  }

  lemma {:induction false} WorkerEndsNext(s: State, d: Drain) returns (more: seq<Event>, end: State)
    requires d in s.drains && s.drains[d].begun && (s.drains[d].done || !s.v.running)
    ensures Run(s, more, end) && OnlyWinds(more) && end.callers == s.callers && d in end.drains && end.drains[d].done
  {
    var w := s.drains[d].worker;
    if s.drains[d].done || !Alive(s, w) {
      more, end := DrainEndsNext(s, d);
    } else {
      var rest;
      rest, end := DrainEndsNext(Step(s, WorkerEnds(w)), d);
      OneMore(s, WorkerEnds(w), rest, end);
      more := [WorkerEnds(w)] + rest;
    }
  }

  /** From every reachable state, whoever waits for a drain can come back: the drain begins,
      its worker ends as it was asked to, the drain ends, and nobody else has to move. */
  lemma {:induction false} EveryWaitCanEnd(events: seq<Event>, s: State, c: Caller) returns (more: seq<Event>, end: State)
    requires Run(INITIAL, events, s) && Obedient(events) && c in s.callers && !s.callers[c].Outside?
    ensures Run(s, more, end) && OnlyWinds(more) && end.callers == s.callers
    ensures s.callers[c].drain in end.drains && end.drains[s.callers[c].drain].done
    ensures s.callers[c].Closing? ==> Enabled(end, ResumeClose(c))
  {
    RunKeeps(INITIAL, events, s);
    assert CallerOk(s, s.callers[c]);
    var d := s.callers[c].drain;
    if s.drains[d].begun {
      more, end := WorkerEndsNext(s, d);
    } else {
      var rest;
      rest, end := WorkerEndsNext(Step(s, DrainBegins(d)), d);
      OneMore(s, DrainBegins(d), rest, end);
      more := [DrainBegins(d)] + rest;
    }
  }
}
