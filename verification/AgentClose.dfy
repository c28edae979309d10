/** Admission to the agent and its terminal close (k2do/agent/loop.py, 1617-1636, 1719-1851). */
module AgentClose {
  import opened Prelude

  type Task = nat
  type Drain = nat
  type Key = string

  // ---------- the agent's fields ----------

  datatype Gate = Gate(
    closing: bool,
    entries: map<Task, nat>,      // depth of open public operations, by task
    jobs: map<Key, Task>,         // consolidation tasks
    cancelledJobs: set<Task>,
    closeTask: Option<Drain>)

  function Depth(g: Gate, t: Task): nat {
    if t in g.entries then g.entries[t] else 0
  }

  function Entered(g: Gate, t: Task): Gate {
    g.(entries := g.entries[t := Depth(g, t) + 1])
  }

  function Left(g: Gate, t: Task): Gate {
    g.(entries := if Depth(g, t) <= 1 then g.entries - {t} else g.entries[t := Depth(g, t) - 1])
  }

  /** Whether scheduling under `key` creates a task; `done` are the finished tasks. */
  predicate Schedules(g: Gate, key: Key, done: set<Task>) {
    !g.closing && (key in g.jobs ==> g.jobs[key] in done)
  }

  function Scheduled(g: Gate, key: Key, t: Task): Gate {
    g.(jobs := g.jobs[key := t])
  }

  /** The end of a consolidation task that got as far as running. */
  function RunnerLeft(g: Gate, key: Key, t: Task): Gate {
    g.(jobs := if key in g.jobs && g.jobs[key] == t then g.jobs - {key} else g.jobs,
       cancelledJobs := g.cancelledJobs - {t})
  }

  /** Which of `tasks` get a cancellation when each is cancelled at most once. */
  function CancelsOnce(g: Gate, tasks: set<Task>, done: set<Task>): set<Task> {
    tasks - done - g.cancelledJobs
  }

  function CancelledOnce(g: Gate, tasks: set<Task>, done: set<Task>): Gate {
    g.(cancelledJobs := g.cancelledJobs + CancelsOnce(g, tasks, done))
  }

  function Closing(g: Gate, drain: Drain): Gate {
    g.(closing := true, closeTask := if g.closeTask.Some? then g.closeTask else Some(drain))
  }

  /** The bookkeeping after the owned tasks have been gathered. */
  function Reaped(g: Gate, entries: map<Key, Task>, active: set<Task>, done: set<Task>): Gate {
    g.(jobs := map key | key in g.jobs && !(key in entries && entries[key] == g.jobs[key] && entries[key] in done) :: g.jobs[key],
       cancelledJobs := g.cancelledJobs - (entries.Values * done),
       entries := g.entries - (active * done))
  }

  function Collected(g: Gate, drain: Drain): Gate {
    if g.closeTask == Some(drain) then g.(closeTask := None) else g
  }

  function Members(tasks: seq<Task>): set<Task> {
    set t | t in tasks
  }

  lemma {:induction false} MembersMore(tasks: seq<Task>, k: nat)
    requires k < |tasks|
    ensures Members(tasks[..k + 1]) == Members(tasks[..k]) + {tasks[k]}
  {
    assert tasks[..k + 1] == tasks[..k] + [tasks[k]];
  }

  /** `found` lists the items of `listed`. */
  predicate Lists(found: seq<(Key, Task)>, listed: map<Key, Task>) {
    && (forall p | p in found :: p.0 in listed && listed[p.0] == p.1)
    && (forall key | key in listed :: (key, listed[key]) in found)
  }

  predicate IsListed(found: seq<(Key, Task)>, t: Task) {
    exists p | p in found :: p.1 == t
  }

  lemma {:induction false} ListedMore(found: seq<(Key, Task)>, k: nat)
    requires k < |found|
    ensures forall t :: IsListed(found[..k + 1], t) <==> IsListed(found[..k], t) || found[k].1 == t
    ensures forall p :: p in found[..k + 1] <==> p in found[..k] || p == found[k]
  {
    assert found[..k + 1] == found[..k] + [found[k]];
    forall t ensures IsListed(found[..k + 1], t) <==> IsListed(found[..k], t) || found[k].1 == t {
      if IsListed(found[..k], t) {
        var p :| p in found[..k] && p.1 == t;
        assert p in found[..k + 1];
      }
      assert found[k] in found[..k + 1];
    }
  }

  lemma {:induction false} ListedValues(found: seq<(Key, Task)>, listed: map<Key, Task>)
    requires Lists(found, listed)
    ensures forall t :: IsListed(found, t) <==> t in listed.Values
  {
    forall t ensures IsListed(found, t) <==> t in listed.Values {
      if IsListed(found, t) {
        var p :| p in found && p.1 == t;
        assert listed[p.0] == t;
      }
      if t in listed.Values {
        var key :| key in listed && listed[key] == t;
        assert (key, listed[key]) in found;
      }
    }
  }

  lemma {:induction false} ReapedIs(g: Gate, g': Gate, found: seq<(Key, Task)>, listed: map<Key, Task>, active: set<Task>, done: set<Task>)
    requires Lists(found, listed)
    requires g'.closing == g.closing && g'.closeTask == g.closeTask && g'.entries == g.entries - (active * done)
    requires forall key | key in g'.jobs :: key in g.jobs && g'.jobs[key] == g.jobs[key]
    requires forall key | key in g.jobs :: key !in g'.jobs <==> g.jobs[key] in done && (key, g.jobs[key]) in found
    requires forall t :: t in g'.cancelledJobs <==> t in g.cancelledJobs && !(t in done && IsListed(found, t))
    ensures g' == Reaped(g, listed, active, done)
  {
    ListedValues(found, listed);
    var r := Reaped(g, listed, active, done);
    forall key | key in g.jobs ensures key in r.jobs <==> key in g'.jobs {
      if key in listed && listed[key] == g.jobs[key] {
        assert (key, listed[key]) in found;
      }
      if (key, g.jobs[key]) in found {
        assert listed[(key, g.jobs[key]).0] == g.jobs[key];
      }
    }
    assert g'.jobs == r.jobs;
    forall t ensures t in r.cancelledJobs <==> t in g'.cancelledJobs {
    }
    assert g'.cancelledJobs == r.cancelledJobs;
  }

  class AgentGate {
    var closing: bool
    var entries: map<Task, nat>
    var jobs: map<Key, Task>
    var cancelledJobs: set<Task>
    var closeTask: Option<Drain>

    ghost function View(): Gate
      reads this
    {
      Gate(closing, entries, jobs, cancelledJobs, closeTask)
    }

    constructor ()
      ensures View() == Gate(false, map[], map[], {}, None)
    {
      closing, entries, jobs, cancelledJobs, closeTask := false, map[], map[], {}, None;
    }

    /** The admission half of `_agent_entry`. */
    method Enter(t: Task) returns (admitted: bool)
      modifies `entries
      ensures admitted == !closing
      ensures View() == if admitted then Entered(old(View()), t) else old(View())
    {
      if closing {
        return false;
      }
      entries := entries[t := (if t in entries then entries[t] else 0) + 1];
      return true;
    }

    /** The `finally` of `_agent_entry`. */
    method Leave(t: Task)
      modifies `entries
      ensures View() == Left(old(View()), t)
    {
      var depth := if t in entries then entries[t] else 0;
      if depth <= 1 {
        entries := entries - {t};
      } else {
        entries := entries[t := depth - 1];
      }
    }

    /** `_schedule_consolidation`; `fresher` is the task created when one is. */
    method Schedule(key: Key, fresher: Task, done: set<Task>) returns (created: bool)
      modifies `jobs
      ensures created == Schedules(old(View()), key, done)
      ensures View() == if created then Scheduled(old(View()), key, fresher) else old(View())
    {
      if closing {
        return false;
      }
      if key in jobs && jobs[key] !in done {
        return false;
      }
      jobs := jobs[key := fresher];
      return true;
    }

    /** The `finally` of a consolidation task. */
    method LeaveRunner(key: Key, t: Task)
      modifies `jobs, `cancelledJobs
      ensures View() == RunnerLeft(old(View()), key, t)
    {
      if key in jobs && jobs[key] == t {
        jobs := jobs - {key};
      }
      cancelledJobs := cancelledJobs - {t};
    }

    /** Cancel each task of a list at most once. */
    method CancelOnce(tasks: seq<Task>, done: set<Task>) returns (issued: set<Task>)
      modifies `cancelledJobs
      ensures View() == CancelledOnce(old(View()), Members(tasks), done)
      ensures issued == CancelsOnce(old(View()), Members(tasks), done)
    {
      issued := {};
      var k := 0;
      while k < |tasks|
        invariant 0 <= k <= |tasks|
        invariant issued == CancelsOnce(old(View()), Members(tasks[..k]), done)
        invariant cancelledJobs == old(cancelledJobs) + issued
      {
        var t := tasks[k];
        MembersMore(tasks, k);
        if t !in done && t !in cancelledJobs {
          cancelledJobs := cancelledJobs + {t};
          issued := issued + {t};
        }
        k := k + 1;
      }
      assert tasks[..k] == tasks;
    }

    /** The first half of `aclose`; `newDrain` is the task created when there is none. */
    method BeginClose(caller: Task, newDrain: Drain) returns (drain: Option<Drain>)
      modifies `closing, `closeTask
      ensures drain.None? <==> caller in entries
      ensures View() == if drain.Some? then Closing(old(View()), newDrain) else old(View())
      ensures drain.Some? ==> drain == closeTask
    {
      if caller in entries {
        return None;
      }
      closing := true;
      if closeTask.None? {
        closeTask := Some(newDrain);
      }
      return closeTask;
    }

    /** The `finally` of `_drain_agent_owned_work`: `found` lists the consolidation tasks it found. */
    method Reap(found: seq<(Key, Task)>, active: seq<Task>, done: set<Task>)
      modifies `entries, `jobs, `cancelledJobs
      ensures forall listed: map<Key, Task> | Lists(found, listed) ::
                View() == Reaped(old(View()), listed, Members(active), done)
    {
      var k := 0;
      while k < |found|
        invariant 0 <= k <= |found| && entries == old(entries)
        invariant forall key | key in jobs :: key in old(jobs) && jobs[key] == old(jobs)[key]
        invariant forall key | key in old(jobs) :: key !in jobs <==> old(jobs)[key] in done && (key, old(jobs)[key]) in found[..k]
        invariant forall t :: t in cancelledJobs <==> t in old(cancelledJobs) && !(t in done && IsListed(found[..k], t))
      {
        var (key, t) := found[k];
        ListedMore(found, k);
        if t in done && key in jobs && jobs[key] == t {
          jobs := jobs - {key};
        }
        if t in done {
          cancelledJobs := cancelledJobs - {t};
        }
        k := k + 1;
      }
      assert found[..k] == found;
      ghost var keptJobs, keptCancelled := jobs, cancelledJobs;
      k := 0;
      while k < |active|
        invariant 0 <= k <= |active| && jobs == keptJobs && cancelledJobs == keptCancelled
        invariant entries == old(entries) - (Members(active[..k]) * done)
      {
        MembersMore(active, k);
        if active[k] in done {
          entries := entries - {active[k]};
        }
        k := k + 1;
      }
      assert active[..k] == active;
      forall listed: map<Key, Task> | Lists(found, listed)
        ensures View() == Reaped(old(View()), listed, Members(active), done)
      {
        ReapedIs(old(View()), View(), found, listed, Members(active), done);
      }
    }

    /** The second half of `aclose`, once the shared drain is done. */
    method CollectClose(drain: Drain)
      modifies `closeTask
      ensures View() == Collected(old(View()), drain)
    {
      if closeTask == Some(drain) {
        closeTask := None;
      }
    }
  }

  // ---------- the step machine ----------

  /** A drain: created; waiting for the tasks it found; finished. */
  datatype Phase = Pending | Waiting(found: map<Key, Task>, active: set<Task>) | Finished

  datatype Work = Work(phase: Phase, excluded: Task)

  datatype Waiter = Waiter(drain: Drain, cancelled: bool)

  datatype State = State(
    gate: Gate,
    known: set<Task>,            // tasks created so far
    done: set<Task>,
    jobTasks: set<Task>,         // tasks created for consolidation
    frames: map<Task, nat>,      // open `_agent_entry` frames
    drains: map<Drain, Work>,
    waiters: map<Task, Waiter>,  // tasks inside `aclose`
    everCancelled: set<Task>)    // tasks that got a cancellation "once"

  datatype Event =
    | TaskStarts(t: Task)
    | TaskEnds(t: Task)
    | Enter(t: Task)
    | Leave(t: Task)
    | Schedule(key: Key, t: Task)
    | RunnerEnds(key: Key, t: Task)
    | Stop
    | CallClose(t: Task, drain: Drain)
    | CancelWaiter(t: Task)
    | DrainStarts(drain: Drain)
    | DrainEnds(drain: Drain)
    | CloseReturns(t: Task)

  function Frames(s: State, t: Task): nat {
    if t in s.frames then s.frames[t] else 0
  }

  predicate Alive(s: State, t: Task) {
    t in s.known && t !in s.done
  }

  /** A task that can take a step of its own: it is not waiting inside `aclose`. */
  predicate Free(s: State, t: Task) {
    Alive(s, t) && t !in s.waiters
  }

  /** The tasks a drain waits for. */
  function Awaited(work: Work): set<Task>
    requires work.phase.Waiting?
  {
    (work.phase.found.Values - {work.excluded}) + work.phase.active
  }

  predicate Enabled(s: State, e: Event) {
    match e
    case TaskStarts(t) => t !in s.known
    case TaskEnds(t) => Free(s, t) && Frames(s, t) == 0
    case Enter(t) => Free(s, t)
    case Leave(t) => Free(s, t) && Frames(s, t) > 0
    case Schedule(_, t) => t !in s.known
    case RunnerEnds(_, t) => Free(s, t) && t in s.jobTasks && Frames(s, t) == 0
    case Stop => true
    case CallClose(t, d) => Free(s, t) && d !in s.drains
    case CancelWaiter(t) => t in s.waiters
    case DrainStarts(d) => d in s.drains && s.drains[d].phase.Pending?
    case DrainEnds(d) => d in s.drains && s.drains[d].phase.Waiting? && Awaited(s.drains[d]) <= s.done
    case CloseReturns(t) =>
      && t in s.waiters && s.waiters[t].drain in s.drains && s.drains[s.waiters[t].drain].phase.Finished?
  }

  function DoStart(s: State, t: Task): State {
    s.(known := s.known + {t})
  }

  /** A task ends; a consolidation task that ends this way was cancelled before it ran. */
  function DoEnd(s: State, t: Task): State {
    s.(done := s.done + {t})
  }

  function DoEnter(s: State, t: Task): State {
    if s.gate.closing then s
    else s.(gate := Entered(s.gate, t), frames := s.frames[t := Frames(s, t) + 1])
  }

  function DoLeave(s: State, t: Task): State
    requires Frames(s, t) > 0
  {
    s.(gate := Left(s.gate, t), frames := s.frames[t := Frames(s, t) - 1])
  }

  function DoSchedule(s: State, key: Key, t: Task): State {
    if Schedules(s.gate, key, s.done) then
      s.(gate := Scheduled(s.gate, key, t), known := s.known + {t}, jobTasks := s.jobTasks + {t})
    else s
  }

  function DoRunnerEnd(s: State, key: Key, t: Task): State {
    s.(gate := RunnerLeft(s.gate, key, t), done := s.done + {t})
  }

  function DoCancel(s: State, tasks: set<Task>): State {
    s.(gate := CancelledOnce(s.gate, tasks, s.done),
       everCancelled := s.everCancelled + CancelsOnce(s.gate, tasks, s.done))
  }

  function DoCallClose(s: State, t: Task, d: Drain): State {
    if t in s.gate.entries then s
    else
      var gate := Closing(s.gate, d);
      s.(gate := gate,
         drains := if s.gate.closeTask.Some? then s.drains else s.drains[d := Work(Pending, t)],
         waiters := s.waiters[t := Waiter(gate.closeTask.value, false)])
  }

  function DoCancelWaiter(s: State, t: Task): State
    requires t in s.waiters
  {
    s.(waiters := s.waiters[t := s.waiters[t].(cancelled := true)])
  }

  function FoundActive(s: State, excluded: Task): set<Task> {
    s.gate.entries.Keys - {excluded} - s.done
  }

  function DoDrainStart(s: State, d: Drain): State
    requires d in s.drains
  {
    var work := s.drains[d];
    var active := FoundActive(s, work.excluded);
    var cancelled := DoCancel(s, s.gate.jobs.Values - {work.excluded} - active);
    cancelled.(gate := cancelled.gate.(closing := true),
               drains := s.drains[d := work.(phase := Waiting(s.gate.jobs, active))])
  }

  function DoDrainEnd(s: State, d: Drain): State
    requires d in s.drains && s.drains[d].phase.Waiting?
  {
    var work := s.drains[d];
    s.(gate := Reaped(s.gate, work.phase.found, work.phase.active, s.done),
       drains := s.drains[d := work.(phase := Finished)])
  }

  function DoCloseReturn(s: State, t: Task): State
    requires t in s.waiters
  {
    s.(gate := Collected(s.gate, s.waiters[t].drain), waiters := s.waiters - {t})
  }

  function Step(s: State, e: Event): State
    requires Enabled(s, e)
  {
    match e
    case TaskStarts(t) => DoStart(s, t)
    case TaskEnds(t) => DoEnd(s, t)
    case Enter(t) => DoEnter(s, t)
    case Leave(t) => DoLeave(s, t)
    case Schedule(key, t) => DoSchedule(s, key, t)
    case RunnerEnds(key, t) => DoRunnerEnd(s, key, t)
    case Stop => DoCancel(s, s.gate.jobs.Values)
    case CallClose(t, d) => DoCallClose(s, t, d)
    case CancelWaiter(t) => DoCancelWaiter(s, t)
    case DrainStarts(d) => DoDrainStart(s, d)
    case DrainEnds(d) => DoDrainEnd(s, d)
    case CloseReturns(t) => DoCloseReturn(s, t)
  }

  function Initial(): State {
    State(Gate(false, map[], map[], {}, None), {}, {}, {}, map[], map[], map[], {})
  }

  predicate Possible(s: State, events: seq<Event>)
    decreases |events|
  {
    events != [] ==> Enabled(s, events[0]) && Possible(Step(s, events[0]), events[1..])
  }

  function Run(s: State, events: seq<Event>): State
    requires Possible(s, events)
    decreases |events|
  {
    if events == [] then s else Run(Step(s, events[0]), events[1..])
  }

  // ---------- invariant ----------

  /** Each task's recorded depth is the number of its open frames, and only live tasks have any. */
  predicate Books(s: State) {
    && (forall t | t in s.gate.entries :: s.gate.entries[t] > 0 && t in s.frames && s.frames[t] == s.gate.entries[t])
    && (forall t | t in s.frames && s.frames[t] > 0 :: t in s.gate.entries && Alive(s, t))
  }

  predicate Jobs(s: State) {
    && s.done <= s.known && s.jobTasks <= s.known && s.gate.jobs.Values <= s.jobTasks
    && s.jobTasks - s.done <= s.gate.jobs.Values
  }

  /** A cancellation "once" is remembered for as long as the task lives. */
  predicate Cancels(s: State) {
    s.everCancelled - s.done <= s.gate.cancelledJobs <= s.everCancelled
  }

  /** The only unfinished drain is the shared one. */
  predicate Shared(s: State) {
    && (forall d | d in s.drains && !s.drains[d].phase.Finished? :: s.gate.closeTask == Some(d))
    && (s.gate.closeTask.Some? ==> s.gate.closeTask.value in s.drains)
    && (s.drains.Keys != {} ==> s.gate.closing)
    && (forall t | t in s.waiters :: s.waiters[t].drain in s.drains)
  }

  predicate WorkOk(s: State, work: Work) {
    && work.excluded !in s.gate.entries
    && match work.phase
       case Pending => true
       case Waiting(found, active) =>
         s.gate.entries.Keys <= active && forall key | key in s.gate.jobs :: key in found && found[key] == s.gate.jobs[key]
       case Finished => s.gate.entries.Keys == {} && s.gate.jobs.Values <= {work.excluded}
  }

  predicate Works(s: State) {
    forall d | d in s.drains :: WorkOk(s, s.drains[d])
  }

  predicate Inv(s: State) {
    Books(s) && Jobs(s) && Cancels(s) && Shared(s) && Works(s)
  }

  lemma {:induction false} FrameBooks(s: State, t: Task)
    requires Inv(s) && Alive(s, t)
    ensures Books(DoEnter(s, t)) && (Frames(s, t) > 0 ==> Books(DoLeave(s, t)))
  {
  }

  lemma {:induction false} ReapBooks(s: State, d: Drain)
    requires Inv(s) && Enabled(s, DrainEnds(d))
    ensures Books(DoDrainEnd(s, d))
  {
    assert DoDrainEnd(s, d).gate.entries == s.gate.entries;
  }

  lemma {:induction false} SameBooks(s: State, s': State)
    requires Books(s) && s'.gate.entries == s.gate.entries && s'.frames == s.frames && s.known <= s'.known
    requires forall t | t in s'.done && t !in s.done :: Frames(s, t) == 0
    ensures Books(s')
  {
  }

  lemma {:induction false} StepBooks(s: State, e: Event)
    requires Inv(s) && Enabled(s, e)
    ensures Books(Step(s, e))
  {
    match e
    case Enter(t) => FrameBooks(s, t);
    case Leave(t) => FrameBooks(s, t);
    case DrainEnds(d) => ReapBooks(s, d);
    case _ => SameBooks(s, Step(s, e));
  }

  lemma {:induction false} JobsKept(s: State, s': State)
    requires Jobs(s) && s'.jobTasks - s'.done <= s.jobTasks - s.done
    requires forall key | key in s.gate.jobs && s.gate.jobs[key] !in s'.done :: key in s'.gate.jobs && s'.gate.jobs[key] == s.gate.jobs[key]
    ensures s'.jobTasks - s'.done <= s'.gate.jobs.Values
  {
    forall t | t in s'.jobTasks - s'.done ensures t in s'.gate.jobs.Values {
      assert t in s.gate.jobs.Values;
      var key :| key in s.gate.jobs && s.gate.jobs[key] == t;
      assert key in s'.gate.jobs;
    }
  }

  lemma {:induction false} ScheduleJobs(s: State, key: Key, t: Task)
    requires Inv(s) && t !in s.known
    ensures Jobs(DoSchedule(s, key, t))
  {
    var s' := DoSchedule(s, key, t);
    if Schedules(s.gate, key, s.done) {
      forall u | u in s'.jobTasks - s'.done ensures u in s'.gate.jobs.Values {
        if u == t {
          assert s'.gate.jobs[key] == t;
        } else {
          assert u in s.gate.jobs.Values;
          var k :| k in s.gate.jobs && s.gate.jobs[k] == u;
          assert s'.gate.jobs[k] == u;
        }
      }
    }
  }

  lemma {:induction false} StepJobs(s: State, e: Event)
    requires Inv(s) && Enabled(s, e)
    ensures Jobs(Step(s, e))
  {
    if e.Schedule? {
      ScheduleJobs(s, e.key, e.t);
    } else {
      JobsKept(s, Step(s, e));
    }
  }

  lemma {:induction false} StepCancels(s: State, e: Event)
    requires Inv(s) && Enabled(s, e)
    ensures Cancels(Step(s, e))
  {
  }

  lemma {:induction false} StepShared(s: State, e: Event)
    requires Inv(s) && Enabled(s, e)
    ensures Shared(Step(s, e))
  {
  }

  lemma {:induction false} OneStepAfterClosing(s: State, e: Event)
    requires Enabled(s, e) && s.gate.closing
    ensures var s' := Step(s, e);
            && s'.gate.closing
            && s'.gate.entries.Keys <= s.gate.entries.Keys
            && (forall t | t in s'.gate.entries :: Depth(s'.gate, t) <= Depth(s.gate, t))
            && (forall key | key in s'.gate.jobs :: key in s.gate.jobs && s.gate.jobs[key] == s'.gate.jobs[key])
            && s'.jobTasks == s.jobTasks && s.done <= s'.done
  {
  }

  lemma {:induction false} WorkShrinks(s: State, s': State, work: Work)
    requires WorkOk(s, work) && s'.gate.entries.Keys <= s.gate.entries.Keys
    requires forall key | key in s'.gate.jobs :: key in s.gate.jobs && s.gate.jobs[key] == s'.gate.jobs[key]
    ensures WorkOk(s', work)
  {
  }

  lemma {:induction false} DrainEndWork(s: State, d: Drain)
    requires Inv(s) && Enabled(s, DrainEnds(d))
    ensures WorkOk(DoDrainEnd(s, d), DoDrainEnd(s, d).drains[d])
  {
    var work, s' := s.drains[d], DoDrainEnd(s, d);
    assert WorkOk(s, work);
    forall key | key in s'.gate.jobs ensures s'.gate.jobs[key] == work.excluded {
      assert work.phase.found[key] in work.phase.found.Values;
    }
  }

  lemma {:induction false} StepWorks(s: State, e: Event)
    requires Inv(s) && Enabled(s, e)
    ensures Works(Step(s, e))
  {
    var s' := Step(s, e);
    if s.drains.Keys != {} {
      OneStepAfterClosing(s, e);
    }
    forall d | d in s'.drains ensures WorkOk(s', s'.drains[d]) {
      if d in s.drains && s'.drains[d] == s.drains[d] {
        WorkShrinks(s, s', s.drains[d]);
      } else if e.DrainEnds? {
        DrainEndWork(s, d);
      } else if e.DrainStarts? {
        assert WorkOk(s, s.drains[d]);
      }
    }
  }

  lemma {:induction false} StepInv(s: State, e: Event)
    requires Inv(s) && Enabled(s, e)
    ensures Inv(Step(s, e))
  {
    StepBooks(s, e);
    StepJobs(s, e);
    StepCancels(s, e);
    StepShared(s, e);
    StepWorks(s, e);
  }

  lemma {:induction false} RunInv(s: State, events: seq<Event>)
    requires Inv(s) && Possible(s, events)
    ensures Inv(Run(s, events))
    decreases |events|
  {
    if events != [] {
      StepInv(s, events[0]);
      RunInv(Step(s, events[0]), events[1..]);
    }
  }

  lemma {:induction false} InitialInv()
    ensures Inv(Initial())
  {
  }

  // ---------- what every run guarantees ----------

  /** In every reachable state each task's depth is the number of its open entries, at most one
      drain is unfinished, and it is the one that callers of `aclose` share. */
  lemma {:induction false} CloseSafety(events: seq<Event>)
    requires Possible(Initial(), events)
    ensures var s := Run(Initial(), events);
            && (forall t | t in s.frames :: Depth(s.gate, t) == Frames(s, t))
            && (forall t | t in s.gate.entries :: Alive(s, t))
            && (forall d, d' | d in s.drains && d' in s.drains && !s.drains[d].phase.Finished? && !s.drains[d'].phase.Finished? :: d == d')
            && (forall d | d in s.drains && !s.drains[d].phase.Finished? :: s.gate.closing && s.gate.closeTask == Some(d))
  {
    InitialInv();
    RunInv(Initial(), events);
  }

  /** Once closing, always closing: nothing is admitted any more and what is there only shrinks. */
  lemma {:induction false} ClosingIsTerminal(s: State, events: seq<Event>)
    requires Possible(s, events) && s.gate.closing
    ensures var s' := Run(s, events);
            && s'.gate.closing
            && s'.gate.entries.Keys <= s.gate.entries.Keys
            && (forall t | t in s'.gate.entries :: Depth(s'.gate, t) <= Depth(s.gate, t))
            && (forall key | key in s'.gate.jobs :: key in s.gate.jobs && s.gate.jobs[key] == s'.gate.jobs[key])
            && s'.jobTasks == s.jobTasks && s.done <= s'.done
    decreases |events|
  {
    if events != [] {
      OneStepAfterClosing(s, events[0]);
      ClosingIsTerminal(Step(s, events[0]), events[1..]);
    }
  }

  /** When an `aclose` has returned, then and forever after no public operation is open, and no
      consolidation task is unfinished except the task that asked for the drain. */
  lemma {:induction false} AcloseLeavesNothing(before: seq<Event>, t: Task, after: seq<Event>)
    requires Possible(Initial(), before) && Enabled(Run(Initial(), before), CloseReturns(t))
    requires Possible(Step(Run(Initial(), before), CloseReturns(t)), after)
    ensures var s := Run(Initial(), before);
            var end := Run(Step(s, CloseReturns(t)), after);
            && end.gate.closing && end.gate.entries == map[]
            && end.jobTasks - end.done <= {s.drains[s.waiters[t].drain].excluded}
  {
    InitialInv();
    RunInv(Initial(), before);
    var s := Run(Initial(), before);
    var closed := Step(s, CloseReturns(t));
    assert WorkOk(s, s.drains[s.waiters[t].drain]);
    ClosingIsTerminal(closed, after);
    assert closed.gate.entries.Keys == {};
    assert Jobs(s);
  }

  /** The tasks that a step cancels "once". */
  function Issued(s: State, e: Event): set<Task>
    requires Enabled(s, e)
  {
    match e
    case Stop => CancelsOnce(s.gate, s.gate.jobs.Values, s.done)
    case DrainStarts(d) =>
      CancelsOnce(s.gate, s.gate.jobs.Values - {s.drains[d].excluded} - FoundActive(s, s.drains[d].excluded), s.done)
    case _ => {}
  }

  /** No consolidation task is cancelled "once" a second time, and none that is finished. */
  lemma {:induction false} OneCancelEach(events: seq<Event>, e: Event)
    requires Possible(Initial(), events) && Enabled(Run(Initial(), events), e)
    ensures var s := Run(Initial(), events);
            && Issued(s, e) !! s.everCancelled && Issued(s, e) !! s.done
            && Step(s, e).everCancelled == s.everCancelled + Issued(s, e)
  {
    InitialInv();
    RunInv(Initial(), events);
  }
}
