/** The heartbeat service's start, stop and aclose protocol with its shared, shielded
    drain (k2do/heartbeat/service.py, 76-191). */
module Heartbeat {
  import opened Prelude

  type Worker = nat  // a worker task
  type Drain = nat   // a close task: the drain of one worker
  type Caller = nat

  // ---------- the service's fields and the atomic pieces of its methods ----------

  datatype Service = Service(
    running: bool,
    task: Option<Worker>,
    cancelRequested: Option<Worker>,
    closeTask: Option<Drain>,
    stopGeneration: nat)

  /** What the event loop says of a task: unfinished, and how many cancels are pending. */
  datatype Vitals = Vitals(alive: bool, cancelling: nat)

  predicate Requests(v: Service, task: Option<Worker>, vitals: Vitals) {
    task.Some? && vitals.alive && vitals.cancelling == 0 && v.cancelRequested != task
  }

  function Requested(v: Service, task: Option<Worker>, vitals: Vitals): Service {
    if Requests(v, task, vitals) then v.(cancelRequested := task) else v
  }

  function Stopped(v: Service, vitals: Vitals): Service {
    Requested(v.(stopGeneration := v.stopGeneration + 1, running := false), v.task, vitals)
  }

  function Ensured(v: Service, drain: Drain): Service {
    if v.closeTask.Some? || v.task.None? then v else v.(running := false, closeTask := Some(drain))
  }

  function Launched(v: Service, worker: Worker): Service {
    v.(running := true, task := Some(worker), cancelRequested := None)
  }

  function Drained(v: Service, worker: Worker): Service {
    v.(task := if v.task == Some(worker) then None else v.task,
       cancelRequested := if v.cancelRequested == Some(worker) then None else v.cancelRequested)
  }

  function Collected(v: Service, drain: Drain): Service {
    if v.closeTask == Some(drain) then v.(closeTask := None) else v
  }

  class HeartbeatService {
    var running: bool
    var task: Option<Worker>
    var cancelRequested: Option<Worker>
    var closeTask: Option<Drain>
    var stopGeneration: nat

    ghost function View(): Service
      reads this
    {
      Service(running, task, cancelRequested, closeTask, stopGeneration)
    }

    constructor ()
      ensures View() == Service(false, None, None, None, 0)
    {
      running, task, cancelRequested, closeTask, stopGeneration := false, None, None, None, 0;
    }

    /** `_request_task_cancel`: `cancels` says whether `task.cancel()` was called. */
    method RequestTaskCancel(target: Option<Worker>, vitals: Vitals) returns (cancels: bool)
      modifies `cancelRequested
      ensures View() == Requested(old(View()), target, vitals)
      ensures cancels == Requests(old(View()), target, vitals)
    {
      cancels := false;
      if target.Some? && vitals.alive && vitals.cancelling == 0 && cancelRequested != target {
        cancelRequested := target;
        cancels := true;
      }
    }

    method Stop(vitals: Vitals) returns (cancels: bool)
      modifies `stopGeneration, `running, `cancelRequested
      ensures View() == Stopped(old(View()), vitals)
      ensures cancels == Requests(old(View()), old(task), vitals)
    {
      stopGeneration := stopGeneration + 1;
      running := false;
      cancels := RequestTaskCancel(task, vitals);
    }

    /** `_ensure_close_task`; `newDrain` is the task created when one is needed. */
    method EnsureCloseTask(newDrain: Drain) returns (drain: Option<Drain>)
      modifies `running, `closeTask
      ensures View() == Ensured(old(View()), newDrain)
      ensures drain == View().closeTask
    {
      if closeTask.Some? {
        return closeTask;
      }
      if task.None? {
        return None;
      }
      running := false;
      closeTask := Some(newDrain);
      return closeTask;
    }

    /** The end of `_await_close_task`, once the drain is done. */
    method CollectCloseTask(drain: Drain)
      modifies `closeTask
      ensures View() == Collected(old(View()), drain)
    {
      if closeTask == Some(drain) {
        closeTask := None;
      }
    }

    /** The `finally` of `_drain_worker`. */
    method FinishDrain(worker: Worker)
      modifies `task, `cancelRequested
      ensures View() == Drained(old(View()), worker)
    {
      if task == Some(worker) {
        task := None;
      }
      if cancelRequested == Some(worker) {
        cancelRequested := None;
      }
    }

    method Launch(worker: Worker)
      modifies `running, `task, `cancelRequested
      ensures View() == Launched(old(View()), worker)
    {
      running := true;
      task := Some(worker);
      cancelRequested := None;
    }
  }

  // ---------- the step machine ----------

  datatype WorkerState = WorkerState(vitals: Vitals, cancels: nat)  // cancels: issued by the service

  datatype DrainState = DrainState(worker: Worker, begun: bool, done: bool)

  datatype Pc =
    | Outside
    | Starting(drain: Drain, generation: nat)          // start, awaiting the shared drain
    | Closing(drain: Drain, found: Option<Worker>)     // aclose, awaiting it; `found` was the worker on entry

  datatype State = State(
    v: Service,
    workers: map<Worker, WorkerState>,
    drains: map<Drain, DrainState>,
    callers: map<Caller, Pc>)

  datatype Event =
    | Start(caller: Caller, drain: Drain, worker: Worker)
    | ResumeStart(caller: Caller, worker: Worker, raises: bool)
    | Stop
    | Aclose(caller: Caller, drain: Drain)
    | ResumeClose(caller: Caller)
    | DrainBegins(drain: Drain)
    | DrainEnds(drain: Drain)
    | WorkerEnds(worker: Worker)             // after a service cancel, or on seeing `_running` false
    | WorkerFails(worker: Worker)            // ends although nobody asked
    | Pending(worker: Worker, cancelling: nat)  // other cancels come and are taken back

  function VitalsOf(s: State, w: Option<Worker>): Vitals {
    if w.Some? && w.value in s.workers then s.workers[w.value].vitals else Vitals(false, 0)
  }

  predicate Alive(s: State, w: Worker) {
    w in s.workers && s.workers[w].vitals.alive
  }

  predicate Up(s: State) {
    s.v.running && s.v.task.Some? && Alive(s, s.v.task.value)
  }

  predicate IsOutside(s: State, c: Caller) {
    c !in s.callers || s.callers[c].Outside?
  }

  function SetCaller(s: State, c: Caller, pc: Pc): State {
    s.(callers := s.callers[c := pc])
  }

  /** Cancels `target` for the service when the rules of `_request_task_cancel` allow it. */
  function RequestStep(s: State, target: Option<Worker>): State {
    var vitals := VitalsOf(s, target);
    if Requests(s.v, target, vitals) then
      s.(v := Requested(s.v, target, vitals),
         workers := s.workers[target.value :=
           WorkerState(vitals.(cancelling := vitals.cancelling + 1), s.workers[target.value].cancels + 1)])
    else s
  }

  function StopStep(s: State): State {
    RequestStep(s.(v := s.v.(stopGeneration := s.v.stopGeneration + 1, running := false)), s.v.task)
  }

  function EnsureStep(s: State, drain: Drain): State {
    var s' := s.(v := Ensured(s.v, drain));
    if s.v.closeTask.Some? || s.v.task.None? then s'
    else s'.(drains := s.drains[drain := DrainState(s.v.task.value, false, false)])
  }

  function LaunchStep(s: State, worker: Worker): State {
    s.(v := Launched(s.v, worker), workers := s.workers[worker := WorkerState(Vitals(true, 0), 0)])
  }

  function DoStart(s: State, c: Caller, drain: Drain, worker: Worker): State {
    if Up(s) then s
    else
      var s' := EnsureStep(s, drain);
      if s'.v.closeTask.Some? then SetCaller(s', c, Starting(s'.v.closeTask.value, s.v.stopGeneration))
      else LaunchStep(s', worker)
  }

  function DoResumeStart(s: State, c: Caller, worker: Worker, raises: bool): State
    requires c in s.callers && s.callers[c].Starting?
  {
    var s' := SetCaller(s.(v := Collected(s.v, s.callers[c].drain)), c, Outside);
    if raises || s.v.stopGeneration != s.callers[c].generation || Up(s') then s'
    else LaunchStep(s', worker)
  }

  function DoAclose(s: State, c: Caller, drain: Drain): State {
    var s' := EnsureStep(StopStep(s), drain);
    if s'.v.closeTask.Some? then SetCaller(s', c, Closing(s'.v.closeTask.value, s.v.task)) else s'
  }

  function DoDrainBegins(s: State, d: Drain): State
    requires d in s.drains
  {
    var s' := RequestStep(s, Some(s.drains[d].worker));
    s'.(drains := s'.drains[d := s.drains[d].(begun := true)])
  }

  function DoDrainEnds(s: State, d: Drain): State
    requires d in s.drains
  {
    s.(v := Drained(s.v, s.drains[d].worker), drains := s.drains[d := s.drains[d].(done := true)])
  }

  function DoEnd(s: State, w: Worker): State
    requires w in s.workers
  {
    s.(workers := s.workers[w := s.workers[w].(vitals := s.workers[w].vitals.(alive := false))])
  }

  predicate Enabled(s: State, e: Event) {
    match e
    case Start(c, d, w) => IsOutside(s, c) && d !in s.drains && w !in s.workers
    case ResumeStart(c, w, _) =>
      && c in s.callers && s.callers[c].Starting? && s.callers[c].drain in s.drains
      && s.drains[s.callers[c].drain].done && w !in s.workers
    case Stop => true
    case Aclose(c, d) => IsOutside(s, c) && d !in s.drains
    case ResumeClose(c) =>
      && c in s.callers && s.callers[c].Closing? && s.callers[c].drain in s.drains
      && s.drains[s.callers[c].drain].done
    case DrainBegins(d) => d in s.drains && !s.drains[d].begun
    case DrainEnds(d) =>
      d in s.drains && s.drains[d].begun && !s.drains[d].done && !Alive(s, s.drains[d].worker)
    case WorkerEnds(w) => Alive(s, w) && (s.workers[w].cancels > 0 || !s.v.running)
    case WorkerFails(w) => Alive(s, w)
    case Pending(w, _) => w in s.workers
  }

  function Step(s: State, e: Event): State
    requires Enabled(s, e)
  {
    match e
    case Start(c, d, w) => DoStart(s, c, d, w)
    case ResumeStart(c, w, raises) => DoResumeStart(s, c, w, raises)
    case Stop => StopStep(s)
    case Aclose(c, d) => DoAclose(s, c, d)
    case ResumeClose(c) => SetCaller(s.(v := Collected(s.v, s.callers[c].drain)), c, Outside)
    case DrainBegins(d) => DoDrainBegins(s, d)
    case DrainEnds(d) => DoDrainEnds(s, d)
    case WorkerEnds(w) => DoEnd(s, w)
    case WorkerFails(w) => DoEnd(s, w)
    case Pending(w, n) =>
      s.(workers := s.workers[w := s.workers[w].(vitals := s.workers[w].vitals.(cancelling := n))])
  }

  ghost predicate Run(s: State, events: seq<Event>, end: State)
    decreases |events|
  {
    if events == [] then s == end
    else Enabled(s, events[0]) && Run(Step(s, events[0]), events[1..], end)
  }

  const INITIAL := State(Service(false, None, None, None, 0), map[], map[], map[])

  /** Workers end only when the service asks. */
  ghost predicate Obedient(events: seq<Event>) {
    forall i | 0 <= i < |events| :: !events[i].WorkerFails?
  }

  // ---------- the invariant ----------

  /** The one recorded drain is that of the recorded worker until it is done. */
  predicate ServiceOk(s: State) {
    && (s.v.task.Some? ==> s.v.task.value in s.workers)
    && (s.v.running ==> Up(s) && s.workers[s.v.task.value].cancels == 0 && s.v.closeTask.None?)
    && (s.v.closeTask.Some? ==>
          s.v.closeTask.value in s.drains
          && s.v.task == if s.drains[s.v.closeTask.value].done then None else Some(s.drains[s.v.closeTask.value].worker))
  }

  predicate WorkersOk(s: State) {
    forall w | w in s.workers ::
      && s.workers[w].cancels <= 1
      && (s.workers[w].vitals.alive ==> s.v.task == Some(w))
      && (s.workers[w].vitals.alive && s.workers[w].cancels == 1 ==> s.v.cancelRequested == Some(w))
  }

  predicate DrainsOk(s: State) {
    forall d | d in s.drains ::
      && s.drains[d].worker in s.workers
      && (if s.drains[d].done then !s.workers[s.drains[d].worker].vitals.alive else s.v.closeTask == Some(d))
      && (s.drains[d].done ==> s.drains[d].begun)
  }

  predicate CallerOk(s: State, pc: Pc) {
    match pc
    case Outside => true
    case Starting(d, generation) =>
      && d in s.drains && generation <= s.v.stopGeneration
      && (generation == s.v.stopGeneration ==>
            s.v.closeTask == Some(d)
            || (s.drains[d].done && s.v.closeTask.None? && (s.v.task.None? || s.v.running)))
    case Closing(d, found) => d in s.drains && (found.Some? ==> s.drains[d].worker == found.value)
  }

  predicate Inv(s: State) {
    ServiceOk(s) && WorkersOk(s) && DrainsOk(s) && forall c | c in s.callers :: CallerOk(s, s.callers[c])
  }

  lemma {:induction false} RequestKeeps(s: State, target: Option<Worker>)
    requires Inv(s) && !s.v.running
    ensures Inv(RequestStep(s, target))
    ensures RequestStep(s, target).v == s.v.(cancelRequested := RequestStep(s, target).v.cancelRequested)
  {
    var s' := RequestStep(s, target);
    forall c | c in s'.callers ensures CallerOk(s', s'.callers[c]) {
      assert CallerOk(s, s.callers[c]);
    }
  }

  lemma {:induction false} StopKeeps(s: State)
    requires Inv(s)
    ensures Inv(StopStep(s)) && StopStep(s).v.task == s.v.task && !StopStep(s).v.running
  {
    var s' := s.(v := s.v.(stopGeneration := s.v.stopGeneration + 1, running := false));
    forall c | c in s'.callers ensures CallerOk(s', s'.callers[c]) {
      assert CallerOk(s, s.callers[c]);
    }
    RequestKeeps(s', s.v.task);
  }

  lemma {:induction false} EnsureKeeps(s: State, drain: Drain)
    requires Inv(s) && !Up(s) && drain !in s.drains
    ensures var s' := EnsureStep(s, drain);
            Inv(s') && !s'.v.running && s'.v.task == s.v.task && (s'.v.closeTask.None? ==> s'.v.task.None?)
  {
    var s' := EnsureStep(s, drain);
    forall c | c in s'.callers ensures CallerOk(s', s'.callers[c]) {
      assert CallerOk(s, s.callers[c]);
    }
  }

  lemma {:induction false} LaunchKeeps(s: State, w: Worker)
    requires Inv(s) && w !in s.workers && s.v.task.None? && s.v.closeTask.None?
    ensures Inv(LaunchStep(s, w))
  {
    var s' := LaunchStep(s, w);
    forall c | c in s'.callers ensures CallerOk(s', s'.callers[c]) {
      assert CallerOk(s, s.callers[c]);
    }
  }

  lemma {:induction false} CallerKeeps(s: State, c: Caller, pc: Pc)
    requires Inv(s) && CallerOk(s, pc)
    ensures Inv(SetCaller(s, c, pc))
  {
    var s' := SetCaller(s, c, pc);
    forall b | b in s'.callers ensures CallerOk(s', s'.callers[b]) {
      assert b != c ==> CallerOk(s, s.callers[b]);
    }
  }

  lemma {:induction false} StartKeeps(s: State, c: Caller, drain: Drain, worker: Worker)
    requires Inv(s) && Enabled(s, Start(c, drain, worker))
    ensures Inv(DoStart(s, c, drain, worker))
  {
    if !Up(s) {
      EnsureKeeps(s, drain);
      var s' := EnsureStep(s, drain);
      if s'.v.closeTask.Some? {
        CallerKeeps(s', c, Starting(s'.v.closeTask.value, s.v.stopGeneration));
      } else {
        LaunchKeeps(s', worker);
      }
    }
  }

  /** Forgetting a drain that is done. */
  lemma {:induction false} CollectKeeps(s: State, c: Caller, drain: Drain)
    requires Inv(s) && drain in s.drains && s.drains[drain].done
    ensures Inv(SetCaller(s.(v := Collected(s.v, drain)), c, Outside))
  {
    var s' := s.(v := Collected(s.v, drain));
    forall b | b in s'.callers ensures CallerOk(s', s'.callers[b]) {
      assert CallerOk(s, s.callers[b]);
    }
    assert Inv(s');
    CallerKeeps(s', c, Outside);
  }

  lemma {:induction false} ResumeStartKeeps(s: State, c: Caller, worker: Worker, raises: bool)
    requires Inv(s) && Enabled(s, ResumeStart(c, worker, raises))
    ensures Inv(DoResumeStart(s, c, worker, raises))
  {
    var drain := s.callers[c].drain;
    CollectKeeps(s, c, drain);
    assert CallerOk(s, s.callers[c]);
    var s' := SetCaller(s.(v := Collected(s.v, drain)), c, Outside);
    if !raises && s.v.stopGeneration == s.callers[c].generation && !Up(s') {
      assert s'.v.task.None? && s'.v.closeTask.None?;
      LaunchKeeps(s', worker);
    }
  }

  lemma {:induction false} AcloseKeeps(s: State, c: Caller, drain: Drain)
    requires Inv(s) && Enabled(s, Aclose(c, drain))
    ensures Inv(DoAclose(s, c, drain))
  {
    StopKeeps(s);
    EnsureKeeps(StopStep(s), drain);
    var s' := EnsureStep(StopStep(s), drain);
    if s'.v.closeTask.Some? {
      CallerKeeps(s', c, Closing(s'.v.closeTask.value, s.v.task));
    }
  }

  lemma {:induction false} DrainKeeps(s: State, d: Drain)
    requires Inv(s)
    ensures Enabled(s, DrainBegins(d)) ==> Inv(DoDrainBegins(s, d))
    ensures Enabled(s, DrainEnds(d)) ==> Inv(DoDrainEnds(s, d))
  {
    if Enabled(s, DrainBegins(d)) {
      RequestKeeps(s, Some(s.drains[d].worker));
      var s1, s' := RequestStep(s, Some(s.drains[d].worker)), DoDrainBegins(s, d);
      forall c | c in s'.callers ensures CallerOk(s', s'.callers[c]) {
        assert CallerOk(s1, s1.callers[c]);
      }
    }
    if Enabled(s, DrainEnds(d)) {
      var s' := DoDrainEnds(s, d);
      forall c | c in s'.callers ensures CallerOk(s', s'.callers[c]) {
        assert CallerOk(s, s.callers[c]);
      }
    }
  }

  lemma {:induction false} WorkerKeeps(s: State, w: Worker)
    requires Inv(s)
    ensures Enabled(s, WorkerEnds(w)) ==> Inv(DoEnd(s, w))
  {
    if Enabled(s, WorkerEnds(w)) {
      var s' := DoEnd(s, w);
      forall c | c in s'.callers ensures CallerOk(s', s'.callers[c]) {
        assert CallerOk(s, s.callers[c]);
      }
    }
  }

  lemma {:induction false} PendingKeeps(s: State, w: Worker, n: nat)
    requires Inv(s) && w in s.workers
    ensures Inv(Step(s, Pending(w, n)))
  {
    var s' := Step(s, Pending(w, n));
    forall c | c in s'.callers ensures CallerOk(s', s'.callers[c]) {
      assert CallerOk(s, s.callers[c]);
    }
  }

  lemma {:induction false} StepKeeps(s: State, e: Event)
    requires Inv(s) && Enabled(s, e) && !e.WorkerFails?
    ensures Inv(Step(s, e))
  {
    match e {
      case Start(c, d, w) => StartKeeps(s, c, d, w);
      case ResumeStart(c, w, raises) => ResumeStartKeeps(s, c, w, raises);
      case Stop => StopKeeps(s);
      case Aclose(c, d) => AcloseKeeps(s, c, d);
      case ResumeClose(c) => CollectKeeps(s, c, s.callers[c].drain);
      case DrainBegins(d) => DrainKeeps(s, d);
      case DrainEnds(d) => DrainKeeps(s, d);
      case WorkerEnds(w) => WorkerKeeps(s, w);
      case Pending(w, n) => PendingKeeps(s, w, n);
    }
  }

  lemma {:induction false} RunKeeps(s: State, events: seq<Event>, end: State)
    requires Inv(s) && Run(s, events, end) && Obedient(events)
    ensures Inv(end)
    decreases |events|
  {
    if events != [] {
      StepKeeps(s, events[0]);
      RunKeeps(Step(s, events[0]), events[1..], end);
    }
  }

  // ---------- what the protocol promises ----------

  /** For any interleaving: at most one worker is unfinished and it is the recorded one,
      so its handle is never dropped while it lives; no worker gets a second cancel from
      the service; and a service that is running has a live worker nobody has cancelled. */
  lemma {:induction false} HeartbeatSafety(events: seq<Event>, end: State)
    requires Run(INITIAL, events, end) && Obedient(events)
    ensures forall w | w in end.workers && Alive(end, w) :: end.v.task == Some(w)
    ensures forall w | w in end.workers :: end.workers[w].cancels <= 1
    ensures end.v.running ==> Up(end) && end.workers[end.v.task.value].cancels == 0
  {
    RunKeeps(INITIAL, events, end);
  }

  /** When aclose is about to return or raise, the worker it found is finished. */
  lemma {:induction false} AcloseLeavesWorkerFinished(events: seq<Event>, end: State, c: Caller)
    requires Run(INITIAL, events, end) && Obedient(events)
    requires Enabled(end, ResumeClose(c)) && end.callers[c].found.Some?
    ensures !Alive(end, end.callers[c].found.value)
    ensures !Alive(Step(end, ResumeClose(c)), end.callers[c].found.value)
  {
    RunKeeps(INITIAL, events, end);
    assert CallerOk(end, end.callers[c]);
  }

  /** When aclose returns at once there was no worker. */
  lemma {:induction false} ImmediateAclose(events: seq<Event>, end: State, c: Caller, drain: Drain)
    requires Run(INITIAL, events, end) && Obedient(events)
    requires Enabled(end, Aclose(c, drain)) && IsOutside(Step(end, Aclose(c, drain)), c)
    ensures end.v.task.None? && forall w | w in end.workers :: !Alive(end, w)
  {
    RunKeeps(INITIAL, events, end);
    StopKeeps(end);
    EnsureKeeps(StopStep(end), drain);
  }

  // ---------- a stop during a pending start ----------

  lemma {:induction false} StepKeepsPendingStart(s: State, e: Event, c: Caller)
    requires Enabled(s, e) && c in s.callers && s.callers[c].Starting?
    requires !(e.ResumeStart? && e.caller == c)
    ensures c in Step(s, e).callers && Step(s, e).callers[c] == s.callers[c]
    ensures Step(s, e).v.stopGeneration >= s.v.stopGeneration
    ensures e.Stop? || e.Aclose? ==> Step(s, e).v.stopGeneration > s.v.stopGeneration
  {
  }

  /** The caller has not come back from its start during the run. */
  predicate StillPending(events: seq<Event>, c: Caller) {
    forall i | 0 <= i < |events| :: !(events[i].ResumeStart? && events[i].caller == c)
  }

  lemma {:induction false} PendingStartThroughRun(s: State, events: seq<Event>, end: State, c: Caller)
    requires Run(s, events, end) && c in s.callers && s.callers[c].Starting? && StillPending(events, c)
    ensures c in end.callers && end.callers[c] == s.callers[c]
    ensures end.v.stopGeneration >= s.v.stopGeneration
    ensures (exists i | 0 <= i < |events| :: events[i].Stop? || events[i].Aclose?) ==>
              end.v.stopGeneration > s.v.stopGeneration
    decreases |events|
  {
    if events != [] {
      StepKeepsPendingStart(s, events[0], c);
      PendingStartThroughRun(Step(s, events[0]), events[1..], end, c);
      if exists i | 0 <= i < |events| :: events[i].Stop? || events[i].Aclose? {
        var i :| 0 <= i < |events| && (events[i].Stop? || events[i].Aclose?);
        assert i > 0 ==> events[i] == events[1..][i - 1];
      }
    }
  }

  /** A stop, or an aclose, that happens while a start is pending keeps that start from
      creating a worker, whatever else happens in between. */
  lemma {:induction false} StopPreventsPendingStart(s: State, c: Caller, drain: Drain, worker: Worker,
                                                    events: seq<Event>, end: State, worker': Worker, raises: bool)
    requires Enabled(s, Start(c, drain, worker))
    requires var s' := Step(s, Start(c, drain, worker));
             && c in s'.callers && s'.callers[c].Starting?
             && Run(s', events, end) && StillPending(events, c)
    requires exists i | 0 <= i < |events| :: events[i].Stop? || events[i].Aclose?
    requires Enabled(end, ResumeStart(c, worker', raises))
    ensures Step(end, ResumeStart(c, worker', raises)).workers == end.workers
    ensures Step(end, ResumeStart(c, worker', raises)).v.task == end.v.task
  {
    var s' := Step(s, Start(c, drain, worker));
    PendingStartThroughRun(s', events, end, c);
    assert s'.callers[c].generation == s.v.stopGeneration == s'.v.stopGeneration;
  }

  // ---------- without that assumption ----------

  /** A drain that is done has seen its worker finish, and a finished worker stays so:
      this holds of every run, workers that fail included. */
  ghost predicate DrainsWait(s: State) {
    forall d | d in s.drains :: s.drains[d].worker in s.workers && (s.drains[d].done ==> !Alive(s, s.drains[d].worker))
  }

  ghost predicate TaskKnown(s: State) {
    s.v.task.Some? ==> s.v.task.value in s.workers
  }

  lemma {:induction false} RequestTouchesNoLife(s: State, target: Option<Worker>)
    ensures var s' := RequestStep(s, target);
            && s'.drains == s.drains && s'.callers == s.callers && s'.workers.Keys == s.workers.Keys
            && s'.v == s.v.(cancelRequested := s'.v.cancelRequested)
            && forall w | w in s.workers :: Alive(s', w) == Alive(s, w)
  {
  }

  /** What any step keeps: no worker comes back, drains keep their worker. */
  predicate Forward(s: State, s': State) {
    && s.workers.Keys <= s'.workers.Keys && s.drains.Keys <= s'.drains.Keys
    && (forall w | w in s.workers && !Alive(s, w) :: !Alive(s', w))
    && (forall d | d in s.drains :: s'.drains[d].worker == s.drains[d].worker)
  }

  lemma {:induction false} StopGoesForward(s: State)
    requires DrainsWait(s) && TaskKnown(s)
    ensures DrainsWait(StopStep(s)) && TaskKnown(StopStep(s)) && Forward(s, StopStep(s))
    ensures StopStep(s).callers == s.callers && StopStep(s).drains == s.drains
  {
    var s' := s.(v := s.v.(stopGeneration := s.v.stopGeneration + 1, running := false));
    RequestTouchesNoLife(s', s.v.task);
  }

  lemma {:induction false} StopAndDrainGoForward(s: State, e: Event)
    requires DrainsWait(s) && TaskKnown(s) && Enabled(s, e) && (e.Stop? || e.Aclose? || e.DrainBegins?)
    ensures DrainsWait(Step(s, e)) && TaskKnown(Step(s, e)) && Forward(s, Step(s, e))
  {
    if e.DrainBegins? {
      RequestTouchesNoLife(s, Some(s.drains[e.drain].worker));
    } else {
      StopGoesForward(s);
    }
  }

  lemma {:induction false} StepGoesForward(s: State, e: Event)
    requires DrainsWait(s) && TaskKnown(s) && Enabled(s, e)
    ensures DrainsWait(Step(s, e)) && TaskKnown(Step(s, e)) && Forward(s, Step(s, e))
  {
    if e.Stop? || e.Aclose? || e.DrainBegins? {
      StopAndDrainGoForward(s, e);
    }
  }

  predicate StillClosing(events: seq<Event>, c: Caller) {
    forall i | 0 <= i < |events| :: !(events[i].ResumeClose? && events[i].caller == c)
  }

  lemma {:induction false} StepKeepsClosing(s: State, e: Event, c: Caller)
    requires Enabled(s, e) && c in s.callers && s.callers[c].Closing?
    requires !(e.ResumeClose? && e.caller == c)
    ensures c in Step(s, e).callers && Step(s, e).callers[c] == s.callers[c]
  {
  }

  lemma {:induction false} RunGoesForward(s: State, events: seq<Event>, end: State, c: Caller)
    requires DrainsWait(s) && TaskKnown(s) && Run(s, events, end)
    requires c in s.callers && s.callers[c].Closing? && StillClosing(events, c)
    ensures DrainsWait(end) && TaskKnown(end) && Forward(s, end)
    ensures c in end.callers && end.callers[c] == s.callers[c]
    decreases |events|
  {
    if events != [] {
      StepGoesForward(s, events[0]);
      StepKeepsClosing(s, events[0], c);
      RunGoesForward(Step(s, events[0]), events[1..], end, c);
    }
  }

  /** From here on, this aclose cannot come back while worker `w` is unfinished. */
  ghost predicate Guarantees(s: State, c: Caller, w: Worker) {
    forall events, end ::
      Run(s, events, end) && StillClosing(events, c) && Enabled(end, ResumeClose(c)) ==> !Alive(end, w)
  }

  /** With workers that may fail on their own, an aclose guarantees that the worker it
      found is finished exactly when the drain it awaits is the drain of that worker. */
  lemma {:induction false} AcloseGuarantee(s: State, c: Caller, w: Worker)
    requires DrainsWait(s) && TaskKnown(s) && Alive(s, w)
    requires c in s.callers && s.callers[c].Closing? && s.callers[c].drain in s.drains
    requires s.drains[s.callers[c].drain].done ==> s.drains[s.callers[c].drain].begun
    ensures Guarantees(s, c, w) <==> s.drains[s.callers[c].drain].worker == w
  {
    var d := s.callers[c].drain;
    if s.drains[d].worker == w {
      forall events, end | Run(s, events, end) && StillClosing(events, c) && Enabled(end, ResumeClose(c))
        ensures !Alive(end, w)
      {
        RunGoesForward(s, events, end, c);
      }
    } else {
      var events, end := ForeignDrainFinishes(s, c);
      assert Run(s, events, end) && StillClosing(events, c) && Enabled(end, ResumeClose(c)) && Alive(end, w);
    }
  }

  /** Callers await drains that exist, and a drain that is done has begun. */
  ghost predicate DrainsKnown(s: State) {
    && (s.v.closeTask.Some? ==> s.v.closeTask.value in s.drains)
    && (forall c | c in s.callers && s.callers[c].Closing? :: s.callers[c].drain in s.drains)
    && (forall d | d in s.drains && s.drains[d].done :: s.drains[d].begun)
  }

  lemma {:induction false} StepKeepsDrains(s: State, e: Event)
    requires DrainsKnown(s) && Enabled(s, e)
    ensures DrainsKnown(Step(s, e))
  {
  }

  lemma {:induction false} AnyRun(s: State, events: seq<Event>, end: State)
    requires DrainsWait(s) && TaskKnown(s) && DrainsKnown(s) && Run(s, events, end)
    ensures DrainsWait(end) && TaskKnown(end) && DrainsKnown(end)
    decreases |events|
  {
    if events != [] {
      StepGoesForward(s, events[0]);
      StepKeepsDrains(s, events[0]);
      AnyRun(Step(s, events[0]), events[1..], end);
    }
  }

  /** The same for every aclose in every run, workers that fail included. */
  lemma {:induction false} AcloseGuaranteeInRuns(events: seq<Event>, s: State, c: Caller, w: Worker)
    requires Run(INITIAL, events, s) && Alive(s, w) && c in s.callers && s.callers[c].Closing?
    ensures s.callers[c].drain in s.drains
    ensures Guarantees(s, c, w) <==> s.drains[s.callers[c].drain].worker == w
  {
    AnyRun(INITIAL, events, s);
    AcloseGuarantee(s, c, w);
  }

  /** The drain of another worker can always finish, touching nobody else. */
  lemma {:induction false} ForeignDrainFinishes(s: State, c: Caller) returns (events: seq<Event>, end: State)
    requires DrainsWait(s)
    requires c in s.callers && s.callers[c].Closing? && s.callers[c].drain in s.drains
    requires s.drains[s.callers[c].drain].done ==> s.drains[s.callers[c].drain].begun
    ensures Run(s, events, end) && StillClosing(events, c) && Enabled(end, ResumeClose(c))
    ensures forall w | w in s.workers && w != s.drains[s.callers[c].drain].worker :: Alive(end, w) == Alive(s, w)
  {
    var d := s.callers[c].drain;
    var w := s.drains[d].worker;
    var s1 := if s.drains[d].begun then s else Step(s, DrainBegins(d));
    var begin := if s.drains[d].begun then [] else [DrainBegins(d)];
    RequestTouchesNoLife(s, Some(w));
    var s2 := if Alive(s1, w) then Step(s1, WorkerFails(w)) else s1;
    var fail := if Alive(s1, w) then [WorkerFails(w)] else [];
    end := if s2.drains[d].done then s2 else Step(s2, DrainEnds(d));
    var finish := if s2.drains[d].done then [] else [DrainEnds(d)];
    RunOptional(s, begin, s1);
    RunOptional(s1, fail, s2);
    RunOptional(s2, finish, end);
    RunAppend(s, begin, s1, fail, s2);
    events := begin + fail + finish;
    RunAppend(s, begin + fail, s2, finish, end);
  }

  lemma {:induction false} RunOptional(s: State, events: seq<Event>, end: State)
    requires |events| <= 1
    requires if events == [] then s == end else Enabled(s, events[0]) && Step(s, events[0]) == end
    ensures Run(s, events, end)
  {
    if events != [] {
      assert Run(Step(s, events[0]), events[1..], end);
    }
  }

  lemma {:induction false} RunAppend(s: State, first: seq<Event>, mid: State, second: seq<Event>, end: State)
    requires Run(s, first, mid) && Run(mid, second, end)
    ensures Run(s, first + second, end)
    decreases |first|
  {
    if first == [] {
      assert first + second == second;
    } else {
      assert (first + second)[1..] == first[1..] + second;
      RunAppend(Step(s, first[0]), first[1..], mid, second, end);
    }
  }

  // ---------- a run in which aclose comes back too early ----------

  function W(alive: bool, cancels: nat): WorkerState {
    WorkerState(Vitals(alive, cancels), cancels)
  }

  /** A start waits for the drain of a stopped worker. */
  const ONE_WAITS := State(
    Service(false, Some(1), Some(1), Some(11), 1),
    map[1 := W(true, 1)], map[11 := DrainState(1, false, false)], map[2 := Starting(11, 1)])

  /** The drain is done, and the start that waited for it has not run again yet. */
  const ONE_DRAINED := State(
    Service(false, None, None, Some(11), 1),
    map[1 := W(false, 1)], map[11 := DrainState(1, true, true)], map[2 := Starting(11, 1)])

  /** Another start has come now: without a wait it collected the drain and launched worker 3,
      which was cancelled from outside before its first step. */
  const THREE_FAILED := State(
    Service(true, Some(3), None, None, 1),
    map[1 := W(false, 1), 3 := WorkerState(Vitals(false, 1), 0)], map[11 := DrainState(1, true, true)],
    map[2 := Starting(11, 1), 3 := Outside])

  /** A further start drains worker 3. */
  const FOUR_WAITS := State(
    Service(false, Some(3), None, Some(12), 1),
    THREE_FAILED.workers, map[11 := DrainState(1, true, true), 12 := DrainState(3, false, false)],
    map[2 := Starting(11, 1), 3 := Outside, 4 := Starting(12, 1)])

  /** The start that has waited all along runs again and launches worker 5. */
  const FIVE_RUNS := State(
    Service(true, Some(5), None, Some(12), 1),
    map[1 := W(false, 1), 3 := WorkerState(Vitals(false, 1), 0), 5 := W(true, 0)],
    map[11 := DrainState(1, true, true), 12 := DrainState(3, false, false)],
    map[2 := Outside, 3 := Outside, 4 := Starting(12, 1)])

  /** An aclose awaits the drain of worker 3. */
  const STALE := State(
    Service(false, Some(5), Some(5), Some(12), 2),
    map[1 := W(false, 1), 3 := WorkerState(Vitals(false, 1), 0), 5 := W(true, 1)],
    map[11 := DrainState(1, true, true), 12 := DrainState(3, false, false)],
    map[2 := Outside, 3 := Outside, 4 := Starting(12, 1), 5 := Closing(12, Some(5))])

  lemma {:induction false} RunMore(s: State, events: seq<Event>, mid: State, e: Event, end: State)
    requires Run(s, events, mid) && Enabled(mid, e) && Step(mid, e) == end
    ensures Run(s, events + [e], end)
  {
    RunOptional(mid, [e], end);
    RunAppend(s, events, mid, [e], end);
  }

  lemma {:induction false} ReachOneWaits() returns (events: seq<Event>)
    ensures Run(INITIAL, events, ONE_WAITS)
  {
    var s1 := State(Service(true, Some(1), None, None, 0), map[1 := W(true, 0)], map[], map[]);
    RunOptional(INITIAL, [Start(1, 10, 1)], s1);
    var s2 := State(Service(false, Some(1), Some(1), None, 1), map[1 := W(true, 1)], map[], map[]);
    RunMore(INITIAL, [Start(1, 10, 1)], s1, Stop, s2);
    events := [Start(1, 10, 1)] + [Stop];
    RunMore(INITIAL, events, s2, Start(2, 11, 2), ONE_WAITS);
    events := events + [Start(2, 11, 2)];
  }

  lemma {:induction false} ReachOneDrained(before: seq<Event>) returns (events: seq<Event>)
    requires Run(INITIAL, before, ONE_WAITS)
    ensures Run(INITIAL, events, ONE_DRAINED)
  {
    var s1 := ONE_WAITS.(workers := map[1 := W(false, 1)]);
    RunMore(INITIAL, before, ONE_WAITS, WorkerEnds(1), s1);
    var s2 := s1.(drains := map[11 := DrainState(1, true, false)]);
    events := before + [WorkerEnds(1)];
    RunMore(INITIAL, events, s1, DrainBegins(11), s2);
    events := events + [DrainBegins(11)];
    RunMore(INITIAL, events, s2, DrainEnds(11), ONE_DRAINED);
    events := events + [DrainEnds(11)];
  }

  lemma {:induction false} ReachThreeRuns(before: seq<Event>) returns (events: seq<Event>)
    requires Run(INITIAL, before, ONE_DRAINED)
    ensures Run(INITIAL, events, THREE_FAILED.(workers := map[1 := W(false, 1), 3 := W(true, 0)]))
  {
    var s1 := ONE_DRAINED.(callers := map[2 := Starting(11, 1), 3 := Starting(11, 1)]);
    RunMore(INITIAL, before, ONE_DRAINED, Start(3, 12, 3), s1);
    events := before + [Start(3, 12, 3)];
    RunMore(INITIAL, events, s1, ResumeStart(3, 3, false), THREE_FAILED.(workers := map[1 := W(false, 1), 3 := W(true, 0)]));
    events := events + [ResumeStart(3, 3, false)];
  }

  lemma {:induction false} ReachThreeFailed(before: seq<Event>) returns (events: seq<Event>)
    requires Run(INITIAL, before, THREE_FAILED.(workers := map[1 := W(false, 1), 3 := W(true, 0)]))
    ensures Run(INITIAL, events, THREE_FAILED)
  {
    var s1 := THREE_FAILED.(workers := map[1 := W(false, 1), 3 := W(true, 0)]);
    var s2 := THREE_FAILED.(workers := map[1 := W(false, 1), 3 := WorkerState(Vitals(true, 1), 0)]);
    RunMore(INITIAL, before, s1, Pending(3, 1), s2);
    events := before + [Pending(3, 1)];
    RunMore(INITIAL, events, s2, WorkerFails(3), THREE_FAILED);
    events := events + [WorkerFails(3)];
  }

  lemma {:induction false} ReachFourWaits(before: seq<Event>) returns (events: seq<Event>)
    requires Run(INITIAL, before, THREE_FAILED)
    ensures Run(INITIAL, events, FOUR_WAITS)
  {
    RunMore(INITIAL, before, THREE_FAILED, Start(4, 12, 4), FOUR_WAITS);
    events := before + [Start(4, 12, 4)];
  }

  lemma {:induction false} ReachFiveRuns(before: seq<Event>) returns (events: seq<Event>)
    requires Run(INITIAL, before, FOUR_WAITS)
    ensures Run(INITIAL, events, FIVE_RUNS)
  {
    RunMore(INITIAL, before, FOUR_WAITS, ResumeStart(2, 5, false), FIVE_RUNS);
    events := before + [ResumeStart(2, 5, false)];
  }

  lemma {:induction false} ReachStale(before: seq<Event>) returns (events: seq<Event>)
    requires Run(INITIAL, before, FIVE_RUNS)
    ensures Run(INITIAL, events, STALE)
  {
    RunMore(INITIAL, before, FIVE_RUNS, Aclose(5, 13), STALE);
    events := before + [Aclose(5, 13)];
  }

  lemma {:induction false} ReachIt() returns (events: seq<Event>)
    ensures Run(INITIAL, events, STALE)
  {
    events := ReachOneWaits();
    events := ReachOneDrained(events);
    events := ReachThreeRuns(events);
    events := ReachThreeFailed(events);
    events := ReachFourWaits(events);
    events := ReachFiveRuns(events);
    events := ReachStale(events);
  }

  lemma {:induction false} FromStale() returns (events: seq<Event>, end: State)
    ensures Run(STALE, events, end) && 5 in end.callers && Enabled(end, ResumeClose(5))
    ensures end.callers[5] == Closing(12, Some(5)) && Alive(end, 5)
  {
    assert Alive(STALE, 5);
    events, end := ForeignDrainFinishes(STALE, 5);
    RunGoesForward(STALE, events, end, 5);
  }

  /** Once a worker has ended unasked, there is a run in which aclose comes back while the
      worker it found is still alive. Every event comes at a time when the event loop can
      produce it: the start of worker 3 arrives between the end of a drain and the wake-up of the
      start that waits for it. */
  lemma {:induction false} AcloseCanMissItsWorker()
    ensures exists events, end ::
              Run(INITIAL, events, end) && 5 in end.callers && Enabled(end, ResumeClose(5))
              && end.callers[5] == Closing(12, Some(5)) && Alive(end, 5)
  {
    var before := ReachIt();
    var after, end := FromStale();
    RunAppend(INITIAL, before, STALE, after, end);
    assert Run(INITIAL, before + after, end);
  }
}
