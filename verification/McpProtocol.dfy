/** The MCP lifecycle as a step machine (k2do/agent/loop.py, 322-807 and 1661-1717).
    Any number of tasks run the public entry points, interleaved at every await and
    between any two critical sections; cancellation may arrive at every await. */
module McpProtocol {
  import opened Prelude
  import opened ToolRegistry
  import opened McpFields

  /** What an owning scope keeps in its local variables. */
  datatype Hold = Hold(token: Token, owns: bool, saved: Option<Token>)

  /** Where a call stands between two of its atomic steps. */
  datatype Pc =
    | WaitScope                               // waiting for the scope lock
    | BeginConnect
    | AwaitStart(gen: Gen, initiator: bool)   // awaiting the shielded startup future
    | AbortOwner(gen: Gen)                    // startup failed or was cancelled: awaiting the owner task
    | AbortReset(gen: Gen)
    | Activating(owns: bool)
    | Body(hold: Hold)                        // the `yield` of an owning lifespan
    | Revoking(hold: Hold)
    | Scanning(hold: Hold, reaped: Option<set<Task>>)
    | Reaping(hold: Hold, remaining: set<Task>)
    | Forgetting(hold: Hold)
    | BeginClose
    | CloseOwner(gen: Gen)
    | CloseReset(gen: Gen)

  datatype Frame =
    | Lease(borrowed: bool)         // the body of a reused scope
    | Call(scoped: bool, pc: Pc)    // mcp_lifespan when scoped, else a direct connect or close

  datatype TaskState = TaskState(context: Option<Token>, frames: seq<Frame>, done: bool)

  datatype Phase = Created | Connecting | Serving | Cleaning | Finished

  /** One transport owner task, its startup future, and what has been done to it. */
  datatype Transport = Transport(
    phase: Phase, started: Option<bool>, catalogue: seq<Tool>, cancels: nat, resets: nat)

  datatype State = State(
    f: Fields,
    tasks: map<Task, TaskState>,
    gens: map<Gen, Transport>,
    scopeLock: Option<Task>,
    nextToken: Token,
    closing: bool,
    native: seq<Tool>)  // the tools registered before any connection

  datatype Event =
    | Spawn(parent: Task, task: Task)         // a child task inherits the context
    | Root(task: Task)
    | Finish(task: Task)
    | Desert(task: Task)                      // a task ends without running its lease finalizers
    | Borrow(task: Task)                      // run / process_direct
    | EnterLifespan(task: Task)
    | LeaveLease(task: Task)
    | GiveUpScope(task: Task)                 // cancelled while waiting for the scope lock
    | TakeScope(task: Task)
    | CallConnect(task: Task)                 // a direct call of _connect_mcp
    | CallClose(task: Task)                   // close_mcp
    | Connect(task: Task, gen: Gen)
    | Started(task: Task)
    | Interrupt(task: Task)                   // cancelled while awaiting startup
    | OwnerEnded(task: Task)
    | ResetTransport(task: Task)
    | ActivateScope(task: Task, cancelled: bool)
    | LeaveBody(task: Task)
    | RevokeScope(task: Task)
    | ScanBorrowers(task: Task)
    | Reaped(task: Task)
    | ReapBroken(task: Task)                  // the gathered wait itself failed
    | ForgetScope(task: Task)
    | CloseScope(task: Task)
    | OwnerRun(gen: Gen)
    | OwnerKilled(gen: Gen)                   // terminated before its first step
    | OwnerRegister(gen: Gen, batch: seq<Tool>)
    | OwnerDiscard(gen: Gen, keep: nat)
    | OwnerFail(gen: Gen)
    | OwnerPublish(gen: Gen)
    | OwnerStop(gen: Gen)                     // shutdown was signalled, or the wait was cancelled from outside
    | OwnerExit(gen: Gen)
    | CloseAgent

  // ---------- vocabulary ----------

  predicate Live(s: State, t: Task) {
    t in s.tasks && !s.tasks[t].done
  }

  function Top(ts: TaskState): Frame
    requires ts.frames != []
  {
    ts.frames[|ts.frames| - 1]
  }

  /** The task executes code of its own, in which it may call any entry point. */
  predicate Running(s: State, t: Task) {
    && Live(s, t)
    && (s.tasks[t].frames == []
        || Top(s.tasks[t]).Lease?
        || (Top(s.tasks[t]).Call? && Top(s.tasks[t]).pc.Body?))
  }

  predicate InCall(s: State, t: Task) {
    Live(s, t) && s.tasks[t].frames != [] && Top(s.tasks[t]).Call?
  }

  function PcOf(s: State, t: Task): Pc
    requires InCall(s, t)
  {
    Top(s.tasks[t]).pc
  }

  function Push(s: State, t: Task, frame: Frame): State
    requires t in s.tasks
  {
    s.(tasks := s.tasks[t := s.tasks[t].(frames := s.tasks[t].frames + [frame])])
  }

  function Pop(s: State, t: Task): State
    requires t in s.tasks && s.tasks[t].frames != []
  {
    s.(tasks := s.tasks[t := s.tasks[t].(frames := s.tasks[t].frames[..|s.tasks[t].frames| - 1])])
  }

  function Goto(s: State, t: Task, pc: Pc): State
    requires InCall(s, t)
  {
    var frames := s.tasks[t].frames;
    var n := |frames| - 1;
    s.(tasks := s.tasks[t := s.tasks[t].(frames := frames[n := frames[n].(pc := pc)])])
  }

  /** A call returns or raises; a lifespan gives back the scope lock it holds. */
  function Return(s: State, t: Task): State
    requires InCall(s, t)
  {
    if Top(s.tasks[t]).scoped then Pop(s, t).(scopeLock := None) else Pop(s, t)
  }

  function SetContext(s: State, t: Task, context: Option<Token>): State
    requires t in s.tasks
  {
    s.(tasks := s.tasks[t := s.tasks[t].(context := context)])
  }

  function FinishedTasks(s: State): set<Task> {
    set t | t in s.tasks && s.tasks[t].done
  }

  function SetPhase(s: State, gen: Gen, phase: Phase): State
    requires gen in s.gens
  {
    s.(gens := s.gens[gen := s.gens[gen].(phase := phase)])
  }

  predicate InPhase(s: State, gen: Gen, phase: Phase) {
    gen in s.gens && s.gens[gen].phase == phase
  }

  // ---------- steps of the callers ----------

  function DoSpawn(s: State, t: Task, context: Option<Token>): State {
    s.(tasks := s.tasks[t := TaskState(context, [], false)])
  }

  function DoEnd(s: State, t: Task): State
    requires t in s.tasks
  {
    s.(tasks := s.tasks[t := s.tasks[t].(frames := [], done := true)])
  }

  function DoBorrow(s: State, t: Task): State
    requires Running(s, t)
  {
    match ReuseVerdict(s.f, t, s.tasks[t].context)
    case Owned => Push(s, t, Lease(false))
    case Borrowed => Push(s.(f := Lend(s.f, t)), t, Lease(true))
    case Rejected => s   // raises: the inherited scope is revoked
    case NoScope => s    // falls through to a lifespan of its own
  }

  function DoEnterLifespan(s: State, t: Task): State
    requires Running(s, t)
  {
    if s.closing then s
    else if ReuseVerdict(s.f, t, s.tasks[t].context) == NoScope then Push(s, t, Call(true, WaitScope))
    else DoBorrow(s, t)
  }

  predicate CanLeaveLease(s: State, t: Task) {
    Live(s, t) && s.tasks[t].frames != [] && Top(s.tasks[t]).Lease?
  }

  function DoLeaveLease(s: State, t: Task): State
    requires CanLeaveLease(s, t)
  {
    if Top(s.tasks[t]).borrowed then Pop(s.(f := Release(s.f, t)), t) else Pop(s, t)
  }

  function DoTakeScope(s: State, t: Task): State
    requires InCall(s, t)
  {
    if s.closing then Pop(s, t) else Goto(s, t, BeginConnect).(scopeLock := Some(t))
  }

  function DoCallClose(s: State, t: Task): State
    requires Running(s, t)
  {
    match CloseVerdict(s.f, t, true)
    case Close(gen) => Push(s.(f := Signal(s.f, s.f.transportShutdown)), t, Call(false, CloseOwner(gen)))
    case _ => s
  }

  function DoConnect(s: State, t: Task, gen: Gen): State
    requires InCall(s, t)
  {
    match ConnectVerdict(s.f)
    case AlreadyConnected => if Top(s.tasks[t]).scoped then Goto(s, t, Activating(false)) else Pop(s, t)
    case Join(joined) => Goto(s, t, AwaitStart(joined, false))
    case Initiate =>
      Goto(s, t, AwaitStart(gen, true))
        .(f := Initiated(s.f, t, gen), gens := s.gens[gen := Transport(Created, None, [], 0, 0)])
  }

  predicate CanStart(s: State, t: Task) {
    && InCall(s, t) && PcOf(s, t).AwaitStart?
    && PcOf(s, t).gen in s.gens && s.gens[PcOf(s, t).gen].started.Some?
  }

  function DoStarted(s: State, t: Task): State
    requires CanStart(s, t)
  {
    var pc := PcOf(s, t);
    if s.gens[pc.gen].started == Some(false) then Goto(s, t, AbortOwner(pc.gen))
    else if Top(s.tasks[t]).scoped then Goto(s, t, Activating(pc.initiator))
    else Pop(s, t)
  }

  predicate CanInterrupt(s: State, t: Task) {
    InCall(s, t) && PcOf(s, t).AwaitStart? && PcOf(s, t).gen in s.gens
  }

  function CancelOwner(s: State, gen: Gen): State
    requires gen in s.gens
  {
    s.(gens := s.gens[gen := s.gens[gen].(cancels := s.gens[gen].cancels + 1)])
  }

  function DoInterrupt(s: State, t: Task): State
    requires CanInterrupt(s, t)
  {
    var pc := PcOf(s, t);
    var started := s.gens[pc.gen].started;
    if !pc.initiator then Return(s, t)
    else if started.None? then CancelOwner(Goto(s, t, AbortOwner(pc.gen)), pc.gen)
    else if started.value then Goto(s, t, AbortOwner(pc.gen)).(f := Signal(s.f, s.f.transportShutdown))
    else Goto(s, t, AbortOwner(pc.gen))
  }

  predicate CanSeeOwnerEnd(s: State, t: Task) {
    && InCall(s, t) && (PcOf(s, t).AbortOwner? || PcOf(s, t).CloseOwner?)
    && InPhase(s, PcOf(s, t).gen, Finished)
  }

  function DoOwnerEnded(s: State, t: Task): State
    requires CanSeeOwnerEnd(s, t)
  {
    var pc := PcOf(s, t);
    Goto(s, t, if pc.AbortOwner? then AbortReset(pc.gen) else CloseReset(pc.gen))
  }

  predicate CanReset(s: State, t: Task) {
    && InCall(s, t) && (PcOf(s, t).AbortReset? || PcOf(s, t).CloseReset?)
    && PcOf(s, t).gen in s.gens && |s.f.names| == |s.f.published|
  }

  function DoReset(s: State, t: Task): State
    requires CanReset(s, t)
  {
    var gen := PcOf(s, t).gen;
    var effective := s.f.transportTask == Some(gen);
    var r := s.gens[gen].resets;
    Return(s, t).(f := Reset(s.f, gen),
                  gens := s.gens[gen := s.gens[gen].(resets := if effective then r + 1 else r)])
  }

  predicate CanActivate(s: State, t: Task) {
    InCall(s, t) && Top(s.tasks[t]).scoped && PcOf(s, t).Activating?
  }

  function DoActivate(s: State, t: Task, cancelled: bool): State
    requires CanActivate(s, t)
  {
    var owns := PcOf(s, t).owns;
    if cancelled then (if owns then Goto(s, t, BeginClose) else Return(s, t))
    else
      SetContext(Goto(s, t, Body(Hold(s.nextToken, owns, s.tasks[t].context))), t, Some(s.nextToken))
        .(f := Activate(s.f, s.nextToken), nextToken := s.nextToken + 1)
  }

  function DoRevoke(s: State, t: Task): State
    requires InCall(s, t) && PcOf(s, t).Revoking?
  {
    var hold := PcOf(s, t).hold;
    Goto(s, t, Scanning(hold, None)).(f := Revoke(s.f, hold.token))
  }

  function DoScan(s: State, t: Task): State
    requires InCall(s, t) && PcOf(s, t).Scanning?
  {
    var hold := PcOf(s, t).hold;
    var f := Scan(s.f, FinishedTasks(s));
    Goto(s, t, if f.borrowers == map[] then Forgetting(hold) else Reaping(hold, f.borrowers.Keys)).(f := f)
  }

  predicate CanReap(s: State, t: Task) {
    && InCall(s, t) && PcOf(s, t).Reaping?
    && forall u | u in PcOf(s, t).remaining :: u in s.tasks && s.tasks[u].done
  }

  function DoReaped(s: State, t: Task): State
    requires InCall(s, t) && PcOf(s, t).Reaping?
  {
    Goto(s, t, Scanning(PcOf(s, t).hold, Some(PcOf(s, t).remaining)))
  }

  function DoReapBroken(s: State, t: Task): State
    requires InCall(s, t) && PcOf(s, t).Reaping?
  {
    Goto(s, t, Scanning(PcOf(s, t).hold, None))
  }

  function DoForget(s: State, t: Task): State
    requires InCall(s, t) && PcOf(s, t).Forgetting?
  {
    var hold := PcOf(s, t).hold;
    var s' := SetContext(s.(f := Forget(s.f, hold.token)), t, hold.saved);
    if hold.owns then Goto(s', t, BeginClose) else Return(s', t)
  }

  function DoCloseScope(s: State, t: Task): State
    requires InCall(s, t)
  {
    match CloseVerdict(s.f, t, false)
    case Close(gen) => Goto(s, t, CloseOwner(gen)).(f := Signal(s.f, s.f.transportShutdown))
    case _ => Return(s, t)
  }

  // ---------- steps of the transport owner ----------

  function DoKill(s: State, gen: Gen): State
    requires gen in s.gens
  {
    s.(gens := s.gens[gen := s.gens[gen].(phase := Finished, started := Some(false))])
  }

  predicate CanRegister(s: State, gen: Gen, batch: seq<Tool>) {
    InPhase(s, gen, Connecting) && Registrable(s.f.tools, batch)
  }

  function DoRegister(s: State, gen: Gen, batch: seq<Tool>): State
    requires gen in s.gens
  {
    s.(f := s.f.(tools := s.f.tools + batch),
       gens := s.gens[gen := s.gens[gen].(catalogue := s.gens[gen].catalogue + batch)])
  }

  predicate CanDiscard(s: State, gen: Gen, keep: nat) {
    InPhase(s, gen, Connecting) && keep <= |s.gens[gen].catalogue|
  }

  /** Takes the registered tools from position `keep` on out of the registry again. */
  function Dropped(s: State, gen: Gen, keep: nat): State
    requires gen in s.gens && keep <= |s.gens[gen].catalogue|
  {
    var batch := s.gens[gen].catalogue[keep..];
    s.(f := s.f.(tools := Without(s.f.tools, Names(batch), Some(batch))),
       gens := s.gens[gen := s.gens[gen].(catalogue := s.gens[gen].catalogue[..keep])])
  }

  function DoFail(s: State, gen: Gen): State
    requires gen in s.gens
  {
    var s' := Dropped(s, gen, 0);
    s'.(gens := s'.gens[gen := s'.gens[gen].(phase := Cleaning, started := Some(false))])
  }

  function DoPublish(s: State, gen: Gen): State
    requires gen in s.gens
  {
    s.(f := Publish(s.f, gen, s.gens[gen].catalogue),
       gens := s.gens[gen := s.gens[gen].(phase := Serving, started := Some(true))])
  }

  // ---------- the machine ----------

  predicate Enabled(s: State, e: Event) {
    match e
    case Spawn(parent, t) => Running(s, parent) && t !in s.tasks
    case Root(t) => t !in s.tasks
    case Finish(t) => Live(s, t) && s.tasks[t].frames == []
    case Desert(t) => Live(s, t) && forall i | 0 <= i < |s.tasks[t].frames| :: s.tasks[t].frames[i].Lease?
    case Borrow(t) => Running(s, t)
    case EnterLifespan(t) => Running(s, t)
    case LeaveLease(t) => CanLeaveLease(s, t)
    case GiveUpScope(t) => InCall(s, t) && PcOf(s, t).WaitScope?
    case TakeScope(t) => InCall(s, t) && PcOf(s, t).WaitScope? && s.scopeLock.None?
    case CallConnect(t) => Running(s, t)
    case CallClose(t) => Running(s, t)
    case Connect(t, gen) => InCall(s, t) && PcOf(s, t).BeginConnect? && gen !in s.gens && gen !in s.f.signals
    case Started(t) => CanStart(s, t)
    case Interrupt(t) => CanInterrupt(s, t)
    case OwnerEnded(t) => CanSeeOwnerEnd(s, t)
    case ResetTransport(t) => CanReset(s, t)
    case ActivateScope(t, _) => CanActivate(s, t)
    case LeaveBody(t) => InCall(s, t) && PcOf(s, t).Body?
    case RevokeScope(t) => InCall(s, t) && PcOf(s, t).Revoking?
    case ScanBorrowers(t) => InCall(s, t) && PcOf(s, t).Scanning?
    case Reaped(t) => CanReap(s, t)
    case ReapBroken(t) => InCall(s, t) && PcOf(s, t).Reaping?
    case ForgetScope(t) => InCall(s, t) && PcOf(s, t).Forgetting?
    case CloseScope(t) => InCall(s, t) && PcOf(s, t).BeginClose?
    case OwnerRun(gen) => InPhase(s, gen, Created)
    case OwnerKilled(gen) => InPhase(s, gen, Created)
    case OwnerRegister(gen, batch) => CanRegister(s, gen, batch)
    case OwnerDiscard(gen, keep) => CanDiscard(s, gen, keep)
    case OwnerFail(gen) => InPhase(s, gen, Connecting)
    case OwnerPublish(gen) => InPhase(s, gen, Connecting)
    case OwnerStop(gen) => InPhase(s, gen, Serving)
    case OwnerExit(gen) => InPhase(s, gen, Cleaning)
    case CloseAgent => true
  }

  predicate IsEntry(e: Event) {
    || e.Spawn? || e.Root? || e.Finish? || e.Desert? || e.Borrow? || e.EnterLifespan? || e.LeaveLease?
    || e.GiveUpScope? || e.TakeScope? || e.CallConnect? || e.CallClose?
  }

  predicate IsConnect(e: Event) {
    || e.Connect? || e.Started? || e.Interrupt? || e.OwnerEnded? || e.ResetTransport? || e.ActivateScope?
  }

  predicate IsScope(e: Event) {
    || e.LeaveBody? || e.RevokeScope? || e.ScanBorrowers? || e.Reaped? || e.ReapBroken? || e.ForgetScope?
    || e.CloseScope?
  }

  function EntryStep(s: State, e: Event): State
    requires Enabled(s, e)
  {
    match e
    case Spawn(parent, t) => DoSpawn(s, t, s.tasks[parent].context)
    case Root(t) => DoSpawn(s, t, None)
    case Finish(t) => DoEnd(s, t)
    case Desert(t) => DoEnd(s, t)
    case Borrow(t) => DoBorrow(s, t)
    case EnterLifespan(t) => DoEnterLifespan(s, t)
    case LeaveLease(t) => DoLeaveLease(s, t)
    case GiveUpScope(t) => Pop(s, t)
    case TakeScope(t) => DoTakeScope(s, t)
    case CallConnect(t) => Push(s, t, Call(false, BeginConnect))
    case CallClose(t) => DoCallClose(s, t)
    case _ => s
  }

  function ConnectStep(s: State, e: Event): State
    requires Enabled(s, e)
  {
    match e
    case Connect(t, gen) => DoConnect(s, t, gen)
    case Started(t) => DoStarted(s, t)
    case Interrupt(t) => DoInterrupt(s, t)
    case OwnerEnded(t) => DoOwnerEnded(s, t)
    case ResetTransport(t) => DoReset(s, t)
    case ActivateScope(t, cancelled) => DoActivate(s, t, cancelled)
    case _ => s
  }

  function ScopeStep(s: State, e: Event): State
    requires Enabled(s, e)
  {
    match e
    case LeaveBody(t) => Goto(s, t, Revoking(PcOf(s, t).hold))
    case RevokeScope(t) => DoRevoke(s, t)
    case ScanBorrowers(t) => DoScan(s, t)
    case Reaped(t) => DoReaped(s, t)
    case ReapBroken(t) => DoReapBroken(s, t)
    case ForgetScope(t) => DoForget(s, t)
    case CloseScope(t) => DoCloseScope(s, t)
    case _ => s
  }

  function OwnerStep(s: State, e: Event): State
    requires Enabled(s, e)
  {
    match e
    case OwnerRun(gen) => SetPhase(s, gen, Connecting)
    case OwnerKilled(gen) => DoKill(s, gen)
    case OwnerRegister(gen, batch) => DoRegister(s, gen, batch)
    case OwnerDiscard(gen, keep) => Dropped(s, gen, keep)
    case OwnerFail(gen) => DoFail(s, gen)
    case OwnerPublish(gen) => DoPublish(s, gen)
    case OwnerStop(gen) => SetPhase(s, gen, Cleaning)
    case OwnerExit(gen) => SetPhase(s, gen, Finished)
    case _ => s
  }

  function Step(s: State, e: Event): State
    requires Enabled(s, e)
  {
    if IsEntry(e) then EntryStep(s, e)
    else if IsConnect(e) then ConnectStep(s, e)
    else if IsScope(e) then ScopeStep(s, e)
    else if e.CloseAgent? then s.(closing := true)
    else OwnerStep(s, e)
  }

  /** A run: each event is enabled where it happens. */
  ghost predicate Run(s: State, events: seq<Event>, end: State)
    decreases |events|
  {
    if events == [] then s == end
    else Enabled(s, events[0]) && Run(Step(s, events[0]), events[1..], end)
  }

  ghost predicate Initial(s: State) {
    && Distinct(Names(s.native))
    && s == State(Blank(s.native), map[], map[], None, 0, false, s.native)
  }

  /** Connections start only through `mcp_lifespan`. */
  ghost predicate Public(events: seq<Event>) {
    forall i | 0 <= i < |events| :: !events[i].CallConnect?
  }
}
