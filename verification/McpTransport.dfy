/** What every step of the MCP lifecycle keeps about transports, for any callers at
    all: direct connects, several waiters on one startup, cancellations anywhere. */
module McpTransport {
  import opened Prelude
  import opened ToolRegistry
  import opened McpFields
  import opened McpProtocol

  // ---------- the invariant ----------

  predicate Unpublished(f: Fields) {
    !f.connected && f.names == [] && f.published == [] && f.stack.None? && f.report.None?
  }

  predicate PublishedAs(f: Fields, gen: Gen, catalogue: seq<Tool>) {
    && f.connected && f.names == Names(catalogue) && f.published == catalogue
    && f.stack == Some(gen) && f.report == Some(gen)
  }

  ghost predicate FieldsOk(f: Fields, gens: map<Gen, Transport>, native: seq<Tool>) {
    && f.transportStarted == f.transportTask && f.transportShutdown == f.transportTask
    && Distinct(Names(f.tools))
    && match f.transportTask
       case None => Unpublished(f) && f.ownerTask.None? && f.tools == native
       case Some(gen) =>
         && gen in gens && f.ownerTask.Some? && f.tools == native + gens[gen].catalogue
         && if gens[gen].started == Some(true) then PublishedAs(f, gen, gens[gen].catalogue) else Unpublished(f)
  }

  predicate GenOk(recorded: bool, x: Transport) {
    && x.cancels <= 1
    && (if recorded then x.resets == 0 else x.resets == 1 && x.phase == Finished)
    && (x.phase == Created ==> x.started.None? && x.catalogue == [])
    && (x.phase == Connecting ==> x.started.None?)
    && (x.phase == Serving ==> x.started == Some(true))
    && (x.phase == Cleaning || x.phase == Finished ==> x.started.Some?)
    && (x.started == Some(false) ==> x.catalogue == [])
  }

  predicate PcOk(f: Fields, gens: map<Gen, Transport>, t: Task, pc: Pc) {
    match pc
    case AwaitStart(gen, initiator) =>
      && gen in gens
      && (initiator && gens[gen].started != Some(false) ==>
            f.transportTask == Some(gen) && f.ownerTask == Some(t) && gens[gen].cancels == 0)
    case AbortOwner(gen) => Entitled(f, gens, t, gen)
    case CloseOwner(gen) => Entitled(f, gens, t, gen)
    case AbortReset(gen) => Entitled(f, gens, t, gen) && gens[gen].phase == Finished
    case CloseReset(gen) => Entitled(f, gens, t, gen) && gens[gen].phase == Finished
    case _ => true
  }

  /** Only the initiator waits to reset a transport whose startup did not fail. */
  predicate Entitled(f: Fields, gens: map<Gen, Transport>, t: Task, gen: Gen) {
    && gen in gens
    && (f.transportTask == Some(gen) && gens[gen].started != Some(false) ==> f.ownerTask == Some(t))
  }

  predicate Suspended(frame: Frame) {
    frame.Lease? || frame.pc.Body?
  }

  predicate TaskOk(f: Fields, gens: map<Gen, Transport>, t: Task, ts: TaskState) {
    && (ts.done ==> ts.frames == [])
    && (forall i | 0 <= i < |ts.frames| - 1 :: Suspended(ts.frames[i]))
    && (ts.frames != [] && Top(ts).Call? ==> PcOk(f, gens, t, Top(ts).pc))
  }

  ghost predicate TransportInv(s: State) {
    && FieldsOk(s.f, s.gens, s.native)
    && (forall gen | gen in s.gens :: GenOk(s.f.transportTask == Some(gen), s.gens[gen]))
    && (forall t | t in s.tasks :: TaskOk(s.f, s.gens, t, s.tasks[t]))
  }

  predicate SameTransport(f: Fields, g: Fields) {
    g == f.(activeToken := g.activeToken, accepting := g.accepting, borrowers := g.borrowers, idle := g.idle,
            signals := g.signals)
  }

  /** A step of task `t` that leaves the transport fields alone. */
  lemma {:induction false} CallerStep(s: State, s': State, t: Task)
    requires TransportInv(s)
    requires SameTransport(s.f, s'.f) && s'.gens == s.gens && s'.native == s.native
    requires t in s'.tasks && s'.tasks == s.tasks[t := s'.tasks[t]]
    requires TaskOk(s.f, s.gens, t, s'.tasks[t])
    ensures TransportInv(s')
  {
    forall u | u in s'.tasks ensures TaskOk(s'.f, s'.gens, u, s'.tasks[u]) {
      assert TaskOk(s.f, s.gens, u, s'.tasks[u]);
    }
  }

  lemma {:induction false} PushOk(s: State, t: Task, frame: Frame)
    requires TransportInv(s) && Running(s, t)
    requires frame.Call? ==> PcOk(s.f, s.gens, t, frame.pc)
    ensures TaskOk(s.f, s.gens, t, Push(s, t, frame).tasks[t])
  {
    var ts := s.tasks[t];
    assert TaskOk(s.f, s.gens, t, ts);
    assert ts.frames != [] ==> Suspended(Top(ts));
  }

  lemma {:induction false} PopOk(s: State, t: Task, f: Fields, gens: map<Gen, Transport>)
    requires TransportInv(s) && t in s.tasks && s.tasks[t].frames != []
    ensures TaskOk(f, gens, t, Pop(s, t).tasks[t])
  {
    var ts := s.tasks[t];
    assert TaskOk(s.f, s.gens, t, ts);
    var rest := Pop(s, t).tasks[t];
    if rest.frames != [] {
      assert Suspended(ts.frames[|rest.frames| - 1]);
    }
  }

  lemma {:induction false} GotoOk(s: State, t: Task, pc: Pc, f: Fields, gens: map<Gen, Transport>)
    requires TransportInv(s) && InCall(s, t) && PcOk(f, gens, t, pc)
    ensures TaskOk(f, gens, t, Goto(s, t, pc).tasks[t])
  {
    assert TaskOk(s.f, s.gens, t, s.tasks[t]);
  }

  lemma {:induction false} ReuseKeeps(s: State, t: Task)
    requires TransportInv(s) && Running(s, t)
    ensures TransportInv(DoBorrow(s, t)) && TransportInv(DoEnterLifespan(s, t))
  {
    PushOk(s, t, Lease(false));
    PushOk(s, t, Lease(true));
    PushOk(s, t, Call(true, WaitScope));
    match ReuseVerdict(s.f, t, s.tasks[t].context) {
      case Owned => CallerStep(s, DoBorrow(s, t), t);
      case Borrowed => CallerStep(s, DoBorrow(s, t), t);
      case Rejected =>
      case NoScope => CallerStep(s, Push(s, t, Call(true, WaitScope)), t);
    }
  }

  lemma {:induction false} LeaveKeeps(s: State, t: Task)
    requires TransportInv(s) && CanLeaveLease(s, t)
    ensures TransportInv(DoLeaveLease(s, t))
  {
    PopOk(s, t, s.f, s.gens);
    CallerStep(s, DoLeaveLease(s, t), t);
  }

  lemma {:induction false} ReturnKeeps(s: State, t: Task)
    requires TransportInv(s) && InCall(s, t)
    ensures TransportInv(Return(s, t)) && TransportInv(Pop(s, t))
  {
    PopOk(s, t, s.f, s.gens);
    CallerStep(s, Return(s, t), t);
    CallerStep(s, Pop(s, t), t);
  }

  lemma {:induction false} GotoKeeps(s: State, t: Task, pc: Pc)
    requires TransportInv(s) && InCall(s, t) && PcOk(s.f, s.gens, t, pc)
    ensures TransportInv(Goto(s, t, pc))
  {
    GotoOk(s, t, pc, s.f, s.gens);
    CallerStep(s, Goto(s, t, pc), t);
  }

  lemma {:induction false} TakeScopeKeeps(s: State, t: Task)
    requires TransportInv(s) && InCall(s, t)
    ensures TransportInv(DoTakeScope(s, t))
  {
    ReturnKeeps(s, t);
    GotoOk(s, t, BeginConnect, s.f, s.gens);
    CallerStep(s, DoTakeScope(s, t), t) by {
      if s.closing { PopOk(s, t, s.f, s.gens); }
    }
  }

  lemma {:induction false} CallCloseKeeps(s: State, t: Task)
    requires TransportInv(s) && Running(s, t)
    ensures TransportInv(DoCallClose(s, t))
  {
    var verdict := CloseVerdict(s.f, t, true);
    if verdict.Close? {
      PushOk(s, t, Call(false, CloseOwner(verdict.gen)));
      CallerStep(s, DoCallClose(s, t), t);
    }
  }

  lemma {:induction false} CloseScopeKeeps(s: State, t: Task)
    requires TransportInv(s) && InCall(s, t)
    ensures TransportInv(DoCloseScope(s, t))
  {
    var verdict := CloseVerdict(s.f, t, false);
    if verdict.Close? {
      GotoOk(s, t, CloseOwner(verdict.gen), s.f, s.gens);
      CallerStep(s, DoCloseScope(s, t), t);
    } else {
      ReturnKeeps(s, t);
    }
  }

  lemma {:induction false} ScopeKeeps(s: State, t: Task)
    requires TransportInv(s) && InCall(s, t)
    ensures PcOf(s, t).Revoking? ==> TransportInv(DoRevoke(s, t))
    ensures PcOf(s, t).Scanning? ==> TransportInv(DoScan(s, t))
    ensures PcOf(s, t).Reaping? ==> TransportInv(DoReaped(s, t)) && TransportInv(DoReapBroken(s, t))
  {
    match PcOf(s, t) {
      case Revoking(hold) =>
        GotoOk(s, t, Scanning(hold, None), s.f, s.gens);
        CallerStep(s, DoRevoke(s, t), t);
      case Scanning(hold, _) =>
        var f := Scan(s.f, FinishedTasks(s));
        GotoOk(s, t, if f.borrowers == map[] then Forgetting(hold) else Reaping(hold, f.borrowers.Keys), s.f, s.gens);
        CallerStep(s, DoScan(s, t), t);
      case Reaping(hold, remaining) =>
        GotoKeeps(s, t, Scanning(hold, Some(remaining)));
        GotoKeeps(s, t, Scanning(hold, None));
      case _ =>
    }
  }

  lemma {:induction false} ActivateKeeps(s: State, t: Task, cancelled: bool)
    requires TransportInv(s) && CanActivate(s, t)
    ensures TransportInv(DoActivate(s, t, cancelled))
  {
    var owns := PcOf(s, t).owns;
    if cancelled {
      GotoKeeps(s, t, BeginClose);
      ReturnKeeps(s, t);
    } else {
      var pc := Body(Hold(s.nextToken, owns, s.tasks[t].context));
      GotoOk(s, t, pc, s.f, s.gens);
      CallerStep(s, DoActivate(s, t, cancelled), t);
    }
  }

  lemma {:induction false} ForgetKeeps(s: State, t: Task)
    requires TransportInv(s) && InCall(s, t) && PcOf(s, t).Forgetting?
    ensures TransportInv(DoForget(s, t))
  {
    var hold := PcOf(s, t).hold;
    var s' := SetContext(s.(f := Forget(s.f, hold.token)), t, hold.saved);
    assert TaskOk(s.f, s.gens, t, s.tasks[t]);
    CallerStep(s, s', t);
    GotoKeeps(s', t, BeginClose);
    ReturnKeeps(s', t);
  }

  // ---------- steps that change the recorded transport ----------

  lemma {:induction false} ConnectKeeps(s: State, t: Task, gen: Gen)
    requires TransportInv(s) && InCall(s, t) && PcOf(s, t).BeginConnect? && gen !in s.gens
    ensures TransportInv(DoConnect(s, t, gen))
  {
    match ConnectVerdict(s.f) {
      case AlreadyConnected =>
        GotoKeeps(s, t, Activating(false));
        ReturnKeeps(s, t);
      case Join(joined) => GotoKeeps(s, t, AwaitStart(joined, false));
      case Initiate =>
        var s' := DoConnect(s, t, gen);
        GotoOk(s, t, AwaitStart(gen, true), s'.f, s'.gens);
        forall u | u in s'.tasks ensures TaskOk(s'.f, s'.gens, u, s'.tasks[u]) {
          if u != t { assert TaskOk(s.f, s.gens, u, s.tasks[u]); }
        }
        forall g | g in s'.gens ensures GenOk(s'.f.transportTask == Some(g), s'.gens[g]) {
          if g != gen { assert GenOk(s.f.transportTask == Some(g), s.gens[g]); }
        }
        assert s.native + [] == s.native;
    }
  }

  lemma {:induction false} StartedKeeps(s: State, t: Task)
    requires TransportInv(s) && CanStart(s, t)
    ensures TransportInv(DoStarted(s, t))
  {
    var pc := PcOf(s, t);
    if s.gens[pc.gen].started == Some(false) {
      GotoKeeps(s, t, AbortOwner(pc.gen));
    }
    GotoKeeps(s, t, Activating(pc.initiator));
    ReturnKeeps(s, t);
  }

  lemma {:induction false} InterruptKeeps(s: State, t: Task)
    requires TransportInv(s) && CanInterrupt(s, t)
    ensures TransportInv(DoInterrupt(s, t))
  {
    var pc := PcOf(s, t);
    var s' := DoInterrupt(s, t);
    ReturnKeeps(s, t);
    assert TaskOk(s.f, s.gens, t, s.tasks[t]);
    if pc.initiator {
      GotoKeeps(s, t, AbortOwner(pc.gen));
      GotoOk(s, t, AbortOwner(pc.gen), s.f, s.gens);
      GotoOk(s, t, AbortOwner(pc.gen), s'.f, s'.gens);
    }
    if pc.initiator && s.gens[pc.gen].started == Some(true) {
      CallerStep(s, s', t);
    } else if pc.initiator && s.gens[pc.gen].started.None? {
      forall g | g in s'.gens ensures GenOk(s'.f.transportTask == Some(g), s'.gens[g]) {
        assert GenOk(s.f.transportTask == Some(g), s.gens[g]);
      }
      forall u | u in s'.tasks ensures TaskOk(s'.f, s'.gens, u, s'.tasks[u]) {
        if u != t { assert TaskOk(s.f, s.gens, u, s.tasks[u]); }
      }
    }
  }

  lemma {:induction false} OwnerEndedKeeps(s: State, t: Task)
    requires TransportInv(s) && CanSeeOwnerEnd(s, t)
    ensures TransportInv(DoOwnerEnded(s, t))
  {
    var pc := PcOf(s, t);
    GotoKeeps(s, t, if pc.AbortOwner? then AbortReset(pc.gen) else CloseReset(pc.gen));
  }

  /** The registry comes back exactly when a terminated transport is reset. */
  lemma {:induction false} ResetRestores(s: State, gen: Gen)
    requires TransportInv(s) && InPhase(s, gen, Finished) && s.f.transportTask == Some(gen)
    ensures Reset(s.f, gen).tools == s.native
  {
    var catalogue := s.gens[gen].catalogue;
    assert GenOk(s.f.transportTask == Some(gen), s.gens[gen]);
    if s.gens[gen].started == Some(true) {
      assert s.native + catalogue + [] == s.native + catalogue && s.native + [] == s.native;
      UnregisterUndoesRegister(s.native, catalogue, []);
    } else {
      assert s.gens[gen].started.Some? && !s.gens[gen].started.value;
      assert s.gens[gen].started == Some(false);
      assert catalogue == [] && s.native + [] == s.native;
      assert s.f.names == [] && s.f.published == [] && s.f.tools == s.native;
      WithoutKeeps(s.native, s.f.names, Some(s.f.published));
    }
  }

  lemma {:induction false} ResetKeeps(s: State, t: Task)
    requires TransportInv(s) && CanReset(s, t)
    ensures TransportInv(DoReset(s, t))
  {
    var gen := PcOf(s, t).gen;
    var s' := DoReset(s, t);
    assert TaskOk(s.f, s.gens, t, s.tasks[t]);
    if s.f.transportTask == Some(gen) {
      PopOk(s, t, s'.f, s'.gens);
      ResetRestores(s, gen);
      DistinctPrefix(s.native, s.gens[gen].catalogue);
      forall g | g in s'.gens ensures GenOk(s'.f.transportTask == Some(g), s'.gens[g]) {
        assert GenOk(s.f.transportTask == Some(g), s.gens[g]);
      }
      forall u | u in s'.tasks ensures TaskOk(s'.f, s'.gens, u, s'.tasks[u]) {
        if u != t { assert TaskOk(s.f, s.gens, u, s.tasks[u]); }
      }
    } else {
      PopOk(s, t, s.f, s.gens);
      assert s'.gens == s.gens;
      CallerStep(s, s', t);
    }
  }

  // ---------- steps of the transport owner ----------

  /** A step of transport `gen` that keeps the callers' views of it. */
  lemma {:induction false} OwnerStepKeeps(s: State, s': State, gen: Gen)
    requires TransportInv(s) && gen in s.gens
    requires s'.tasks == s.tasks && s'.native == s.native
    requires gen in s'.gens && s'.gens == s.gens[gen := s'.gens[gen]]
    requires s'.f.transportTask == s.f.transportTask && s'.f.ownerTask == s.f.ownerTask
    requires FieldsOk(s'.f, s'.gens, s'.native)
    requires GenOk(s.f.transportTask == Some(gen), s'.gens[gen])
    requires s'.gens[gen].cancels == s.gens[gen].cancels
    requires s.gens[gen].phase == Finished ==> s'.gens[gen].phase == Finished
    requires s.gens[gen].started.Some? ==> s'.gens[gen].started == s.gens[gen].started
    ensures TransportInv(s')
  {
    forall g | g in s'.gens ensures GenOk(s'.f.transportTask == Some(g), s'.gens[g]) {
      if g != gen { assert GenOk(s.f.transportTask == Some(g), s.gens[g]); }
    }
    forall u | u in s'.tasks ensures TaskOk(s'.f, s'.gens, u, s'.tasks[u]) {
      assert TaskOk(s.f, s.gens, u, s.tasks[u]);
    }
  }

  /** An unfinished transport is the recorded one. */
  lemma {:induction false} UnfinishedIsRecorded(s: State, gen: Gen)
    requires TransportInv(s) && gen in s.gens && s.gens[gen].phase != Finished
    ensures s.f.transportTask == Some(gen)
    ensures s.f.tools == s.native + s.gens[gen].catalogue
    ensures GenOk(true, s.gens[gen])
  {
    assert GenOk(s.f.transportTask == Some(gen), s.gens[gen]);
  }

  lemma {:induction false} PhaseKeeps(s: State, gen: Gen)
    requires TransportInv(s) && gen in s.gens
    ensures s.gens[gen].phase == Created ==>
              TransportInv(SetPhase(s, gen, Connecting)) && TransportInv(DoKill(s, gen))
    ensures s.gens[gen].phase == Serving ==> TransportInv(SetPhase(s, gen, Cleaning))
    ensures s.gens[gen].phase == Cleaning ==> TransportInv(SetPhase(s, gen, Finished))
  {
    if s.gens[gen].phase != Finished {
      UnfinishedIsRecorded(s, gen);
      match s.gens[gen].phase {
        case Created =>
          OwnerStepKeeps(s, SetPhase(s, gen, Connecting), gen);
          OwnerStepKeeps(s, DoKill(s, gen), gen);
        case Serving => OwnerStepKeeps(s, SetPhase(s, gen, Cleaning), gen);
        case Cleaning => OwnerStepKeeps(s, SetPhase(s, gen, Finished), gen);
        case _ =>
      }
    }
  }

  lemma {:induction false} RegisterKeeps(s: State, gen: Gen, batch: seq<Tool>)
    requires TransportInv(s) && CanRegister(s, gen, batch)
    ensures TransportInv(DoRegister(s, gen, batch))
  {
    UnfinishedIsRecorded(s, gen);
    assert s.native + s.gens[gen].catalogue + batch == s.native + (s.gens[gen].catalogue + batch);
    OwnerStepKeeps(s, DoRegister(s, gen, batch), gen);
  }

  /** Taking the tail of a partial catalogue out of the registry leaves its head. */
  lemma {:induction false} DroppedTools(s: State, gen: Gen, keep: nat)
    requires TransportInv(s) && CanDiscard(s, gen, keep)
    ensures Dropped(s, gen, keep).f.tools == s.native + s.gens[gen].catalogue[..keep]
    ensures Distinct(Names(Dropped(s, gen, keep).f.tools))
  {
    UnfinishedIsRecorded(s, gen);
    var catalogue := s.gens[gen].catalogue;
    var head, tail := catalogue[..keep], catalogue[keep..];
    assert s.f.tools == s.native + head + tail;
    assert s.native + head + tail + [] == s.f.tools && s.native + head + [] == s.native + head;
    UnregisterUndoesRegister(s.native + head, tail, []);
    DistinctPrefix(s.native + head, tail);
  }

  lemma {:induction false} DiscardKeeps(s: State, gen: Gen, keep: nat)
    requires TransportInv(s) && CanDiscard(s, gen, keep)
    ensures TransportInv(Dropped(s, gen, keep))
  {
    UnfinishedIsRecorded(s, gen);
    DroppedTools(s, gen, keep);
    OwnerStepKeeps(s, Dropped(s, gen, keep), gen);
  }

  lemma {:induction false} FailKeeps(s: State, gen: Gen)
    requires TransportInv(s) && InPhase(s, gen, Connecting)
    ensures TransportInv(DoFail(s, gen))
  {
    UnfinishedIsRecorded(s, gen);
    DroppedTools(s, gen, 0);
    OwnerStepKeeps(s, DoFail(s, gen), gen);
  }

  lemma {:induction false} PublishKeeps(s: State, gen: Gen)
    requires TransportInv(s) && InPhase(s, gen, Connecting)
    ensures TransportInv(DoPublish(s, gen))
  {
    UnfinishedIsRecorded(s, gen);
    OwnerStepKeeps(s, DoPublish(s, gen), gen);
  }

  lemma {:induction false} TasksComeAndGo(s: State, t: Task, context: Option<Token>)
    requires TransportInv(s)
    ensures t !in s.tasks ==> TransportInv(DoSpawn(s, t, context))
    ensures t in s.tasks ==> TransportInv(DoEnd(s, t))
  {
    if t in s.tasks {
      CallerStep(s, DoEnd(s, t), t);
    } else {
      CallerStep(s, DoSpawn(s, t, context), t);
    }
  }

  // ---------- every run ----------

  lemma {:induction false} EntryStepKeeps(s: State, e: Event)
    requires TransportInv(s) && Enabled(s, e) && IsEntry(e)
    ensures TransportInv(Step(s, e))
  {
    match e {
      case Spawn(parent, t) => TasksComeAndGo(s, t, s.tasks[parent].context);
      case Root(t) => TasksComeAndGo(s, t, None);
      case Finish(t) => TasksComeAndGo(s, t, None);
      case Desert(t) => TasksComeAndGo(s, t, None);
      case Borrow(t) => ReuseKeeps(s, t);
      case EnterLifespan(t) => ReuseKeeps(s, t);
      case LeaveLease(t) => LeaveKeeps(s, t);
      case GiveUpScope(t) => ReturnKeeps(s, t);
      case TakeScope(t) => TakeScopeKeeps(s, t);
      case CallConnect(t) =>
        PushOk(s, t, Call(false, BeginConnect));
        CallerStep(s, Push(s, t, Call(false, BeginConnect)), t);
      case CallClose(t) => CallCloseKeeps(s, t);
    }
  }

  lemma {:induction false} ConnectStepKeeps(s: State, e: Event)
    requires TransportInv(s) && Enabled(s, e) && IsConnect(e)
    ensures TransportInv(Step(s, e))
  {
    match e {
      case Connect(t, gen) => ConnectKeeps(s, t, gen);
      case Started(t) => StartedKeeps(s, t);
      case Interrupt(t) => InterruptKeeps(s, t);
      case OwnerEnded(t) => OwnerEndedKeeps(s, t);
      case ResetTransport(t) => ResetKeeps(s, t);
      case ActivateScope(t, cancelled) => ActivateKeeps(s, t, cancelled);
    }
  }

  lemma {:induction false} ScopeStepKeeps(s: State, e: Event)
    requires TransportInv(s) && Enabled(s, e) && IsScope(e)
    ensures TransportInv(Step(s, e))
  {
    match e {
      case LeaveBody(t) => GotoKeeps(s, t, Revoking(PcOf(s, t).hold));
      case RevokeScope(t) => ScopeKeeps(s, t);
      case ScanBorrowers(t) => ScopeKeeps(s, t);
      case Reaped(t) => ScopeKeeps(s, t);
      case ReapBroken(t) => ScopeKeeps(s, t);
      case ForgetScope(t) => ForgetKeeps(s, t);
      case CloseScope(t) => CloseScopeKeeps(s, t);
    }
  }

  lemma {:induction false} OwnStepKeeps(s: State, e: Event)
    requires TransportInv(s) && Enabled(s, e) && !IsEntry(e) && !IsConnect(e) && !IsScope(e)
    ensures TransportInv(Step(s, e))
  {
    match e {
      case OwnerRun(gen) => PhaseKeeps(s, gen);
      case OwnerKilled(gen) => PhaseKeeps(s, gen);
      case OwnerRegister(gen, batch) => RegisterKeeps(s, gen, batch);
      case OwnerDiscard(gen, keep) => DiscardKeeps(s, gen, keep);
      case OwnerFail(gen) => FailKeeps(s, gen);
      case OwnerPublish(gen) => PublishKeeps(s, gen);
      case OwnerStop(gen) => PhaseKeeps(s, gen);
      case OwnerExit(gen) => PhaseKeeps(s, gen);
      case CloseAgent =>
    }
  }

  lemma {:induction false} StepKeepsTransport(s: State, e: Event)
    requires TransportInv(s) && Enabled(s, e)
    ensures TransportInv(Step(s, e))
  {
    if IsEntry(e) {
      EntryStepKeeps(s, e);
    } else if IsConnect(e) {
      ConnectStepKeeps(s, e);
    } else if IsScope(e) {
      ScopeStepKeeps(s, e);
    } else {
      OwnStepKeeps(s, e);
    }
  }

  lemma {:induction false} RunKeepsTransport(s: State, events: seq<Event>, end: State)
    requires TransportInv(s) && Run(s, events, end)
    ensures TransportInv(end)
    decreases |events|
  {
    if events != [] {
      StepKeepsTransport(s, events[0]);
      RunKeepsTransport(Step(s, events[0]), events[1..], end);
    }
  }

  lemma {:induction false} InitialTransport(s: State)
    requires Initial(s)
    ensures TransportInv(s)
  {
  }

  /** Transport generations, over every run with any number of waiters and any
      cancellations: at most one cancel and one reset per transport, none reset
      before it has finished, every unrecorded one finished and reset, and nothing
      published without a recorded transport. */
  lemma {:induction false} TransportGenerations(s: State, events: seq<Event>, end: State)
    requires Initial(s) && Run(s, events, end)
    ensures forall gen | gen in end.gens ::
              && end.gens[gen].cancels <= 1 && end.gens[gen].resets <= 1
              && (end.gens[gen].resets == 1 ==> end.gens[gen].phase == Finished)
              && (end.f.transportTask != Some(gen) <==> end.gens[gen].resets == 1)
    ensures end.f.transportTask.None? ==>
              end.f == s.f.(activeToken := end.f.activeToken, accepting := end.f.accepting,
                            borrowers := end.f.borrowers, idle := end.f.idle, signals := end.f.signals)
    ensures end.f.connected ==>
              && end.f.transportTask.Some? && end.f.transportTask.value in end.gens
              && end.gens[end.f.transportTask.value].started == Some(true)
              && end.f.tools == s.f.tools + end.f.published && end.f.names == Names(end.f.published)
  {
    InitialTransport(s);
    RunKeepsTransport(s, events, end);
    NativeIsConstant(s, events, end);
    forall gen | gen in end.gens
      ensures GenOk(end.f.transportTask == Some(gen), end.gens[gen])
    {
    }
  }

  lemma {:induction false} NativeIsConstant(s: State, events: seq<Event>, end: State)
    requires Run(s, events, end)
    ensures end.native == s.native
    decreases |events|
  {
    if events != [] {
      StepKeepsNative(s, events[0]);
      NativeIsConstant(Step(s, events[0]), events[1..], end);
    }
  }

  lemma {:induction false} StepKeepsNative(s: State, e: Event)
    requires Enabled(s, e)
    ensures Step(s, e).native == s.native
  {
    if IsEntry(e) {
      assert EntryStep(s, e).native == s.native;
    } else if IsConnect(e) {
      assert ConnectStep(s, e).native == s.native;
    } else if IsScope(e) {
      assert ScopeStep(s, e).native == s.native;
    }
  }

  /** What a step may do to the bookkeeping of transport `gen`. */
  predicate Guarded(s: State, e: Event, s': State, gen: Gen)
    requires gen in s.gens
  {
    && gen in s'.gens
    && (s'.gens[gen].cancels != s.gens[gen].cancels ==> s.gens[gen].started.None?)
    && (s'.gens[gen].resets != s.gens[gen].resets ==>
          s.gens[gen].phase == Finished && s.f.transportTask == Some(gen) && e.ResetTransport?)
    && (s.f.transportTask == Some(gen) && s'.f.transportTask != Some(gen) ==>
          s'.gens[gen].resets == s.gens[gen].resets + 1)
  }

  lemma {:induction false} ResetsAreGuarded(s: State, t: Task, gen: Gen)
    requires TransportInv(s) && CanReset(s, t) && gen in s.gens
    ensures Guarded(s, ResetTransport(t), DoReset(s, t), gen)
  {
    assert TaskOk(s.f, s.gens, t, s.tasks[t]);
  }

  lemma {:induction false} InterruptsAreGuarded(s: State, t: Task, gen: Gen)
    requires TransportInv(s) && CanInterrupt(s, t) && gen in s.gens
    ensures Guarded(s, Interrupt(t), DoInterrupt(s, t), gen)
  {
    assert TaskOk(s.f, s.gens, t, s.tasks[t]);
  }

  lemma {:induction false} ConnectsAreGuarded(s: State, e: Event, gen: Gen)
    requires TransportInv(s) && Enabled(s, e) && gen in s.gens && IsConnect(e) && !e.ResetTransport? && !e.Interrupt?
    ensures Guarded(s, e, Step(s, e), gen)
  {
    if e.Connect? {
      assert ConnectVerdict(s.f) != Initiate ==> DoConnect(s, e.task, e.gen).gens[gen] == s.gens[gen];
    }
  }

  lemma {:induction false} EntriesAreGuarded(s: State, e: Event, gen: Gen)
    requires Enabled(s, e) && gen in s.gens && IsEntry(e)
    ensures Guarded(s, e, Step(s, e), gen)
  {
  }

  lemma {:induction false} ScopesAreGuarded(s: State, e: Event, gen: Gen)
    requires Enabled(s, e) && gen in s.gens && IsScope(e)
    ensures Guarded(s, e, Step(s, e), gen)
  {
  }

  /** A cancel reaches an owner only before its startup is published. A reset takes
      effect only on the recorded transport, after it has finished, and it is the
      only way a transport stops being recorded. */
  lemma {:induction false} CancelsAndResetsAreGuarded(s: State, e: Event, gen: Gen)
    requires TransportInv(s) && Enabled(s, e) && gen in s.gens
    ensures Guarded(s, e, Step(s, e), gen)
  {
    if e.ResetTransport? {
      ResetsAreGuarded(s, e.task, gen);
    } else if e.Interrupt? {
      InterruptsAreGuarded(s, e.task, gen);
    } else if IsConnect(e) {
      ConnectsAreGuarded(s, e, gen);
    } else if IsEntry(e) {
      EntriesAreGuarded(s, e, gen);
    } else if IsScope(e) {
      ScopesAreGuarded(s, e, gen);
    }
  }

  /** The same for every step of every run. */
  lemma {:induction false} GuardedInRuns(start: State, events: seq<Event>, s: State, e: Event, gen: Gen)
    requires Initial(start) && Run(start, events, s) && Enabled(s, e) && gen in s.gens
    ensures Guarded(s, e, Step(s, e), gen)
  {
    InitialTransport(start);
    RunKeepsTransport(start, events, s);
    CancelsAndResetsAreGuarded(s, e, gen);
  }
}
