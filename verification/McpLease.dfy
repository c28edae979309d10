/** Lease safety and scope restoration: what every step keeps when connections
    start only through `mcp_lifespan`. */
module McpLease {
  import opened Prelude
  import opened ToolRegistry
  import opened McpFields
  import opened McpProtocol
  import opened McpTransport

  // ---------- the invariant ----------

  /** No scope is active and nobody borrows. */
  predicate Quiet(f: Fields) {
    f.activeToken.None? && !f.accepting && f.borrowers == map[]
  }

  predicate OwnedBy(f: Fields, t: Task) {
    f.transportTask.Some? && f.ownerTask == Some(t)
  }

  /** The catalogue is published and the transport has not been told to shut down. */
  predicate InService(f: Fields) {
    f.connected && f.transportShutdown.Some? && f.transportShutdown.value !in f.signals
  }

  predicate AllDone(tasks: map<Task, TaskState>, reaped: set<Task>) {
    forall u | u in reaped :: u in tasks && tasks[u].done
  }

  predicate ScopeOpen(f: Fields, t: Task, context: Option<Token>, hold: Hold) {
    && hold.owns && hold.saved.None? && context == Some(hold.token)
    && OwnedBy(f, t) && InService(f) && f.activeToken == Some(hold.token)
  }

  /** Where the holder of the scope lock stands, and what the fields then say. */
  predicate HolderOk(f: Fields, tasks: map<Task, TaskState>, t: Task, context: Option<Token>, pc: Pc) {
    match pc
    case WaitScope => false
    case BeginConnect => f.transportTask.None? && Quiet(f) && context.None?
    case AwaitStart(gen, initiator) =>
      && initiator && f.transportTask == Some(gen) && gen !in f.signals
      && OwnedBy(f, t) && Quiet(f) && context.None?
    case AbortOwner(gen) => f.transportTask == Some(gen) && OwnedBy(f, t) && Quiet(f) && context.None?
    case AbortReset(gen) => f.transportTask == Some(gen) && OwnedBy(f, t) && Quiet(f) && context.None?
    case Activating(owns) => owns && OwnedBy(f, t) && InService(f) && Quiet(f) && context.None?
    case Body(hold) => ScopeOpen(f, t, context, hold) && f.accepting
    case Revoking(hold) => ScopeOpen(f, t, context, hold) && f.accepting
    case Scanning(hold, reaped) =>
      && ScopeOpen(f, t, context, hold) && !f.accepting
      && (reaped.Some? ==> f.borrowers.Keys <= reaped.value && AllDone(tasks, reaped.value))
    case Reaping(hold, remaining) =>
      && ScopeOpen(f, t, context, hold) && !f.accepting && f.borrowers.Keys <= remaining
      && t !in remaining && remaining <= tasks.Keys
    case Forgetting(hold) => ScopeOpen(f, t, context, hold) && !f.accepting && f.borrowers == map[]
    case BeginClose => OwnedBy(f, t) && Quiet(f) && context.None?
    case CloseOwner(gen) => f.transportTask == Some(gen) && OwnedBy(f, t) && Quiet(f) && context.None?
    case CloseReset(gen) => f.transportTask == Some(gen) && OwnedBy(f, t) && Quiet(f) && context.None?
  }

  /** The holder's frames: its lifespan at the bottom, reuses of its own scope above. */
  predicate HolderTask(f: Fields, tasks: map<Task, TaskState>, t: Task) {
    && t in tasks && !tasks[t].done && tasks[t].frames != []
    && tasks[t].frames[0].Call? && tasks[t].frames[0].scoped
    && HolderOk(f, tasks, t, tasks[t].context, tasks[t].frames[0].pc)
    && (forall i | 1 <= i < |tasks[t].frames| :: tasks[t].frames[i] == Lease(false))
  }

  /** Any other task waits for the scope lock, or is inside borrowed leases only. */
  predicate OtherTask(f: Fields, ts: TaskState) {
    || (ts.frames == [Call(true, WaitScope)] && ts.context.None?)
    || ((forall i | 0 <= i < |ts.frames| :: ts.frames[i] == Lease(true))
        && (ts.frames != [] ==> ts.context.Some? && ts.context == f.activeToken))
  }

  /** How many leases a live task is inside of. */
  function Leases(ts: TaskState): nat {
    if ts.frames != [] && ts.frames[0] == Lease(true) then |ts.frames| else 0
  }

  predicate TokensOk(s: State) {
    && (s.f.activeToken.Some? ==> s.f.activeToken.value < s.nextToken)
    && (forall u | u in s.tasks :: s.tasks[u].context.Some? ==> s.tasks[u].context.value < s.nextToken)
  }

  predicate BorrowersOk(s: State) {
    && (s.f.idle <==> s.f.borrowers == map[])
    && (forall u | u in s.f.borrowers :: u in s.tasks && s.f.borrowers[u] >= 1)
    && (forall u | u in s.tasks && !s.tasks[u].done :: Depth(s.f, u) == Leases(s.tasks[u]))
  }

  ghost predicate LockOk(s: State) {
    match s.scopeLock
    case None => s.f.transportTask.None? && Quiet(s.f)
    case Some(t) => HolderTask(s.f, s.tasks, t)
  }

  ghost predicate LeaseInv(s: State) {
    && TransportInv(s)
    && TokensOk(s)
    && BorrowersOk(s)
    && LockOk(s)
    && (forall u | u in s.tasks && s.scopeLock != Some(u) :: OtherTask(s.f, s.tasks[u]))
  }

  // ---------- steps of tasks that do not hold the scope lock ----------

  /** Without leases nobody else depends on the active token. */
  lemma {:induction false} NoBorrowersNoLeases(s: State, u: Task)
    requires LeaseInv(s) && s.f.borrowers == map[] && u in s.tasks && s.scopeLock != Some(u)
    ensures s.tasks[u].frames == [] || (s.tasks[u].frames == [Call(true, WaitScope)] && s.tasks[u].context.None?)
  {
    assert TaskOk(s.f, s.gens, u, s.tasks[u]);
    assert OtherTask(s.f, s.tasks[u]);
    if !s.tasks[u].done {
      assert Depth(s.f, u) == Leases(s.tasks[u]);
    }
  }

  /** What the fields say about a task that matches the active token. */
  lemma {:induction false} MatchingTask(s: State, u: Task)
    requires LeaseInv(s) && u in s.tasks && TokenMatches(s.f, s.tasks[u].context)
    ensures s.scopeLock.Some? && InService(s.f) && s.f.ownerTask == s.scopeLock
  {
    assert s.f.connected && s.f.activeToken.Some?;
  }

  lemma {:induction false} OtherStep(s: State, s': State, u: Task)
    requires LeaseInv(s) && TransportInv(s')
    requires s'.scopeLock == s.scopeLock && s.scopeLock != Some(u) && s'.nextToken == s.nextToken
    requires s'.f == s.f.(borrowers := s'.f.borrowers, idle := s'.f.idle)
    requires u in s'.tasks && s'.tasks == s.tasks[u := s'.tasks[u]]
    requires u in s.tasks && s.tasks[u].done ==> s'.tasks[u].done
    requires s'.tasks[u].context.Some? ==> s'.tasks[u].context.value < s.nextToken
    requires BorrowersOk(s') && s'.f.borrowers.Keys <= s.f.borrowers.Keys + {u}
    requires u in s'.f.borrowers && u !in s.f.borrowers ==> s.f.accepting
    requires OtherTask(s.f, s'.tasks[u])
    ensures LeaseInv(s')
  {
    forall v | v in s'.tasks && s'.scopeLock != Some(v) ensures OtherTask(s'.f, s'.tasks[v]) {
      if v != u { assert OtherTask(s.f, s.tasks[v]); }
    }
    if s.scopeLock.Some? {
      HolderUndisturbed(s, s', s.scopeLock.value, u);
    }
  }

  lemma {:induction false} HolderUndisturbed(s: State, s': State, t: Task, u: Task)
    requires HolderTask(s.f, s.tasks, t) && t != u
    requires s'.f == s.f.(borrowers := s'.f.borrowers, idle := s'.f.idle)
    requires u in s'.tasks && s'.tasks == s.tasks[u := s'.tasks[u]]
    requires u in s.tasks && s.tasks[u].done ==> s'.tasks[u].done
    requires s'.f.borrowers.Keys <= s.f.borrowers.Keys + {u}
    requires u in s'.f.borrowers && u !in s.f.borrowers ==> s.f.accepting
    ensures HolderTask(s'.f, s'.tasks, t)
  {
    if !s.f.accepting {
      assert s'.f.borrowers.Keys <= s.f.borrowers.Keys;
      if s.f.borrowers == map[] { assert s'.f.borrowers.Keys == {}; assert s'.f.borrowers == map[]; }
    }
  }

  lemma {:induction false} SpawnSafe(s: State, t: Task, context: Option<Token>)
    requires LeaseInv(s) && t !in s.tasks && (context.Some? ==> context.value < s.nextToken)
    ensures LeaseInv(DoSpawn(s, t, context))
  {
    TasksComeAndGo(s, t, context);
    var s' := DoSpawn(s, t, context);
    assert BorrowersOk(s');
    OtherStep(s, s', t);
  }

  lemma {:induction false} EndSafe(s: State, t: Task)
    requires LeaseInv(s) && Live(s, t) && forall i | 0 <= i < |s.tasks[t].frames| :: s.tasks[t].frames[i].Lease?
    ensures LeaseInv(DoEnd(s, t))
  {
    TasksComeAndGo(s, t, None);
    OtherStep(s, DoEnd(s, t), t);
  }

  lemma {:induction false} LentDepths(s: State, u: Task)
    requires LeaseInv(s) && Running(s, u) && s.scopeLock != Some(u)
    requires ReuseVerdict(s.f, u, s.tasks[u].context) == Borrowed
    ensures BorrowersOk(DoBorrow(s, u)) && OtherTask(s.f, DoBorrow(s, u).tasks[u])
  {
    var ts := s.tasks[u];
    var s' := DoBorrow(s, u);
    assert OtherTask(s.f, ts);
    assert Depth(s.f, u) == Leases(ts);
    assert s'.tasks[u].frames == ts.frames + [Lease(true)];
    assert Leases(s'.tasks[u]) == Leases(ts) + 1;
    assert u in s'.f.borrowers;
    forall v | v in s'.tasks && !s'.tasks[v].done ensures Depth(s'.f, v) == Leases(s'.tasks[v]) {
      assert Depth(s.f, v) == Leases(s.tasks[v]);
    }
  }

  lemma {:induction false} OtherBorrows(s: State, u: Task)
    requires LeaseInv(s) && Running(s, u) && s.scopeLock != Some(u)
    ensures LeaseInv(DoBorrow(s, u))
    ensures ReuseVerdict(s.f, u, s.tasks[u].context) != Owned
  {
    ReuseKeeps(s, u);
    if TokenMatches(s.f, s.tasks[u].context) {
      MatchingTask(s, u);
    }
    if ReuseVerdict(s.f, u, s.tasks[u].context) == Borrowed {
      LentDepths(s, u);
      OtherStep(s, DoBorrow(s, u), u);
    }
  }

  lemma {:induction false} OtherEnters(s: State, u: Task)
    requires LeaseInv(s) && Running(s, u) && s.scopeLock != Some(u)
    ensures LeaseInv(DoEnterLifespan(s, u))
  {
    OtherBorrows(s, u);
    ReuseKeeps(s, u);
    var ts := s.tasks[u];
    assert OtherTask(s.f, ts);
    if !s.closing && ReuseVerdict(s.f, u, ts.context) == NoScope {
      var s' := DoEnterLifespan(s, u);
      assert ts.frames == [];
      assert s'.tasks[u].frames == [Call(true, WaitScope)];
      assert Depth(s.f, u) == Leases(ts);
      assert BorrowersOk(s');
      OtherStep(s, s', u);
    }
  }

  lemma {:induction false} ReleasedDepths(s: State, u: Task)
    requires LeaseInv(s) && CanLeaveLease(s, u) && s.scopeLock != Some(u)
    ensures Top(s.tasks[u]).borrowed && u in s.f.borrowers
    ensures BorrowersOk(DoLeaveLease(s, u)) && Release(s.f, u).borrowers.Keys <= s.f.borrowers.Keys
  {
    var ts := s.tasks[u];
    var s' := DoLeaveLease(s, u);
    assert OtherTask(s.f, ts);
    assert Depth(s.f, u) == Leases(ts) == |ts.frames|;
    assert Leases(s'.tasks[u]) == |ts.frames| - 1;
    forall v | v in s'.tasks && !s'.tasks[v].done ensures Depth(s'.f, v) == Leases(s'.tasks[v]) {
      assert Depth(s.f, v) == Leases(s.tasks[v]);
    }
  }

  lemma {:induction false} OtherLeaves(s: State, u: Task)
    requires LeaseInv(s) && CanLeaveLease(s, u) && s.scopeLock != Some(u)
    ensures LeaseInv(DoLeaveLease(s, u))
  {
    LeaveKeeps(s, u);
    ReleasedDepths(s, u);
    assert OtherTask(s.f, s.tasks[u]);
    OtherStep(s, DoLeaveLease(s, u), u);
  }

  lemma {:induction false} GiveUpSafe(s: State, u: Task)
    requires LeaseInv(s) && InCall(s, u) && PcOf(s, u).WaitScope?
    ensures LeaseInv(Pop(s, u))
  {
    ReturnKeeps(s, u);
    NotTheHolder(s, u);
    var s' := Pop(s, u);
    assert OtherTask(s.f, s.tasks[u]);
    assert s'.tasks[u].frames == [];
    assert Depth(s.f, u) == Leases(s.tasks[u]);
    assert BorrowersOk(s');
    OtherStep(s, s', u);
  }

  lemma {:induction false} NotTheHolder(s: State, u: Task)
    requires LeaseInv(s) && InCall(s, u)
    ensures PcOf(s, u).WaitScope? <==> s.scopeLock != Some(u)
    ensures s.scopeLock == Some(u) ==> s.tasks[u].frames == [Call(true, PcOf(s, u))]
  {
    if s.scopeLock == Some(u) {
      assert HolderTask(s.f, s.tasks, u);
      assert |s.tasks[u].frames| == 1;
    } else {
      assert OtherTask(s.f, s.tasks[u]);
    }
  }

  // ---------- steps of the holder of the scope lock ----------

  lemma {:induction false} OthersKeep(s: State, s': State, t: Task)
    requires LeaseInv(s) && t in s'.tasks && s'.tasks == s.tasks[t := s'.tasks[t]]
    requires s.scopeLock == Some(t) || s.f.borrowers == map[]
    requires s'.f.activeToken == s.f.activeToken || s.f.borrowers == map[]
    ensures forall u | u in s'.tasks && u != t && s.scopeLock != Some(u) :: OtherTask(s'.f, s'.tasks[u])
  {
    forall u | u in s'.tasks && u != t && s.scopeLock != Some(u) ensures OtherTask(s'.f, s'.tasks[u]) {
      assert OtherTask(s.f, s.tasks[u]);
      if s.f.borrowers == map[] {
        NoBorrowersNoLeases(s, u);
      }
    }
  }

  /** The holder moves on; borrowers are untouched. */
  lemma {:induction false} HolderStep(s: State, s': State, t: Task)
    requires LeaseInv(s) && TransportInv(s') && s.scopeLock == Some(t) && s'.scopeLock == Some(t)
    requires t in s'.tasks && s'.tasks == s.tasks[t := s'.tasks[t]] && !s'.tasks[t].done
    requires TokensOk(s')
    requires s'.f.borrowers == s.f.borrowers && s'.f.idle == s.f.idle
    requires s'.f.activeToken == s.f.activeToken || s.f.borrowers == map[]
    requires HolderTask(s'.f, s'.tasks, t)
    ensures LeaseInv(s')
  {
    OthersKeep(s, s', t);
    assert Depth(s.f, t) == Leases(s.tasks[t]) == 0;
    forall u | u in s'.tasks && !s'.tasks[u].done ensures Depth(s'.f, u) == Leases(s'.tasks[u]) {
      assert u in s.tasks && (u != t ==> Depth(s.f, u) == Leases(s.tasks[u]));
    }
  }

  /** The holder leaves: nothing is recorded and nobody borrows. */
  lemma {:induction false} HolderLeaves(s: State, s': State, t: Task)
    requires LeaseInv(s) && TransportInv(s') && s.scopeLock == Some(t) && s'.scopeLock.None?
    requires t in s'.tasks && s'.tasks == s.tasks[t := s'.tasks[t]] && s'.tasks[t].frames == []
    requires TokensOk(s')
    requires s.f.borrowers == map[] && s'.f.idle == s.f.idle
    requires s'.f.transportTask.None? && Quiet(s'.f)
    ensures LeaseInv(s')
  {
    OthersKeep(s, s', t);
    forall u | u in s'.tasks && !s'.tasks[u].done ensures Depth(s'.f, u) == Leases(s'.tasks[u]) {
      assert u in s.tasks && (u != t ==> Depth(s.f, u) == Leases(s.tasks[u]));
    }
  }

  lemma {:induction false} TakeScopeSafe(s: State, t: Task)
    requires LeaseInv(s) && InCall(s, t) && PcOf(s, t).WaitScope? && s.scopeLock.None?
    ensures LeaseInv(DoTakeScope(s, t))
  {
    TakeScopeKeeps(s, t);
    NotTheHolder(s, t);
    assert OtherTask(s.f, s.tasks[t]);
    if s.closing {
      GiveUpSafe(s, t);
    } else {
      var s' := DoTakeScope(s, t);
      assert s.tasks[t].frames == [Call(true, WaitScope)];
      assert s'.tasks[t].frames == [Call(true, BeginConnect)];
      OthersKeep(s, s', t);
      assert BorrowersOk(s');
    }
  }

  /** Code of the holder runs only inside the body of its lifespan. */
  lemma {:induction false} RunningHolder(s: State, t: Task)
    requires LeaseInv(s) && Running(s, t) && s.scopeLock == Some(t)
    ensures s.tasks[t].frames != [] && s.tasks[t].frames[0].Call? && s.tasks[t].frames[0].pc.Body?
    ensures ReuseVerdict(s.f, t, s.tasks[t].context) == Owned
  {
    assert HolderTask(s.f, s.tasks, t);
    assert TaskOk(s.f, s.gens, t, s.tasks[t]);
    if |s.tasks[t].frames| > 1 {
      assert Suspended(s.tasks[t].frames[0]);
    }
  }

  lemma {:induction false} HolderReuses(s: State, t: Task)
    requires LeaseInv(s) && Running(s, t) && s.scopeLock == Some(t)
    ensures LeaseInv(DoBorrow(s, t))
  {
    RunningHolder(s, t);
    ReuseKeeps(s, t);
    var s' := DoBorrow(s, t);
    assert HolderTask(s.f, s.tasks, t);
    assert s'.tasks[t].frames == s.tasks[t].frames + [Lease(false)];
    assert HolderTask(s'.f, s'.tasks, t);
    HolderStep(s, s', t);
  }

  lemma {:induction false} HolderLeavesLease(s: State, t: Task)
    requires LeaseInv(s) && CanLeaveLease(s, t) && s.scopeLock == Some(t)
    ensures LeaseInv(DoLeaveLease(s, t))
  {
    LeaveKeeps(s, t);
    assert HolderTask(s.f, s.tasks, t);
    assert |s.tasks[t].frames| > 1;
    HolderStep(s, DoLeaveLease(s, t), t);
  }

  /** Nobody can close the transport of an active lifespan by hand. */
  lemma {:induction false} ManualCloseRefused(s: State, u: Task)
    requires LeaseInv(s) && Running(s, u)
    ensures DoCallClose(s, u) == s
  {
    if s.scopeLock == Some(u) {
      RunningHolder(s, u);
    }
  }

  /** The holder goes from one point of its lifespan to another. */
  lemma {:induction false} HolderGoes(s: State, s': State, t: Task, pc: Pc)
    requires LeaseInv(s) && InCall(s, t) && !PcOf(s, t).WaitScope?
    requires TransportInv(s') && s'.scopeLock == s.scopeLock && s'.nextToken == s.nextToken
    requires s'.tasks == Goto(s, t, pc).tasks
    requires s'.f.borrowers == s.f.borrowers && s'.f.idle == s.f.idle && s'.f.activeToken == s.f.activeToken
    requires HolderOk(s'.f, s'.tasks, t, s.tasks[t].context, pc)
    ensures LeaseInv(s')
  {
    NotTheHolder(s, t);
    assert s'.tasks[t].frames == [Call(true, pc)];
    HolderStep(s, s', t);
  }

  lemma {:induction false} HolderFacts(s: State, t: Task)
    requires LeaseInv(s) && InCall(s, t) && !PcOf(s, t).WaitScope?
    ensures s.scopeLock == Some(t) && s.tasks[t].frames == [Call(true, PcOf(s, t))]
    ensures HolderOk(s.f, s.tasks, t, s.tasks[t].context, PcOf(s, t))
    ensures PcOk(s.f, s.gens, t, PcOf(s, t))
  {
    NotTheHolder(s, t);
    assert HolderTask(s.f, s.tasks, t);
    assert TaskOk(s.f, s.gens, t, s.tasks[t]);
  }

  lemma {:induction false} ConnectSafe(s: State, t: Task, gen: Gen)
    requires LeaseInv(s) && InCall(s, t) && PcOf(s, t).BeginConnect? && gen !in s.gens && gen !in s.f.signals
    ensures LeaseInv(DoConnect(s, t, gen))
  {
    ConnectKeeps(s, t, gen);
    HolderFacts(s, t);
    assert ConnectVerdict(s.f) == Initiate;
    HolderGoes(s, DoConnect(s, t, gen), t, AwaitStart(gen, true));
  }

  lemma {:induction false} StartedSafe(s: State, t: Task)
    requires LeaseInv(s) && CanStart(s, t)
    ensures LeaseInv(DoStarted(s, t))
  {
    StartedKeeps(s, t);
    HolderFacts(s, t);
    var gen := PcOf(s, t).gen;
    if s.gens[gen].started == Some(false) {
      HolderGoes(s, DoStarted(s, t), t, AbortOwner(gen));
    } else {
      assert s.gens[gen].started.value;
      HolderGoes(s, DoStarted(s, t), t, Activating(true));
    }
  }

  lemma {:induction false} InterruptSafe(s: State, t: Task)
    requires LeaseInv(s) && CanInterrupt(s, t)
    ensures LeaseInv(DoInterrupt(s, t))
  {
    InterruptKeeps(s, t);
    HolderFacts(s, t);
    HolderGoes(s, DoInterrupt(s, t), t, AbortOwner(PcOf(s, t).gen));
  }

  lemma {:induction false} OwnerEndedSafe(s: State, t: Task)
    requires LeaseInv(s) && CanSeeOwnerEnd(s, t)
    ensures LeaseInv(DoOwnerEnded(s, t))
  {
    OwnerEndedKeeps(s, t);
    HolderFacts(s, t);
    var pc := PcOf(s, t);
    HolderGoes(s, DoOwnerEnded(s, t), t, if pc.AbortOwner? then AbortReset(pc.gen) else CloseReset(pc.gen));
  }

  lemma {:induction false} ResetSafe(s: State, t: Task)
    requires LeaseInv(s) && CanReset(s, t)
    ensures LeaseInv(DoReset(s, t))
  {
    ResetKeeps(s, t);
    HolderFacts(s, t);
    HolderLeaves(s, DoReset(s, t), t);
  }

  lemma {:induction false} ActivatedSafe(s: State, t: Task)
    requires LeaseInv(s) && CanActivate(s, t)
    ensures LeaseInv(DoActivate(s, t, false))
  {
    ActivateKeeps(s, t, false);
    HolderFacts(s, t);
    var s' := DoActivate(s, t, false);
    assert s'.tasks[t].frames == [Call(true, Body(Hold(s.nextToken, true, None)))];
    HolderStep(s, s', t);
  }

  lemma {:induction false} ActivateSafe(s: State, t: Task, cancelled: bool)
    requires LeaseInv(s) && CanActivate(s, t)
    ensures LeaseInv(DoActivate(s, t, cancelled))
  {
    if cancelled {
      ActivateKeeps(s, t, true);
      HolderFacts(s, t);
      HolderGoes(s, DoActivate(s, t, true), t, BeginClose);
    } else {
      ActivatedSafe(s, t);
    }
  }

  lemma {:induction false} LeaveBodySafe(s: State, t: Task)
    requires LeaseInv(s) && InCall(s, t) && PcOf(s, t).Body?
    ensures LeaseInv(Goto(s, t, Revoking(PcOf(s, t).hold)))
  {
    var hold := PcOf(s, t).hold;
    GotoKeeps(s, t, Revoking(hold));
    HolderFacts(s, t);
    HolderGoes(s, Goto(s, t, Revoking(hold)), t, Revoking(hold));
  }

  lemma {:induction false} RevokeSafe(s: State, t: Task)
    requires LeaseInv(s) && InCall(s, t) && PcOf(s, t).Revoking?
    ensures LeaseInv(DoRevoke(s, t))
  {
    ScopeKeeps(s, t);
    HolderFacts(s, t);
    HolderGoes(s, DoRevoke(s, t), t, Scanning(PcOf(s, t).hold, None));
  }

  lemma {:induction false} ReapSafe(s: State, t: Task)
    requires LeaseInv(s) && InCall(s, t) && PcOf(s, t).Reaping?
    ensures LeaseInv(DoReapBroken(s, t))
    ensures CanReap(s, t) ==> LeaseInv(DoReaped(s, t))
  {
    ScopeKeeps(s, t);
    HolderFacts(s, t);
    var hold, remaining := PcOf(s, t).hold, PcOf(s, t).remaining;
    HolderGoes(s, DoReapBroken(s, t), t, Scanning(hold, None));
    if CanReap(s, t) {
      var s' := DoReaped(s, t);
      assert AllDone(s'.tasks, remaining);
      HolderGoes(s, s', t, Scanning(hold, Some(remaining)));
    }
  }

  lemma {:induction false} ScanSafe(s: State, t: Task)
    requires LeaseInv(s) && InCall(s, t) && PcOf(s, t).Scanning?
    ensures LeaseInv(DoScan(s, t))
  {
    ScopeKeeps(s, t);
    HolderFacts(s, t);
    var s' := DoScan(s, t);
    OthersKeep(s, s', t);
    assert s'.f.borrowers.Keys <= s.f.borrowers.Keys;
    forall u | u in s'.tasks && !s'.tasks[u].done ensures Depth(s'.f, u) == Leases(s'.tasks[u]) {
      assert u !in FinishedTasks(s);
      assert Depth(s.f, u) == Leases(s.tasks[u]);
    }
    assert BorrowersOk(s');
    assert Depth(s.f, t) == Leases(s.tasks[t]) == 0;
    assert HolderTask(s'.f, s'.tasks, t);
  }

  lemma {:induction false} ForgetSafe(s: State, t: Task)
    requires LeaseInv(s) && InCall(s, t) && PcOf(s, t).Forgetting?
    ensures LeaseInv(DoForget(s, t))
  {
    ForgetKeeps(s, t);
    HolderFacts(s, t);
    var s' := DoForget(s, t);
    assert s'.tasks[t].frames == [Call(true, BeginClose)];
    HolderStep(s, s', t);
  }

  lemma {:induction false} CloseScopeSafe(s: State, t: Task)
    requires LeaseInv(s) && InCall(s, t) && PcOf(s, t).BeginClose?
    ensures LeaseInv(DoCloseScope(s, t))
  {
    CloseScopeKeeps(s, t);
    HolderFacts(s, t);
    assert CloseVerdict(s.f, t, false) == Close(s.f.transportTask.value);
    HolderGoes(s, DoCloseScope(s, t), t, CloseOwner(s.f.transportTask.value));
  }

  // ---------- every run ----------

  /** Publishing, registering and cleaning up never unpublish what a lease relies on. */
  lemma {:induction false} OwnerStepFrame(s: State, e: Event)
    requires TransportInv(s) && Enabled(s, e) && !IsEntry(e) && !IsConnect(e) && !IsScope(e)
    ensures Step(s, e).tasks == s.tasks && Step(s, e).scopeLock == s.scopeLock && Step(s, e).nextToken == s.nextToken
    ensures var f := Step(s, e).f;
            f == s.f.(tools := f.tools, stack := f.stack, report := f.report, names := f.names,
                      published := f.published, connected := f.connected)
    ensures s.f.connected ==> Step(s, e).f.connected
  {
  }

  lemma {:induction false} OwnerFieldsSafe(s: State, s': State)
    requires LeaseInv(s) && TransportInv(s')
    requires s'.tasks == s.tasks && s'.scopeLock == s.scopeLock && s'.nextToken == s.nextToken
    requires s'.f == s.f.(tools := s'.f.tools, stack := s'.f.stack, report := s'.f.report, names := s'.f.names,
                          published := s'.f.published, connected := s'.f.connected)
    requires s.f.connected ==> s'.f.connected
    ensures LeaseInv(s')
  {
    if s.scopeLock.Some? {
      HolderKeepsPublished(s.f, s'.f, s.tasks, s.scopeLock.value);
    }
    forall u | u in s'.tasks && s'.scopeLock != Some(u) ensures OtherTask(s'.f, s'.tasks[u]) {
      assert OtherTask(s.f, s.tasks[u]);
    }
    forall u | u in s'.tasks && !s'.tasks[u].done ensures Depth(s'.f, u) == Leases(s'.tasks[u]) {
      assert Depth(s.f, u) == Leases(s.tasks[u]);
    }
  }

  lemma {:induction false} HolderKeepsPublished(f: Fields, f': Fields, tasks: map<Task, TaskState>, t: Task)
    requires HolderTask(f, tasks, t)
    requires f' == f.(tools := f'.tools, stack := f'.stack, report := f'.report, names := f'.names,
                      published := f'.published, connected := f'.connected)
    requires f.connected ==> f'.connected
    ensures HolderTask(f', tasks, t)
  {
  }

  lemma {:induction false} OwnerStepSafe(s: State, e: Event)
    requires LeaseInv(s) && Enabled(s, e) && !IsEntry(e) && !IsConnect(e) && !IsScope(e)
    ensures LeaseInv(Step(s, e))
  {
    OwnStepKeeps(s, e);
    OwnerStepFrame(s, e);
    OwnerFieldsSafe(s, Step(s, e));
  }

  predicate IsLease(e: Event) {
    e.Borrow? || e.EnterLifespan? || e.LeaveLease?
  }

  lemma {:induction false} HolderLeaseStepSafe(s: State, e: Event)
    requires LeaseInv(s) && Enabled(s, e) && IsLease(e) && s.scopeLock == Some(e.task)
    ensures LeaseInv(Step(s, e))
  {
    if e.LeaveLease? {
      HolderLeavesLease(s, e.task);
    } else {
      RunningHolder(s, e.task);
      HolderReuses(s, e.task);
    }
  }

  lemma {:induction false} OtherLeaseStepSafe(s: State, e: Event)
    requires LeaseInv(s) && Enabled(s, e) && IsLease(e) && s.scopeLock != Some(e.task)
    ensures LeaseInv(Step(s, e))
  {
    match e {
      case Borrow(t) => OtherBorrows(s, t);
      case EnterLifespan(t) => OtherEnters(s, t);
      case LeaveLease(t) => OtherLeaves(s, t);
    }
  }

  lemma {:induction false} TaskStepSafe(s: State, e: Event)
    requires LeaseInv(s) && Enabled(s, e) && (e.Spawn? || e.Root? || e.Finish? || e.Desert?)
    ensures LeaseInv(Step(s, e))
  {
    match e {
      case Spawn(parent, t) => SpawnSafe(s, t, s.tasks[parent].context);
      case Root(t) => SpawnSafe(s, t, None);
      case Finish(t) => EndSafe(s, t);
      case Desert(t) => EndSafe(s, t);
    }
  }

  lemma {:induction false} EntryStepSafe(s: State, e: Event)
    requires LeaseInv(s) && Enabled(s, e) && IsEntry(e) && !IsLease(e) && !e.CallConnect?
    ensures LeaseInv(Step(s, e))
  {
    if e.GiveUpScope? {
      GiveUpSafe(s, e.task);
    } else if e.TakeScope? {
      TakeScopeSafe(s, e.task);
    } else if e.CallClose? {
      ManualCloseRefused(s, e.task);
    } else {
      TaskStepSafe(s, e);
    }
  }

  lemma {:induction false} StartStepSafe(s: State, e: Event)
    requires LeaseInv(s) && Enabled(s, e) && (e.Connect? || e.Started? || e.Interrupt?)
    ensures LeaseInv(Step(s, e))
  {
    match e {
      case Connect(t, gen) => ConnectSafe(s, t, gen);
      case Started(t) => StartedSafe(s, t);
      case Interrupt(t) => InterruptSafe(s, t);
    }
  }

  lemma {:induction false} ConnectStepSafe(s: State, e: Event)
    requires LeaseInv(s) && Enabled(s, e) && IsConnect(e)
    ensures LeaseInv(Step(s, e))
  {
    if e.OwnerEnded? {
      OwnerEndedSafe(s, e.task);
    } else if e.ResetTransport? {
      ResetSafe(s, e.task);
    } else if e.ActivateScope? {
      ActivateSafe(s, e.task, e.cancelled);
    } else {
      StartStepSafe(s, e);
    }
  }

  lemma {:induction false} DrainStepSafe(s: State, e: Event)
    requires LeaseInv(s) && Enabled(s, e) && (e.RevokeScope? || e.ScanBorrowers? || e.Reaped? || e.ReapBroken?)
    ensures LeaseInv(Step(s, e))
  {
    match e {
      case RevokeScope(t) => RevokeSafe(s, t);
      case ScanBorrowers(t) => ScanSafe(s, t);
      case Reaped(t) => ReapSafe(s, t);
      case ReapBroken(t) => ReapSafe(s, t);
    }
  }

  lemma {:induction false} ScopeStepSafe(s: State, e: Event)
    requires LeaseInv(s) && Enabled(s, e) && IsScope(e)
    ensures LeaseInv(Step(s, e))
  {
    if e.LeaveBody? {
      LeaveBodySafe(s, e.task);
    } else if e.ForgetScope? {
      ForgetSafe(s, e.task);
    } else if e.CloseScope? {
      CloseScopeSafe(s, e.task);
    } else {
      DrainStepSafe(s, e);
    }
  }

  lemma {:induction false} StepKeepsLeases(s: State, e: Event)
    requires LeaseInv(s) && Enabled(s, e) && !e.CallConnect?
    ensures LeaseInv(Step(s, e))
  {
    if IsLease(e) && s.scopeLock == Some(e.task) {
      HolderLeaseStepSafe(s, e);
    } else if IsLease(e) {
      OtherLeaseStepSafe(s, e);
    } else if IsEntry(e) {
      EntryStepSafe(s, e);
    } else if IsConnect(e) {
      ConnectStepSafe(s, e);
    } else if IsScope(e) {
      ScopeStepSafe(s, e);
    } else {
      OwnerStepSafe(s, e);
    }
  }

  lemma {:induction false} RunKeepsLeases(s: State, events: seq<Event>, end: State)
    requires LeaseInv(s) && Run(s, events, end) && Public(events)
    ensures LeaseInv(end)
    decreases |events|
  {
    if events != [] {
      StepKeepsLeases(s, events[0]);
      RunKeepsLeases(Step(s, events[0]), events[1..], end);
    }
  }

  lemma {:induction false} Reachable(s: State, events: seq<Event>, end: State)
    requires Initial(s) && Run(s, events, end) && Public(events)
    ensures LeaseInv(end)
  {
    InitialTransport(s);
    RunKeepsLeases(s, events, end);
  }

  /** Lease safety: whatever the interleaving, while anyone borrows, and while any live
      task is inside a reused scope, the catalogue is published, the token is the active
      one and the transport has not been told to shut down. */
  lemma {:induction false} LeaseSafety(s: State, events: seq<Event>, end: State)
    requires Initial(s) && Run(s, events, end) && Public(events)
    ensures end.f.borrowers != map[] ==> InService(end.f) && end.f.activeToken.Some?
    ensures forall u, i | u in end.tasks && !end.tasks[u].done && 0 <= i < |end.tasks[u].frames|
                          && end.tasks[u].frames[i].Lease? ::
              InService(end.f) && end.f.activeToken.Some? && end.tasks[u].context == end.f.activeToken
    ensures forall u | u in end.tasks && !end.tasks[u].done :: Depth(end.f, u) == Leases(end.tasks[u])
  {
    Reachable(s, events, end);
    forall u, i | u in end.tasks && !end.tasks[u].done && 0 <= i < |end.tasks[u].frames|
                  && end.tasks[u].frames[i].Lease?
      ensures InService(end.f) && end.f.activeToken.Some? && end.tasks[u].context == end.f.activeToken
    {
      LeasedTask(end, u, i);
    }
  }

  lemma {:induction false} LeasedTask(s: State, u: Task, i: nat)
    requires LeaseInv(s) && u in s.tasks && !s.tasks[u].done
    requires i < |s.tasks[u].frames| && s.tasks[u].frames[i].Lease?
    ensures InService(s.f) && s.f.activeToken.Some? && s.tasks[u].context == s.f.activeToken
  {
    assert TaskOk(s.f, s.gens, u, s.tasks[u]);
    if s.scopeLock == Some(u) {
      assert HolderTask(s.f, s.tasks, u);
      assert Suspended(s.tasks[u].frames[0]);
    } else {
      assert OtherTask(s.f, s.tasks[u]);
      assert Depth(s.f, u) == Leases(s.tasks[u]);
    }
  }

  /** Scope restoration: whenever no lifespan holds the scope lock, before an entry and
      after any exit alike, the registry and every MCP field are those of the start, and
      the next connect initiates a transport of its own. */
  lemma {:induction false} ScopeRestoration(s: State, events: seq<Event>, end: State)
    requires Initial(s) && Run(s, events, end) && Public(events)
    requires end.scopeLock.None?
    ensures end.f == s.f.(signals := end.f.signals)
    ensures ConnectVerdict(end.f) == Initiate
  {
    Reachable(s, events, end);
    NativeIsConstant(s, events, end);
  }

  predicate OnTheWayToConnect(pc: Pc) {
    pc.WaitScope? || pc.BeginConnect? || pc.AwaitStart? || pc.AbortOwner? || pc.AbortReset? || pc.Activating?
  }

  /** A task anywhere on the way to a connection of its own carries no inherited token. */
  lemma {:induction false} InheritedTokenNeverConnects(s: State, events: seq<Event>, end: State, t: Task)
    requires Initial(s) && Run(s, events, end) && Public(events)
    requires InCall(end, t) && OnTheWayToConnect(PcOf(end, t))
    ensures end.tasks[t].context.None?
  {
    Reachable(s, events, end);
    NotTheHolder(end, t);
    if PcOf(end, t).WaitScope? {
      assert OtherTask(end.f, end.tasks[t]);
    } else {
      HolderFacts(end, t);
    }
  }

  /** After the gathered wait, the drain's next pass finds nobody left. */
  lemma {:induction false} SecondPassFindsNobody(s: State, t: Task)
    requires LeaseInv(s) && InCall(s, t) && PcOf(s, t).Scanning? && PcOf(s, t).reaped.Some?
    ensures InCall(DoScan(s, t), t) && PcOf(DoScan(s, t), t) == Forgetting(PcOf(s, t).hold)
  {
    HolderFacts(s, t);
    assert s.f.borrowers.Keys <= PcOf(s, t).reaped.value <= FinishedTasks(s);
    assert (s.f.borrowers - FinishedTasks(s)).Keys == {};
    assert Scan(s.f, FinishedTasks(s)).borrowers == map[];
  }

  // ---------- revocation ----------

  /** The token was handed out and lends no more. */
  predicate Revoked(s: State, token: Token) {
    token < s.nextToken && !(s.f.activeToken == Some(token) && s.f.accepting)
  }

  predicate BorrowsUnder(ts: TaskState, token: Token) {
    !ts.done && ts.context == Some(token) && Leases(ts) > 0
  }

  function BorrowingUnder(s: State, token: Token): set<Task> {
    set u | u in s.tasks && BorrowsUnder(s.tasks[u], token)
  }

  /** The step keeps the token revoked and adds no borrower under it. */
  predicate Dwindles(s: State, s': State, token: Token) {
    Revoked(s', token) && BorrowingUnder(s', token) <= BorrowingUnder(s, token)
  }

  lemma {:induction false} BorrowAfterRevocation(s: State, u: Task, token: Token)
    requires LeaseInv(s) && Running(s, u) && Revoked(s, token)
    ensures Dwindles(s, DoBorrow(s, u), token)
  {
    var s' := DoBorrow(s, u);
    if s.scopeLock == Some(u) {
      RunningHolder(s, u);
      assert s'.tasks[u].frames[0] == s.tasks[u].frames[0];
    } else {
      OtherBorrows(s, u);
      assert Depth(s.f, u) == Leases(s.tasks[u]);
    }
  }

  lemma {:induction false} LeaveAfterRevocation(s: State, u: Task, token: Token)
    requires CanLeaveLease(s, u) && Revoked(s, token)
    ensures Dwindles(s, DoLeaveLease(s, u), token)
  {
    var ts, rest := s.tasks[u], DoLeaveLease(s, u).tasks[u];
    assert rest.frames != [] ==> rest.frames[0] == ts.frames[0];
  }

  lemma {:induction false} EnterAfterRevocation(s: State, u: Task, token: Token)
    requires LeaseInv(s) && Running(s, u) && Revoked(s, token)
    ensures Dwindles(s, DoEnterLifespan(s, u), token)
  {
    BorrowAfterRevocation(s, u, token);
    var ts, ts' := s.tasks[u], DoEnterLifespan(s, u).tasks[u];
    if ReuseVerdict(s.f, u, ts.context) == NoScope && ts.frames != [] {
      assert !s.closing ==> ts'.frames[0] == ts.frames[0];
    }
  }

  lemma {:induction false} LeaseAfterRevocation(s: State, e: Event, token: Token)
    requires LeaseInv(s) && Enabled(s, e) && IsLease(e) && Revoked(s, token)
    ensures Dwindles(s, Step(s, e), token)
  {
    match e {
      case Borrow(u) => BorrowAfterRevocation(s, u, token);
      case EnterLifespan(u) => EnterAfterRevocation(s, u, token);
      case LeaveLease(u) => LeaveAfterRevocation(s, u, token);
    }
  }

  lemma {:induction false} WaiterAfterRevocation(s: State, t: Task, token: Token)
    requires LeaseInv(s) && InCall(s, t) && PcOf(s, t).WaitScope? && Revoked(s, token)
    ensures Dwindles(s, Pop(s, t), token) && Dwindles(s, DoTakeScope(s, t), token)
  {
    NotTheHolder(s, t);
    assert OtherTask(s.f, s.tasks[t]);
    assert s.tasks[t].frames == [Call(true, WaitScope)];
  }

  lemma {:induction false} TasksAfterRevocation(s: State, t: Task, context: Option<Token>, token: Token)
    requires Revoked(s, token)
    ensures Dwindles(s, DoSpawn(s, t, context), token)
    ensures t in s.tasks ==> Dwindles(s, DoEnd(s, t), token)
  {
  }

  lemma {:induction false} EntryAfterRevocation(s: State, e: Event, token: Token)
    requires LeaseInv(s) && Enabled(s, e) && IsEntry(e) && !IsLease(e) && !e.CallConnect? && Revoked(s, token)
    ensures Dwindles(s, Step(s, e), token)
  {
    match e {
      case Spawn(parent, t) => TasksAfterRevocation(s, t, s.tasks[parent].context, token);
      case Root(t) => TasksAfterRevocation(s, t, None, token);
      case Finish(t) => TasksAfterRevocation(s, t, None, token);
      case Desert(t) => TasksAfterRevocation(s, t, None, token);
      case GiveUpScope(t) => WaiterAfterRevocation(s, t, token);
      case TakeScope(t) => WaiterAfterRevocation(s, t, token);
      case CallClose(t) => ManualCloseRefused(s, t);
    }
  }

  /** What a step of the holder between two points of its lifespan may change. */
  predicate HolderMoves(s: State, s': State, t: Task) {
    && t in s.tasks && t in s'.tasks && s'.tasks == s.tasks[t := s'.tasks[t]]
    && Leases(s'.tasks[t]) == 0 && s'.nextToken >= s.nextToken
    && (s'.f.activeToken.Some? && s'.f.accepting ==>
          s'.f.activeToken.value >= s.nextToken || (s'.f.activeToken == s.f.activeToken && s.f.accepting))
  }

  lemma {:induction false} MoveAfterRevocation(s: State, s': State, t: Task, token: Token)
    requires HolderMoves(s, s', t) && Revoked(s, token)
    ensures Dwindles(s, s', token)
  {
  }

  lemma {:induction false} ConnectMoves(s: State, e: Event)
    requires Enabled(s, e) && IsConnect(e) && s.tasks[e.task].frames == [Call(true, PcOf(s, e.task))]
    ensures HolderMoves(s, Step(s, e), e.task)
  {
  }

  lemma {:induction false} ScopeMoves(s: State, e: Event)
    requires Enabled(s, e) && IsScope(e) && s.tasks[e.task].frames == [Call(true, PcOf(s, e.task))]
    ensures HolderMoves(s, Step(s, e), e.task)
  {
  }

  lemma {:induction false} StepAfterRevocation(s: State, e: Event, token: Token)
    requires LeaseInv(s) && Enabled(s, e) && !e.CallConnect? && Revoked(s, token)
    ensures Dwindles(s, Step(s, e), token)
  {
    if IsLease(e) {
      LeaseAfterRevocation(s, e, token);
    } else if IsEntry(e) {
      EntryAfterRevocation(s, e, token);
    } else if IsConnect(e) {
      HolderFacts(s, e.task);
      ConnectMoves(s, e);
      MoveAfterRevocation(s, Step(s, e), e.task, token);
    } else if IsScope(e) {
      HolderFacts(s, e.task);
      ScopeMoves(s, e);
      MoveAfterRevocation(s, Step(s, e), e.task, token);
    } else {
      OwnerStepFrame(s, e);
    }
  }

  /** Revocation is permanent: from any reachable state in which a token no longer
      lends, it never lends again, and the tasks borrowing under it only dwindle. */
  lemma {:induction false} RevocationIsPermanent(s: State, events: seq<Event>, end: State, token: Token)
    requires LeaseInv(s) && Run(s, events, end) && Public(events) && Revoked(s, token)
    ensures Revoked(end, token) && BorrowingUnder(end, token) <= BorrowingUnder(s, token)
    decreases |events|
  {
    if events != [] {
      StepKeepsLeases(s, events[0]);
      StepAfterRevocation(s, events[0], token);
      RevocationIsPermanent(Step(s, events[0]), events[1..], end, token);
    }
  }

  /** The same from the start: in every run, once a token has stopped lending it never
      lends again and its borrowers only dwindle. */
  lemma {:induction false} RevokedForGood(start: State, before: seq<Event>, s: State, events: seq<Event>, end: State, token: Token)
    requires Initial(start) && Run(start, before, s) && Public(before) && Revoked(s, token)
    requires Run(s, events, end) && Public(events)
    ensures Revoked(end, token) && BorrowingUnder(end, token) <= BorrowingUnder(s, token)
  {
    Reachable(start, before, s);
    RevocationIsPermanent(s, events, end, token);
  }

  /** In every run, the pass of a drain that follows its gathered wait is its last. */
  lemma {:induction false} DrainEndsAfterItsWait(start: State, events: seq<Event>, s: State, t: Task)
    requires Initial(start) && Run(start, events, s) && Public(events)
    requires InCall(s, t) && PcOf(s, t).Scanning? && PcOf(s, t).reaped.Some?
    ensures InCall(DoScan(s, t), t) && PcOf(DoScan(s, t), t) == Forgetting(PcOf(s, t).hold)
  {
    Reachable(start, events, s);
    SecondPassFindsNobody(s, t);
  }
}
