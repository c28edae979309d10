/** What the MCP lifecycle grants: leases are lent and given back, and nobody waits for a
    transport that was not told to stop (k2do/agent/loop.py, 421-717). */
module McpProgress {
  import opened Prelude
  import opened ToolRegistry
  import opened McpFields
  import opened McpProtocol
  import opened McpTransport
  import opened McpLease

  // ---------- leases are granted ----------

  /** The lifespan of `h` stands in its body, under `token`. */
  predicate StandsInBody(s: State, h: Task, token: Token) {
    && h in s.tasks && s.tasks[h].frames != [] && s.tasks[h].frames[0].Call?
    && s.tasks[h].frames[0].pc.Body? && s.tasks[h].frames[0].pc.hold.token == token
  }

  lemma {:induction false} BodyHolder(s: State, h: Task, token: Token)
    requires LeaseInv(s) && StandsInBody(s, h, token)
    ensures s.scopeLock == Some(h) && InService(s.f) && s.f.activeToken == Some(token) && s.f.accepting
    ensures s.f.ownerTask == Some(h)
  {
    assert s.scopeLock != Some(h) ==> OtherTask(s.f, s.tasks[h]);
  }

  /** In a run, a borrow by a task that does not own the scope changes anything exactly when
      the token in its context is the active one of a published catalogue, and that token
      still lends or the task is a borrower already. */
  lemma {:induction false} BorrowsExactly(start: State, events: seq<Event>, s: State, u: Task)
    requires Initial(start) && Run(start, events, s) && Public(events)
    requires Running(s, u) && s.f.ownerTask != Some(u)
    ensures Step(s, Borrow(u)) != s <==>
            && s.f.connected && s.tasks[u].context.Some? && s.tasks[u].context == s.f.activeToken
            && (s.f.accepting || u in s.f.borrowers)
  {
    var s' := Step(s, Borrow(u));
    if s'.tasks[u].frames == s.tasks[u].frames + [Lease(true)] {
      assert |s'.tasks[u].frames| != |s.tasks[u].frames|;
    }
  }

  /** What a granted lease changes. */
  ghost predicate Leased(s: State, s': State, u: Task)
    requires u in s.tasks
  {
    && u in s'.tasks && s'.tasks == s.tasks[u := s.tasks[u].(frames := s.tasks[u].frames + [Lease(true)])]
    && s' == s.(tasks := s'.tasks, f := s.f.(borrowers := s'.f.borrowers, idle := false))
    && s'.f.borrowers == s.f.borrowers[u := |s.tasks[u].frames| + 1]
  }

  lemma {:induction false} Granted(s: State, h: Task, token: Token, u: Task)
    requires LeaseInv(s) && StandsInBody(s, h, token)
    requires u != h && Running(s, u) && s.tasks[u].context == Some(token)
    ensures Leased(s, Step(s, Borrow(u)), u)
  {
    BodyHolder(s, h, token);
    assert OtherTask(s.f, s.tasks[u]);
    assert Depth(s.f, u) == Leases(s.tasks[u]);
  }

  lemma {:induction false} GivenBack(s: State, s': State, u: Task)
    requires BorrowersOk(s) && Live(s, u) && Leased(s, s', u)
    requires forall i | 0 <= i < |s.tasks[u].frames| :: s.tasks[u].frames[i] == Lease(true)
    ensures Enabled(s', LeaveLease(u)) && Step(s', LeaveLease(u)) == s
  {
    var n := |s.tasks[u].frames|;
    assert Depth(s.f, u) == Leases(s.tasks[u]) == n;
    assert (s.tasks[u].frames + [Lease(true)])[..n] == s.tasks[u].frames;
    assert Released(s'.f.borrowers, u) == s.f.borrowers;
    assert s'.tasks[u := s.tasks[u]] == s.tasks;
  }

  /** In every run, while a lifespan stands in its body, any other task that carries its
      token borrows, through a lifespan of its own as well: its depth rises by one, to the
      number of leases it is inside. */
  lemma {:induction false} ChildrenBorrow(start: State, events: seq<Event>, s: State, h: Task, token: Token, u: Task)
    requires Initial(start) && Run(start, events, s) && Public(events) && StandsInBody(s, h, token)
    requires u != h && Running(s, u) && s.tasks[u].context == Some(token)
    ensures Leased(s, Step(s, Borrow(u)), u)
    ensures !s.closing ==> Step(s, EnterLifespan(u)) == Step(s, Borrow(u))
  {
    Reachable(start, events, s);
    Granted(s, h, token, u);
    EntersByBorrowing(s, u);
  }

  /** A task started inside the body of a lifespan inherits its token, and so may borrow. */
  lemma {:induction false} SpawnedChildrenBorrow(start: State, events: seq<Event>, s: State, h: Task, token: Token, u: Task)
    returns (s': State)
    requires Initial(start) && Run(start, events, s) && Public(events) && StandsInBody(s, h, token)
    requires Running(s, h) && u !in s.tasks
    ensures s' == Step(s, Spawn(h, u)) && Running(s', u) && s'.tasks[u].frames == []
    ensures Leased(s', Step(s', Borrow(u)), u)
  {
    Reachable(start, events, s);
    s' := Step(s, Spawn(h, u));
    ChildOfHolder(s, s', h, token, u);
    Granted(s', h, token, u);
  }

  lemma {:induction false} ChildOfHolder(s: State, s': State, h: Task, token: Token, u: Task)
    requires LeaseInv(s) && StandsInBody(s, h, token) && Running(s, h) && u !in s.tasks && s' == Step(s, Spawn(h, u))
    ensures LeaseInv(s') && StandsInBody(s', h, token) && u != h && Running(s', u) && s'.tasks[u].frames == []
    ensures s'.tasks[u].context == Some(token)
  {
    BodyHolder(s, h, token);
    assert HolderTask(s.f, s.tasks, h);
    StepKeepsLeases(s, Spawn(h, u));
  }

  /** Giving such a lease back restores the state exactly. */
  lemma {:induction false} ChildrenGiveBack(start: State, events: seq<Event>, s: State, s': State, h: Task, token: Token, u: Task)
    requires Initial(start) && Run(start, events, s) && Public(events) && StandsInBody(s, h, token)
    requires u != h && Running(s, u) && Leased(s, s', u)
    ensures Enabled(s', LeaveLease(u)) && Step(s', LeaveLease(u)) == s
  {
    Reachable(start, events, s);
    OnlyLeases(s, h, token, u);
    GivenBack(s, s', u);
  }

  lemma {:induction false} OnlyLeases(s: State, h: Task, token: Token, u: Task)
    requires LeaseInv(s) && StandsInBody(s, h, token) && u != h && Running(s, u)
    ensures forall i | 0 <= i < |s.tasks[u].frames| :: s.tasks[u].frames[i] == Lease(true)
  {
    BodyHolder(s, h, token);
    assert OtherTask(s.f, s.tasks[u]);
  }

  lemma {:induction false} EntersByBorrowing(s: State, u: Task)
    requires Running(s, u) && s.tasks[u].context.Some?
    ensures !s.closing ==> Step(s, EnterLifespan(u)) == Step(s, Borrow(u))
  {
  }

  /** The owner reuses its own scope without a lease. */
  lemma {:induction false} OwnerReuses(start: State, events: seq<Event>, s: State, h: Task, token: Token)
    requires Initial(start) && Run(start, events, s) && Public(events)
    requires StandsInBody(s, h, token) && Running(s, h)
    ensures var s' := Step(s, Borrow(h));
            && s' == s.(tasks := s.tasks[h := s.tasks[h].(frames := s.tasks[h].frames + [Lease(false)])])
            && Enabled(s', LeaveLease(h)) && Step(s', LeaveLease(h)) == s
  {
    Reachable(start, events, s);
    OwnerEnters(s, h, token);
    OwnerLeaves(s, Step(s, Borrow(h)), h);
  }

  lemma {:induction false} OwnerEnters(s: State, h: Task, token: Token)
    requires LeaseInv(s) && StandsInBody(s, h, token) && Running(s, h)
    ensures Step(s, Borrow(h)) == s.(tasks := s.tasks[h := s.tasks[h].(frames := s.tasks[h].frames + [Lease(false)])])
  {
    BodyHolder(s, h, token);
    RunningHolder(s, h);
  }

  lemma {:induction false} OwnerLeaves(s: State, s': State, h: Task)
    requires Live(s, h)
    requires s' == s.(tasks := s.tasks[h := s.tasks[h].(frames := s.tasks[h].frames + [Lease(false)])])
    ensures Enabled(s', LeaveLease(h)) && Step(s', LeaveLease(h)) == s
  {
    assert (s.tasks[h].frames + [Lease(false)])[..|s.tasks[h].frames|] == s.tasks[h].frames;
    assert s'.tasks[h := s.tasks[h]] == s.tasks;
  }

  // ---------- nobody waits for an owner that was not told ----------

  /** The transport was told to stop, or its startup has failed. */
  predicate ToldGen(f: Fields, gens: map<Gen, Transport>, gen: Gen) {
    gen in f.signals || (gen in gens && (gens[gen].started == Some(false) || gens[gen].cancels > 0))
  }

  predicate ToldPc(f: Fields, gens: map<Gen, Transport>, pc: Pc) {
    match pc
    case CloseOwner(gen) => gen in f.signals
    case AbortOwner(gen) => ToldGen(f, gens, gen)
    case _ => true
  }

  predicate ToldTask(f: Fields, gens: map<Gen, Transport>, ts: TaskState) {
    ts.frames != [] && Top(ts).Call? ==> ToldPc(f, gens, Top(ts).pc)
  }

  ghost predicate Told(s: State) {
    forall t | t in s.tasks :: ToldTask(s.f, s.gens, s.tasks[t])
  }

  /** What was told stays told. */
  predicate Remembers(s: State, s': State) {
    && s.f.signals <= s'.f.signals && s.gens.Keys <= s'.gens.Keys
    && forall gen | gen in s.gens ::
         && s'.gens[gen].cancels >= s.gens[gen].cancels
         && (s.gens[gen].started == Some(false) ==> s'.gens[gen].started == Some(false))
  }

  lemma {:induction false} ToldFrame(s: State, s': State, t: Task)
    requires Told(s) && Remembers(s, s')
    requires t in s'.tasks && s'.tasks == s.tasks[t := s'.tasks[t]] && ToldTask(s'.f, s'.gens, s'.tasks[t])
    ensures Told(s')
  {
    forall u | u in s'.tasks ensures ToldTask(s'.f, s'.gens, s'.tasks[u]) {
      if u != t { assert ToldTask(s.f, s.gens, s.tasks[u]); }
    }
  }

  lemma {:induction false} ToldSame(s: State, s': State)
    requires Told(s) && Remembers(s, s') && s'.tasks == s.tasks
    ensures Told(s')
  {
    forall u | u in s'.tasks ensures ToldTask(s'.f, s'.gens, s'.tasks[u]) {
      assert ToldTask(s.f, s.gens, s.tasks[u]);
    }
  }

  lemma {:induction false} PoppedTold(s: State, t: Task)
    requires TransportInv(s) && t in s.tasks && s.tasks[t].frames != []
    ensures forall f, gens :: ToldTask(f, gens, Pop(s, t).tasks[t])
  {
    var ts, rest := s.tasks[t], Pop(s, t).tasks[t];
    assert TaskOk(s.f, s.gens, t, ts);
    if rest.frames != [] {
      assert Suspended(ts.frames[|rest.frames| - 1]);
    }
  }

  lemma {:induction false} BorrowTold(s: State, t: Task)
    requires Told(s) && Running(s, t)
    ensures Told(DoBorrow(s, t))
  {
    ToldFrame(s, DoBorrow(s, t), t);
  }

  lemma {:induction false} EnterTold(s: State, t: Task)
    requires Told(s) && Running(s, t)
    ensures Told(DoEnterLifespan(s, t))
  {
    BorrowTold(s, t);
    if !s.closing && ReuseVerdict(s.f, t, s.tasks[t].context) == NoScope {
      ToldFrame(s, DoEnterLifespan(s, t), t);
    }
  }

  lemma {:induction false} LeaveTold(s: State, t: Task)
    requires TransportInv(s) && Told(s) && CanLeaveLease(s, t)
    ensures Told(DoLeaveLease(s, t))
  {
    PoppedTold(s, t);
    var s' := DoLeaveLease(s, t);
    assert ToldTask(s'.f, s'.gens, Pop(s, t).tasks[t]);
    ToldFrame(s, s', t);
  }

  lemma {:induction false} LeaseTold(s: State, e: Event)
    requires TransportInv(s) && Told(s) && Enabled(s, e) && IsLease(e)
    ensures Told(Step(s, e))
  {
    match e {
      case Borrow(t) => BorrowTold(s, t);
      case EnterLifespan(t) => EnterTold(s, t);
      case LeaveLease(t) => LeaveTold(s, t);
    }
  }

  lemma {:induction false} TaskTold(s: State, t: Task, context: Option<Token>)
    requires Told(s)
    ensures Told(DoSpawn(s, t, context)) && (t in s.tasks ==> Told(DoEnd(s, t)))
  {
    ToldFrame(s, DoSpawn(s, t, context), t);
    if t in s.tasks {
      ToldFrame(s, DoEnd(s, t), t);
    }
  }

  lemma {:induction false} WaiterTold(s: State, t: Task)
    requires TransportInv(s) && Told(s) && InCall(s, t)
    ensures Told(Pop(s, t)) && Told(DoTakeScope(s, t))
  {
    ReturnedTold(s, Pop(s, t), t);
    if !s.closing {
      GoneTold(s, DoTakeScope(s, t), t, BeginConnect);
    }
  }

  lemma {:induction false} EntryTold(s: State, e: Event)
    requires TransportInv(s) && Told(s) && Enabled(s, e) && IsEntry(e) && !IsLease(e) && !e.CallClose?
    ensures Told(Step(s, e))
  {
    match e {
      case Spawn(parent, t) => TaskTold(s, t, s.tasks[parent].context);
      case Root(t) => TaskTold(s, t, None);
      case Finish(t) => TaskTold(s, t, None);
      case Desert(t) => TaskTold(s, t, None);
      case GiveUpScope(t) => WaiterTold(s, t);
      case TakeScope(t) => WaiterTold(s, t);
      case CallConnect(t) => ToldFrame(s, Step(s, e), t);
    }
  }

  lemma {:induction false} CloseTold(s: State, t: Task)
    requires TransportInv(s) && Told(s) && Running(s, t)
    ensures Told(DoCallClose(s, t))
  {
    if DoCallClose(s, t) != s {
      ToldFrame(s, DoCallClose(s, t), t);
    }
  }

  lemma {:induction false} InterruptTold(s: State, t: Task)
    requires TransportInv(s) && Told(s) && CanInterrupt(s, t)
    ensures Told(DoInterrupt(s, t))
  {
    assert TaskOk(s.f, s.gens, t, s.tasks[t]);
    PoppedTold(s, t);
    ToldFrame(s, DoInterrupt(s, t), t);
  }

  lemma {:induction false} GoneTold(s: State, s': State, t: Task, pc: Pc)
    requires Told(s) && Remembers(s, s') && InCall(s, t) && ToldPc(s'.f, s'.gens, pc)
    requires t in s'.tasks && s'.tasks == s.tasks[t := s'.tasks[t]]
    requires s'.tasks[t].frames == Goto(s, t, pc).tasks[t].frames
    ensures Told(s')
  {
    ToldFrame(s, s', t);
  }

  lemma {:induction false} ReturnedTold(s: State, s': State, t: Task)
    requires TransportInv(s) && Told(s) && Remembers(s, s') && InCall(s, t)
    requires t in s'.tasks && s'.tasks == s.tasks[t := s'.tasks[t]]
    requires s'.tasks[t].frames == Pop(s, t).tasks[t].frames
    ensures Told(s')
  {
    PoppedTold(s, t);
    assert ToldTask(s'.f, s'.gens, Pop(s, t).tasks[t]);
    ToldFrame(s, s', t);
  }

  lemma {:induction false} ConnectingTold(s: State, t: Task, gen: Gen)
    requires TransportInv(s) && Told(s) && Enabled(s, Connect(t, gen))
    ensures Told(DoConnect(s, t, gen))
  {
    match ConnectVerdict(s.f) {
      case AlreadyConnected =>
        if Top(s.tasks[t]).scoped {
          GoneTold(s, DoConnect(s, t, gen), t, Activating(false));
        } else {
          ReturnedTold(s, DoConnect(s, t, gen), t);
        }
      case Join(joined) => GoneTold(s, DoConnect(s, t, gen), t, AwaitStart(joined, false));
      case Initiate => GoneTold(s, DoConnect(s, t, gen), t, AwaitStart(gen, true));
    }
  }

  lemma {:induction false} StartedTold(s: State, t: Task)
    requires TransportInv(s) && Told(s) && CanStart(s, t)
    ensures Told(DoStarted(s, t))
  {
    var pc := PcOf(s, t);
    if s.gens[pc.gen].started == Some(false) {
      GoneTold(s, DoStarted(s, t), t, AbortOwner(pc.gen));
    } else if Top(s.tasks[t]).scoped {
      GoneTold(s, DoStarted(s, t), t, Activating(pc.initiator));
    } else {
      ReturnedTold(s, DoStarted(s, t), t);
    }
  }

  lemma {:induction false} ActivatedTold(s: State, t: Task, cancelled: bool)
    requires TransportInv(s) && Told(s) && CanActivate(s, t)
    ensures Told(DoActivate(s, t, cancelled))
  {
    var owns := PcOf(s, t).owns;
    if !cancelled {
      GoneTold(s, DoActivate(s, t, false), t, Body(Hold(s.nextToken, owns, s.tasks[t].context)));
    } else if owns {
      GoneTold(s, DoActivate(s, t, true), t, BeginClose);
    } else {
      ReturnedTold(s, DoActivate(s, t, true), t);
    }
  }

  lemma {:induction false} OwnerEndTold(s: State, t: Task)
    requires TransportInv(s) && Told(s) && CanSeeOwnerEnd(s, t)
    ensures Told(DoOwnerEnded(s, t))
  {
    var pc := PcOf(s, t);
    GoneTold(s, DoOwnerEnded(s, t), t, if pc.AbortOwner? then AbortReset(pc.gen) else CloseReset(pc.gen));
  }

  lemma {:induction false} ResetTold(s: State, t: Task)
    requires TransportInv(s) && Told(s) && CanReset(s, t)
    ensures Told(DoReset(s, t))
  {
    ReturnedTold(s, DoReset(s, t), t);
  }

  lemma {:induction false} ConnectTold(s: State, e: Event)
    requires TransportInv(s) && Told(s) && Enabled(s, e) && IsConnect(e) && !e.Interrupt?
    ensures Told(Step(s, e))
  {
    match e {
      case Connect(t, gen) => ConnectingTold(s, t, gen);
      case Started(t) => StartedTold(s, t);
      case OwnerEnded(t) => OwnerEndTold(s, t);
      case ResetTransport(t) => ResetTold(s, t);
      case ActivateScope(t, cancelled) => ActivatedTold(s, t, cancelled);
    }
  }

  lemma {:induction false} ForgotTold(s: State, t: Task)
    requires TransportInv(s) && Told(s) && InCall(s, t) && PcOf(s, t).Forgetting?
    ensures Told(DoForget(s, t))
  {
    if PcOf(s, t).hold.owns {
      GoneTold(s, DoForget(s, t), t, BeginClose);
    } else {
      ReturnedTold(s, DoForget(s, t), t);
    }
  }

  lemma {:induction false} CloseScopeTold(s: State, t: Task)
    requires TransportInv(s) && Told(s) && InCall(s, t)
    ensures Told(DoCloseScope(s, t))
  {
    var verdict := CloseVerdict(s.f, t, false);
    if verdict.Close? {
      GoneTold(s, DoCloseScope(s, t), t, CloseOwner(verdict.gen));
    } else {
      ReturnedTold(s, DoCloseScope(s, t), t);
    }
  }

  lemma {:induction false} DrainTold(s: State, t: Task)
    requires TransportInv(s) && Told(s) && InCall(s, t)
    ensures PcOf(s, t).Revoking? ==> Told(DoRevoke(s, t))
    ensures PcOf(s, t).Scanning? ==> Told(DoScan(s, t))
    ensures PcOf(s, t).Reaping? ==> Told(DoReaped(s, t)) && Told(DoReapBroken(s, t))
  {
    match PcOf(s, t) {
      case Revoking(hold) => GoneTold(s, DoRevoke(s, t), t, Scanning(hold, None));
      case Scanning(hold, _) =>
        var f := Scan(s.f, FinishedTasks(s));
        GoneTold(s, DoScan(s, t), t, if f.borrowers == map[] then Forgetting(hold) else Reaping(hold, f.borrowers.Keys));
      case Reaping(hold, remaining) =>
        GoneTold(s, DoReaped(s, t), t, Scanning(hold, Some(remaining)));
        GoneTold(s, DoReapBroken(s, t), t, Scanning(hold, None));
      case _ =>
    }
  }

  lemma {:induction false} ScopeTold(s: State, e: Event)
    requires TransportInv(s) && Told(s) && Enabled(s, e) && IsScope(e)
    ensures Told(Step(s, e))
  {
    match e {
      case LeaveBody(t) => GoneTold(s, Step(s, e), t, Revoking(PcOf(s, t).hold));
      case ForgetScope(t) => ForgotTold(s, t);
      case CloseScope(t) => CloseScopeTold(s, t);
      case RevokeScope(t) => DrainTold(s, t);
      case ScanBorrowers(t) => DrainTold(s, t);
      case Reaped(t) => DrainTold(s, t);
      case ReapBroken(t) => DrainTold(s, t);
    }
  }

  lemma {:induction false} OwnerTold(s: State, e: Event)
    requires TransportInv(s) && Told(s) && Enabled(s, e) && !IsEntry(e) && !IsConnect(e) && !IsScope(e)
    ensures Told(Step(s, e))
  {
    forall gen | gen in s.gens ensures GenOk(s.f.transportTask == Some(gen), s.gens[gen]) {
    }
    ToldSame(s, Step(s, e));
  }

  lemma {:induction false} StepTold(s: State, e: Event)
    requires TransportInv(s) && Told(s) && Enabled(s, e)
    ensures Told(Step(s, e))
  {
    if e.CallClose? {
      CloseTold(s, e.task);
    } else if IsLease(e) {
      LeaseTold(s, e);
    } else if IsEntry(e) {
      EntryTold(s, e);
    } else if e.Interrupt? {
      InterruptTold(s, e.task);
    } else if IsConnect(e) {
      ConnectTold(s, e);
    } else if IsScope(e) {
      ScopeTold(s, e);
    } else {
      OwnerTold(s, e);
    }
  }

  lemma {:induction false} RunTold(s: State, events: seq<Event>, end: State)
    requires TransportInv(s) && Told(s) && Run(s, events, end)
    ensures TransportInv(end) && Told(end)
    decreases |events|
  {
    if events != [] {
      StepKeepsTransport(s, events[0]);
      StepTold(s, events[0]);
      RunTold(Step(s, events[0]), events[1..], end);
    }
  }

  /** In every run, whoever awaits the end of a transport's owner task has reason to: the
      shutdown was signalled, the owner was cancelled, or its startup had failed; a close
      always waits behind a signal. */
  lemma {:induction false} AwaitedOwnersAreTold(start: State, events: seq<Event>, s: State, t: Task, gen: Gen)
    requires Initial(start) && Run(start, events, s) && InCall(s, t)
    ensures PcOf(s, t) == CloseOwner(gen) ==> gen in s.f.signals
    ensures PcOf(s, t) == AbortOwner(gen) && gen !in s.f.signals ==>
              gen in s.gens && (s.gens[gen].cancels == 1 || s.gens[gen].started == Some(false))
  {
    InitialTransport(start);
    RunTold(start, events, s);
    assert ToldTask(s.f, s.gens, s.tasks[t]);
    assert gen in s.gens ==> GenOk(s.f.transportTask == Some(gen), s.gens[gen]);
  }
}
