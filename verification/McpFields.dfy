/** The MCP fields of the agent loop and the critical sections that change them
    (k2do/agent/loop.py). No critical section awaits, so each is one atomic step:
    a function on field values, and a method of the class that carries the fields. */
module McpFields {
  import opened Prelude
  import opened ToolRegistry

  type Task = nat   // asyncio task identity
  type Gen = nat    // one transport: owner task, startup future and shutdown event
  type Token = nat  // scope token identity

  datatype Fields = Fields(
    tools: seq<Tool>,
    stack: Option<Gen>,
    report: Option<Gen>,
    names: seq<string>,
    published: seq<Tool>,
    connected: bool,
    ownerTask: Option<Task>,
    transportTask: Option<Gen>,
    transportStarted: Option<Gen>,
    transportShutdown: Option<Gen>,
    activeToken: Option<Token>,
    accepting: bool,
    borrowers: map<Task, nat>,
    idle: bool,
    signals: set<Gen>)  // shutdown events that are set

  /** The outcome of asking for an inherited scope. */
  datatype Reuse = Owned | Borrowed | Rejected | NoScope

  datatype Connecting = AlreadyConnected | Initiate | Join(gen: Gen)

  datatype Closing = ActiveScope | NotOwner | NothingToClose | NoSignal | Close(gen: Gen)

  function Depth(f: Fields, task: Task): nat {
    if task in f.borrowers then f.borrowers[task] else 0
  }

  predicate TokenMatches(f: Fields, token: Option<Token>) {
    f.connected && token.Some? && token == f.activeToken
  }

  function ReuseVerdict(f: Fields, task: Task, token: Option<Token>): Reuse {
    if TokenMatches(f, token) && f.ownerTask == Some(task) then Owned
    else if TokenMatches(f, token) && (f.accepting || task in f.borrowers) then Borrowed
    else if token.Some? then Rejected
    else NoScope
  }

  function Lend(f: Fields, task: Task): Fields {
    f.(borrowers := f.borrowers[task := Depth(f, task) + 1], idle := false)
  }

  function Released(b: map<Task, nat>, task: Task): map<Task, nat> {
    if task !in b || b[task] <= 1 then b - {task} else b[task := b[task] - 1]
  }

  function Release(f: Fields, task: Task): Fields {
    var b := Released(f.borrowers, task);
    f.(borrowers := b, idle := b == map[] || f.idle)
  }

  function Activate(f: Fields, token: Token): Fields {
    f.(activeToken := Some(token), accepting := true)
  }

  function Revoke(f: Fields, token: Token): Fields {
    if f.activeToken == Some(token) then f.(accepting := false) else f
  }

  function Scan(f: Fields, finished: set<Task>): Fields {
    var b := f.borrowers - finished;
    f.(borrowers := b, idle := b == map[] || f.idle)
  }

  function Forget(f: Fields, token: Token): Fields {
    if f.activeToken == Some(token) then f.(activeToken := None, accepting := false) else f
  }

  function ConnectVerdict(f: Fields): Connecting {
    if f.connected then AlreadyConnected
    else if f.transportTask.None? || f.transportStarted.None? then Initiate
    else Join(f.transportTask.value)
  }

  function Initiated(f: Fields, task: Task, gen: Gen): Fields {
    f.(transportTask := Some(gen), transportStarted := Some(gen), transportShutdown := Some(gen),
       ownerTask := Some(task))
  }

  function Publish(f: Fields, gen: Gen, catalogue: seq<Tool>): Fields {
    f.(stack := Some(gen), report := Some(gen), names := Names(catalogue), published := catalogue, connected := true)
  }

  /** The reset of a terminated transport; a transport that is no longer the recorded one changes nothing. */
  function Reset(f: Fields, gen: Gen): Fields
    requires |f.names| == |f.published|
  {
    if f.transportTask != Some(gen) then f
    else Cleared(f).(tools := Without(f.tools, f.names, Some(f.published)))
  }

  function Cleared(f: Fields): Fields {
    f.(names := [], published := [], stack := None, report := None, connected := false,
       ownerTask := None, transportTask := None, transportStarted := None, transportShutdown := None)
  }

  function CloseVerdict(f: Fields, task: Task, requireInactive: bool): Closing {
    if requireInactive && f.activeToken.Some? then ActiveScope
    else if f.transportTask.Some? && f.ownerTask != Some(task) then NotOwner
    else if f.transportTask.None? then NothingToClose
    else if f.transportShutdown.None? then NoSignal
    else Close(f.transportTask.value)
  }

  function Signal(f: Fields, gen: Option<Gen>): Fields {
    if gen.None? then f else f.(signals := f.signals + {gen.value})
  }

  /** The agent loop's MCP state, changed in place by the critical sections. */
  class McpState {
    const registry: Registry
    var stack: Option<Gen>
    var report: Option<Gen>
    var names: seq<string>
    var published: seq<Tool>
    var connected: bool
    var ownerTask: Option<Task>
    var transportTask: Option<Gen>
    var transportStarted: Option<Gen>
    var transportShutdown: Option<Gen>
    var activeToken: Option<Token>
    var accepting: bool
    var borrowers: map<Task, nat>
    var idle: bool
    var signals: set<Gen>

    ghost predicate Valid()
      reads this, registry
    {
      registry.Valid() && |names| == |published|
    }

    ghost function View(): Fields
      reads this, registry
    {
      Fields(registry.tools, stack, report, names, published, connected, ownerTask, transportTask, transportStarted,
             transportShutdown, activeToken, accepting, borrowers, idle, signals)
    }

    constructor (registry: Registry)
      requires registry.Valid()
      ensures Valid() && this.registry == registry
      ensures View() == Blank(registry.tools)
    {
      this.registry := registry;
      stack, report, names, published, connected := None, None, [], [], false;
      ownerTask, transportTask, transportStarted, transportShutdown := None, None, None, None;
      activeToken, accepting, borrowers, idle, signals := None, false, map[], true, {};
    }

    /** Entry of `_reuse_mcp_scope` for a task holding `token` in its context. */
    method EnterReuse(task: Task, token: Option<Token>) returns (verdict: Reuse)
      requires Valid()
      modifies `borrowers, `idle
      ensures verdict == ReuseVerdict(old(View()), task, token)
      ensures Valid()
      ensures View() == if verdict == Borrowed then Lend(old(View()), task) else old(View())
      ensures old(connected) && token.Some? && token == old(activeToken) && old(ownerTask) != Some(task) ==>
                (borrowers == old(borrowers)[task := (if task in old(borrowers) then old(borrowers)[task] else 0) + 1] && !idle
                 <==> old(accepting) || task in old(borrowers))
      ensures !(old(connected) && token.Some? && token == old(activeToken)) ==>
                borrowers == old(borrowers) && idle == old(idle) && (verdict == Rejected <==> token.Some?)
    {
      var tokenMatches := connected && token.Some? && token == activeToken;
      if tokenMatches && ownerTask == Some(task) {
        verdict := Owned;
      } else if tokenMatches && (accepting || task in borrowers) {
        verdict := Borrowed;
        borrowers := borrowers[task := (if task in borrowers then borrowers[task] else 0) + 1];
        idle := false;
      } else if token.Some? {
        verdict := Rejected;
      } else {
        verdict := NoScope;
      }
    }

    /** Exit of `_reuse_mcp_scope` for a borrowing task. */
    method LeaveReuse(task: Task)
      requires Valid()
      modifies `borrowers, `idle
      ensures Valid()
      ensures View() == Release(old(View()), task)
    {
      var depth := if task in borrowers then borrowers[task] else 0;
      if depth <= 1 {
        borrowers := borrowers - {task};
      } else {
        borrowers := borrowers[task := depth - 1];
      }
      assert borrowers == Released(old(borrowers), task);
      if borrowers == map[] {
        idle := true;
      }
    }

    method ActivateScope(token: Token)
      requires Valid()
      modifies `activeToken, `accepting
      ensures Valid()
      ensures View() == Activate(old(View()), token)
    {
      activeToken := Some(token);
      accepting := true;
    }

    method RevokeScope(token: Token)
      requires Valid()
      modifies `accepting
      ensures Valid()
      ensures View() == Revoke(old(View()), token)
    {
      if activeToken == Some(token) {
        accepting := false;
      }
    }

    /** One pass of the drain over the borrower map: leases of finished tasks are dropped. */
    method ScanBorrowers(finished: set<Task>) returns (remaining: set<Task>)
      requires Valid()
      modifies `borrowers, `idle
      ensures Valid()
      ensures View() == Scan(old(View()), finished)
      ensures remaining == View().borrowers.Keys
    {
      var pending := borrowers.Keys;
      while pending != {}
        invariant forall t :: t in borrowers <==> t in old(borrowers) && (t in finished ==> t in pending)
        invariant forall t | t in borrowers :: borrowers[t] == old(borrowers)[t]
        invariant idle == old(idle)
        decreases |pending|
      {
        var task :| task in pending;
        if task in finished {
          borrowers := borrowers - {task};
        }
        pending := pending - {task};
      }
      assert borrowers == old(borrowers) - finished;
      remaining := borrowers.Keys;
      if borrowers == map[] {
        idle := true;
      }
    }

    method ForgetScope(token: Token)
      requires Valid()
      modifies `activeToken, `accepting
      ensures Valid()
      ensures View() == Forget(old(View()), token)
    {
      if activeToken == Some(token) {
        activeToken := None;
        accepting := false;
      }
    }

    /** The first critical section of `_connect_mcp`; `newGen` is the transport created on demand.
        Without a connection and without configured servers there is nothing to do. */
    method BeginConnect(task: Task, newGen: Gen, configured: bool) returns (verdict: Option<Connecting>)
      requires Valid()
      modifies `ownerTask, `transportTask, `transportStarted, `transportShutdown
      ensures verdict.None? <==> !old(connected) && !configured
      ensures verdict.Some? ==> verdict.value == ConnectVerdict(old(View()))
      ensures Valid()
      ensures View() == if verdict == Some(Initiate) then Initiated(old(View()), task, newGen) else old(View())
    {
      if connected {
        return Some(AlreadyConnected);
      }
      if !configured {
        return None;
      }
      if transportTask.None? || transportStarted.None? {
        transportTask, transportStarted, transportShutdown := Some(newGen), Some(newGen), Some(newGen);
        ownerTask := Some(task);
        return Some(Initiate);
      }
      return Some(Join(transportTask.value));
    }

    method PublishConnection(gen: Gen, catalogue: seq<Tool>)
      requires Valid()
      modifies `stack, `report, `names, `published, `connected
      ensures Valid()
      ensures View() == Publish(old(View()), gen, catalogue)
    {
      stack := Some(gen);
      report := Some(gen);
      names := Names(catalogue);
      published := catalogue;
      connected := true;
    }

    method ResetTransport(gen: Gen)
      requires Valid()
      modifies `names, `published, `stack, `report, `connected, registry
      modifies `ownerTask, `transportTask, `transportStarted, `transportShutdown
      ensures Valid()
      ensures View() == Reset(old(View()), gen)
    {
      if transportTask != Some(gen) {
        return;
      }
      var _ := registry.UnregisterMany(names, Some(published));
      ClearPublication();
    }

    method ClearPublication()
      modifies `names, `published, `stack, `report, `connected
      modifies `ownerTask, `transportTask, `transportStarted, `transportShutdown
      ensures names == [] && published == [] && stack == None && report == None && !connected
      ensures ownerTask == None && transportTask == None && transportStarted == None && transportShutdown == None
    {
      names, published := [], [];
      stack, report, connected := None, None, false;
      ownerTask, transportTask, transportStarted, transportShutdown := None, None, None, None;
    }

    /** The critical section of `_close_mcp_internal`. */
    method BeginClose(task: Task, requireInactive: bool) returns (verdict: Closing)
      requires Valid()
      modifies `signals
      ensures verdict == CloseVerdict(old(View()), task, requireInactive)
      ensures Valid()
      ensures View() == if verdict.Close? then Signal(old(View()), old(transportShutdown)) else old(View())
      ensures verdict.Close? ==> signals == old(signals) + {old(transportShutdown).value}
    {
      if requireInactive && activeToken.Some? {
        return ActiveScope;
      }
      if transportTask.Some? && ownerTask != Some(task) {
        return NotOwner;
      }
      if transportTask.None? {
        return NothingToClose;
      }
      if transportShutdown.None? {
        return NoSignal;
      }
      signals := signals + {transportShutdown.value};
      return Close(transportTask.value);
    }
  }

  /** The fields of a loop that has never connected, or is fully disconnected. */
  function Blank(tools: seq<Tool>): Fields {
    Fields(tools, None, None, [], [], false, None, None, None, None, None, false, map[], true, {})
  }
}
