/** Publication of the MCP tool catalogue: servers are connected one after the
    other, each may fail at any point, and the tool registry is put back exactly
    when the whole attempt is abandoned (k2do/agent/tools/mcp.py, connect_mcp_servers). */
module McpConnect {
  import opened Prelude
  import opened ToolRegistry

  /** What an `except` clause sees: an ordinary exception, a task cancellation,
      or any other BaseException. */
  datatype Kind = Ordinary | Cancellation | Fatal

  /** Where one server's attempt goes wrong, if anywhere. */
  datatype Fault =
    | Healthy
    | Before(phase: string, kind: Kind)  // at or before building the wrappers
    | Handoff(kind: Kind)                // batch registered, transport ownership not yet transferred
    | Late(kind: Kind)                   // ownership transferred and batch recorded

  /** One configured server: the wrappers its listing yields and its fault. */
  datatype Server = Server(wrappers: seq<Tool>, fault: Fault)

  datatype Status = Connected | Failed

  datatype Outcome = Outcome(position: nat, status: Status, phase: string, toolNames: seq<string>)

  datatype Report = Report(outcomes: seq<Outcome>, toolNames: seq<string>, tools: seq<Tool>)

  datatype Result = Completed(report: Report) | Raised(kind: Kind)

  /** The attempt on this server ends the whole call, given what is registered already. */
  predicate Aborts(tools: seq<Tool>, server: Server) {
    match server.fault
    case Healthy => false
    case Before(_, kind) => kind != Ordinary
    case Handoff(kind) => kind != Ordinary && Registrable(tools, server.wrappers)
    case Late(kind) => kind != Ordinary && Registrable(tools, server.wrappers)
  }

  /** What this server adds to the registry for good. */
  function Contribution(tools: seq<Tool>, server: Server): seq<Tool> {
    if (server.fault.Healthy? || server.fault == Late(Ordinary)) && Registrable(tools, server.wrappers)
    then server.wrappers
    else []
  }

  /** What the first `n` servers together add on top of `base`. */
  ghost function Catalogue(base: seq<Tool>, servers: seq<Server>, n: nat): seq<Tool>
    requires n <= |servers|
  {
    if n == 0 then []
    else
      var before := Catalogue(base, servers, n - 1);
      before + Contribution(base + before, servers[n - 1])
  }

  /** The registry as server `n` finds it. */
  ghost function Found(base: seq<Tool>, servers: seq<Server>, n: nat): seq<Tool>
    requires n <= |servers|
  {
    base + Catalogue(base, servers, n)
  }

  /** The outcome recorded for server `position`, given the registry it finds. */
  function OutcomeOf(tools: seq<Tool>, server: Server, position: nat): (outcome: Outcome)
    ensures outcome.position == position
    ensures outcome.status == Connected <==> server.fault.Healthy? && Registrable(tools, server.wrappers)
  {
    if server.fault.Before? then Outcome(position, Failed, server.fault.phase, [])
    else if server.fault.Healthy? && Registrable(tools, server.wrappers)
    then Outcome(position, Connected, "ready", Names(server.wrappers))
    else Outcome(position, Failed, "registration", [])
  }

  /** What one server's attempt comes to, when it does not end the call: `block` is what it
      leaves in the registry. */
  predicate Served(found: seq<Tool>, server: Server, position: nat, block: seq<Tool>, outcome: Outcome) {
    var fits := Registrable(found, server.wrappers);
    match server.fault
    case Healthy =>
      if fits then block == server.wrappers && outcome == Outcome(position, Connected, "ready", Names(server.wrappers))
      else block == [] && outcome == Outcome(position, Failed, "registration", [])
    case Before(phase, kind) => kind == Ordinary && block == [] && outcome == Outcome(position, Failed, phase, [])
    case Handoff(kind) =>
      (kind == Ordinary || !fits) && block == [] && outcome == Outcome(position, Failed, "registration", [])
    case Late(kind) =>
      && (kind == Ordinary || !fits) && outcome == Outcome(position, Failed, "registration", [])
      && block == if fits then server.wrappers else []
  }

  datatype Attempt = Recorded(outcome: Outcome, added: seq<Tool>) | Abandoned(kind: Kind)

  /** The body of the loop: one server, with its exception handlers. `registered`
      is what earlier servers have published. */
  method ConnectOne(server: Server, position: nat, registry: Registry, ghost base: seq<Tool>, registered: seq<Tool>)
    returns (attempt: Attempt)
    requires registry.Valid() && registry.tools == base + registered
    modifies registry
    ensures registry.Valid()
    ensures attempt.Abandoned? <==> Aborts(old(registry.tools), server)
    ensures attempt.Abandoned? <==>
              && !server.fault.Healthy? && server.fault.kind != Ordinary
              && (server.fault.Before? || Registrable(old(registry.tools), server.wrappers))
    ensures attempt.Abandoned? ==> registry.tools == base && attempt.kind == server.fault.kind
    ensures attempt.Recorded? ==> Served(old(registry.tools), server, position, attempt.added, attempt.outcome)
    ensures attempt.Recorded? ==>
              && attempt.added == Contribution(old(registry.tools), server)
              && attempt.outcome == OutcomeOf(old(registry.tools), server, position)
              && registry.tools == old(registry.tools) + attempt.added
  {
    ghost var found := registry.tools;
    if server.fault.Before? {
      if server.fault.kind != Ordinary {
        RollBack(registry, base, registered, []);
        return Abandoned(server.fault.kind);
      }
      return Recorded(Outcome(position, Failed, server.fault.phase, []), []);
    }
    var error := registry.RegisterMany(server.wrappers);
    if error.Some? {
      return Recorded(Outcome(position, Failed, "registration", []), []);
    }
    if !server.fault.Healthy? && server.fault.kind != Ordinary {
      RollBack(registry, base, registered, server.wrappers);
      return Abandoned(server.fault.kind);
    }
    match server.fault {
      case Healthy =>
        return Recorded(Outcome(position, Connected, "ready", Names(server.wrappers)), server.wrappers);
      case Handoff(_) =>
        if server.wrappers != [] {
          Discard(registry, found, server.wrappers);
        }
        return Recorded(Outcome(position, Failed, "registration", []), []);
      case Late(_) =>
        return Recorded(Outcome(position, Failed, "registration", []), server.wrappers);
    }
  }

  /** Server `i` did not end the call, and `outcome` says how its attempt went. */
  ghost predicate Settled(base: seq<Tool>, servers: seq<Server>, i: nat, outcome: Outcome)
    requires i < |servers|
  {
    var found := Found(base, servers, i);
    !Aborts(found, servers[i]) && outcome == OutcomeOf(found, servers[i], i)
  }

  /** The first `n` servers have been gone through without abandoning the call. */
  ghost predicate Accounted(base: seq<Tool>, servers: seq<Server>, n: nat, outcomes: seq<Outcome>, tools: seq<Tool>) {
    && n <= |servers| && |outcomes| == n
    && tools == Catalogue(base, servers, n)
    && forall i {:trigger outcomes[i]} | 0 <= i < n :: Settled(base, servers, i, outcomes[i])
  }

  lemma {:induction false} AccountOne(base: seq<Tool>, servers: seq<Server>, n: nat, outcomes: seq<Outcome>,
                                      tools: seq<Tool>, outcome: Outcome, added: seq<Tool>)
    requires n < |servers| && Accounted(base, servers, n, outcomes, tools)
    requires !Aborts(base + tools, servers[n])
    requires outcome == OutcomeOf(base + tools, servers[n], n) && added == Contribution(base + tools, servers[n])
    ensures Accounted(base, servers, n + 1, outcomes + [outcome], tools + added)
    ensures base + (tools + added) == base + tools + added
  {
    assert Settled(base, servers, n, outcome);
    forall i {:trigger (outcomes + [outcome])[i]} | 0 <= i < n + 1
      ensures Settled(base, servers, i, (outcomes + [outcome])[i])
    {
      if i < n { assert (outcomes + [outcome])[i] == outcomes[i]; }
    }
  }

  /** Connects the servers in order. On return the registry is the old one
      followed by the reported tools; on cancellation it is the old one. */
  method ConnectServers(servers: seq<Server>, registry: Registry) returns (result: Result)
    requires registry.Valid()
    modifies registry
    ensures registry.Valid()
    ensures result.Completed? ==>
              && registry.tools == old(registry.tools) + result.report.tools
              && result.report.toolNames == Names(result.report.tools)
              && Accounted(old(registry.tools), servers, |servers|, result.report.outcomes, result.report.tools)
    ensures result.Raised? ==> registry.tools == old(registry.tools)
    ensures result.Raised? ==>
              exists i | 0 <= i < |servers| ::
                Aborts(Found(old(registry.tools), servers, i), servers[i]) && servers[i].fault.kind == result.kind != Ordinary
    ensures result.Completed? ==> exists blocks :: AllServed(old(registry.tools), servers, result.report, blocks)
  {
    ghost var base := registry.tools;
    var outcomes: seq<Outcome> := [];
    var registered: seq<Tool> := [];
    assert base + [] == base;
    var i := 0;
    while i < |servers|
      invariant 0 <= i <= |servers|
      invariant registry.Valid()
      invariant registry.tools == base + registered
      invariant Accounted(base, servers, i, outcomes, registered)
    {
      var attempt := ConnectOne(servers[i], i, registry, base, registered);
      if attempt.Abandoned? {
        assert base + registered == Found(base, servers, i);
        return Raised(attempt.kind);
      }
      AccountOne(base, servers, i, outcomes, registered, attempt.outcome, attempt.added);
      registered := registered + attempt.added;
      outcomes := outcomes + [attempt.outcome];
      i := i + 1;
    }
    BlocksServed(base, servers, |servers|, outcomes, registered);
    result := Completed(Report(outcomes, Names(registered), registered));
    assert AllServed(base, servers, result.report, Blocks(base, servers, |servers|));
  }

  // ---------- server by server ----------

  function Concat(blocks: seq<seq<Tool>>): seq<Tool> {
    if blocks == [] then [] else Concat(blocks[..|blocks| - 1]) + blocks[|blocks| - 1]
  }

  /** The report's tools are one block per server, in order, and each server finds the old
      registry with the blocks before its own. */
  ghost predicate AllServed(base: seq<Tool>, servers: seq<Server>, report: Report, blocks: seq<seq<Tool>>) {
    && |blocks| == |servers| == |report.outcomes| && report.tools == Concat(blocks)
    && forall i | 0 <= i < |servers| :: Served(base + Concat(blocks[..i]), servers[i], i, blocks[i], report.outcomes[i])
  }

  ghost function Blocks(base: seq<Tool>, servers: seq<Server>, n: nat): (blocks: seq<seq<Tool>>)
    requires n <= |servers|
    ensures |blocks| == n
  {
    if n == 0 then [] else Blocks(base, servers, n - 1) + [Contribution(Found(base, servers, n - 1), servers[n - 1])]
  }

  lemma {:induction false} BlocksGrow(base: seq<Tool>, servers: seq<Server>, n: nat, i: nat)
    requires i <= n <= |servers|
    ensures Blocks(base, servers, n)[..i] == Blocks(base, servers, i)
    decreases n
  {
    if i < n {
      BlocksGrow(base, servers, n - 1, i);
    }
  }

  lemma {:induction false} BlocksAreCatalogue(base: seq<Tool>, servers: seq<Server>, n: nat)
    requires n <= |servers|
    ensures Concat(Blocks(base, servers, n)) == Catalogue(base, servers, n)
  {
    if n > 0 {
      BlocksAreCatalogue(base, servers, n - 1);
      OneBlock(Blocks(base, servers, n), n);
      BlocksGrow(base, servers, n, n - 1);
    }
  }

  lemma {:induction false} OneBlock(blocks: seq<seq<Tool>>, n: nat)
    requires 0 < n <= |blocks|
    ensures Concat(blocks[..n]) == Concat(blocks[..n - 1]) + blocks[n - 1]
    ensures n == |blocks| ==> Concat(blocks) == Concat(blocks[..n])
  {
    assert blocks[..n][..n - 1] == blocks[..n - 1];
    assert n == |blocks| ==> blocks[..n] == blocks;
  }

  lemma {:induction false} SettledIsServed(base: seq<Tool>, servers: seq<Server>, i: nat, outcome: Outcome)
    requires i < |servers| && Settled(base, servers, i, outcome)
    ensures Served(Found(base, servers, i), servers[i], i, Contribution(Found(base, servers, i), servers[i]), outcome)
  {
  }

  lemma {:induction false} BlocksServed(base: seq<Tool>, servers: seq<Server>, n: nat, outcomes: seq<Outcome>, tools: seq<Tool>)
    requires Accounted(base, servers, n, outcomes, tools)
    ensures var blocks := Blocks(base, servers, n);
            && tools == Concat(blocks)
            && forall i | 0 <= i < n :: Served(base + Concat(blocks[..i]), servers[i], i, blocks[i], outcomes[i])
  {
    var blocks := Blocks(base, servers, n);
    BlocksAreCatalogue(base, servers, n);
    forall i | 0 <= i < n ensures Served(base + Concat(blocks[..i]), servers[i], i, blocks[i], outcomes[i]) {
      BlocksGrow(base, servers, n, i);
      BlocksGrow(base, servers, n, i + 1);
      BlocksAreCatalogue(base, servers, i);
      assert blocks[i] == blocks[..i + 1][i];
      assert Settled(base, servers, i, outcomes[i]);
      SettledIsServed(base, servers, i, outcomes[i]);
    }
  }

  /** All wrappers of all servers, in order. */
  function AllWrappers(servers: seq<Server>, n: nat): seq<Tool>
    requires n <= |servers|
  {
    if n == 0 then [] else AllWrappers(servers, n - 1) + servers[n - 1].wrappers
  }

  lemma {:induction false} RegistrableFront(base: seq<Tool>, front: seq<Tool>, last: seq<Tool>)
    requires Registrable(base, front + last)
    ensures Registrable(base, front) && Registrable(base + front, last)
  {
    assert base + (front + last) == base + front + last;
    DistinctPrefix(base + front, last);
  }

  lemma {:induction false} NextHealthy(base: seq<Tool>, servers: seq<Server>, report: Report, blocks: seq<seq<Tool>>, i: nat)
    requires AllServed(base, servers, report, blocks) && i < |servers| && servers[i].fault.Healthy?
    requires Registrable(base + Concat(blocks[..i]), servers[i].wrappers)
    ensures blocks[i] == servers[i].wrappers
    ensures report.outcomes[i] == Outcome(i, Connected, "ready", Names(servers[i].wrappers))
  {
    assert Served(base + Concat(blocks[..i]), servers[i], i, blocks[i], report.outcomes[i]);
  }

  /** Each server's wrappers fit behind those of the servers before it. */
  ghost predicate EachFits(base: seq<Tool>, servers: seq<Server>, n: nat)
    requires n <= |servers|
  {
    n > 0 ==> EachFits(base, servers, n - 1) && Registrable(base + AllWrappers(servers, n - 1), servers[n - 1].wrappers)
  }

  lemma {:induction false} TogetherEachFits(base: seq<Tool>, servers: seq<Server>, n: nat)
    requires n <= |servers| && Registrable(base, AllWrappers(servers, n))
    ensures EachFits(base, servers, n)
  {
    if n > 0 {
      RegistrableFront(base, AllWrappers(servers, n - 1), servers[n - 1].wrappers);
      TogetherEachFits(base, servers, n - 1);
    }
  }

  lemma {:induction false} FitsBefore(base: seq<Tool>, servers: seq<Server>, n: nat, i: nat)
    requires i <= n <= |servers| && EachFits(base, servers, n)
    ensures EachFits(base, servers, i)
    decreases n
  {
    if i < n {
      FitsBefore(base, servers, n - 1, i);
    }
  }

  lemma {:induction false} HealthyBlocks(base: seq<Tool>, servers: seq<Server>, report: Report, blocks: seq<seq<Tool>>, n: nat)
    requires AllServed(base, servers, report, blocks) && n <= |servers| && EachFits(base, servers, n)
    requires forall i | 0 <= i < n :: servers[i].fault.Healthy?
    ensures Concat(blocks[..n]) == AllWrappers(servers, n)
  {
    if n > 0 {
      HealthyBlocks(base, servers, report, blocks, n - 1);
      OneBlock(blocks, n);
      NextHealthy(base, servers, report, blocks, n - 1);
    }
  }

  /** When every server is healthy and the registry can take all their wrappers, every server
      is connected and reports its own tools, and the catalogue is all of them in order. */
  lemma {:induction false} HealthyServersArePublished(base: seq<Tool>, servers: seq<Server>, report: Report, blocks: seq<seq<Tool>>)
    requires AllServed(base, servers, report, blocks) && Registrable(base, AllWrappers(servers, |servers|))
    requires forall i | 0 <= i < |servers| :: servers[i].fault.Healthy?
    ensures report.tools == AllWrappers(servers, |servers|)
    ensures forall i | 0 <= i < |servers| :: report.outcomes[i] == Outcome(i, Connected, "ready", Names(servers[i].wrappers))
  {
    TogetherEachFits(base, servers, |servers|);
    HealthyBlocks(base, servers, report, blocks, |servers|);
    forall i | 0 <= i < |servers|
      ensures report.outcomes[i] == Outcome(i, Connected, "ready", Names(servers[i].wrappers))
    {
      FitsBefore(base, servers, |servers|, i + 1);
      FitsBefore(base, servers, |servers|, i);
      HealthyBlocks(base, servers, report, blocks, i);
      NextHealthy(base, servers, report, blocks, i);
    }
    assert blocks[..|servers|] == blocks;
  }

  /** `unregister_many` of the batch that was registered last. */
  method Discard(registry: Registry, ghost found: seq<Tool>, batch: seq<Tool>)
    requires registry.Valid() && registry.tools == found + batch
    modifies registry
    ensures registry.Valid() && registry.tools == found
  {
    assert found + batch + [] == found + batch && found + [] == found;
    UnregisterUndoesRegister(found, batch, []);
    var _ := registry.UnregisterMany(Names(batch), Some(batch));
  }

  /** The clean-up of the cancellation handlers: this server's batch, then every
      batch recorded so far. */
  method RollBack(registry: Registry, ghost base: seq<Tool>, registered: seq<Tool>, batch: seq<Tool>)
    requires registry.Valid() && registry.tools == base + registered + batch
    modifies registry
    ensures registry.Valid() && registry.tools == base
  {
    if batch != [] {
      Discard(registry, base + registered, batch);
    }
    assert registry.tools == base + registered;
    Discard(registry, base, registered);
  }

  /** Closing the connection with the report's own names and identities gives the
      registry back, whatever was registered after the catalogue in between. */
  lemma {:induction false} CloseRestores(base: seq<Tool>, report: Report, later: seq<Tool>)
    requires report.toolNames == Names(report.tools)
    requires Distinct(Names(base + report.tools + later))
    ensures Without(base + report.tools + later, report.toolNames, Some(report.tools)) == base + later
  {
    UnregisterUndoesRegister(base, report.tools, later);
  }

  /** The tool names that the first `n` outcomes report, in order. */
  function NamesIn(outcomes: seq<Outcome>, n: nat): seq<string>
    requires n <= |outcomes|
  {
    if n == 0 then [] else NamesIn(outcomes, n - 1) + outcomes[n - 1].toolNames
  }

  function ReportedNames(report: Report): seq<string> {
    NamesIn(report.outcomes, |report.outcomes|)
  }

  /** Server `i` registered its tools and failed afterwards. */
  ghost predicate FailedLate(base: seq<Tool>, servers: seq<Server>, i: nat)
    requires i < |servers|
  {
    servers[i].fault == Late(Ordinary) && Contribution(Found(base, servers, i), servers[i]) != []
  }

  ghost predicate NoneFailedLate(base: seq<Tool>, servers: seq<Server>, n: nat)
    requires n <= |servers|
  {
    n > 0 ==> NoneFailedLate(base, servers, n - 1) && !FailedLate(base, servers, n - 1)
  }

  lemma {:induction false} NoneFailedLateIff(base: seq<Tool>, servers: seq<Server>, n: nat)
    requires n <= |servers|
    ensures NoneFailedLate(base, servers, n) <==> forall i | 0 <= i < n :: !FailedLate(base, servers, i)
  {
    if n > 0 {
      NoneFailedLateIff(base, servers, n - 1);
    }
  }

  lemma {:induction false} NamesAppend(a: seq<Tool>, b: seq<Tool>)
    ensures Names(a + b) == Names(a) + Names(b)
  {
  }

  /** What one outcome reports, against what its server registered. */
  lemma {:induction false} OutcomeShare(tools: seq<Tool>, server: Server, i: nat)
    requires !Aborts(tools, server)
    ensures var reported, added := OutcomeOf(tools, server, i).toolNames, Contribution(tools, server);
            if server.fault == Late(Ordinary) && added != [] then reported == [] else reported == Names(added)
  {
  }

  lemma {:induction false} NamesGrow(reported: seq<string>, before: seq<Tool>, more: seq<string>, added: seq<Tool>, late: bool)
    requires |reported| <= |before| && (|reported| == |before| ==> reported == Names(before))
    requires if late then more == [] && added != [] else more == Names(added)
    ensures |reported + more| <= |before + added|
    ensures |reported + more| == |before + added| <==> |reported| == |before| && !late
    ensures |reported + more| == |before + added| ==> reported + more == Names(before + added)
  {
    NamesAppend(before, added);
  }

  lemma {:induction false} AccountedNames(base: seq<Tool>, servers: seq<Server>, n: nat, outcomes: seq<Outcome>)
    requires n <= |servers| && n <= |outcomes|
    requires forall i {:trigger outcomes[i]} | 0 <= i < n :: Settled(base, servers, i, outcomes[i])
    ensures |NamesIn(outcomes, n)| <= |Catalogue(base, servers, n)|
    ensures |NamesIn(outcomes, n)| == |Catalogue(base, servers, n)| <==> NoneFailedLate(base, servers, n)
    ensures |NamesIn(outcomes, n)| == |Catalogue(base, servers, n)| ==> NamesIn(outcomes, n) == Names(Catalogue(base, servers, n))
  {
    if n > 0 {
      AccountedNames(base, servers, n - 1, outcomes);
      var before := Catalogue(base, servers, n - 1);
      var added := Contribution(base + before, servers[n - 1]);
      assert Settled(base, servers, n - 1, outcomes[n - 1]);
      OutcomeShare(base + before, servers[n - 1], n - 1);
      NamesGrow(NamesIn(outcomes, n - 1), before, outcomes[n - 1].toolNames, added, FailedLate(base, servers, n - 1));
    }
  }

  /** The per-server outcomes of a report account for every registered name exactly when no
      server that registered tools failed after its batch had been recorded. */
  lemma {:induction false} OutcomesAccountForCatalogue(base: seq<Tool>, servers: seq<Server>, report: Report)
    requires Accounted(base, servers, |servers|, report.outcomes, report.tools)
    requires report.toolNames == Names(report.tools)
    ensures ReportedNames(report) == report.toolNames <==> forall i | 0 <= i < |servers| :: !FailedLate(base, servers, i)
  {
    AccountedNames(base, servers, |servers|, report.outcomes);
    NoneFailedLateIff(base, servers, |servers|);
  }

  const LATE_TOOL := Tool(0, "mcp_0123456789abcdef0123456789abcdef")

  lemma {:induction false} LateToolIsPublishable()
    ensures IsMcpToolName(LATE_TOOL.name) && Registrable([], [LATE_TOOL])
  {
    assert [] + [LATE_TOOL] == [LATE_TOOL];
  }

  /** One server that fails late, on an empty registry: whatever `ConnectServers` reports, its
      tool is registered and no outcome mentions it. */
  lemma {:induction false} LateFailureIsUnreported(report: Report)
    requires Accounted([], [Server([LATE_TOOL], Late(Ordinary))], 1, report.outcomes, report.tools)
    ensures report.tools == [LATE_TOOL] && |report.outcomes| == 1
    ensures report.outcomes[0].status == Failed && ReportedNames(report) == []
  {
    var servers := [Server([LATE_TOOL], Late(Ordinary))];
    LateToolIsPublishable();
    assert Catalogue([], servers, 0) == [];
    assert [] + [LATE_TOOL] == [LATE_TOOL];
    assert Catalogue([], servers, 1) == [] + Contribution([] + [], servers[0]);
    assert NamesIn(report.outcomes, 0) == [];
    assert Settled([], servers, 0, report.outcomes[0]);
  }

  /** The run itself. */
  method FailLate(registry: Registry) returns (report: Report)
    requires registry.Valid() && registry.tools == []
    modifies registry
    ensures registry.Valid() && registry.tools == [LATE_TOOL]
    ensures report.toolNames == [LATE_TOOL.name] && ReportedNames(report) == []
  {
    var result := ConnectServers([Server([LATE_TOOL], Late(Ordinary))], registry);
    assert result.Completed?;
    report := result.report;
    LateFailureIsUnreported(report);
    assert [] + [LATE_TOOL] == [LATE_TOOL];
  }
}
