# K2DO verification model

A Dafny 4.11 model of the parts of K2DO where concurrency, recursion or index
arithmetic decide whether the program keeps its promises:

- **MCP lifecycle** (`McpFields`, `McpProtocol`, `McpTransport`, `McpLease`,
  `McpProgress`, `McpCourse`, `McpEnding`). The fields of the agent loop, every
  critical section as a method of a class, and a step machine in which any number of tasks run the public entry points. A step is
  the code between two awaits; cancellation may arrive wherever a task waits for
  another one (the lifecycle lock is never held across a wait, so taking it is no such
  place), transports may fail or be killed, and tasks may end without running their
  finalizers.
- **Tool registry and catalogue** (`ToolRegistry`, `McpConnect`). The registry is an
  ordered map from name to tool identity; servers fail, or are cancelled, at any phase.
- **MCP schemas** (`Json`, `SchemaKeywords`, `SchemaComplexity`, `SchemaProjection`,
  `SchemaMeaning`, `SchemaAllowlist`, `SchemaBranching`). The `$ref`
  complexity check, the projection onto provider-safe keywords, and an evaluator that
  says what a schema means, unevaluated children included.
- **Redaction** (`TextRanges`, `ExactRedaction`, `RedactionSurvival`, `ScannerBasics`,
  `TokenScanner`, `AuthorizationScanner`, `AssignmentScanner`, `PrivateKeyScanner`,
  `JsonStringScanner`, `RedactionForms`).
- **Heartbeat** (`Heartbeat`, `HeartbeatProgress`) and **terminal close** (`AgentClose`,
  `AgentProgress`): two shared, shielded drains, as step machines over classes with the source's fields.
- **Tool loop** (`ToolLoop`, `ToolLoopLaws`), run against an arbitrary model.
- **Smaller pieces**: configuration keys and trees (`ConfigKeys`, `ConfigTree`),
  bounded UTF-8 (`Utf8`, `BoundedText`), session file names (`SessionKeys`), interval
  jobs (`CronSlots`), message splitting (`SplitMessage`).

Check everything with `dafny verify dfyconfig.toml`.

## How the source appears

Two kinds of statement stand side by side: what can never happen, in any run, and what
does happen (a lease is granted, a catalogue is served, a wait can end, a healthy server
is published). The second kind is said in the terms of the fields and of the inputs, not
through the functions that compute it.

Fields that methods update in place are class fields, and each method's `ensures`
equates the new state with a function of the old one. The step machines are built
from the same functions, so what is proved about every run is about what the methods
compute. Tasks, transports, tokens and drains are natural numbers that are fresh when
created. A task's done-callbacks belong to the step that finishes it. Taking the
lifecycle lock is a step of its own, which allows more interleavings than an
uncontended lock does. Loops over text, arrays and lists are loops here too.

## Where the code does not do what its documentation suggests

- A server that fails after its batch has been recorded is reported as failed, without
  names, although its tools stay registered and are part of the report
  (`McpConnect.LateFailureIsUnreported`; `OutcomesAccountForCatalogue` says exactly when
  the outcomes of a report account for all its names).
- A heartbeat `aclose` awaits whichever drain is recorded. When a worker has ended unasked,
  that can be the drain of another worker, and `aclose` comes back while the worker it
  found is alive (`Heartbeat.AcloseCanMissItsWorker`: a start that arrives when a drain has
  finished and the start that waits for it has not run again, and whose worker is cancelled
  from outside before its first step; `AcloseGuaranteeInRuns` is the exact condition).
- A configured secret can appear in redacted text: exactly those secrets can that agree
  with an overlapping `[REDACTED]` (`RedactionSurvival.GoneExactlyWhenNotStraddling`).
- `bearer basic abcd` loses the word `basic` and keeps `abcd`
  (`AuthorizationScanner.NestedCredentialIsMissed`): every credential's token is replaced
  exactly in those texts in which no credential starts inside another one's token
  (`AllReplacedExactlyWhenNotNested`).
- `token = password = hunter2` loses the word `password` and keeps `hunter2`
  (`AssignmentScanner.ChainedValueStays`): no assigned character stays exactly in those
  texts in which no assignment that starts in the value of an outermost one reaches behind
  it (`AllCoveredExactlyWhenInside`).
- A configuration key with two neighbouring one-letter words, such as `a_b_c`, does not
  survive the trip to camel case (`ConfigKeys.RoundTripExactly`).
- An `aclose` waits for ever when a task that its drain awaits is itself inside an `aclose`
  that waits for the same drain; otherwise it can always return
  (`AgentProgress.CloseCanReturnExactly`; `ClosingJobDeadlocks` is a run in which a
  consolidation task does so).
- The tainted branches of the tool loop cannot be reached; `ToolLoop.HandleCall` proves it
  where the source tests them.

## Model

| member | source | states |
|---|---|---|
| ToolRegistry.SafeToolName | k2do/agent/tools/registry.py:28-32 | a name that looks like MCP stays itself when it has the full published form and else becomes the marker; every other name is unchanged |
| ToolRegistry.Registry.RegisterMany | k2do/agent/tools/registry.py:53-64 | the whole batch is appended in order, or nothing changes and the error says which rule fails |
| ToolRegistry.Registry.Unregister | k2do/agent/tools/registry.py:66-68 | what stays are the tools of any other name, in their order: at most one entry goes |
| ToolRegistry.PoppedIsWithout | k2do/agent/tools/registry.py:66-68 | popping the entry of a name is filtering by that name |
| ToolRegistry.Registry.UnregisterMany | k2do/agent/tools/registry.py:70-80 | exactly the tools asked for by name (and identity, when given) disappear, order kept; a length mismatch changes nothing |
| ToolRegistry.UnregisterUndoesRegister | k2do/agent/tools/registry.py:53-80 | unregistering a batch by name and identity gives the registry back, wherever the batch sits |
| ToolRegistry.OnlyTheBatchGoes | k2do/agent/tools/registry.py:70-80 | with identities exactly the tools of the batch go; a tool that has taken one of their names stays |
| ToolRegistry.AllOfTheNamesGo | k2do/agent/tools/registry.py:70-80 | without identities every tool of one of the names goes |
| ToolRegistry.UnregisterStep | k2do/agent/tools/registry.py:76-80 | one pass of the pop loop removes exactly what that position asks for |
| McpConnect.ConnectOne | k2do/agent/tools/mcp.py:1378-1477 | one server: its batch is registered and recorded, or the registry is as before, or the call is abandoned and everything registered so far is gone |
| McpConnect.ConnectServers | k2do/agent/tools/mcp.py:1368-1483 | on return the registry is the old one followed by exactly the reported tools and names, with one outcome per server, each as that server's own fault and wrappers say; on cancellation it is the old one, and some server was cancelled in a phase that aborts |
| McpConnect.BlocksServed | k2do/agent/tools/mcp.py:1433-1469 | server by server, in terms of its fault and wrappers: a healthy server whose batch fits is connected and ready, names its wrappers and adds them as one block; one that fails earlier adds nothing and carries the phase |
| McpConnect.HealthyServersArePublished | k2do/agent/tools/mcp.py:1378-1443 | when all servers are healthy and all wrappers fit, the catalogue is all wrappers in order, and every server reports its own |
| McpConnect.RollBack | k2do/agent/tools/mcp.py:1445-1477 | the cancellation handlers put back exactly the registry found at the start |
| McpConnect.CloseRestores | k2do/agent/loop.py:458-471 | unregistering the names and identities of the report gives back the registry, whatever was registered after it |
| McpConnect.OutcomesAccountForCatalogue | k2do/agent/tools/mcp.py:1420-1469 | the outcomes of a report name exactly the report's tools if and only if no server with tools failed after its batch was recorded |
| McpConnect.LateFailureIsUnreported | k2do/agent/tools/mcp.py:1420-1469 | in any report on a server that fails late, a registered tool with a well-formed MCP name appears in no outcome |
| McpConnect.FailLate | k2do/agent/tools/mcp.py:1420-1469 | such a run on an empty registry: the tool is registered and reported, and no outcome names it |
| McpFields.McpState.EnterReuse | k2do/agent/loop.py:668-696 | owner, borrower, rejected or no scope; with a matching token and another task, one more lease is granted if and only if the scope is accepting or the task borrows already, and without a matching token nothing changes |
| McpFields.McpState.LeaveReuse | k2do/agent/loop.py:703-717 | one lease less, the entry dropped at zero, idle exactly when nobody borrows |
| McpFields.McpState.ActivateScope | k2do/agent/loop.py:599-612 | the new token is active and accepting |
| McpFields.McpState.RevokeScope | k2do/agent/loop.py:729-734 | accepting is cleared only for the token that is active |
| McpFields.McpState.ScanBorrowers | k2do/agent/loop.py:737-753 | the leases of finished tasks are dropped and the rest is reported |
| McpFields.McpState.ForgetScope | k2do/agent/loop.py:790-799 | the token and the accepting flag are cleared, and only for the token that is active |
| McpFields.McpState.BeginConnect | k2do/agent/loop.py:477-504 | connected, or no server configured, or a new transport recorded with its initiator, or the recorded one joined |
| McpFields.McpState.PublishConnection | k2do/agent/loop.py:369-377 | the catalogue is published under the transport's number |
| McpFields.McpState.ResetTransport | k2do/agent/loop.py:446-473 | only the recorded transport is reset: its tools leave the registry and all its fields are cleared |
| McpFields.McpState.BeginClose | k2do/agent/loop.py:1672-1699 | which of the five verdicts holds, and shutdown is signalled exactly when closing is allowed |
| McpTransport.StepKeepsTransport | k2do/agent/loop.py:341-571 | every step of the machine keeps the transport invariant |
| McpTransport.TransportGenerations | k2do/agent/loop.py:341-571 | over every run, with any waiters and cancellations: at most one cancel and one reset per transport, no reset before it has finished, a transport is unrecorded exactly when reset, and with none recorded all published fields are those of the start |
| McpTransport.CancelsAndResetsAreGuarded | k2do/agent/loop.py:421-571 | a cancel reaches an owner only before its startup is published; only the recorded, finished transport is reset, so a late waiter never clears a newer one |
| McpTransport.GuardedInRuns | k2do/agent/loop.py:421-571 | the same for every step of every run |
| McpTransport.ResetRestores | k2do/agent/loop.py:446-473 | resetting a finished transport gives back exactly the native registry |
| McpTransport.NativeIsConstant | k2do/agent/loop.py:341-571 | the tools registered before any connection are the same throughout a run |
| McpLease.StepKeepsLeases | k2do/agent/loop.py:573-807 | every step of every public entry point keeps the lease invariant |
| McpLease.LeaseSafety | k2do/agent/loop.py:573-807 | over every run: while anyone borrows, or is inside a reused scope, the catalogue is published, the token is the active one and shutdown is not signalled; each live task's depth is the number of leases it is inside |
| McpLease.ScopeRestoration | k2do/agent/loop.py:594-659 | whenever no lifespan holds the scope lock, registry and every MCP field equal those of the start, and the next connect starts a transport of its own |
| McpLease.InheritedTokenNeverConnects | k2do/agent/loop.py:585-597 | a task anywhere on the way to a connection of its own holds no inherited token |
| McpLease.DrainEndsAfterItsWait | k2do/agent/loop.py:737-799 | in every run, the pass that follows the gathered wait finds the borrower map empty |
| McpLease.RevokedForGood | k2do/agent/loop.py:661-717 | from the moment a token stops lending, in any run, it never lends again and the tasks borrowing under it only dwindle |
| McpLease.ManualCloseRefused | k2do/agent/loop.py:1661-1699 | while a lifespan is active nobody closes its transport by hand |
| McpProgress.BorrowsExactly | k2do/agent/loop.py:661-717 | in every run, a borrow by a task that is not the owner does anything if and only if its token is the active one of a published catalogue and the scope is accepting or the task borrows already |
| McpProgress.ChildrenBorrow | k2do/agent/loop.py:661-717 | while a lifespan stands in its body, any other task with its token gets a lease: its depth rises by one, to the number of leases it is inside |
| McpProgress.SpawnedChildrenBorrow | k2do/agent/loop.py:590-598 | a task started inside the body inherits the token and gets a lease |
| McpProgress.ChildrenGiveBack | k2do/agent/loop.py:697-717 | giving a lease back restores the state before it exactly |
| McpProgress.OwnerReuses | k2do/agent/loop.py:668-681 | the owner enters and leaves its own scope without touching a field |
| McpProgress.AwaitedOwnersAreTold | k2do/agent/loop.py:421-571 | in every run, whoever awaits the end of an owner task signalled it, cancelled it or saw its startup fail; a close always signals first |
| McpCourse.EveryCatalogueCanBeServed | k2do/agent/loop.py:341-612 | in every run, with no lifespan active and the agent open, an idle task can open one that publishes any registrable catalogue; all fields in its body are given |
| McpEnding.EveryLifespanCanEnd | k2do/agent/loop.py:341-807 | from every reachable state there is a way on, without new work, cancellation or an owner that stops untold, to a state without a lifespan whose fields are those of the start |
| SchemaKeywords.UnescapeToken | k2do/agent/tools/mcp.py:240-253 | the loop computes the JSON Pointer unescaping, malformed escapes included |
| SchemaKeywords.LocalRefIsCanonical | k2do/agent/tools/mcp.py:231-255 | a reference that passes carries no escapes: it is the prefix followed by the name |
| SchemaKeywords.LocalRefExactly | k2do/agent/tools/mcp.py:231-255 | exactly the prefix followed by a visible name is accepted, and names that definition |
| SchemaKeywords.UnescapeUndoesEscape | k2do/agent/tools/mcp.py:240-253 | unescaping inverts the escaping of RFC 6901 |
| SchemaKeywords.ReferenceResolves | k2do/agent/tools/mcp.py:406-412 | a reference resolves to the root definition of its name |
| SchemaComplexity.UnfoldingIsUnique | k2do/agent/tools/mcp.py:419-488 | a node unfolds in one way only |
| SchemaComplexity.CycleHasNoUnfolding | k2do/agent/tools/mcp.py:433-435 | a node reached from itself has no finite unfolding |
| SchemaComplexity.Visit | k2do/agent/tools/mcp.py:419-488 | the visit with its shared counter halts, and counts the unfolding of the node when that is narrow and fits the budget, else refuses |
| SchemaComplexity.CheckComplexity | k2do/agent/tools/mcp.py:415-490 | accepts exactly when references resolve, the unfolding is finite with at most 512 nodes, and branch products stay at most 32 on every path |
| SchemaBranching.AcceptedExactly | k2do/agent/tools/mcp.py:415-490 | in terms of paths and list lengths: accepted if and only if the unfolding has at most 512 nodes and no path enters branch lists whose lengths multiply to more than 32 |
| SchemaBranching.TurnSuccessor | k2do/agent/tools/mcp.py:441-488 | the visit descends along every turn a path can take, with the length of the list as factor |
| SchemaBranching.SuccessorTurn | k2do/agent/tools/mcp.py:441-488 | and along no other |
| SchemaBranching.WideListIsRejected | k2do/agent/tools/mcp.py:464-467 | a branch list of more than 32 entries is refused, whatever is in it |
| SchemaComplexity.SelfReferenceIsRejected | k2do/agent/tools/mcp.py:433-435 | a definition that refers to itself is rejected |
| SchemaProjection.ProjectTotal | k2do/agent/tools/mcp.py:531-588 | no validated schema makes the projection raise |
| SchemaProjection.ProjectTwice | k2do/agent/tools/mcp.py:531-588 | projecting a projected schema changes nothing |
| SchemaProjection.GetProjected | k2do/agent/tools/mcp.py:531-588 | a keyword survives with its projected value or not at all, wherever it stands (which ones do: AllowedAreKept) |
| SchemaProjection.ProviderSchemaTotal | k2do/agent/tools/mcp.py:590-594 | an accepted input schema has a provider form, and projecting that again changes nothing |
| SchemaAllowlist.OutputIsAllowed | k2do/agent/tools/mcp.py:531-587 | whatever goes in, at every depth of the output stand only keywords of a written-out list, visible names, plain local references and known formats |
| SchemaAllowlist.AllowedAreKept | k2do/agent/tools/mcp.py:540-587 | a projected object has a keyword if and only if the object has it and it is on the list |
| SchemaAllowlist.AnnotationsAreNotAllowed | k2do/agent/tools/mcp.py:105-114 | no annotation and no extension is on the list |
| SchemaAllowlist.ProviderSeesOnlyAllowed | k2do/agent/tools/mcp.py:590-594 | the same of what the provider sees |
| SchemaMeaning.SchemaAgrees | k2do/agent/tools/mcp.py:531-588 | a node with a finite unfolding finds the same instances valid, and the same children of them evaluated, before and after projection |
| SchemaMeaning.ProjectionPreservesMeaning | k2do/agent/tools/mcp.py:493-594 | every instance is valid under an accepted schema exactly when it is valid under its projection, and no further unfolding changes either verdict |
| TextRanges.ReplaceRanges | k2do/agent/tools/mcp.py:728-740 | the output is the kept text interleaved with the replacements of the ranges that are not skipped |
| TextRanges.OrderedIsApplied | k2do/agent/tools/mcp.py:728-740 | no range is skipped if and only if all are non-empty, in order and disjoint |
| TextRanges.AppliedIsOrdered | k2do/agent/tools/mcp.py:728-740 | what is applied is always ordered and disjoint |
| TextRanges.OneByOne | k2do/agent/tools/mcp.py:728-740 | the output is what single replacements, from the last range to the first, make of the text |
| ExactRedaction.MarkOccurrences | k2do/agent/tools/mcp.py:776-782 | exactly the positions of all occurrences of the secret, overlapping ones included, become marked |
| ExactRedaction.CollectRuns | k2do/agent/tools/mcp.py:783-794 | the ranges are the maximal runs of marked positions, all of them, in order |
| ExactRedaction.AllTheRuns | k2do/agent/tools/mcp.py:783-794 | such ranges are ordered and maximal, and a position is covered exactly when it lies in one |
| ExactRedaction.ExactValueRanges | k2do/agent/tools/mcp.py:769-794 | the maximal runs of positions covered by any secret |
| ExactRedaction.RunsGiveMasked | k2do/agent/tools/mcp.py:728-740 | replacing the maximal runs keeps exactly the uncovered characters, in order |
| ExactRedaction.RedactExactValues | k2do/agent/tools/mcp.py:797-798 | the output is the position-by-position redaction |
| RedactionSurvival.OnlyStraddlersSurvive | k2do/agent/tools/mcp.py:769-798 | a secret that agrees with no overlapping marker never occurs in a redacted text |
| RedactionSurvival.GoneExactlyWhenNotStraddling | k2do/agent/tools/mcp.py:769-798 | a secret is gone from all texts, beside all other secrets, if and only if it agrees with no overlapping marker |
| RedactionSurvival.PlainStraddlers | k2do/agent/tools/mcp.py:769-798 | without square brackets the condition is being part of the marker's word |
| RedactionSurvival.PlainSecretsAreGone | k2do/agent/tools/mcp.py:769-798 | with no bracket and no part of "REDACTED" among the secrets, no secret occurs in the output |
| ScannerBasics.AsciiStartsWith | k2do/agent/tools/mcp.py:743-753 | case-insensitive match at a position, out-of-range starts included |
| TokenScanner.RedactPrefixedTokens | k2do/agent/tools/mcp.py:982-1008 | halts; its ranges are ordered, each is a whole token, every token of the text is covered, and all of them are applied |
| TokenScanner.NotInsideShortTail | k2do/agent/tools/mcp.py:1003-1007 | no token hides in a tail that is too short, so skipping it loses nothing |
| AuthorizationScanner.RedactAuthorization | k2do/agent/tools/mcp.py:948-979 | halts; its ranges are ordered tokens behind scheme words, and every credential's token is replaced if and only if no credential starts inside another one's token |
| AuthorizationScanner.AllReplacedExactlyWhenNotNested | k2do/agent/tools/mcp.py:948-979 | that condition is on the text alone, whatever the scan found |
| AuthorizationScanner.TokenTellsScheme | k2do/agent/tools/mcp.py:953-978 | two scheme words with the same token are the same word |
| AuthorizationScanner.NestedCredentialIsMissed | k2do/agent/tools/mcp.py:948-979 | a concrete text with nested credentials, in which one credential's token stays |
| AssignmentScanner.RedactAssignments | k2do/agent/tools/mcp.py:884-945 | halts; the ranges are ordered and are exactly the values of the outermost assignments to secret fields; no assigned character stays if and only if no assignment that starts in an outermost value reaches behind it |
| AssignmentScanner.OutermostExactly | k2do/agent/tools/mcp.py:884-945 | an assignment's value is replaced if and only if it does not start in the value of an outermost one |
| AssignmentScanner.AllCoveredExactlyWhenInside | k2do/agent/tools/mcp.py:884-945 | the condition for complete coverage, on the text alone |
| AssignmentScanner.ReachingOutStays | k2do/agent/tools/mcp.py:919-944 | which character of a value that reaches out stays |
| AssignmentScanner.NextStart | k2do/agent/tools/mcp.py:902-917 | no assignment starts between a field name and its value, so jumping to the value loses none |
| AssignmentScanner.ChainedValueStays | k2do/agent/tools/mcp.py:884-945 | in `token = password = ` followed by any plain word, that word is not replaced |
| PrivateKeyScanner.AsciiFind | k2do/agent/tools/mcp.py:756-766 | the first case-insensitive match in the window, or none there |
| PrivateKeyScanner.FindKeyEnd | k2do/agent/tools/mcp.py:869-878 | the end of the first end line that names a private key, or of the text |
| PrivateKeyScanner.RedactPrivateKeys | k2do/agent/tools/mcp.py:858-881 | halts; ordered ranges, all applied, each reaching from a private key's begin line to the end of that key, and every private key header of the text is covered |
| JsonStringScanner.RedactJsonStringValues | k2do/agent/tools/mcp.py:825-855 | halts; exactly the string tokens that decode to a text with a secret in it are replaced, whole |
| JsonStringScanner.RedactedIsClean | k2do/agent/tools/mcp.py:825-855 | scanning the redacted text again finds no such token, if and only if the replacement is none itself or nothing was replaced |
| JsonStringScanner.ReplacedExactly | k2do/agent/tools/mcp.py:825-855 | a string token is replaced if and only if some secret stands in what it decodes to |
| JsonStringScanner.EscapedTextIsOneToken | k2do/agent/tools/mcp.py:825-842 | a text that was escaped and quoted is one token, up to its closing quote |
| AssignmentScanner.EscapedValueIsTaken | k2do/agent/tools/mcp.py:919-936 | a value that is written escaped and quoted is taken whole |
| RedactionForms.WrittenTokenIsCovered | k2do/agent/tools/mcp.py:72-81 | a listed prefix with a tail that is long enough, at the start of a word, is covered to the end of the tail |
| RedactionForms.WrittenCredential | k2do/agent/tools/mcp.py:948-979 | a scheme word, a blank and four token characters or more are a credential |
| RedactionForms.WrittenAssignment | k2do/agent/tools/mcp.py:884-945 | a listed field, a sign and a plain word are an assignment of that word |
| Heartbeat.HeartbeatService.RequestTaskCancel | k2do/heartbeat/service.py:113-122 | a cancel is issued only for a live task without one, and remembered |
| Heartbeat.HeartbeatService.Stop | k2do/heartbeat/service.py:100-104 | a new generation, not running, at most one cancel |
| Heartbeat.HeartbeatService.EnsureCloseTask | k2do/heartbeat/service.py:124-135 | one shared drain while there is a worker or a drain |
| Heartbeat.HeartbeatService.FinishDrain | k2do/heartbeat/service.py:137-153 | a drain forgets only its own worker |
| Heartbeat.HeartbeatService.CollectCloseTask | k2do/heartbeat/service.py:155-191 | a caller forgets only the drain it awaited |
| Heartbeat.StepKeeps | k2do/heartbeat/service.py:76-191 | every step keeps the lifecycle invariant |
| Heartbeat.HeartbeatSafety | k2do/heartbeat/service.py:76-191 | over every run: at most one unfinished worker, the recorded one; at most one service cancel per worker; running means a live worker nobody has cancelled |
| Heartbeat.AcloseLeavesWorkerFinished | k2do/heartbeat/service.py:106-111 | when aclose comes back, the worker it found is finished |
| Heartbeat.ImmediateAclose | k2do/heartbeat/service.py:106-111 | when aclose comes back at once, there was no worker |
| Heartbeat.StopPreventsPendingStart | k2do/heartbeat/service.py:76-98 | a stop or aclose during a pending start keeps that start from creating a worker |
| Heartbeat.AcloseGuarantee | k2do/heartbeat/service.py:106-191 | with workers that may fail on their own, aclose guarantees that its worker is finished if and only if the drain it awaits is that worker's |
| Heartbeat.AcloseGuaranteeInRuns | k2do/heartbeat/service.py:106-191 | the same for every aclose in every run |
| Heartbeat.AcloseCanMissItsWorker | k2do/heartbeat/service.py:106-191 | a concrete run, which the event loop can schedule, in which aclose comes back while the worker it found is alive |
| HeartbeatProgress.PendingStartCreatesExactly | k2do/heartbeat/service.py:86-97 | a start that waited creates its worker if and only if the wait did not raise, no stop or aclose came since, and no worker is at work |
| HeartbeatProgress.RaisedStartCreatesNothing | k2do/heartbeat/service.py:89-97 | a start whose wait raised leaves workers, worker handle and running flag alone |
| HeartbeatProgress.StartLaw | k2do/heartbeat/service.py:76-97 | what a start does at once, in each of its three cases |
| HeartbeatProgress.StopReachesTheWorker | k2do/heartbeat/service.py:100-139 | in every run, after a stop, an aclose and the beginning of a drain, the worker is finished, was cancelled by the service or has a cancel pending |
| HeartbeatProgress.EveryWaitCanEnd | k2do/heartbeat/service.py:106-191 | from every reachable state, whoever waits for a drain can come back without anyone else moving |
| AgentClose.AgentGate.Enter | k2do/agent/loop.py:1618-1629 | admitted exactly when not closing, with one more level of depth |
| AgentClose.AgentGate.Leave | k2do/agent/loop.py:1630-1636 | one level less, the entry dropped at the last |
| AgentClose.AgentGate.Schedule | k2do/agent/loop.py:1719-1738 | a consolidation task is created exactly when not closing and no unfinished one has its key |
| AgentClose.AgentGate.CancelOnce | k2do/agent/loop.py:1740-1751 | exactly the live tasks not cancelled before get a cancellation |
| AgentClose.AgentGate.Reap | k2do/agent/loop.py:1789-1797 | exactly the finished tasks the drain found leave the books |
| AgentClose.AgentGate.BeginClose | k2do/agent/loop.py:1810-1823 | refused from an active operation; else closing is set and the one drain is shared |
| AgentClose.AgentGate.CollectClose | k2do/agent/loop.py:1841-1842 | a caller forgets only the drain it awaited |
| AgentClose.CloseSafety | k2do/agent/loop.py:1617-1636 | over every run: each task's depth is the number of its open entries, only live tasks have one, and at most one drain is unfinished, the shared one |
| AgentClose.ClosingIsTerminal | k2do/agent/loop.py:1719-1851 | closing is never cleared; from then on nothing is admitted, entries and consolidation tasks only shrink |
| AgentClose.AcloseLeavesNothing | k2do/agent/loop.py:1753-1851 | once any aclose has returned, then and forever after no entry is open and no consolidation task is unfinished except the task that asked for the drain |
| AgentClose.OneCancelEach | k2do/agent/loop.py:1746-1751 | no consolidation task is cancelled this way twice, and none that is finished |
| AgentProgress.AdmittedExactly | k2do/agent/loop.py:1618-1636 | in every run a task is admitted if and only if the agent is open, and leaving restores the books |
| AgentProgress.ScheduledExactly | k2do/agent/loop.py:1719-1738 | scheduling creates a task if and only if the agent is open and no unfinished task has the key |
| AgentProgress.EveryJobIsCancelled | k2do/agent/loop.py:1740-1776 | in every run, a stop and the start of a drain cancel every unfinished consolidation task (but for the excluded one and those inside a public operation), and the drain awaits them |
| AgentProgress.CloseCanReturnExactly | k2do/agent/loop.py:1753-1842 | an aclose whose drain waits can still return if and only if no awaited task is inside an aclose that waits for the same drain |
| AgentProgress.ReturnForgets | k2do/agent/loop.py:1815-1842 | a close that returns forgets its own drain only, and the next close shares the recorded drain or starts one |
| AgentProgress.ClosingJobDeadlocks | k2do/agent/loop.py:1753-1842 | a run in which a consolidation task that closes the agent waits for itself |
| ToolLoop.HandleCall | k2do/agent/loop.py:1169-1254 | a call runs exactly when the rule permits it, the bookkeeping stays right, and the tainted branches are dead |
| ToolLoop.AnswerCalls | k2do/agent/loop.py:1150-1274 | every native call gets one answer in order, unless executing one raises |
| ToolLoop.RunAgentLoop | k2do/agent/loop.py:1085-1477 | the model is asked at most max_iterations times; the loop ends at the first final answer, at the limit, or where a call raises; history and list of tools are those of the answers worked through |
| ToolLoop.ExecutedIsDisciplined | k2do/agent/loop.py:1199-1254 | no MCP-shaped name runs, no two reasoning tools run next to each other, and reasoning runs at most max(1, limit) times |
| ToolLoopLaws.RefusedOnlyWhenForbidden | k2do/agent/loop.py:1199-1254 | a requested call runs if and only if the list of executed tools stays disciplined with it |
| ToolLoopLaws.TextIsSentBackExactly | k2do/agent/loop.py:1085-1477 | a text does not end the loop if and only if it is the first one, nothing but reasoning has run, and concrete tools are demanded |
| ToolLoopLaws.OneTextSentBack | k2do/agent/loop.py:1085-1477 | at most one text is sent back in a run |
| ToolLoopLaws.OneAssistantPerAnswer | k2do/agent/context.py:187-200 | the history holds one assistant message per answer of the model, in order, with the ids of that answer's calls |
| ToolLoop.HistoryIsWellAnswered | k2do/agent/context.py:187-200 | in every history, each native call is answered exactly once, in order and under its own id, right behind its assistant message, and no tool answer stands anywhere else |
| ToolLoop.HistoryReportsExecution | k2do/agent/loop.py:1132-1409 | what the history says has run is exactly the list of executed tools |
| ConfigKeys.ThereAndBack | k2do/config/loader.py:187-205 | what the two regular expressions make of a camel-case name, word by word |
| ConfigKeys.RoundTripExactly | k2do/config/loader.py:187-205 | a name of lower-case words survives the trip to camel case and back if and only if no two one-letter words are neighbours after the first |
| ConfigTree.TreeRoundTrip | k2do/config/loader.py:147-184 | for any pair of name conversions, a tree survives if and only if each converted key does; keys below headers, environment and server maps are untouched |
| ConfigTree.ConfigRoundTripExactly | k2do/config/loader.py:147-205 | a configuration tree survives if and only if no converted key has two neighbouring one-letter words after its first |
| ConfigTree.UserKeysStay | k2do/config/loader.py:147-175 | below headers, environment and server maps, the keys of an object stay, in order, in both directions |
| ConfigTree.OtherKeysAreConverted | k2do/config/loader.py:147-184 | everywhere else the keys become exactly the converted ones |
| Utf8.EncodeDecode | k2do/session/manager.py:68-80 | strict decoding inverts encoding |
| Utf8.CutDecodes | k2do/agent/tools/mcp.py:703-725 | cutting an encoding anywhere loses exactly the characters that do not fit |
| BoundedText.Utf8PrefixIsLongest | k2do/agent/tools/mcp.py:717-725 | the result is the longest prefix whose encoding fits |
| BoundedText.BoundedFits | k2do/agent/tools/mcp.py:703-714 | the limit holds, a text that fits is unchanged, a longer one keeps the longest prefix that leaves room for the marker |
| BoundedText.TrustLabelStays | k2do/agent/tools/mcp.py:1276-1279 | with a limit of at least 256 bytes every rendered result keeps its trust label |
| SessionKeys.SessionKeyRoundTrip | k2do/session/manager.py:68-80 | a session key survives unpadded encoding and decoding |
| SessionKeys.SessionKeysAreDistinct | k2do/session/manager.py:82-85 | different keys get different file names |
| SessionKeys.SessionKeyIsSafe | k2do/session/manager.py:68-73 | a file name holds only letters, digits, `-` and `_` |
| SessionKeys.AlphabetInOrder | k2do/session/manager.py:68-73 | the alphabet is the standard's, in its order |
| SessionKeys.SameBits | k2do/session/manager.py:68-73 | four letters are the 24 bits of three bytes, first byte first |
| SessionKeys.SessionKeyGroups | k2do/session/manager.py:68-73 | the length of a file name, and its groups of four |
| CronSlots.AdvanceSlot | k2do/cron/service.py:361-370 | the loop computes anchor + interval * max(1, floor((now - anchor) / interval) + 1) |
| CronSlots.NextSlotIsLeast | k2do/cron/service.py:361-370 | that is the least slot of the grid behind both the anchor and now |
| CronSlots.SlotsDoNotDrift | k2do/cron/service.py:361-370 | over any series of executions the slots strictly increase and stay on one grid |
| SplitMessage.CutPosition | k2do/channels/telegram.py:92-97 | the last line break of the window, else its last space, else its end |
| SplitMessage.Split | k2do/channels/telegram.py:82-99 | halts, even when a cut falls at position 0; no chunk is too long, each is cut as above from what the one before left over, and all characters but white space are kept in order |
| SplitMessage.StripsOnlyBlanks | k2do/channels/telegram.py:97-98 | only white space in front of the rest goes, and all of it |

## Left out

- McpLease.LeaseSafety: stated for runs in which connections start through `mcp_lifespan`; a direct call of the private `_connect_mcp` beside a lifespan, whose cancelled initiator can shut down the transport, is a step of the machine but outside this theorem.
- McpLease.ScopeRestoration: for the same runs.
- McpLease.RevokedForGood: for the same runs.
- McpProgress.ChildrenBorrow: for the same runs, and so the other statements about leases there.
- McpCourse.EveryCatalogueCanBeServed: for the same runs.
- McpEnding.EveryLifespanCanEnd: for the same runs; a way on exists, but no fairness of the event loop is modelled that would make it happen.
- SchemaMeaning.ProjectionPreservesMeaning: what a value assertion such as `maximum` or `format` means is a parameter, so number formats and format checking are not modelled. Byte, depth and size limits of the schema text only exclude schemas, so the theorem covers more than the code accepts.
- Heartbeat.HeartbeatSafety: for workers that end only when the service asks and never close themselves; a disabled service is left out.
- Heartbeat.AcloseLeavesWorkerFinished: for the same workers; AcloseGuaranteeInRuns drops the assumption.
- HeartbeatProgress.EveryWaitCanEnd: for the same workers, and a way on, as above.
- HeartbeatProgress.StopReachesTheWorker: for the same workers.
- AgentProgress.CloseCanReturnExactly: a way on, as above; once the drain has found its tasks.
- AgentClose.AcloseLeavesNothing: nobody cancels the drain task itself, which the source shields; sub-agents and the contents of combined errors are left out.
- AuthorizationScanner.RedactAuthorization: `str.isalnum` is a parameter that holds of ASCII letters and digits, here and for assignments.
- JsonStringScanner.RedactJsonStringValues: JSON decoding of one token is a parameter.
- ToolLoop.RunAgentLoop: texts, arguments, reasoning content and the wording of prompts are not modelled; whether a text holds an inline call, and whether it reads like a plan, are given with the answer. The definitions offered to the model are left out because it may ask for any name.
- ConfigKeys.RoundTripExactly: names of ASCII lower-case words joined by single underscores; the Unicode behaviour of `str.title` and `str.upper` is not modelled.
- SessionKeys.SessionKeyRoundTrip: the library's habit of skipping characters outside the alphabet when decoding foreign tokens is not modelled.
- CronSlots.AdvanceSlot: positive intervals only, as `add_job` demands; timers, re-entry and cron expressions are left out.
- McpLease.InheritedTokenNeverConnects: a loop without configured servers yields no scope at all, so the step machine starts behind that test; one task enters and leaves a lifespan.
- Objects that the MCP SDK, LiteLLM, the file system or the network return; exception groups keep only which outcome was raised.
- The code that is plain text or tables: prompts, routing scores, DeepThink and refine prompts, HTML conversion, dashboard, CLI, labs.
- Memory consolidation results, sub-agent management and the message bus.
- `mcp_public_name` and its digest: tool names are given.
- The order in which a JSON object's members are compared: objects are lists of members with distinct keys.
