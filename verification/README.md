# Yusui access control: a verified model

Yusui gives time-limited access to an asset on a ticket. A requester submits a ticket, somebody else approves it, and
the policy engine then asks the project's primary agent to open a forwarder to the asset; a web shell dials that
forwarder. When the ticket expires or is revoked, its session is closed and the forwarder removed. This project models
three parts of that system and proves what they promise.

**The ticket-to-forwarder protocol**, at two granularities.

* *Serial.* `Engines.Engine`, `Gateways.Controller`, `Sessions.Manager`, `Agents.Client` and `Forwarders.Forwarder` are
  classes with the fields and loops of the program. Each method is proved against a function on plain values
  (`EngineSpec`, `Gateways`, `Forwarding`, `Store`). `SerialRuns` runs the engine's calls one at a time over those
  functions, with agent and server restarts, lost acks, failing transactions, timers and catalog changes between them;
  `SerialTheorems`, `SerialRevokes`, `SerialRebuilds`, `SerialClosed` and `SerialLife` have the results: cache
  coherence, access windows, and how each call ends on the tables and the fates of the commands alone: an Apply, a
  revoke, the sweep, a rebuild, a reconnect and a scheduler pass, ticket by ticket, whatever the agents of other
  tickets do.
* *Interleaved.* `Worlds` cuts the same calls into single steps: each transaction, read, enqueue, delivery, answer,
  timeout, timer and crash is an event of its own, and any number of calls are in progress. `WorldCalls.RunKeeps`
  proves one invariant for every list of events. `WorldTheorems`, `WorldPorts`, `WorldForeign`, `WorldLate`,
  `WorldAgain` and `WorldWindows` draw the safety results from it; `WorldProgress` and `WorldReach` say what can still
  happen from any reachable state. `Links` is one control stream with its command queue and ack channels, `WorldDrive`
  drives a call along, and `WorldExamples` has runs that reach the states the exact conditions leave open.

The tables are values (`Store.Db`); a transaction is a function that either does everything or nothing. Fields marked
"history only" in the datatypes record what happened and decide nothing.

**The web shell's line gate.** `Filters` is the rule matching, `LineGates` the stdin loop with its confirm tokens and
timers (`Terminal` is the loop, `Step` the interleaved machine). `LineGateTheorems` accounts for every key and token;
`RemoteLines` compares the gate's line with a terminal in canonical mode (sections 11.1.6 and 11.1.9 of the POSIX.1-2017
Base Definitions).

**The login lockout.** `Lockouts` is the password login with its failure counter, and the rate of guesses it allows.

Where the code does not meet a promise on all inputs, the exact condition is proved and a run or an input that fails it
is given:

* A ticket is closed without any revoke command if, and only if, the revoke could not read the binding row
  (`WorldTheorems.ClosedWasRevoked`, `WorldExamples.FailedBindingReadClosesAnyway`).
* A listener has no deadline if, and only if, its command was obeyed at or after the end of the access window
  (`WorldTheorems.WindowIsExact`, `WorldExamples.LateCommandOpensUntimedListener`). Obeying a command is one step here.
  The program arms the timer a moment before it enters the rule, so a window that ends in between also leaves a listener
  without a deadline; see "Left out".
* A live ticket's forwarder can come to relay outside the ticket's project if, and only if, one of its frozen asset ids
  is above all asset ids that exist, or is by now another project's asset at an address none of its own frozen assets
  has (`WorldForeign.ForeignEntryIff`, `WorldTheorems.OwnProjectForever`, `WorldExamples.ClosedTicketRelaysElsewhere`).
* A ticket past active (revoking, revoke_pending or closed) has a listener now or at some later time if, and only if,
  it has one now, or an Apply of its rule is on a stream its agent reads from, or a call that has more of its Apply
  commands to send can still go on: it has not reached its stream yet, or its agent reads from that stream and the
  answer it waits for, if it waits for one, is an OK that is coming (`WorldAgain.ListenerAgainIff`). A slow reapply is
  such a call (`WorldExamples.ClosedTicketRelaysElsewhere`), and after an acked revoke only an Apply obeyed later can
  have made the listener (`WorldLate.ClosedListenerIsLater`). In serial runs no closed ticket has one
  (`SerialClosed.ClosedIsEnforcedNowhere`).
* An approved or a revoking ticket can still change its status if, and only if, a call of its own is in progress: a
  server restart or a lost call strands it for good, as nothing starts that call again (`WorldProgress.CanMoveIff`).
* The gate's line is the remote line as long as a connection begins on an empty remote line and keys come only while no
  token is at stake (`RemoteLines.GateRefinesRemote`, `RemoteLines.SessionRefinesRemote`). The first condition is exact
  (`RemoteLines.EmptyStartIsNeeded`, `RemoteLines.LineLeftBehindRuns`). For keys typed while a token is pending, Enters
  among them: once a token has timed out or come back, the two lines agree if, and only if, the keys since the last
  Enter make nothing; a line let through in between runs as judged if, and only if, nothing of the line in question is
  left; and as long as no Enter asks for another token, a confirmation runs the confirmed line if, and only if, those
  keys put back what was taken away (`RemoteLines.AfterTimeout`, `RemoteLines.AfterConfirmation`,
  `RemoteLines.AfterEnter`). Otherwise a blocked line can run, at an Enter or at a token that comes back late
  (`RemoteLines.QuietIsNeeded`, `RemoteLines.StaleTokenReleasesAnotherLine`).
* The guess bound counts the failures that were recorded; the error of a failed counter update is ignored by the login,
  and such guesses are not bounded (`Lockouts.GuessRateIsBounded`, `Lockouts.UnrecordedGuessesAreUnbounded`).

Documentation and code disagree in places, and the model follows the code. `docs/05-policy-engine.md` lines 69-70 and
93 promise that a failed apply and a failed revoke are retried, and line 71 that a call cut off by a server restart is
continued; the engine does none of this, so `apply_failed` and `revoke_pending` are final here and a call that is gone
stays gone. `docs/09-web-shell.md` line 253 rebuilds the line from the remote echo; the loop
rebuilds it from the keys typed.

## Model

| member | source | states |
|---|---|---|
| `RuleIds.RuleIdInjective` | server/internal/policy/engine.go:509 | two tickets never share a rule id: decimal printing is injective |
| `RuleIds.TicketOfRuleId` | server/internal/policy/engine.go:509 | the ticket can be read back from its rule id |
| `Store.TxnKeeps` | server/internal/policy/engine.go:137-282 | whatever the transaction and whether it commits: approved tickets were approved by someone else for assets of their own project, bindings and expiries are written once, the audit log replays to the stored status, and rows only evolve |
| `Store.ExecAudits` | server/internal/policy/engine.go:454-507 | every committed transaction appends exactly the audit entry of the status change it made |
| `Store.RankRises` | server/internal/policy/engine.go:454-492 | along a legal log the rank of the status grows by at least one per entry |
| `Store.StatusNeverReentered` | server/internal/policy/engine.go:454-492 | a status a ticket has left is never its status again |
| `Store.AtMostFiveEntries` | server/internal/policy/engine.go:454-507 | a ticket has at most five audit entries |
| `Store.OtherRows` | server/internal/store/queries/tickets.sql:22-36 | a transaction rewrites one ticket row at most |
| `Store.ListedExactly` | server/internal/store/queries/assets.sql:15-16 | the listed assets are exactly the rows with a listed id; unknown ids are silently dropped |
| `Store.ListedInOrder` | server/internal/store/queries/assets.sql:15-16 | the listed rows come in id order, each once |
| `Store.TargetsExactly` | server/internal/policy/engine.go:441-450 | the targets are exactly the pairs of an asset address and a ticket port |
| `Store.TargetAt` | server/internal/policy/engine.go:441-450 | asset by asset and port by port in order, each pair once |
| `Store.TargetsOnlyExtended` | server/internal/policy/engine.go:400-407 | the target list computed at any later time has the earlier one as a prefix, even when frozen ids dangled |
| `Store.FirstTargetIsOwn` | server/internal/policy/engine.go:198-211 | an approved ticket has a first target, and it is a frozen asset of the ticket's own project |
| `Store.IdsExactly` | server/internal/store/queries/tickets.sql:38-48 | the due and live listings contain exactly the tickets that are due and live |
| `Store.IdsAscend` | server/internal/store/queries/tickets.sql:38-48 | listings are in id order without repetition |
| `Store.DueOrLive` | server/internal/store/queries/tickets.sql:38-48 | an active ticket is due from the second of its expiry on and live before it, never both; another ticket is neither |
| `Forwarders.Listener.Accept` | agent/internal/forward/forward.go:90-106 | a connection is relayed to the fixed target exactly if the listener is open and its allowlist is empty or has the host |
| `Forwarders.Forwarder.Apply` | agent/internal/forward/forward.go:50-88 | the one-to-one correspondence of open listeners, entries and armed timers is kept; an existing rule keeps its entry and address; a new one relays to the destination and admits exactly the non-empty sources, with a timer for a positive ttl only |
| `Forwarders.Forwarder.Revoke` | agent/internal/forward/forward.go:132-146 | exactly one rule goes, with its listener, connections and timer; nothing of another rule is touched |
| `Forwarders.Forwarder.Drop` | agent/internal/forward/forward.go:134-145 | removing an entry keeps the correspondence and leaves other listeners and timers alone |
| `Forwarders.Forwarder.Fire` | agent/internal/forward/forward.go:77-79 | a timer removes its own rule and no other |
| `Forwarders.Forwarder.FireDue` | agent/internal/forward/forward.go:77-79 | when all due timers have fired, in any order, exactly the entries past their deadline are gone |
| `Forwarders.Forwarder.ActiveRuleIDs` | agent/internal/forward/forward.go:148-158 | the reported ids are the keys of the rule table, strictly ascending |
| `StringOrder.SortedCorrect` | agent/internal/forward/forward.go:156 | sorting distinct ids gives a strictly ascending permutation of them |
| `Agents.Client.Handle` | agent/internal/control/client.go:117-141 | one command is obeyed once and gives one answer |
| `Agents.Client.HandleApply` | agent/internal/control/client.go:144-163 | a new listener closes at the expiry, after an hour without one, and never when the expiry has passed; no sources is refused |
| `Gateways.Controller.Roundtrip` | server/internal/agentctl/controller.go:322-343 | one command with its fate: success only if it was delivered, obeyed without error and its ack came back |
| `Gateways.Controller.ApplyRule` | server/internal/agentctl/controller.go:250-283 | one command per target under one rule id, stopping at the first failure; the first reported address is returned |
| `Gateways.Controller.RevokeRule` | server/internal/agentctl/controller.go:285-297 | one revoke command to a connected agent |
| `Gateways.PushEachOutcome` | server/internal/agentctl/controller.go:267-282 | whatever the fates: other agents and rules untouched, a live entry left alone, at most the first target's entry made, and the address returned is that of the entry there |
| `Gateways.PushEachExactly` | server/internal/agentctl/controller.go:267-282 | on the fates alone: the targets are tried in order up to the first not accepted and answered, success if and only if there is none, and the agent has the rule afterwards if and only if it had it or the first target, accepted, reached it |
| `Gateways.PushExactly` | server/internal/agentctl/controller.go:250-283 | applying a rule succeeds if and only if the agent is connected and accepts and answers every target |
| `Gateways.PullExactly` | server/internal/agentctl/controller.go:285-297 | a revoke succeeds if and only if the agent is connected and answers; the rule is gone unless the command was dropped, and no other rule or agent is touched |
| `Gateways.FreshRuleLeavesOneEntry` | server/internal/agentctl/controller.go:267-282 | n acked targets of a fresh rule leave exactly one entry: the first target, at the returned address |
| `MemoryGateways.Memory.ApplyRule` | server/internal/agentgw/gateway.go:55-63 | the rule is recorded and the address is empty |
| `MemoryGateways.Memory.RevokeRule` | server/internal/agentgw/gateway.go:66-73 | the rule is gone, others stay |
| `MemoryGateways.Memory.Reconcile` | server/internal/agentgw/gateway.go:76-86 | every rule id active on the agent, once |
| `MemoryGateways.SimulationHolds` | server/internal/agentgw/gateway.go:55-86 | after the same calls both gateways hold the same rules on every agent |
| `MemoryGateways.RealGatewayRefinesMemory` | server/internal/agentgw/gateway.go:29-39 | with every command acked and each rule on one agent, the real gateway reports exactly the active rules the reference one does |
| `Sessions.Manager.OpenForTicket` | server/internal/webshell/manager.go:60-172 | an open session is reused; a new one is registered only if everything works, even if its row could not be marked running; the map holds exactly the open sessions |
| `Sessions.Manager.Close` | server/internal/webshell/manager.go:153-160 | closing happens once: the first reason stays and the map entry goes, whether or not the row could be ended |
| `Sessions.Manager.ForceCloseByTicket` | server/internal/webshell/manager.go:174-183 | afterwards no session of the ticket is open and no other session was touched |
| `Engines.Engine.Transition` | server/internal/policy/engine.go:454-492 | one guarded status change with its audit row, or nothing |
| `Engines.Engine.Submit` | server/internal/policy/engine.go:137-183 | it succeeds exactly if the six checks pass and the transaction commits; then a pending ticket with the input's fields is added and audited, and otherwise the tables are unchanged |
| `Engines.Engine.Approve` | server/internal/policy/engine.go:187-220 | one approval transaction, then one Apply only if it committed; what that achieves is `SerialTheorems.ApproveOutcome` |
| `Engines.Engine.Reject` | server/internal/policy/engine.go:222-231 | it succeeds exactly if the ticket is pending, somebody else rejects it and the transaction commits; then only its status and the audit log change, and otherwise nothing |
| `Engines.Engine.Apply` | server/internal/policy/engine.go:233-282 | gateway first, then activation; apply_failed on a gateway error; approved for good without a primary agent |
| `Engines.Engine.Revoke` | server/internal/policy/engine.go:284-315 | revoking, sessions closed, rule removed, closed; revoke_pending on a gateway error |
| `Engines.Engine.ExpireDue` | server/internal/policy/engine.go:317-332 | the loop over due tickets computes the sweep of the specification and its count |
| `Engines.Engine.RebuildForwards` | server/internal/policy/engine.go:342-362 | only unknown addresses are asked for again |
| `Engines.Engine.Reapply` | server/internal/policy/engine.go:395-408 | the stored binding and expiry are sent again, nothing else |
| `Engines.Engine.OnAgentReconnect` | server/internal/policy/engine.go:371-391 | exactly the addresses bound to the agent are dropped, and rebuilt if there were any |
| `Engines.Engine.SchedulerPass` | server/internal/policy/engine.go:428-439 | the pass is the sweep followed by the rebuild of the specification; what that achieves is `SerialRebuilds.PassOutcome` |
| `SerialProofs.RunKeeps` | server/internal/policy/engine.go:233-408 | the serial invariant holds after every list of calls and environment events |
| `SerialLife.LifeOfTicket` | server/internal/policy/engine.go:137-439 | after any serial run, when commands are acked and transactions commit: a ticket submitted for assets of its project and approved by somebody else is active and enforced until its duration has passed; a revoke, or the sweep then, closes it; after a restart of server or agent it becomes reachable again |
| `SerialLife.OpeningFurnishes` | server/internal/policy/engine.go:240-257 | a run after which the project, its asset and its connected primary agent are there |
| `SerialTheorems.CacheIsCoherent` | server/internal/policy/engine.go:364-391 | a cached address of a live ticket is that of the live listener for its rule on its bound agent, unless that agent restarted and has not reconnected since; it relays to the ticket's first target |
| `SerialRebuilds.RebuildOutcome` | server/internal/policy/engine.go:342-362 | one pass, whatever the agents do: tables, entries and known addresses stay; each unknown ticket's targets are sent to its own agent and its address becomes known if and only if all are answered; the number returned is that of the addresses that became known |
| `SerialRebuilds.RebuildReaches` | server/internal/policy/engine.go:353-359 | a ticket whose own agent answers has the address of its listener cached after the pass, whatever the other agents do; one whose agent is not connected has not |
| `SerialRebuilds.RebuildIsTotal` | server/internal/policy/engine.go:342-362 | when the agent of every unknown ticket answers, the cache is total on live tickets, and a second pass sends nothing and returns 0 |
| `SerialRebuilds.RebuildIdle` | server/internal/policy/engine.go:349-351 | a pass that finds every address known changes nothing at all |
| `SerialRebuilds.ReconnectOutcome` | server/internal/policy/engine.go:364-391 | when an agent reconnects, a live ticket bound to it has an address cached only if it is that of its present listener, even after a restart, and has one if the agent answers; every other ticket's address stays, and without such a ticket nothing is sent |
| `SerialTheorems.ApproveOutcome` | server/internal/policy/engine.go:187-220 | nothing changes unless somebody else approves a pending ticket whose existing assets are all of its project, and the error says which check failed; otherwise its assets are frozen and it ends as one Apply of the assets listed now leaves it: active if and only if there is an approved primary agent, it accepts and answers every target, and the transaction commits |
| `SerialRebuilds.PassOutcome` | server/internal/policy/engine.go:428-439 | after a scheduler pass whose transactions commit every active ticket is in its window; one past it is closed if its own agent answers; one in it stays active and becomes reachable if its own agent answers |
| `SerialClosed.RevokeClosed` | server/internal/policy/engine.go:299-314 | a revoke that succeeds leaves the ticket's rule on no agent |
| `SerialClosed.ClosedIsEnforcedNowhere` | server/internal/policy/engine.go:284-315 | in every serial run no agent has an entry for a closed ticket |
| `SerialTheorems.ApplyOutcome` | server/internal/policy/engine.go:233-282 | with an approved primary agent the ticket ends active if and only if that agent is connected, accepts and answers every target, and the transaction commits; apply_failed if and only if it does not and the transaction commits; with this Apply's binding, expiry and address; nothing of another ticket changes |
| `SerialTheorems.ApplyRefused` | server/internal/policy/engine.go:233-243 | a missing ticket and one that is not approved are told apart, and nothing changes |
| `SerialTheorems.WindowsAndTargetsAreFixed` | agent/internal/forward/forward.go:77-79 | every live entry belongs to one ticket, closes at the expiry its Apply fixed by the ticket's 60 to 86400 s, admits exactly the configured source addresses, and relays to that Apply's first target, an asset of the ticket's own project, on the port cut to 32 bits |
| `SerialTheorems.GrantsAreFixed` | server/internal/policy/engine.go:253-257 | no later event moves the expiry, agent or targets an Apply fixed |
| `SerialTheorems.SessionsClosedBeforeRevoke` | server/internal/policy/engine.go:293-300 | no revoke command is sent while a session of its ticket is open |
| `SerialRevokes.RevokeOutcome` | server/internal/policy/engine.go:284-315 | a revoked ticket stays active or revoking if and only if the first or the second transaction fails; else it is closed if and only if it has no binding or its agent is connected and answers, and revoke_pending otherwise; only its own session, address and rule are touched |
| `SerialRevokes.RevokeRefused` | server/internal/policy/engine.go:284-292 | a missing ticket and one that is not active are told apart, and nothing changes |
| `SerialRevokes.RevokeEachOutcome` | server/internal/policy/engine.go:323-331 | revoking distinct active tickets in turn: if transactions commit, each is closed or revoke_pending as the answer to its own command says, other tickets' rules, addresses and sessions stay, and the count is of the closed ones |
| `SerialRevokes.SweepOutcome` | server/internal/policy/engine.go:317-332 | exactly the active tickets whose expiry has come are revoked; if transactions commit, each whose own agent answers ends closed, whatever the other agents do; the number returned is that of the closed ones, all else is unchanged |
| `Links.RouteFindsRoom` | server/internal/agentctl/controller.go:216-227 | the one-place channel is empty when the receive loop writes to it |
| `Links.RouteKeeps` | server/internal/agentctl/controller.go:216-227 | routing an ack, or dropping a late one, keeps the stream's invariant |
| `Links.ObeyedKeeps` | agent/internal/control/client.go:117-133 | obeying the next command keeps order and at-most-once |
| `Links.RepliedKeeps` | agent/internal/control/client.go:124-133 | sending the one ack that is owed keeps acks distinct and truthful |
| `Links.AckMeansObeyedOnce` | server/internal/agentctl/controller.go:322-343 | on a stream, a waiting caller's channel holds only the ack of its own command, obeyed once and after all earlier ones |
| `WorldCalls.StepKeeps` | server/internal/policy/engine.go:185-408 | every single step of the interleaved system keeps the invariant |
| `WorldCalls.RunKeeps` | server/internal/policy/engine.go:185-408 | so does every run |
| `WorldSteps.AgentStepKeeps` | agent/internal/control/client.go:117-141 | streams opening and breaking, agent restarts, commands, acks and timers, in any order |
| `WorldSteps.LossKeeps` | server/internal/agentctl/controller.go:178-184 | abandoned calls, server crashes, returning stream handlers that drop whatever connection is current, and time |
| `WorldTheorems.RunExtends` | server/internal/policy/engine.go:185-408 | nothing a run has recorded is later lost or rewritten |
| `WorldTheorems.NoForwarderWithoutApproval` | agent/internal/control/client.go:144-163 | in every interleaving a live forwarder entry carries the rule id of exactly one ticket, approved by someone other than its requester, and relays to one of its frozen assets on one of its ports, of its own project unless a frozen id dangled; it admits exactly the configured source addresses |
| `WorldTheorems.OwnProjectForever` | server/internal/policy/engine.go:194-211 | whatever rows the schema lets in later, the listed assets stay in the project if and only if no named id is above the last existing one |
| `WorldForeign.ForeignEntryIff` | server/internal/policy/engine.go:395-408 | for every live ticket: some continuation of a run gives it a forwarder entry to no asset of its own project if and only if one of its frozen ids is above all existing asset ids or is another project's asset at an address none of its own frozen assets has |
| `WorldForeign.NeverForeign` | server/internal/policy/engine.go:198-211 | without such an id no continuation ever gives an approved ticket one |
| `WorldForeign.BecomesForeign` | server/internal/policy/engine.go:400-407 | with an id that does not exist yet, a continuation that does: another project's asset is added under it, a reapply sends all targets, and the last is obeyed after the entry's timer ran |
| `WorldForeign.ReachesStray` | server/internal/policy/engine.go:400-407 | with an id that is another project's asset at an address of its own, a continuation that does |
| `WorldForeign.ReachesTarget` | agent/internal/forward/forward.go:50-88 | a reapply can leave a live ticket's entry relaying to any of its targets but the first, with the tables unchanged |
| `WorldPorts.ActivatedPortsAreUsable` | server/internal/agentctl/controller.go:268-281 | a ticket that was ever activated has only ports an agent accepts, because every one of its commands was acked |
| `WorldLate.EntryMade` | agent/internal/forward/forward.go:81-83 | an entry that appears between two points of a run was made by an Apply obeyed in between |
| `WorldLate.ClosedListenerIsLater` | server/internal/policy/engine.go:299-314 | if a ticket closed on an acked revoke has a listener, its agent obeyed that revoke and, later, an Apply of the rule |
| `WorldAgain.ListenerAgainIff` | server/internal/policy/engine.go:284-408 | a ticket past active has a listener in some continuation of the run if and only if an agent has one now, an Apply of its rule is on a stream its agent reads from, or a call not done sending them can still go on |
| `WorldAgain.QuietRun` | server/internal/policy/engine.go:284-315 | with none of these, no continuation ever gives it a listener |
| `WorldAgain.ComesOpens` | server/internal/policy/engine.go:395-408 | with one of these, a continuation that does |
| `WorldAgain.RunRules` | server/internal/agentctl/controller.go:267-282 | in every run a call that applies has only Apply commands of its own ticket's rule to send |
| `WorldTheorems.WindowIsExact` | agent/internal/forward/forward.go:77-79 | an entry closes at its ticket's fixed expiry, the ticket's duration after its Apply began, if and only if it was made before it, and otherwise never |
| `WorldWindows.KeptUntilExpiry` | agent/internal/forward/forward.go:77-146 | an entry stays as it is until its ticket's window is over, unless its agent restarts or obeys a revoke of its rule, even when an older timer of the same rule runs late |
| `WorldProgress.CanMoveIff` | server/internal/policy/engine.go:187-315 | in every reachable state a pending or active ticket can still change its status; an approved or revoking one if and only if a call of its own is in progress; any other cannot |
| `WorldProgress.RunStuck` | server/internal/policy/engine.go:187-315 | an approved or revoking ticket without a call of its own keeps its status for good, whatever happens |
| `WorldProgress.OwnMoves` | server/internal/policy/engine.go:233-315 | from any point of a call of its own, a continuation in which the ticket changes status |
| `WorldProgress.TimesOut` | server/internal/agentctl/controller.go:322-343 | a command that cannot be sent, or is not answered in time, fails the call, and only its own waiter is removed from the stream |
| `WorldReach.CanServe` | server/internal/policy/engine.go:187-282 | every pending ticket with assets of its project and ports an agent accepts can, in every reachable state, be approved by anybody else and become active and enforced for its duration |
| `WorldReach.CanActivateIff` | server/internal/policy/engine.go:233-282 | an approved ticket whose Apply has not built its commands yet can become active, and enforced by its agent, if and only if every port of it is one an agent accepts |
| `WorldReach.CanClose` | server/internal/policy/engine.go:284-315 | every active ticket of every reachable state can be closed with its rule left on no agent |
| `WorldTheorems.GrantIsFixed` | server/internal/policy/engine.go:404-407 | in every interleaving the grant of a ticket never changes |
| `WorldTheorems.NoAckBlocks` | server/internal/agentctl/controller.go:223-227 | in every run the receive loop never meets a full ack channel |
| `WorldTheorems.RunUnique` | server/internal/agentctl/controller.go:269 | no command id is enqueued twice, on one stream or two |
| `WorldTheorems.SuccessMeansObeyed` | server/internal/agentctl/controller.go:322-343 | an ack in a caller's channel means: its own command, enqueued once in the whole system, obeyed exactly once with that answer after every earlier command of the stream; for a revoke the rule was gone when the ack was sent |
| `WorldTheorems.StatusIsReplay` | server/internal/policy/engine.go:454-507 | in every reachable state the stored status is the legal replay of at most five audit entries |
| `WorldTheorems.StatusRises` | server/internal/policy/engine.go:454-492 | between any two points of a run a ticket keeps its status or its rank rises |
| `WorldTheorems.SweptIsNotActive` | server/internal/policy/engine.go:317-332 | a ticket listed by a sweep is never active again once its revoke transaction ran, whatever interleaves |
| `WorldTheorems.BindingIsThere` | server/internal/policy/engine.go:268-281 | an active or revoking ticket has a binding with its rule id and the agent of its grant |
| `WorldTheorems.ClosedWasRevoked` | server/internal/policy/engine.go:284-315 | a closed ticket had an OK revoke from its bound agent, enqueued after it entered revoking, if and only if the binding could be read; otherwise no revoke was ever enqueued |
| `WorldTheorems.OneApplyPerTicket` | server/internal/policy/engine.go:187-220 | at most one Apply starts for a ticket |
| `WorldTheorems.OneAgentPerTicket` | server/internal/policy/engine.go:240-258 | all commands of a ticket go to one agent, which was the approved primary of its project when chosen |
| `WorldExamples.LateCommandOpensUntimedListener` | agent/internal/control/client.go:145-154 | a run in which a command obeyed late opens a listener that never closes |
| `WorldExamples.FailedBindingReadClosesAnyway` | server/internal/policy/engine.go:299-314 | a run in which a ticket is closed while its listener is still open |
| `WorldExamples.ClosedTicketRelaysElsewhere` | server/internal/policy/engine.go:395-408 | a list of events, none of them a crash, a lost connection, an abandoned call or a failure, after which a closed ticket has a listener to another project's asset |
| `Filters.Ruleset.Match` | server/internal/webshell/filter.go:57-73 | the two loops compute the decision of the base rules, followed by the ai rules for the api source only |
| `Filters.DecidesByFirstStrictest` | server/internal/webshell/filter.go:57-73 | a line passes exactly if no matching rule has a positive rank; otherwise the first matching rule of maximal rank decides, with its severity, id and message |
| `Filters.StrictestSeverityDecides` | server/internal/webshell/filter.go:17-28 | a line is blocked if and only if a matching rule blocks; else it needs confirmation if and only if a matching rule asks for it; else it is warned about if and only if one warns |
| `Filters.NothingStricter` | server/internal/webshell/filter.go:17-28 | no matching rule outranks the decision |
| `Filters.MoreRulesNeverWeaker` | server/internal/webshell/filter.go:69-71 | the api decision is never weaker than the web one |
| `LineGates.Terminal.Stdin` | server/internal/httpapi/webshell.go:158-209 | a stdin frame is its bytes, one after the other |
| `LineGates.Terminal.ReadKey` | server/internal/httpapi/webshell.go:159-208 | one byte: Enter judged, erase, ^C and ^U, printable and other bytes |
| `LineGates.Terminal.ConfirmToken` | server/internal/httpapi/webshell.go:214-224 | only the pending token releases its Enter |
| `LineGates.Terminal.Expire` | server/internal/httpapi/webshell.go:176-187 | the timer clears the remote line only if its token is still pending |
| `LineGates.FramingIsIrrelevant` | server/internal/httpapi/webshell.go:149-158 | how the stream is split into frames makes no difference |
| `LineGateTheorems.TokensAreSettledOnce` | server/internal/httpapi/webshell.go:169-187 | under every interleaving a token is confirmed, timed out or superseded at most once, by the time its timer has fired, with at most one Enter or one ^U and one matching event |
| `LineGateTheorems.EveryKeyIsAccountedFor` | server/internal/httpapi/webshell.go:158-224 | Enters sent = passed + warned + confirmed, ^Us injected = blocked + timed out, events = all but the passed, everything else is the typed keys without Enters in order, and no LF is sent |
| `LineGateTheorems.EventsAreTheJudgedLines` | server/internal/httpapi/webshell.go:161-224 | the events recorded without a token are, in order, the blocked and the warned lines; any other is a confirmation without a line or the timeout of a token with that token's line |
| `LineGateTheorems.RulingExactly` | server/internal/httpapi/webshell.go:162-192 | what happens at an Enter, by the severities of the rules that match the line |
| `RemoteLines.GateRefinesRemote` | server/internal/httpapi/webshell.go:139-228 | with keys only while no token is at stake, the gate's line is the remote line and the remote side ran exactly the lines passed, warned or confirmed, in order |
| `RemoteLines.NoBlockedLineRuns` | server/internal/httpapi/webshell.go:160-224 | with such keys no line the remote side ran matches a blocking rule, and one that matches a confirming rule is the line of a token that was confirmed |
| `RemoteLines.LeftIsPrefix` | server/internal/httpapi/webshell.go:158-208 | while no Enter asks for another token, what is left of the line in question is a beginning of it |
| `RemoteLines.TypingWhilePending` | server/internal/httpapi/webshell.go:158-208 | while a token is pending, whatever is typed, Enters included: the remote line is what is left of the line in question followed by the gate's line, every Enter let through runs both, and the token pending is the old one or the last one asked for since |
| `RemoteLines.AfterTimeout` | server/internal/httpapi/webshell.go:176-187 | after the timeout's ^U the remote line is empty, and the lines agree if and only if the keys typed since the last Enter make nothing |
| `RemoteLines.AfterConfirmation` | server/internal/httpapi/webshell.go:214-224 | a token that comes back runs what is left and what was typed since the last Enter; the lines then agree if and only if the latter is nothing, and with no other token asked for the confirmed line runs if and only if the keys put back what was taken away |
| `RemoteLines.AfterEnter` | server/internal/httpapi/webshell.go:160-193 | any line let through while a token is pending runs as judged if and only if nothing of the line in question is left |
| `RemoteLines.SessionRefinesRemote` | server/internal/httpapi/webshell.go:96-142 | over a session whose earlier connections left nothing typed and no token, the last one's line is the remote line and exactly the lines let through ran, connection after connection |
| `RemoteLines.EmptyStartIsNeeded` | server/internal/httpapi/webshell.go:140 | every quiet run of a connection refines the remote line if and only if that line is empty when it begins |
| `RemoteLines.LineLeftBehindRuns` | server/internal/httpapi/webshell.go:140-193 | a line an earlier connection left behind is run unjudged by the first Enter of the next |
| `RemoteLines.QuietIsNeeded` | server/internal/httpapi/webshell.go:169-193 | four keys that make the remote side run a blocked line |
| `RemoteLines.StaleTokenReleasesAnotherLine` | server/internal/httpapi/webshell.go:214-224 | a token asked for one line releases another, blocked, after an Enter has run the first unconfirmed |
| `Lockouts.LocalProvider.Login` | server/internal/auth/identity.go:40-65 | it succeeds if and only if the account is known, active and not locked, the password matches its hash, it needs no second factor and its counters could be reset; each refusal has its own condition; only a wrong or insufficient password counts as a failure |
| `Lockouts.AnswerTells` | server/internal/auth/identity.go:40-65 | in a run, an attempt logs in exactly if its password was looked at, right and enough, and a guess is always refused as one |
| `Lockouts.CounterIsStreak` | server/internal/store/queries/users.sql:20-31 | the stored counter is the number of recorded wrong passwords since the last success, and from the fifth on each locks for 15 minutes |
| `Lockouts.GuessesArePaced` | server/internal/store/queries/users.sql:25-31 | after n recorded wrong passwords in a stretch without success the lock has moved n - 4 times 15 minutes ahead |
| `Lockouts.GuessRateIsBounded` | server/internal/auth/identity.go:48-60 | at most 5 + L / 15 min recorded wrong passwords are looked at in any stretch of length L without a success |
| `Lockouts.BoundIsReached` | server/internal/auth/identity.go:48-54 | for every number of guesses and any wrong password there is a run that reaches the bound |
| `Lockouts.UnrecordedGuessesAreUnbounded` | server/internal/auth/identity.go:51-54 | while the counter update fails any number of wrong passwords are looked at |

## Left out

- WindowIsExact: `forward.go:77-83` arms the timer before it enters the rule in the table; a timer that fires in between finds nothing, and that gap is not a step of the model, where obeying one command is atomic.
- CacheIsCoherent: stated for serial runs only, because the rebuild, the listener and the session open check and then act without holding a lock.
- SweptIsNotActive: says nothing about a revoke whose own first transaction fails; that ticket stays active until the next pass.
- GuessRateIsBounded: logins follow one another on one clock; two overlapping logins may both pass the lock check before either failure is recorded.
- Roundtrip: a command that is obeyed only after its call timed out is not among the fates of serial runs; the interleaved machine has it, and its results say what it can do.
- RealGatewayRefinesMemory: restarts, expiry and lost acks are excluded, as the reference gateway has none of them.
- SessionRefinesRemote: one connection of a session at a time; two that type at once share one remote line, and for either the other's keys are a line it did not begin empty.
- GateRefinesRemote: the terminal has one erase byte, either of the two the loop knows; its other editing keys, input limits and multi-byte erasing are not modelled.
- Database reads fail in the interleaved machine only; in serial runs they succeed.
- Asset ids and audit rows are taken to be committed in the order they are numbered.
- The protocol and access-kind strings, the JSON of the target selector, the stored source addresses and all timestamps but the expiry.
- The rounding of the expiry to microseconds, and the difference between the server's and the agent's clock.
- Registration, session tokens and the choice of an agent's role; at most one primary row per project is taken from the schema, and secondary agents receive no rules.
- Reconcile requests, heartbeats and drain messages on the stream; Reconcile appears in the serial comparison with the reference gateway.
- The kernel nftables enforcer, the overlay network, and relaying bytes through a forwarder: only what a connection is relayed to.
- The web shell's connection, recorder, output, resizing and attachers, and the credentials and address it dials; whether its session's asset is the forwarder's target on tickets with several assets.
- Raw mode of the line gate, which depends on how output is split into chunks; failing writes to the remote side.
- Patterns of the built-in rules: a rule is any predicate on lines. The rule id, severity and user recorded with a filter event, and the frames sent to the browser.
- Step-up, password hashing, tokens and user administration.
