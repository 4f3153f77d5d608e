/** Runs that reach the states the exact conditions of the closing, window and target results leave open. */
module WorldExamples {
  import opened Wrappers
  import opened RuleIds
  import opened Store
  import opened Forwarding
  import opened Links
  import opened Worlds
  import D = WorldDrive
  import F = WorldForeign

  /** The world is the end of some run of a server without configured source addresses, started at time 0. */
  ghost predicate Reachable(w: World) {
    exists events :: Run(Start(0, []), events) == w
  }

  lemma TakeAny(w: World, e: Event) returns (w': World)
    requires Reachable(w)
    ensures Reachable(w') && w' == Step(w, e)
  {
    hide Step;
    var events :| Run(Start(0, []), events) == w;
    assert (events + [e])[..|events|] == events;
    w' := Run(Start(0, []), events + [e]);
  }

  /** Nothing crashes, breaks or is abandoned, and whatever may fail works. */
  predicate Smooth(e: Event) {
    match e
    case Database(_, commits) => commits
    case StartApprove(_, _, commits) => commits
    case StartRevoke(_, commits) => commits
    case Advance(_, good) => good
    case Receive(_, works, _) => works
    case Reply(_, delivered) => delivered
    case Abandon(_) | ServerCrash | ControlReturns(_) | StreamBreaks(_) | AgentRestart(_) => false
    case _ => true
  }

  predicate AllSmooth(events: seq<Event>) {
    forall i :: 0 <= i < |events| ==> Smooth(events[i])
  }

  /** The world is the end of a run in which nothing went wrong. */
  ghost predicate Smoothly(w: World) {
    exists events :: AllSmooth(events) && Run(Start(0, []), events) == w
  }

  lemma SmoothIsReachable(w: World)
    requires Smoothly(w)
    ensures Reachable(w)
  {
    hide Run;
  }

  lemma Take(w: World, e: Event) returns (w': World)
    requires Smoothly(w) && Smooth(e)
    ensures Smoothly(w') && w' == Step(w, e)
  {
    hide Step;
    var events :| AllSmooth(events) && Run(Start(0, []), events) == w;
    assert (events + [e])[..|events|] == events;
    assert AllSmooth(events + [e]);
    w' := Run(Start(0, []), events + [e]);
  }

  const HOST := Asset(1, 7, "10.0.0.5")
  const SUBMITTED := Ticket(1, None, 7, [1, 2], [], [22], 60, Pending, None)
  const APPROVED := SUBMITTED.(approver := Some(2), frozen := [1, 2], status := Approved)
  const ACTIVE := APPROVED.(status := Active, expires := Some(60))

  function ReadyDb(): Db {
    Db({7}, 2, map[1 := SUBMITTED], map[], [HOST], map[7 := Primary(3, true)], [AuditRow(1, TicketSubmit)], map[])
  }

  lemma TakeTxn(w: World, txn: Txn, db: Db) returns (w': World)
    requires Smoothly(w) && StandsAlone(txn) && Exec(w.db, txn) == Success(db)
    ensures Smoothly(w') && w' == w.(db := db)
  {
    w' := Take(w, Event.Database(txn, true));
    hide Exec, Smoothly;
  }

  function StockedDb(): Db {
    EmptyDb().(projects := {7}, assets := [HOST], primaries := map[7 := Primary(3, true)])
  }

  lemma SubmittedDb()
    ensures Exec(StockedDb(), Submit(SubmitInput(1, 7, [1, 2], [22], "deploy", 60))) == Success(ReadyDb())
  {
    var e: map<nat, Ticket> := map[];
    assert e[1 := SUBMITTED] == map[1 := SUBMITTED];
    assert StockedDb().audit + [AuditRow(1, TicketSubmit)] == [AuditRow(1, TicketSubmit)];
  }

  const FOUNDED := EmptyDb().(projects := {7})
  const HOSTED := FOUNDED.(assets := [HOST])
  const REGISTERED := HOSTED.(primaries := map[7 := Primary(3, false)])

  lemma CatalogTxns()
    ensures Exec(EmptyDb(), AddProject(7)) == Success(FOUNDED) && Exec(FOUNDED, AddAsset(HOST)) == Success(HOSTED)
    ensures Exec(HOSTED, AddPrimary(7, 3)) == Success(REGISTERED) && Exec(REGISTERED, Enroll(7, true)) == Success(StockedDb())
  {
    assert EmptyDb().projects + {7} == {7} && FOUNDED.assets + [HOST] == [HOST];
    assert HOSTED.primaries[7 := Primary(3, false)] == REGISTERED.primaries;
    assert REGISTERED.primaries[7 := Primary(3, true)] == StockedDb().primaries;
  }

  /** A project with one asset and an approved primary agent. */
  lemma Stocked() returns (w: World)
    ensures Smoothly(w) && w == Start(0, []).(db := StockedDb())
  {
    w := Start(0, []);
    assert Run(w, []) == w;
    hide Smoothly, Run, Exec, StockedDb;
    CatalogTxns();
    w := TakeTxn(w, AddProject(7), FOUNDED);
    w := TakeTxn(w, AddAsset(HOST), HOSTED);
    w := TakeTxn(w, AddPrimary(7, 3), REGISTERED);
    w := TakeTxn(w, Enroll(7, true), StockedDb());
  }

  /** Its agent's stream is open, and one ticket submitted. */
  lemma Ready() returns (w: World)
    ensures Smoothly(w)
    ensures w == Start(0, []).(db := ReadyDb(), links := [NewLink(3)], current := map[3 := 0],
                               procs := map[3 := Proc(map[], Some(0), None, {})])
  {
    hide Smoothly, Run, Exec, ReadyDb, StockedDb;
    w := Stocked();
    SubmittedDb();
    w := TakeTxn(w, Submit(SubmitInput(1, 7, [1, 2], [22], "deploy", 60)), ReadyDb());
    w := Take(w, OpenStream(3));
  }

  function ApprovedDb(): Db {
    ReadyDb().(tickets := map[1 := APPROVED], audit := [AuditRow(1, TicketSubmit), AuditRow(1, TicketApprove)], seen := map[1 := 1])
  }

  lemma HostListed()
    ensures Listed([HOST], [1, 2]) == [HOST]
  {
    assert [HOST][..0] == [];
  }

  lemma ApprovedFields(db: Db)
    requires db == ReadyDb()
    ensures db.tickets[1 := APPROVED] == map[1 := APPROVED] && db.seen[1 := 1] == map[1 := 1]
    ensures db.audit + [AuditRow(1, TicketApprove)] == [AuditRow(1, TicketSubmit), AuditRow(1, TicketApprove)]
  {
  }

  lemma ApprovedHere()
    ensures Exec(ReadyDb(), Approve(1, 2)) == Success(ApprovedDb())
  {
    hide Listed;
    HostListed();
    ApprovedFields(ReadyDb());
  }

  const RULE := RuleId(1)
  const PUSH := Apply(RULE, [""], Target("10.0.0.5", 22), Some(60))

  lemma OneTarget(assets: seq<Asset>, row: Ticket)
    requires assets == [HOST] && row.frozen == [1, 2] && row.ports == [22]
    ensures BuildTargets(Listed(assets, row.frozen), row.ports) == [Target("10.0.0.5", 22)]
  {
    HostListed();
    hide Listed;
    assert [HOST][..0] == [];
    assert BuildTargets([HOST], [22]) == [] + PortTargets(HOST, [22]);
  }

  /** The ticket is approved, nothing has been sent, and its Apply is at `call`. */
  ghost predicate Applying(w: World, call: Call) {
    && Smoothly(w) && w.db == ApprovedDb() && w.now == 0 && w.srcPeerIPs == [] && w.nextCall == 1 && w.nextCmd == 0
    && w.links == [NewLink(3)] && w.current == map[3 := 0] && w.procs == map[3 := Proc(map[], Some(0), None, {})]
    && w.calls == map[0 := call]
  }

  lemma Chosen() returns (w: World)
    ensures Applying(w, ApplyAgent(1, APPROVED, 3))
  {
    w := Ready();
    hide Smoothly, AgentStep;
    ApprovedHere();
    hide Exec;
    w := Take(w, StartApprove(1, 2, true));
    assert w.calls == map[0 := ApplyAt(1)] && w.db == ApprovedDb();
    w := Take(w, Advance(0, true));
    assert w.calls == map[0 := ApplyRow(1, APPROVED)];
    w := Take(w, Advance(0, true));
  }

  lemma Granted() returns (w: World)
    ensures Applying(w, Connecting(ToApply(1, 3, 60), 3, [PUSH]))
  {
    w := Chosen();
    OneTarget(w.db.assets, APPROVED);
    hide Smoothly, Step, ApprovedDb, BuildTargets, Listed, RuleId, Pushes;
    OnePushed(w);
    GrantStep(w);
    w := Take(w, Advance(0, true));
  }

  lemma OnePushed(w: World)
    requires w.srcPeerIPs == []
    ensures Pushes(w, RULE, [Target("10.0.0.5", 22)], Some(60)) == [PUSH]
  {
    hide RuleId;
  }

  lemma GrantStep(w: World)
    requires w.calls == map[0 := ApplyAgent(1, APPROVED, 3)] && w.now == 0
    requires BuildTargets(Listed(w.db.assets, APPROVED.frozen), APPROVED.ports) == [Target("10.0.0.5", 22)]
    ensures
      var w' := Step(w, Advance(0, true));
      && w' == w.(calls := w'.calls, past := w'.past)
      && w'.calls == map[0 := Connecting(ToApply(1, 3, 60), 3, Pushes(w, RULE, [Target("10.0.0.5", 22)], Some(60)))]
  {
    hide AgentStep, BeginCall, AdvanceRevoke, AdvanceGateway, AdvanceEnd, BuildTargets, Listed, RuleId, Pushes, PrimaryOf;
  }

  /** The ticket's one command is on its way to the agent, and access ends at time 60. */
  lemma Pushed() returns (w: World)
    ensures Smoothly(w) && w.db == ApprovedDb() && w.now == 0 && w.srcPeerIPs == [] && w.nextCall == 1
    ensures w.calls == map[0 := Awaiting(ToApply(1, 3, 60), 0, [PUSH], 0)]
    ensures w.links == [NewLink(3).(queue := [Message(0, PUSH)], sent := [Message(0, PUSH)], slots := map[0 := None])]
    ensures w.procs == map[3 := Proc(map[], Some(0), None, {})] && w.current == map[3 := 0]
  {
    w := Granted();
    hide Smoothly, AgentStep, BeginCall, AdvanceApply, AdvanceRevoke, AdvanceEnd, ApprovedDb, RuleId;
    w := Take(w, Advance(0, true));
    assert w.calls == map[0 := Sending(ToApply(1, 3, 60), 0, [PUSH], None)];
    w := Take(w, Advance(0, true));
    assert w.calls == map[0 := Enqueuing(ToApply(1, 3, 60), 0, [PUSH], 0)];
    assert w.links == [NewLink(3).(slots := map[0 := None])];
    w := Take(w, Advance(0, true));
    assert w.links[0] == NewLink(3).(queue := [Message(0, PUSH)], sent := [Message(0, PUSH)], slots := map[0 := None]);
  }

  /** The agent has not yet received the command; the tables and the engine's calls are left open. */
  ghost predicate InFlight(w: World) {
    && Reachable(w) && |w.links| == 1 && w.links[0].queue == [Message(0, PUSH)]
    && w.procs == map[3 := Proc(map[], Some(0), None, {})]
  }

  lemma GivenUp() returns (w: World)
    ensures InFlight(w) && w.now == 0 && w.calls == map[0 := Failed(ToApply(1, 3, 60))] && w.db == ApprovedDb()
  {
    w := Pushed();
    SmoothIsReachable(w);
    hide Reachable, Decimal, AgentStep, BeginCall, AdvanceApply, AdvanceRevoke, AdvanceEnd, ApprovedDb;
    w := TakeAny(w, Advance(0, false));
  }

  lemma TimedOut() returns (w: World)
    ensures InFlight(w) && w.now == 0 && w.calls == map[] && 1 in w.db.tickets && w.db.tickets[1].status == ApplyFailed
  {
    w := GivenUp();
    hide Reachable, Decimal, AgentStep, BeginCall, AdvanceApply, AdvanceRevoke, AdvanceGateway;
    w := TakeAny(w, Advance(0, true));
    assert w.calls == map[];
  }

  lemma Opened(w: World) returns (w': World)
    requires InFlight(w)
    ensures Reachable(w') && w'.db == w.db && w'.calls == w.calls && w'.now == w.now
    ensures 3 in w'.procs && RULE in w'.procs[3].rules
    ensures var e := w'.procs[3].rules[RULE]; e.made == w.now && e.deadline == if w.now < 60 then Some(60) else None
  {
    hide Reachable, Decimal;
    w' := TakeAny(w, Receive(3, true, "10.0.0.9:4000"));
    hide Step;
  }

  /**
   * A command obeyed only after the window has passed opens a listener with no deadline:
   * its caller has timed out, the ticket is apply_failed, and no call is left to revoke it.
   */
  lemma LateCommandOpensUntimedListener() returns (w: World)
    ensures Reachable(w) && 1 in w.db.tickets && w.db.tickets[1].status == ApplyFailed && w.calls == map[]
    ensures 3 in w.procs && RULE in w.procs[3].rules && w.procs[3].rules[RULE].deadline.None?
  {
    w := TimedOut();
    w := TakeAny(w, Tick(60));
    w := Opened(w);
  }

  lemma TakeAll(w: World, events: seq<Event>) returns (w': World)
    requires Smoothly(w) && AllSmooth(events)
    ensures Smoothly(w') && w' == Run(w, events)
  {
    hide Run;
    var before :| AllSmooth(before) && Run(Start(0, []), before) == w;
    D.RunSplit(Start(0, []), before, events);
    assert AllSmooth(before + events);
    w' := Run(w, events);
  }

  /** The agent serves its one stream, idle at the moment, and no time has passed. */
  ghost predicate Serving(w: World) {
    Smoothly(w) && D.Quiet(w, 3, 0) && w.now == 0 && w.srcPeerIPs == [] && w.current == map[3 := 0]
  }

  /** The command is obeyed in time and its ack collected. */
  lemma Delivered() returns (w: World)
    ensures Serving(w) && w.db == ApprovedDb() && w.nextCall == 1
    ensures w.calls == map[0 := Sending(ToApply(1, 3, 60), 0, [], Some(0))] && RULE in w.procs[3].rules
  {
    w := Pushed();
    hide Smoothly, Decimal, ApprovedDb, Run;
    D.AckDrives(w, 0, 3, 0, ToApply(1, 3, 60), [PUSH], 0, "p");
    assert [PUSH][1..] == [];
    w := TakeAll(w, D.AckOne(0, 3, 0, "p"));
    hide Obey;
  }

  lemma Activated() returns (w: World)
    ensures Serving(w) && w.calls == map[] && w.nextCall == 1 && RULE in w.procs[3].rules
    ensures w.db.tickets == map[1 := ACTIVE] && w.db.bindings == map[1 := Binding(3, RULE, 1)] && w.db.assets == [HOST]
  {
    w := Delivered();
    hide Smoothly, RuleId, AgentStep, BeginCall, AdvanceApply, AdvanceRevoke;
    w := Take(w, Advance(0, true));
    assert w.calls == map[0 := Succeeded(ToApply(1, 3, 60), Some(Receipt(0, 0)))];
    w := Take(w, Advance(0, true));
    assert w.calls == map[];
    assert w.db.tickets == map[1 := ACTIVE] && w.db.bindings == map[1 := Binding(3, RULE, 1)];
  }

  // ---- a closed ticket's listener to another project's asset ----

  const STRAY := Asset(2, 8, "10.9.9.9")
  const STRAY_PUSH := Apply(RULE, [""], Target("10.9.9.9", 22), Some(60))

  lemma BothListed()
    ensures BuildTargets(Listed([HOST, STRAY], ACTIVE.frozen), ACTIVE.ports) == [Target("10.0.0.5", 22), Target("10.9.9.9", 22)]
  {
    HostListed();
    assert [HOST, STRAY][..1] == [HOST];
    assert Listed([HOST, STRAY], [1, 2]) == [HOST] + [STRAY];
    assert ([HOST] + [STRAY])[..1] == [HOST];
    OneTarget([HOST], ACTIVE);
    assert PortTargets(STRAY, [22]) == [Target("10.9.9.9", 22)];
  }

  lemma StrayAdded(db: Db)
    requires db.assets == [HOST]
    ensures Exec(db, AddAsset(STRAY)) == Success(db.(assets := [HOST, STRAY]))
  {
    assert db.assets + [STRAY] == [HOST, STRAY];
  }

  /** The other project's asset got the dangling id, and a reapply is about to send both targets. */
  lemma Reapplying() returns (w: World)
    ensures Serving(w) && w.nextCall == 2 && w.db.tickets == map[1 := ACTIVE] && w.db.bindings == map[1 := Binding(3, RULE, 1)]
    ensures w.calls == map[1 := Sending(ToReapply(1), 0, [PUSH, STRAY_PUSH], None)] && RULE in w.procs[3].rules
  {
    w := Activated();
    hide Smoothly, RuleId, AgentStep, Run;
    StrayAdded(w.db);
    w := TakeTxn(w, AddAsset(STRAY), w.db.(assets := [HOST, STRAY]));
    w := Take(w, StartReapply(1));
    assert w.calls == map[1 := ReapplyAt(1, ACTIVE)];
    F.ReapplySends(w, 1, 1, ACTIVE, 3, 0, 60);
    BothListed();
    BothPushed(w);
    w := TakeAll(w, [Advance(1, true), Advance(1, true)] + [Advance(1, true)]);
    assert w.calls == map[1 := Sending(ToReapply(1), 0, [PUSH, STRAY_PUSH], None)];
  }

  lemma BothPushed(w: World)
    requires w.srcPeerIPs == []
    ensures Pushes(w, RULE, [Target("10.0.0.5", 22), Target("10.9.9.9", 22)], Some(60)) == [PUSH, STRAY_PUSH]
  {
    hide RuleId;
  }

  lemma ObeyedHere(rules: Rules, now: int)
    ensures RULE in rules ==> Obey(rules, PUSH, now, true, "p") == (rules, Some(rules[RULE].addr))
    ensures Obey(rules, Revoke(RULE), now, true, "p") == (rules - {RULE}, Some(""))
    ensures RULE !in rules ==>
      var (rules', answer) := Obey(rules, STRAY_PUSH, now, true, "p");
      answer.Some? && RULE in rules' && rules'[RULE].target == Target("10.9.9.9", 22)
  {
    hide RuleId;
  }

  /** The reapply of the ticket with only the stray command left to send. */
  predicate HalfDone(call: Call) {
    call.Sending? && call.goal == ToReapply(1) && call.link == 0 && call.todo == [STRAY_PUSH]
  }

  /** The reapply has its first command acked. */
  lemma HalfReapplied() returns (w: World)
    ensures Serving(w) && w.nextCall == 2 && w.db.tickets == map[1 := ACTIVE] && w.db.bindings == map[1 := Binding(3, RULE, 1)]
    ensures w.calls.Keys == {1} && HalfDone(w.calls[1])
  {
    w := Reapplying();
    hide Smoothly, RuleId, Run, Obey, RULE, PUSH, STRAY_PUSH;
    ObeyedHere(w.procs[3].rules, w.now);
    D.PushDrives(w, 1, 3, 0, ToReapply(1), [PUSH, STRAY_PUSH], None, "p");
    assert [PUSH, STRAY_PUSH][1..] == [STRAY_PUSH];
    w := TakeAll(w, D.PushOne(1, 3, 0, "p"));
  }

  /** A revoke of the ticket begins. */
  lemma RevokeOpens() returns (w: World)
    ensures Serving(w) && 1 in w.db.tickets && w.db.tickets[1] == ACTIVE.(status := Revoking)
    ensures w.db.bindings == map[1 := Binding(3, RULE, 1)]
    ensures w.calls.Keys == {1, 2} && HalfDone(w.calls[1]) && w.calls[2] == RevokeAt(1)
  {
    w := HalfReapplied();
    hide Smoothly, RuleId, Run, AgentStep, AdvanceCall, HalfDone, RULE;
    w := Take(w, StartRevoke(1, true));
  }

  /** It reads the binding and reaches the same stream. */
  lemma RevokeSending() returns (w: World)
    ensures Serving(w) && 1 in w.db.tickets && w.db.tickets[1] == ACTIVE.(status := Revoking)
    ensures w.calls.Keys == {1, 2} && HalfDone(w.calls[1])
    ensures w.calls[2] == Sending(ToRevoke(1), 0, [Revoke(RULE)], None)
  {
    w := RevokeOpens();
    hide Smoothly, RuleId, Run, AgentStep, BeginCall, AdvanceApply, AdvanceGateway, AdvanceEnd, HalfDone, RULE;
    w := Take(w, Advance(2, true));
    assert w.calls[2] == Connecting(ToRevoke(1), 3, [Revoke(RULE)]);
    F.CallConnects(w, 2, ToRevoke(1), 3, [Revoke(RULE)]);
    w := Take(w, Advance(2, true));
  }

  /** The revoke is obeyed and acked before the reapply goes on. */
  lemma RevokeAcked() returns (w: World)
    ensures Serving(w) && 1 in w.db.tickets && w.db.tickets[1] == ACTIVE.(status := Revoking) && RULE !in w.procs[3].rules
    ensures w.calls.Keys == {1, 2} && HalfDone(w.calls[1])
    ensures w.calls[2].Sending? && w.calls[2].goal == ToRevoke(1) && w.calls[2].link == 0 && w.calls[2].todo == []
  {
    w := RevokeSending();
    hide Smoothly, RuleId, Run, Obey, Step, RULE, HalfDone;
    ObeyedHere(w.procs[3].rules, w.now);
    D.PushDrives(w, 2, 3, 0, ToRevoke(1), [Revoke(RULE)], None, "p");
    assert [Revoke(RULE)][1..] == [];
    w := TakeAll(w, D.PushOne(2, 3, 0, "p"));
  }

  /** It closes the ticket. */
  lemma ClosedMeanwhile() returns (w: World)
    ensures Serving(w) && 1 in w.db.tickets && w.db.tickets[1] == ACTIVE.(status := Closed) && RULE !in w.procs[3].rules
    ensures w.calls.Keys == {1} && HalfDone(w.calls[1])
  {
    w := RevokeAcked();
    hide Smoothly, Run, AgentStep, BeginCall, AdvanceApply, AdvanceRevoke, RULE, HalfDone;
    w := Take(w, Advance(2, true));
    assert w.calls[2].Succeeded? && w.calls[2].goal == ToRevoke(1);
    w := Take(w, Advance(2, true));
  }

  /**
   * A closed ticket with a listener to another project's asset, although every command was
   * acked and nothing crashed: a frozen id dangled at approval, another project's asset got
   * it, and the reapply's last command was obeyed after the revoke's.
   */
  lemma ClosedTicketRelaysElsewhere() returns (events: seq<Event>, w: World)
    ensures AllSmooth(events) && w == Run(Start(0, []), events)
    ensures 1 in w.db.tickets && w.db.tickets[1].status == Closed && w.calls == map[]
    ensures 3 in w.procs && RULE in w.procs[3].rules && w.procs[3].rules[RULE].target == Target(STRAY.ip, 22)
    ensures STRAY.project != w.db.tickets[1].project
  {
    w := ReapplyFinished();
    events :| AllSmooth(events) && Run(Start(0, []), events) == w;
  }

  lemma ReapplyFinished() returns (w: World)
    ensures Smoothly(w) && 1 in w.db.tickets && w.db.tickets[1] == ACTIVE.(status := Closed) && w.calls == map[]
    ensures 3 in w.procs && RULE in w.procs[3].rules && w.procs[3].rules[RULE].target == Target(STRAY.ip, 22)
  {
    w := ClosedMeanwhile();
    hide Smoothly, RuleId, Run, Obey, AgentStep, BeginCall, AdvanceApply, AdvanceRevoke, RULE, STRAY_PUSH;
    ObeyedHere(w.procs[3].rules, w.now);
    D.PushDrives(w, 1, 3, 0, ToReapply(1), [STRAY_PUSH], w.calls[1].last, "p");
    assert [STRAY_PUSH][1..] == [];
    w := TakeAll(w, D.PushOne(1, 3, 0, "p"));
    w := Take(w, Advance(1, true));
    assert w.calls[1].Succeeded? && w.calls[1].goal == ToReapply(1);
    w := Take(w, Advance(1, true));
    assert w.calls.Keys == {} && forall k :: k in w.calls ==> k in w.calls.Keys;
  }

  lemma RevokeBegun() returns (w: World)
    ensures Smoothly(w) && 1 in w.db.tickets && w.db.tickets[1].status == Revoking && w.calls == map[1 := RevokeAt(1)]
    ensures 3 in w.procs && RULE in w.procs[3].rules
  {
    w := Activated();
    hide Smoothly, AgentStep, AdvanceCall, RULE;
    w := Take(w, StartRevoke(1, true));
  }

  /**
   * A ticket closed although its listener is still open: the revoke could not read the
   * binding row, skipped the gateway, and closed the ticket.
   */
  lemma FailedBindingReadClosesAnyway() returns (w: World)
    ensures Reachable(w) && 1 in w.db.tickets && w.db.tickets[1].status == Closed && w.calls == map[]
    ensures 3 in w.procs && RULE in w.procs[3].rules
  {
    w := RevokeBegun();
    SmoothIsReachable(w);
    hide Reachable, AgentStep, AdvanceApply, AdvanceGateway, BeginCall, RULE, Run;
    w := TakeAny(w, Advance(1, false));
    assert w.calls == map[1 := Succeeded(ToRevoke(1), None)];
    w := TakeAny(w, Advance(1, true));
    assert w.calls == map[];
  }
}
