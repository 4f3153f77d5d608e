/** The life of a ticket in a serial run in which everything answers. */
module SerialLife {
  import opened Wrappers
  import opened RuleIds
  import opened Store
  import opened Forwarding
  import opened Gateways
  import opened EngineSpec
  import opened SerialRuns
  import opened SerialProofs
  import opened SerialTheorems
  import opened SerialRevokes
  import opened SerialRebuilds
  import C = SerialClosed

  /** Every command is acked and every transaction commits. */
  ghost predicate Fair(env: Env) {
    PortsNamed(env) && forall k: nat :: env.fate(k) == Acked && env.commits(k)
  }

  /** The project is there with a connected primary agent, and the assets asked for are its own. */
  ghost predicate Furnished(s: Sys, input: SubmitInput, agent: int) {
    && input.reason != "" && 60 <= input.duration <= 86400 && input.assets != [] && input.ports != []
    && input.project in s.db.projects && HasPrimary(s.db, input.project, agent) && Connected(s.net, agent)
    && Listed(s.db.assets, input.assets) != [] && AllOwn(s.db.assets, input.assets, input.project)
    && forall t :: t in BuildTargets(Listed(s.db.assets, input.assets), input.ports) ==> Valid(t)
  }

  /** The ticket is active, bound to its connected agent, which runs a listener for it. */
  ghost predicate Serving(s: Sys, id: nat, agent: int, expires: int) {
    && id in s.db.tickets && s.db.tickets[id].status == Active && s.db.tickets[id].expires == Some(expires)
    && s.net.now < expires && id in s.db.bindings && s.db.bindings[id].agent == agent && s.db.bindings[id].ruleId == RuleId(id)
    && Connected(s.net, agent) && RuleId(id) in s.net.peers[agent].rules && TargetsValid(s, id)
  }

  lemma RunSnoc(now: int, env: Env, events: seq<Event>, e: Event)
    ensures Run(now, env, events + [e]) == Step(Run(now, env, events), env, e)
  {
    hide Step;
    assert (events + [e])[..|events|] == events;
  }

  // ---- submitted and approved ----

  lemma Submitted(s: Sys, env: Env, input: SubmitInput, agent: int)
    requires Fair(env) && Furnished(s, input, agent)
    ensures
      var s1, id := Step(s, env, OnSubmit(input)), s.db.next;
      && s1 == s.(db := s1.db, txs := s.txs + 1) && s1.db.assets == s.db.assets && s1.db.primaries == s.db.primaries
      && id in s1.db.tickets
      && s1.db.tickets[id] == Ticket(input.requester, None, input.project, input.assets, [], input.ports, input.duration, Pending, None)
  {
    hide Listed, BuildTargets;
    assert env.commits(s.txs);
  }

  lemma SubmittedApprovable(s: Sys, env: Env, input: SubmitInput, agent: int, approver: int)
    requires Fair(env) && Furnished(s, input, agent) && approver != input.requester
    ensures
      var s1, id := Step(s, env, OnSubmit(input)), s.db.next;
      Approvable(s1.db, id, approver) && s1.net == s.net && HasPrimary(s1.db, input.project, agent) && s1.db.assets == s.db.assets
  {
    hide Listed, BuildTargets, Step;
    Submitted(s, env, input, agent);
  }

  /** Approving it makes it active, and its agent enforces it. */
  lemma ApprovedServes(s: Sys, env: Env, id: nat, approver: int, agent: int)
    requires Fair(env) && Inv(s, env) && Approvable(s.db, id, approver)
    requires HasPrimary(s.db, s.db.tickets[id].project, agent) && Connected(s.net, agent)
    requires
      var t := s.db.tickets[id];
      60 <= t.duration && t.ports != [] && forall x :: x in BuildTargets(Listed(s.db.assets, t.selector), t.ports) ==> Valid(x)
    ensures Serving(Step(s, env, OnApprove(id, approver)), id, agent, s.net.now + s.db.tickets[id].duration)
  {
    hide Inv, ApproveCall, BuildTargets, Listed, RuleId, AllOwn, Push;
    var t := s.db.tickets[id];
    var targets := BuildTargets(Listed(s.db.assets, t.selector), t.ports);
    assert env.commits(s.txs) && env.commits(s.txs + 1);
    ApproveOutcome(s, env, id, approver);
    AllWork(s.net, env, agent, RuleId(id), targets);
    var (s', outcome) := ApproveCall(s, env, id, approver);
    assert Applied(s, s', env, s.txs + 1, id, t, targets, outcome);
    SomeTargets(s.db, t.selector, t.ports);
    NamedHere(s, env, agent);
    PushedThere(s.net, env, agent, RuleId(id), targets, Some(s.net.now + t.duration), s.sessions);
    ApproveAssets(s, env, id, approver);
  }

  lemma AllWork(net: Net, env: Env, agent: int, rule: string, targets: seq<Target>)
    requires Fair(env) && Connected(net, agent) && forall x :: x in targets ==> Valid(x)
    ensures PushWorks(net, env, agent, rule, targets)
  {
    forall i {:trigger targets[i]} | 0 <= i < |targets| ensures Works(env, |net.sent| + i, targets[i], i > 0 || rule in net.peers[agent].rules) {
      assert targets[i] in targets && env.fate(|net.sent| + i) == Acked;
    }
  }

  lemma SomeTargets(db: Db, ids: seq<int>, ports: seq<int>)
    requires Listed(db.assets, ids) != [] && ports != []
    ensures BuildTargets(Listed(db.assets, ids), ports) != []
  {
    hide Listed, BuildTargets;
    TargetAt(Listed(db.assets, ids), ports, 0, 0);
  }

  /** A push that succeeds leaves the rule at the agent, still connected. */
  lemma PushedThere(net: Net, env: Env, agent: int, rule: string, targets: seq<Target>, expires: Option<int>, sessions: set<nat>)
    requires PortsNamed(env) && Connected(net, agent) && Named(net.peers[agent].rules) && targets != []
    requires PushWorks(net, env, agent, rule, targets)
    ensures var net' := Push(net, env, agent, rule, targets, expires, sessions).0;
      Connected(net', agent) && rule in net'.peers[agent].rules && net'.now == net.now
  {
    hide PushEach, Tried, PushWorks, Created;
    PushExactly(net, env, agent, rule, targets, expires, sessions);
    PushEachOutcome(net, env, agent, rule, targets, expires, sessions, "");
  }

  lemma ApproveAssets(s: Sys, env: Env, id: nat, approver: int)
    requires id in s.db.tickets
    ensures
      var s' := ApproveCall(s, env, id, approver).0;
      s'.db.assets == s.db.assets && id in s'.db.tickets && s'.db.tickets[id].ports == s.db.tickets[id].ports
  {
    hide Transact, ApplyCall, Approvable;
    ApprovalMoves(s, env, id, approver);
    if Transact(s, env, Approve(id, approver)).1.None? {
      ApplyKeepsApproval(Transact(s, env, Approve(id, approver)).0, env, id);
    }
  }

  // ---- and closed ----

  /** Revoking it closes it. */
  lemma ServingRevoked(s: Sys, env: Env, id: nat, agent: int, expires: int)
    requires Fair(env) && Serving(s, id, agent, expires)
    ensures var s' := Step(s, env, OnRevoke(id)); id in s'.db.tickets && s'.db.tickets[id].status == Closed
  {
    hide RevokeCall, Pull, NetKept, RuleId, TargetsOf;
    assert env.commits(s.txs) && env.commits(s.txs + 1) && env.fate(|s.net.sent|) == Acked;
    RevokeOutcome(s, env, id);
    assert id in s.db.tickets.Keys;
  }

  lemma WaitedDue(s: Sys, env: Env, id: nat, agent: int, expires: int, seconds: nat)
    requires Serving(s, id, agent, expires) && s.net.now + seconds >= expires
    ensures
      var s' := Step(s, env, Wait(seconds));
      id in DueIn(s') && s'.db == s.db && Connected(s'.net, agent)
  {
    hide RuleId, TargetsOf;
  }

  /** When its window is over, the sweep closes it. */
  lemma DueSwept(s: Sys, env: Env, id: nat, agent: int)
    requires Fair(env) && Inv(s, env) && id in DueIn(s) && id in s.db.bindings && s.db.bindings[id].agent == agent && Connected(s.net, agent)
    ensures var s' := Step(s, env, OnExpireDue); id in s'.db.tickets && s'.db.tickets[id].status == Closed
  {
    hide Inv, ExpireDueCall, Swept, DueIn, Step;
    SweepStep(s, env);
    TablesOf(s, env);
    SweepFrom(s, env);
    var (s', n) := ExpireDueCall(s, env);
    AckedAll(s, s', env, agent);
    AnsweredCloses(s, s', env, n, id);
  }

  lemma SweepStep(s: Sys, env: Env)
    ensures Step(s, env, OnExpireDue) == ExpireDueCall(s, env).0
  {
    hide ExpireDueCall;
  }

  lemma AckedAll(s: Sys, s': Sys, env: Env, agent: int)
    requires Fair(env)
    ensures AckedTo(s, s', env, agent) && AllCommit(s, env)
  {
  }

  // ---- and kept reachable ----

  lemma ServerBack(s: Sys, env: Env, id: nat, agent: int, expires: int)
    requires Serving(s, id, agent, expires)
    ensures
      var s' := Step(Step(s, env, ServerRestart), env, AgentUp(agent));
      id in Unknown(s') && s'.db == s.db && Connected(s'.net, agent)
  {
    hide RuleId, TargetsOf;
  }

  lemma AgentBack(s: Sys, env: Env, id: nat, agent: int, expires: int)
    requires Serving(s, id, agent, expires)
    ensures
      var s' := Step(Step(s, env, AgentRestart(agent)), env, AgentUp(agent));
      id in BoundLive(s', agent) && s'.db == s.db && Connected(s'.net, agent)
  {
    hide RuleId, TargetsOf;
  }

  /**
   * The life of a ticket, after any serial run and in an environment in which every command is
   * acked and every transaction commits. Submitted for assets of its project and approved by
   * somebody else, it is active at once, until its duration later, and its agent enforces it;
   * a revoke closes it, and so does the sweep once the duration has passed; after a restart of
   * the server a rebuild, and after one of the agent its reconnect, makes it reachable again.
   */
  lemma LifeOfTicket(now: int, env: Env, events: seq<Event>, input: SubmitInput, approver: int, agent: int)
    requires Fair(env) && Furnished(Run(now, env, events), input, agent) && approver != input.requester
    ensures
      var s, id := Run(now, env, events), Run(now, env, events).db.next;
      var served := events + [OnSubmit(input)] + [OnApprove(id, approver)];
      && Serving(Run(now, env, served), id, agent, s.net.now + input.duration)
      && C.ClosedTicket(Run(now, env, served + [OnRevoke(id)]).db, id)
      && C.ClosedTicket(Run(now, env, served + [Wait(input.duration)] + [OnExpireDue]).db, id)
      && Reachable(Run(now, env, served + [ServerRestart] + [AgentUp(agent)] + [OnRebuild]), id)
      && Reachable(Run(now, env, served + [AgentRestart(agent)] + [AgentUp(agent)] + [OnReconnect(agent)]), id)
  {
    hide Run, Step, Inv, Furnished, Serving, Reachable, RuleId, DueIn, Unknown, BoundLive;
    var s, id := Run(now, env, events), Run(now, env, events).db.next;
    var served := events + [OnSubmit(input)] + [OnApprove(id, approver)];
    ServedAfter(now, env, events, input, approver, agent);
    assert input.duration >= 60 by { LongEnough(s, input, agent); }
    var expires := s.net.now + input.duration;
    var s2 := Run(now, env, served);
    ServingFacts(s2, id, agent, expires);
    RunSnoc(now, env, served, OnRevoke(id));
    ServingRevoked(s2, env, id, agent, expires);
    ExpiredAfter(now, env, served, id, agent, expires, input.duration);
    RebuiltAfter(now, env, served, id, agent, expires);
    RestoredAfter(now, env, served, id, agent, expires);
  }

  lemma LongEnough(s: Sys, input: SubmitInput, agent: int)
    requires Furnished(s, input, agent)
    ensures input.duration >= 60
  {
    hide Listed, BuildTargets;
  }

  lemma ServingFacts(s: Sys, id: nat, agent: int, expires: int)
    requires Serving(s, id, agent, expires)
    ensures id in s.db.tickets && id in s.db.bindings && s.db.bindings[id].agent == agent && TargetsValid(s, id)
  {
    hide RuleId;
  }

  lemma ServedAfter(now: int, env: Env, events: seq<Event>, input: SubmitInput, approver: int, agent: int)
    requires Fair(env) && Furnished(Run(now, env, events), input, agent) && approver != input.requester
    ensures
      var s, id := Run(now, env, events), Run(now, env, events).db.next;
      var s2 := Run(now, env, events + [OnSubmit(input)] + [OnApprove(id, approver)]);
      Serving(s2, id, agent, s.net.now + input.duration) && s2.net.now == s.net.now
  {
    hide Run, Step, Inv, Serving, RuleId, Listed, BuildTargets, AllOwn;
    var s, id := Run(now, env, events), Run(now, env, events).db.next;
    RunSnoc(now, env, events, OnSubmit(input));
    RunSnoc(now, env, events + [OnSubmit(input)], OnApprove(id, approver));
    RunKeeps(now, env, events + [OnSubmit(input)]);
    Submitted(s, env, input, agent);
    SubmittedApprovable(s, env, input, agent, approver);
    var s1 := Step(s, env, OnSubmit(input));
    ApprovedServes(s1, env, id, approver, agent);
    ApprovedNow(s1, env, id, approver);
  }

  lemma ApprovedNow(s: Sys, env: Env, id: nat, approver: int)
    ensures Step(s, env, OnApprove(id, approver)).net.now == s.net.now
  {
    hide TargetsOf, RuleId, Exec, PushEach;
    forall agent, rule, targets, expires, sessions
      ensures Push(s.net, env, agent, rule, targets, expires, sessions).0.now == s.net.now
    {
      PushNow(s.net, env, agent, rule, targets, expires, sessions);
    }
  }

  lemma PushNow(net: Net, env: Env, agent: int, rule: string, targets: seq<Target>, expires: Option<int>, sessions: set<nat>)
    ensures Push(net, env, agent, rule, targets, expires, sessions).0.now == net.now
  {
    if Connected(net, agent) {
      PushEachNow(net, env, agent, rule, targets, expires, sessions, "");
    }
  }

  lemma {:induction false} PushEachNow(net: Net, env: Env, agent: int, rule: string, targets: seq<Target>,
                                       expires: Option<int>, sessions: set<nat>, addr: string)
    requires agent in net.peers
    ensures PushEach(net, env, agent, rule, targets, expires, sessions, addr).0.now == net.now
    decreases |targets|
  {
    if targets != [] {
      var (net1, answer) := Exchange(net, env, agent, Apply(rule, env.Sources(), OnWire(targets[0]), expires), sessions);
      if answer.Some? {
        PushEachNow(net1, env, agent, rule, targets[1..], expires, sessions, if addr == "" && answer.value != "" then answer.value else addr);
      }
    }
  }

  lemma ExpiredAfter(now: int, env: Env, served: seq<Event>, id: nat, agent: int, expires: int, seconds: nat)
    requires Fair(env) && Serving(Run(now, env, served), id, agent, expires) && Run(now, env, served).net.now + seconds >= expires
    ensures C.ClosedTicket(Run(now, env, served + [Wait(seconds)] + [OnExpireDue]).db, id)
  {
    hide Run, Step, Inv, Serving, DueIn;
    var waited := served + [Wait(seconds)];
    RunSnoc(now, env, served, Wait(seconds));
    RunSnoc(now, env, waited, OnExpireDue);
    ServingFacts(Run(now, env, served), id, agent, expires);
    WaitedDue(Run(now, env, served), env, id, agent, expires, seconds);
    RunKeeps(now, env, waited);
    DueSwept(Run(now, env, waited), env, id, agent);
  }

  lemma RebuiltAfter(now: int, env: Env, served: seq<Event>, id: nat, agent: int, expires: int)
    requires Fair(env) && Serving(Run(now, env, served), id, agent, expires)
    ensures Reachable(Run(now, env, served + [ServerRestart] + [AgentUp(agent)] + [OnRebuild]), id)
  {
    hide Run, Inv, Serving, Unknown, Reachable, RebuildCall, TargetsValid;
    var s2 := Run(now, env, served);
    var back := served + [ServerRestart] + [AgentUp(agent)];
    RunSnoc(now, env, served, ServerRestart);
    RunSnoc(now, env, served + [ServerRestart], AgentUp(agent));
    RunSnoc(now, env, back, OnRebuild);
    ServingFacts(s2, id, agent, expires);
    ServerBack(s2, env, id, agent, expires);
    var s3 := Run(now, env, back);
    SameTargetsValid(s2, s3, id);
    AckedAll(s3, RebuildCall(s3, env).0, env, agent);
    RebuildReaches(now, env, back, id);
  }

  lemma RestoredAfter(now: int, env: Env, served: seq<Event>, id: nat, agent: int, expires: int)
    requires Fair(env) && Serving(Run(now, env, served), id, agent, expires)
    ensures Reachable(Run(now, env, served + [AgentRestart(agent)] + [AgentUp(agent)] + [OnReconnect(agent)]), id)
  {
    hide Run, Inv, Serving, BoundLive, Reachable, ReconnectCall, TargetsValid;
    var s2 := Run(now, env, served);
    var back := served + [AgentRestart(agent)] + [AgentUp(agent)];
    RunSnoc(now, env, served, AgentRestart(agent));
    RunSnoc(now, env, served + [AgentRestart(agent)], AgentUp(agent));
    RunSnoc(now, env, back, OnReconnect(agent));
    ServingFacts(s2, id, agent, expires);
    AgentBack(s2, env, id, agent, expires);
    var s3 := Run(now, env, back);
    SameTargetsValid(s2, s3, id);
    AckedAll(s3, ReconnectCall(s3, env, agent), env, agent);
    ReconnectOutcome(now, env, back, agent);
    assert Restored(s3, ReconnectCall(s3, env, agent), env, agent, id);
  }

  // ---- a run to begin with ----

  const OPENING := [CatalogChange(AddProject(7)), CatalogChange(AddAsset(Asset(1, 7, "10.0.0.5"))),
                    CatalogChange(AddPrimary(7, 3)), CatalogChange(Enroll(7, true)), AgentUp(3)]

  /** A project with an asset and an approved primary agent that is connected. */
  lemma OpeningFurnishes(now: int, env: Env)
    requires Fair(env)
    ensures Furnished(Run(now, env, OPENING), SubmitInput(1, 7, [1], [22, 80], "deploy", 60), 3)
  {
    var host := Asset(1, 7, "10.0.0.5");
    hide Run, Listed, BuildTargets;
    var s := Opened(now, env);
    HostTargets(host);
  }

  lemma Opened(now: int, env: Env) returns (s: Sys)
    requires Fair(env)
    ensures s == Run(now, env, OPENING) && s.db.projects == {7} && s.db.primaries == map[7 := Primary(3, true)]
    ensures s.db.assets == [Asset(1, 7, "10.0.0.5")] && Connected(s.net, 3)
  {
    hide Run, Step;
    RunSnoc(now, env, [], OPENING[0]);
    RunSnoc(now, env, OPENING[..1], OPENING[1]);
    RunSnoc(now, env, OPENING[..2], OPENING[2]);
    RunSnoc(now, env, OPENING[..3], OPENING[3]);
    RunSnoc(now, env, OPENING[..4], OPENING[4]);
    assert OPENING[..1] == [] + [OPENING[0]] && OPENING[..2] == OPENING[..1] + [OPENING[1]];
    assert OPENING[..3] == OPENING[..2] + [OPENING[2]] && OPENING[..4] == OPENING[..3] + [OPENING[3]];
    assert OPENING == OPENING[..4] + [OPENING[4]];
    Nothing(now, env);
    s := Step(Step(Step(Step(Step(Start(now), env, OPENING[0]), env, OPENING[1]), env, OPENING[2]), env, OPENING[3]), env, OPENING[4]);
    OpeningSteps(now, env);
  }

  lemma Nothing(now: int, env: Env)
    ensures Run(now, env, []) == Start(now)
  {
  }

  lemma OpeningSteps(now: int, env: Env)
    requires Fair(env)
    ensures
      var s4 := Step(Step(Step(Step(Start(now), env, OPENING[0]), env, OPENING[1]), env, OPENING[2]), env, OPENING[3]);
      var s := Step(s4, env, OPENING[4]);
      && s.db.projects == {7} && s.db.primaries == map[7 := Primary(3, true)]
      && s.db.assets == [Asset(1, 7, "10.0.0.5")] && Connected(s.net, 3)
  {
    var s1 := Step(Start(now), env, OPENING[0]);
    assert s1.db == EmptyDb().(projects := {7});
    var s2 := Step(s1, env, OPENING[1]);
    assert s2.db == s1.db.(assets := [Asset(1, 7, "10.0.0.5")]);
    var s3 := Step(s2, env, OPENING[2]);
    assert s3.db == s2.db.(primaries := map[7 := Primary(3, false)]);
    var s4 := Step(s3, env, OPENING[3]);
    assert s4.db == s2.db.(primaries := map[7 := Primary(3, true)]);
  }

  lemma HostTargets(host: Asset)
    requires host == Asset(1, 7, "10.0.0.5")
    ensures Listed([host], [1]) == [host]
    ensures forall t :: t in BuildTargets([host], [22, 80]) ==> Valid(t)
  {
    assert [host][..0] == [];
    forall t | t in BuildTargets([host], [22, 80]) ensures Valid(t) {
      TargetsExactly([host], [22, 80], t);
    }
  }
}
