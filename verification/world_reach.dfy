/** What can still be reached, in every reachable state: that a ticket becomes active, and that it is closed for good. */
module WorldReach {
  import opened Wrappers
  import opened RuleIds
  import opened Store
  import opened Forwarding
  import opened Links
  import opened Worlds
  import opened WorldFrames
  import opened WorldSteps
  import opened WorldCalls
  import opened WorldTheorems
  import opened WorldProgress
  import A = WorldAgain
  import D = WorldDrive
  import F = WorldForeign
  import L = WorldLate
  import P = WorldPorts

  // ---- becoming active ----

  ghost predicate PortsUsable(row: Ticket) {
    forall port :: port in row.ports ==> port % 0x1_0000_0000 != 0
  }

  /** The ticket is active with the expiry of an Apply at `start`, bound to an agent that enforces its rule. */
  ghost predicate Enabled(w: World, t: nat, start: int) {
    && t in w.db.tickets && w.db.tickets[t].status == Active && w.db.tickets[t].expires == Some(start + w.db.tickets[t].duration)
    && t in w.db.bindings && L.Enforces(w, w.db.bindings[t].agent, RuleId(t))
  }

  /** The agent starts again with nothing and opens a new stream; tables and calls stay. */
  ghost predicate Returned(w: World, w': World, agent: int) {
    && w' == w.(links := w'.links, procs := w'.procs, current := w.current[agent := |w.links|])
    && D.Quiet(w', agent, |w.links|) && w'.procs[agent].rules == map[]
  }

  lemma Returns(w: World, agent: int) returns (more: seq<Event>)
    requires Inv(w)
    ensures Returned(w, Run(w, more), agent) && Inv(Run(w, more))
  {
    hide Inv, Run, Step, D.Quiet;
    more := [AgentRestart(agent), OpenStream(agent)];
    D.RunTwo(w, AgentRestart(agent), OpenStream(agent));
    F.AgentReturns(w, agent);
    StepKeeps(w, AgentRestart(agent));
    StepKeeps(Step(w, AgentRestart(agent)), OpenStream(agent));
  }

  /** What a call that has chosen its agent is about to do. */
  lemma ChosenFacts(w: World, t: nat, c: nat)
    requires Moving(w, t, c) && w.calls[c].ApplyAgent?
    ensures
      var row := w.calls[c].row;
      && w.calls[c].ticket == t && w.db.tickets[t].status == Approved
      && TargetsOf(w.db, w.db.tickets[t]) == BuildTargets(Listed(w.db.assets, row.frozen), row.ports)
      && row.duration == w.db.tickets[t].duration && 60 <= row.duration
  {
    hide Inv, BuildTargets, Listed;
    CallHere(w, c);
    TablesHere(w);
    DurationBounded(w.db, t);
  }

  /** Every target gives a command its agent accepts. */
  lemma CommandAccepted(w: World, t: nat, expires: int, i: nat)
    requires Inv(w) && t in w.db.tickets && PortsUsable(w.db.tickets[t]) && i < |TargetsOf(w.db, w.db.tickets[t])|
    ensures
      var todo := Pushes(w, RuleId(t), TargetsOf(w.db, w.db.tickets[t]), Some(expires));
      i < |todo| && F.Acceptable(todo[i], RuleId(t), expires)
  {
    hide Inv, RuleId, TargetsOf, Pushes, TablesInv, Catalogued, Audited;
    TablesHere(w);
    F.CataloguedHere(w.db);
    F.TargetAddressed(w.db, w.db.tickets[t], i);
    F.PushAt(w, RuleId(t), TargetsOf(w.db, w.db.tickets[t]), Some(expires), i);
  }

  lemma GrantStep(w: World, c: nat, t: nat, row: Ticket, agent: int)
    requires c in w.calls && w.calls[c] == ApplyAgent(t, row, agent)
    ensures
      var targets, expires := BuildTargets(Listed(w.db.assets, row.frozen), row.ports), w.now + row.duration;
      var w' := Step(w, Advance(c, true));
      && w' == w.(calls := w'.calls, past := w'.past)
      && w'.calls == w.calls[c := Connecting(ToApply(t, agent, expires), agent, Pushes(w, RuleId(t), targets, Some(expires)))]
  {
    hide RuleId, Pushes, BuildTargets, Listed, AdvanceGateway, AdvanceRevoke, AdvanceEnd, BeginCall, AgentStep;
  }

  lemma SendingDone(w: World, c: nat, goal: Goal, link: nat)
    requires c in w.calls && w.calls[c].Sending? && w.calls[c].goal == goal && w.calls[c].link == link && w.calls[c].todo == []
    requires link < |w.links|
    ensures
      var w' := Step(w, Advance(c, true));
      w' == w.(calls := w'.calls) && c in w'.calls && w'.calls[c].Succeeded? && w'.calls[c].goal == goal
  {
    hide AdvanceApply, AdvanceRevoke, AdvanceEnd, BeginCall, AgentStep;
  }

  lemma ActivateStep(w: World, c: nat, t: nat, agent: int, expires: int)
    requires c in w.calls && w.calls[c].Succeeded? && w.calls[c].goal == ToApply(t, agent, expires)
    requires t in w.db.tickets && w.db.tickets[t].status == Approved
    ensures
      var w' := Step(w, Advance(c, true));
      && w'.procs == w.procs && t in w'.db.tickets && t in w'.db.bindings && w'.db.bindings[t].agent == agent
      && w'.db.tickets[t] == w.db.tickets[t].(status := Active, expires := Some(expires))
  {
    hide RuleId, AdvanceApply, AdvanceRevoke, AdvanceGateway, BeginCall, AgentStep;
  }

  /** All commands have been acked: the call activates the ticket. */
  lemma Activates(w: World, c: nat, t: nat, agent: int, link: nat, expires: int) returns (more: seq<Event>)
    requires F.Pushing(w, w.db, t, c, ToApply(t, agent, expires), agent, link, [], expires) && RuleId(t) in w.procs[agent].rules
    requires t in w.db.tickets && w.db.tickets[t].status == Approved
    ensures
      var w' := Run(w, more);
      && t in w'.db.tickets && w'.db.tickets[t] == w.db.tickets[t].(status := Active, expires := Some(expires))
      && t in w'.db.bindings && w'.db.bindings[t].agent == agent && L.Enforces(w', agent, RuleId(t))
  {
    hide Run, Step, RuleId;
    SendingDone(w, c, ToApply(t, agent, expires), link);
    ActivateStep(Step(w, Advance(c, true)), c, t, agent, expires);
    more := [Advance(c, true), Advance(c, true)];
    D.RunTwo(w, Advance(c, true), Advance(c, true));
  }

  /** With its agent chosen and usable ports, the call can push every target and activate the ticket. */
  lemma ChosenActivates(w: World, t: nat, c: nat) returns (more: seq<Event>)
    requires Moving(w, t, c) && w.calls[c].ApplyAgent? && PortsUsable(w.db.tickets[t])
    ensures Enabled(Run(w, more), t, w.now)
  {
    hide Run, Step, RuleId, TargetsOf, Moving, F.Acceptable, D.Quiet, Pushes, Inv, PortsUsable;
    CallThere(w, t, c);
    InvThere(w, t, c);
    ChosenFacts(w, t, c);
    var ApplyAgent(_, row, agent) := w.calls[c];
    var expires, link := w.now + row.duration, |w.links|;
    var targets := TargetsOf(w.db, w.db.tickets[t]);
    var goal := ToApply(t, agent, expires);
    var todo := Pushes(w, RuleId(t), targets, Some(expires));
    var pre := Returns(w, agent);
    var w1 := Run(w, pre);
    var w2, sends := ChosenSends(w1, c, t, row, agent, link);
    F.SamePushes(w, w1, RuleId(t), targets, Some(expires));
    forall i | 0 <= i < |todo| ensures F.Acceptable(todo[i], RuleId(t), expires) {
      PushCount(w, RuleId(t), targets, Some(expires));
      CommandAccepted(w, t, expires, i);
    }
    SomeTarget(w, t);
    PushCount(w, RuleId(t), targets, Some(expires));
    var own := F.OwnPushed(w2, w.db, t, c, goal, agent, link, todo, expires, |todo|);
    assert todo[|todo|..] == [];
    var rest := Activates(Run(w2, own), c, t, agent, link, expires);
    more := pre + sends + own + rest;
    D.RunSplit(w, pre, sends);
    D.RunSplit(w, pre + sends, own);
    D.RunSplit(w, pre + sends + own, rest);
  }

  lemma PushCount(w: World, rule: string, targets: seq<Target>, expires: Option<int>)
    ensures |Pushes(w, rule, targets, expires)| == |targets|
  {
  }

  lemma SomeTarget(w: World, t: nat)
    requires Inv(w) && t in w.db.tickets && w.db.tickets[t].status == Approved
    ensures TargetsOf(w.db, w.db.tickets[t]) != []
  {
    hide Inv, TargetsOf;
    TablesHere(w);
    FirstTargetIsOwn(w.db, t);
  }

  /** The call builds its commands and takes the agent's new stream. */
  lemma ChosenSends(w: World, c: nat, t: nat, row: Ticket, agent: int, link: nat) returns (w': World, more: seq<Event>)
    requires c in w.calls && w.calls[c] == ApplyAgent(t, row, agent) && row.duration > 0
    requires D.Quiet(w, agent, link) && w.procs[agent].rules == map[] && agent in w.current && w.current[agent] == link
    ensures
      var targets, expires := BuildTargets(Listed(w.db.assets, row.frozen), row.ports), w.now + row.duration;
      && w' == Run(w, more)
      && F.Pushing(w', w.db, t, c, ToApply(t, agent, expires), agent, link, Pushes(w, RuleId(t), targets, Some(expires)), expires)
  {
    hide Run, Step, RuleId, Pushes, BuildTargets, Listed;
    var targets, expires := BuildTargets(Listed(w.db.assets, row.frozen), row.ports), w.now + row.duration;
    var todo := Pushes(w, RuleId(t), targets, Some(expires));
    GrantStep(w, c, t, row, agent);
    var w1 := Step(w, Advance(c, true));
    F.CallConnects(w1, c, ToApply(t, agent, expires), agent, todo);
    more := [Advance(c, true), Advance(c, true)];
    D.RunTwo(w, Advance(c, true), Advance(c, true));
    w' := Run(w, more);
  }

  /** An Apply that has not built its commands yet. */
  predicate Preparing(call: Call, t: nat) {
    Applies(call, t) && (call.ApplyAt? || call.ApplyRow? || call.ApplyAgent?)
  }

  lemma RowActivates(w: World, t: nat, c: nat) returns (more: seq<Event>)
    requires Moving(w, t, c) && w.calls[c].ApplyRow? && PortsUsable(w.db.tickets[t])
    ensures Enabled(Run(w, more), t, w.now)
  {
    hide Run, Step, Moving, Inv, Enabled, PortsUsable;
    CallThere(w, t, c);
    InvThere(w, t, c);
    var project := w.calls[c].row.project;
    var pre := CanPrime(w, project);
    var w1 := Run(w, pre);
    PrimedMoving(w, w1, project, t, c);
    Chooses(w1, t, c);
    CallThere(w1, t, c);
    AdvanceNow(w1, c);
    var rest := ChosenActivates(Step(w1, Advance(c, true)), t, c);
    rest := A.OneThen(w1, Advance(c, true), rest);
    more := pre + rest;
    D.RunSplit(w, pre, rest);
  }

  lemma AdvanceNow(w: World, c: nat)
    ensures Step(w, Advance(c, true)).now == w.now
  {
    hide RuleId, Pushes, BuildTargets, Listed, After, Exec;
  }

  lemma PreparingActivates(w: World, t: nat, c: nat) returns (more: seq<Event>)
    requires Moving(w, t, c) && Preparing(w.calls[c], t) && PortsUsable(w.db.tickets[t])
    ensures Enabled(Run(w, more), t, w.now)
  {
    hide Run, Step, Moving, Enabled, PortsUsable;
    CallThere(w, t, c);
    match w.calls[c] {
      case ApplyAgent(_, _, _) => more := ChosenActivates(w, t, c);
      case ApplyRow(_, _) => more := RowActivates(w, t, c);
      case ApplyAt(_) =>
        Reads(w, t, c);
        AdvanceNow(w, c);
        more := RowActivates(Step(w, Advance(c, true)), t, c);
        more := A.OneThen(w, Advance(c, true), more);
    }
  }

  /**
   * An approved ticket whose Apply has not built its commands yet can still become active if
   * and only if every one of its ports is one that an agent accepts; it is then enforced by
   * the agent it is bound to.
   */
  lemma CanActivateIff(now: int, srcPeerIPs: seq<string>, events: seq<Event>, t: nat, c: nat)
    requires
      var w := Reached(now, srcPeerIPs, events);
      t in w.db.tickets && w.db.tickets[t].status == Approved && c in w.calls && Preparing(w.calls[c], t)
    ensures
      var w := Reached(now, srcPeerIPs, events);
      && (PortsUsable(w.db.tickets[t]) ==> exists more {:trigger Run(w, more)} :: Enabled(Run(w, more), t, w.now))
      && ((exists more {:trigger Run(w, more)} :: t in Run(w, more).db.tickets && Run(w, more).db.tickets[t].status == Active)
          <==> PortsUsable(w.db.tickets[t]))
  {
    hide Run, Inv, PortsUsable, Applies, RuleId;
    var w := Reached(now, srcPeerIPs, events);
    RunKeeps(now, srcPeerIPs, events);
    if PortsUsable(w.db.tickets[t]) {
      var more := PreparingActivates(w, t, c);
      assert Enabled(Run(w, more), t, w.now);
    } else {
      forall more ensures !(t in Run(w, more).db.tickets && Run(w, more).db.tickets[t].status == Active) {
        UnusableNever(now, srcPeerIPs, events, more, t);
      }
    }
  }

  lemma UnusableNever(now: int, srcPeerIPs: seq<string>, events: seq<Event>, more: seq<Event>, t: nat)
    requires var w := Reached(now, srcPeerIPs, events); t in w.db.tickets && !PortsUsable(w.db.tickets[t])
    ensures var w' := Run(Reached(now, srcPeerIPs, events), more); !(t in w'.db.tickets && w'.db.tickets[t].status == Active)
  {
    hide Run;
    var w := Reached(now, srcPeerIPs, events);
    var port :| port in w.db.tickets[t].ports && port % 0x1_0000_0000 == 0;
    D.RunSplit(Start(now, srcPeerIPs), events, more);
    assert (events + more)[..|events|] == events;
    RunExtends(now, srcPeerIPs, events + more, |events|);
    var w' := Reached(now, srcPeerIPs, events + more);
    assert RowEvolves(w.db, w'.db, t);
    if w'.db.tickets[t].status == Active {
      P.ActivatedPortsAreUsable(now, srcPeerIPs, events + more, t, port);
      assert false;
    }
  }

  lemma ApproveBegins(w: World, t: nat, approver: int)
    requires t in w.db.tickets && w.db.tickets[t].status == Pending && w.db.tickets[t].requester != approver
    requires w.db.tickets[t].selector != [] && Listed(w.db.assets, w.db.tickets[t].selector) != []
    requires AllOwn(w.db.assets, w.db.tickets[t].selector, w.db.tickets[t].project)
    ensures
      var w' := Step(w, StartApprove(t, approver, true));
      && w'.now == w.now && t in w'.db.tickets
      && w'.db.tickets[t] == w.db.tickets[t].(approver := Some(approver), frozen := w.db.tickets[t].selector, status := Approved)
      && w.nextCall in w'.calls && w'.calls[w.nextCall] == ApplyAt(t)
  {
    hide Listed, AdvanceCall, AgentStep;
    var row := w.db.tickets[t];
    var assets := Listed(w.db.assets, row.selector);
    assert !exists i :: 0 <= i < |assets| && assets[i].project != row.project;
  }

  /**
   * Every pending ticket whose existing assets are all of its project and whose ports an agent
   * accepts can, in every reachable state, still be approved by anybody but its requester and
   * then become active, from that moment on for its duration.
   */
  lemma CanServe(now: int, srcPeerIPs: seq<string>, events: seq<Event>, t: nat, approver: int) returns (more: seq<Event>)
    requires
      var db := Reached(now, srcPeerIPs, events).db;
      && t in db.tickets
      && var row := db.tickets[t];
         && row.status == Pending && row.requester != approver && row.selector != [] && PortsUsable(row)
         && Listed(db.assets, row.selector) != [] && AllOwn(db.assets, row.selector, row.project)
    ensures var w := Reached(now, srcPeerIPs, events); Enabled(Run(w, more), t, w.now)
    ensures
      var w' := Run(Reached(now, srcPeerIPs, events), more);
      w'.db.tickets[t].approver == Some(approver)
  {
    hide Run, Step, Inv, Enabled, PortsUsable, Listed, AllOwn;
    var w := Reached(now, srcPeerIPs, events);
    RunKeeps(now, srcPeerIPs, events);
    var e := StartApprove(t, approver, true);
    ApproveBegins(w, t, approver);
    StepKeeps(w, e);
    var w1 := Step(w, e);
    SamePorts(w.db.tickets[t], w1.db.tickets[t]);
    var rest := PreparingActivates(w1, t, w.nextCall);
    more := A.OneThen(w, e, rest);
    ApproverStays(now, srcPeerIPs, events, e, rest, t);
  }

  lemma SamePorts(row: Ticket, row': Ticket)
    requires row'.ports == row.ports
    ensures PortsUsable(row') == PortsUsable(row)
  {
  }

  lemma ApproverStays(now: int, srcPeerIPs: seq<string>, events: seq<Event>, e: Event, rest: seq<Event>, t: nat)
    requires
      var w1 := Step(Reached(now, srcPeerIPs, events), e);
      t in w1.db.tickets && w1.db.tickets[t].status == Approved
    ensures
      var w1 := Step(Reached(now, srcPeerIPs, events), e);
      var w' := Run(w1, rest);
      t in w'.db.tickets && w'.db.tickets[t].approver == w1.db.tickets[t].approver
  {
    hide Run, Step;
    var first := events + [e];
    D.RunSnoc(Start(now, srcPeerIPs), events, e);
    FromStart(now, srcPeerIPs, events);
    FromStart(now, srcPeerIPs, first);
    FromStart(now, srcPeerIPs, first + rest);
    D.RunSplit(Start(now, srcPeerIPs), first, rest);
    assert (first + rest)[..|first|] == first;
    RunExtends(now, srcPeerIPs, first + rest, |first|);
    hide Reached;
    assert RowEvolves(Reached(now, srcPeerIPs, first).db, Reached(now, srcPeerIPs, first + rest).db, t);
  }

  // ---- being closed ----

  /** The agent loses its stream and opens a new one; what it enforces, tables and calls stay. */
  lemma Reconnects(w: World, agent: int) returns (more: seq<Event>)
    requires Inv(w)
    ensures
      var w' := Run(w, more);
      && Inv(w') && w' == w.(links := w'.links, procs := w'.procs, current := w.current[agent := |w.links|])
      && D.Quiet(w', agent, |w.links|)
  {
    hide Inv, Run, Step, D.Quiet;
    more := [StreamBreaks(agent), OpenStream(agent)];
    D.RunTwo(w, StreamBreaks(agent), OpenStream(agent));
    StreamReopens(w, agent);
    StepKeeps(w, StreamBreaks(agent));
    StepKeeps(Step(w, StreamBreaks(agent)), OpenStream(agent));
  }

  lemma StreamReopens(w: World, agent: int)
    ensures
      var w' := Step(Step(w, StreamBreaks(agent)), OpenStream(agent));
      && w' == w.(links := w'.links, procs := w'.procs, current := w.current[agent := |w.links|])
      && D.Quiet(w', agent, |w.links|)
  {
    hide AdvanceCall, BeginCall, After;
    var w' := Step(Step(w, StreamBreaks(agent)), OpenStream(agent));
    assert w'.links == w.links + [NewLink(agent)];
  }

  lemma RevokeBegins(w: World, t: nat)
    requires Inv(w) && t in w.db.tickets && w.db.tickets[t].status == Active
    ensures
      var w' := Step(w, StartRevoke(t, true));
      && t in w'.db.tickets && w'.db.tickets[t].status == Revoking && w'.db.bindings == w.db.bindings
      && w.nextCall in w'.calls && w'.calls[w.nextCall] == RevokeAt(t)
  {
    hide Inv, RuleId, AdvanceCall, AgentStep;
  }

  lemma RevokeBinds(w: World, c: nat, t: nat)
    requires c in w.calls && w.calls[c] == RevokeAt(t) && t in w.db.bindings
    ensures
      var b, w' := w.db.bindings[t], Step(w, Advance(c, true));
      && w' == w.(calls := w'.calls, past := w'.past)
      && w'.calls == w.calls[c := Connecting(ToRevoke(t), b.agent, [Revoke(b.ruleId)])]
  {
    hide RuleId, AdvanceGateway, AdvanceApply, AdvanceEnd, BeginCall, AgentStep;
  }

  lemma CloseStep(w: World, c: nat, t: nat)
    requires c in w.calls && w.calls[c].Succeeded? && w.calls[c].goal == ToRevoke(t)
    requires t in w.db.tickets && w.db.tickets[t].status == Revoking
    ensures
      var w' := Step(w, Advance(c, true));
      w'.procs == w.procs && t in w'.db.tickets && w'.db.tickets[t].status == Closed
  {
    hide RuleId, AdvanceApply, AdvanceRevoke, AdvanceGateway, BeginCall, AgentStep;
  }

  lemma RevokeObeyed(rules: Rules, rule: string, now: int)
    ensures Obey(rules, Revoke(rule), now, true, "p") == (rules - {rule}, Some(""))
  {
  }

  /** The revoke in progress steps the binding, is acked by the agent, and closes the ticket. */
  lemma RevokeCloses(w: World, c: nat, t: nat, agent: int, link: nat) returns (more: seq<Event>)
    requires c in w.calls && w.calls[c] == RevokeAt(t) && t in w.db.tickets && w.db.tickets[t].status == Revoking
    requires t in w.db.bindings && w.db.bindings[t].agent == agent && w.db.bindings[t].ruleId == RuleId(t)
    requires D.Quiet(w, agent, link) && agent in w.current && w.current[agent] == link
    ensures
      var w' := Run(w, more);
      && t in w'.db.tickets && w'.db.tickets[t].status == Closed && !L.Enforces(w', agent, RuleId(t))
  {
    hide Run, Step, RuleId, Obey;
    var goal, todo := ToRevoke(t), [Revoke(RuleId(t))];
    RevokeBinds(w, c, t);
    var w1 := Step(w, Advance(c, true));
    F.CallConnects(w1, c, goal, agent, todo);
    var w2 := Step(w1, Advance(c, true));
    var steps := [Advance(c, true), Advance(c, true)];
    D.RunTwo(w, Advance(c, true), Advance(c, true));
    RevokeObeyed(w2.procs[agent].rules, RuleId(t), w2.now);
    D.PushDrives(w2, c, agent, link, goal, todo, None, "p");
    var push := D.PushOne(c, agent, link, "p");
    var w3 := Run(w2, push);
    assert todo[1..] == [];
    SendingDone(w3, c, goal, link);
    CloseStep(Step(w3, Advance(c, true)), c, t);
    D.RunTwo(w3, Advance(c, true), Advance(c, true));
    more := steps + push + steps;
    D.RunSplit(w, steps, push);
    D.RunSplit(w, steps + push, steps);
  }

  /**
   * Every active ticket, in every reachable state, can still be closed for good: some
   * continuation revokes it, is acked, and leaves its rule on no agent.
   */
  lemma CanClose(now: int, srcPeerIPs: seq<string>, events: seq<Event>, t: nat) returns (more: seq<Event>)
    requires var w := Reached(now, srcPeerIPs, events); t in w.db.tickets && w.db.tickets[t].status == Active
    ensures
      var w' := Run(Reached(now, srcPeerIPs, events), more);
      && t in w'.db.tickets && w'.db.tickets[t].status == Closed
      && forall agent :: !L.Enforces(w', agent, RuleId(t))
  {
    hide Run, Step, RuleId, Inv, L.Enforces, D.Quiet, HistoryInv, TablesInv;
    var w := Reached(now, srcPeerIPs, events);
    RunKeeps(now, srcPeerIPs, events);
    RevokeBegins(w, t);
    var begin := StartRevoke(t, true);
    var w1 := Step(w, begin);
    StepKeeps(w, begin);
    BoundThere(w1, t);
    var agent := w1.db.bindings[t].agent;
    var again := Reconnects(w1, agent);
    var w2 := Run(w1, again);
    var rest := RevokeCloses(w2, w.nextCall, t, agent, |w1.links|);
    D.RunSplit(w1, again, rest);
    more := A.OneThen(w, begin, again + rest);
    var w' := Run(w, more);
    D.RunSplit(Start(now, srcPeerIPs), events, more);
    RunKeeps(now, srcPeerIPs, events + more);
    BoundThere(w', t);
    SameBinding(w, w', now, srcPeerIPs, events, more, t);
    forall a ensures !L.Enforces(w', a, RuleId(t)) {
      if L.Enforces(w', a, RuleId(t)) {
        L.EnforcedByGranted(w', a, t);
      }
    }
  }

  /** An enforced ticket is bound, under its rule, to the agent of its grant. */
  lemma BoundThere(w: World, t: nat)
    requires Inv(w) && t in w.db.tickets && Enforced(w.db.tickets[t].status)
    ensures t in w.db.bindings && w.db.bindings[t].ruleId == RuleId(t)
    ensures t in w.past.grants && w.db.bindings[t].agent == w.past.grants[t].agent
  {
    hide Inv, RuleId;
    HistoryHere(w);
    RowHere(w, t);
    BindingHere(w, t);
  }

  lemma SameBinding(w: World, w': World, now: int, srcPeerIPs: seq<string>, events: seq<Event>, more: seq<Event>, t: nat)
    requires w == Reached(now, srcPeerIPs, events) && w' == Reached(now, srcPeerIPs, events + more)
    requires t in w.db.bindings
    ensures t in w'.db.bindings && w'.db.bindings[t] == w.db.bindings[t]
  {
    hide Run, RowEvolves;
    assert (events + more)[..|events|] == events;
    RunExtends(now, srcPeerIPs, events + more, |events|);
  }
}
