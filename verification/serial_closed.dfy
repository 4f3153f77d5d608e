/** In serial runs a closed ticket is enforced nowhere. */
module SerialClosed {
  import opened Wrappers
  import opened RuleIds
  import opened Store
  import opened Forwarding
  import opened Gateways
  import opened EngineSpec
  import opened SerialRuns
  import opened SerialProofs

  predicate ClosedTicket(db: Db, id: nat) {
    id in db.tickets && db.tickets[id].status == Closed
  }

  ghost predicate NoneClosed(s: Sys) {
    forall a, r :: a in s.net.peers && r in s.net.peers[a].rules ==> !ClosedTicket(s.db, TicketOf(r))
  }

  ghost predicate Gone(net: Net, rule: string) {
    forall a :: a in net.peers ==> rule !in net.peers[a].rules
  }

  /** Every entry of the later network was there before, but for those under one rule. */
  ghost predicate AddsOnly(net: Net, net': Net, rule: string) {
    forall a, r :: a in net'.peers && r in net'.peers[a].rules && r != rule ==> a in net.peers && r in net.peers[a].rules
  }

  ghost predicate AddsNone(net: Net, net': Net) {
    forall a, r :: a in net'.peers && r in net'.peers[a].rules ==> a in net.peers && r in net.peers[a].rules
  }

  lemma OnlyFinishCloses(db: Db, txn: Txn, commits: bool, k: nat)
    requires ClosedTicket(After(db, txn, commits), k) && !(txn.FinishRevoke? && txn.id == k)
    requires db.next !in db.tickets
    ensures ClosedTicket(db, k)
  {
    hide Listed;
    if k != Subject(db, txn) {
      OtherRows(db, txn, commits, k);
    }
  }

  lemma FreshNext(s: Sys, env: Env)
    requires Inv(s, env)
    ensures s.db.next !in s.db.tickets
  {
    hide Audited, Granting, Enforcing, Coherent, Tidy, TicketInv;
  }

  lemma TransactClosed(s: Sys, env: Env, txn: Txn)
    requires NoneClosed(s) && Inv(s, env) && (txn.FinishRevoke? ==> Gone(s.net, RuleId(txn.id)))
    ensures NoneClosed(Transact(s, env, txn).0)
  {
    hide Inv, After, RuleId, TicketOf;
    FreshNext(s, env);
    var s' := Transact(s, env, txn).0;
    forall a, r | a in s'.net.peers && r in s'.net.peers[a].rules ensures !ClosedTicket(s'.db, TicketOf(r)) {
      if ClosedTicket(s'.db, TicketOf(r)) {
        EntryIsNamed(s, env, a, r);
        OnlyFinishCloses(s.db, txn, env.commits(s.txs), TicketOf(r));
        assert false;
      }
    }
  }

  lemma EntryIsNamed(s: Sys, env: Env, a: int, r: string)
    requires Inv(s, env) && a in s.net.peers && r in s.net.peers[a].rules
    ensures r == RuleId(TicketOf(r))
  {
    hide TablesInv, Audited, Granting, Coherent, Tidy, RuleId, TicketOf, Granted;
    assert EntryOk(s, env, a, r);
    var id: nat :| r == RuleId(id) && Granted(s, env, a, s.net.peers[a].rules[r], id);
    TicketOfRuleId(id);
  }

  // ---- the gateway ----

  lemma {:induction false} PushEachAdds(net: Net, env: Env, agent: int, rule: string, targets: seq<Target>,
                                        expires: Option<int>, sessions: set<nat>, addr: string)
    requires agent in net.peers
    ensures AddsOnly(net, PushEach(net, env, agent, rule, targets, expires, sessions, addr).0, rule)
    decreases |targets|
  {
    if targets != [] {
      var (net1, answer) := Exchange(net, env, agent, Apply(rule, env.Sources(), OnWire(targets[0]), expires), sessions);
      assert AddsOnly(net, net1, rule);
      if answer.Some? {
        hide Exchange;
        PushEachAdds(net1, env, agent, rule, targets[1..], expires, sessions,
                     if addr == "" && answer.value != "" then answer.value else addr);
      }
    }
  }

  lemma PushAdds(net: Net, env: Env, agent: int, rule: string, targets: seq<Target>, expires: Option<int>, sessions: set<nat>)
    ensures AddsOnly(net, Push(net, env, agent, rule, targets, expires, sessions).0, rule)
  {
    if Connected(net, agent) {
      PushEachAdds(net, env, agent, rule, targets, expires, sessions, "");
    }
  }

  lemma PullAdds(net: Net, env: Env, agent: int, rule: string, sessions: set<nat>)
    ensures AddsNone(net, Pull(net, env, agent, rule, sessions).0)
    ensures Pull(net, env, agent, rule, sessions).1.Some? ==>
      var net' := Pull(net, env, agent, rule, sessions).0; agent in net'.peers && rule !in net'.peers[agent].rules
  {
  }

  lemma PushClosed(s: Sys, s': Sys, env: Env, id: nat)
    requires NoneClosed(s) && s'.db == s.db && AddsOnly(s.net, s'.net, RuleId(id)) && !ClosedTicket(s.db, id)
    ensures NoneClosed(s')
  {
    hide RuleId, TicketOf;
    TicketOfRuleId(id);
  }

  // ---- the calls ----

  lemma ApplyClosed(s: Sys, env: Env, id: nat)
    requires NoneClosed(s) && Inv(s, env) && PortsNamed(env) && id !in s.grants
    ensures NoneClosed(ApplyCall(s, env, id).0)
  {
    hide Inv, Push, RuleId, TicketOf, NoneClosed, AddsOnly, Transact, TargetsOf;
    if id in s.db.tickets && s.db.tickets[id].status == Approved && PrimaryOf(s.db, s.db.tickets[id].project).Some? {
      var t := s.db.tickets[id];
      var agent := PrimaryOf(s.db, t.project).value;
      var targets, expires := TargetsOf(s.db, t), s.net.now + t.duration;
      var s1 := s.(grants := s.grants[id := Grant(agent, targets, s.net.now, expires)]);
      GrantKeeps(s, env, id, agent);
      PushKeeps(s1, env, id, agent, targets, Some(expires));
      PushAdds(s.net, env, agent, RuleId(id), targets, Some(expires), s.sessions);
      var (net, forward) := Push(s.net, env, agent, RuleId(id), targets, Some(expires), s.sessions);
      var s2 := s1.(net := net);
      PushClosed(s, s2, env, id);
      if forward.None? {
        TransactClosed(s2, env, FailApply(id));
      } else {
        var s3 := s2.(forwards := s2.forwards[id := forward.value]);
        CachedForGranted(s2, env, id, forward.value);
        SameEntries(s2, s3);
        TransactClosed(s3, env, Activate(id, agent, expires));
      }
    }
  }

  lemma SameEntries(s: Sys, s': Sys)
    requires NoneClosed(s) && s'.db == s.db && AddsNone(s.net, s'.net)
    ensures NoneClosed(s')
  {
  }

  lemma ApproveClosed(s: Sys, env: Env, id: nat, approver: int)
    requires NoneClosed(s) && Inv(s, env) && PortsNamed(env)
    ensures NoneClosed(ApproveCall(s, env, id, approver).0)
  {
    hide Inv, NoneClosed, ApplyCall, Transact;
    TransactKeeps(s, env, Approve(id, approver));
    TransactClosed(s, env, Approve(id, approver));
    if Transact(s, env, Approve(id, approver)).1.None? {
      PendingNotGranted(s, env, id, approver);
      ApplyClosed(Transact(s, env, Approve(id, approver)).0, env, id);
    }
  }

  /** A ticket's rule can only be at the agent of its binding. */
  lemma OnlyAtBound(s: Sys, env: Env, id: nat, a: int)
    requires Inv(s, env) && id in s.db.tickets && id in s.db.bindings && Enforced(s.db.tickets[id].status)
    requires a in s.net.peers && RuleId(id) in s.net.peers[a].rules
    ensures a == s.db.bindings[id].agent
  {
    hide TablesInv, Audited, RuleId, Coherent, Tidy;
    EntryOfTicket(s, env, a, id);
    assert RowOk(s, id);
  }

  /** A revoke acked by the bound agent leaves the ticket's rule on no agent. */
  lemma PulledIsGone(s: Sys, env: Env, id: nat)
    requires Inv(s, env) && id in s.db.tickets && s.db.tickets[id].status == Revoking && id in s.db.bindings && id !in s.sessions
    requires Pull(s.net, env, s.db.bindings[id].agent, RuleId(id), s.sessions).1.Some?
    ensures Gone(Pull(s.net, env, s.db.bindings[id].agent, RuleId(id), s.sessions).0, RuleId(id))
  {
    hide Inv, Pull, RuleId;
    var agent := s.db.bindings[id].agent;
    var net := Pull(s.net, env, agent, RuleId(id), s.sessions).0;
    PullAdds(s.net, env, agent, RuleId(id), s.sessions);
    forall a | a in net.peers ensures RuleId(id) !in net.peers[a].rules {
      if RuleId(id) in net.peers[a].rules {
        OnlyAtBound(s, env, id, a);
        assert false;
      }
    }
  }

  /** The states a revoke goes through before its last transaction. */
  lemma RevokeStages(s: Sys, env: Env, id: nat) returns (s2: Sys)
    requires Inv(s, env) && NoneClosed(s) && Transact(s, env, BeginRevoke(id)).1.None?
    ensures s2 == Transact(s, env, BeginRevoke(id)).0.(sessions := Transact(s, env, BeginRevoke(id)).0.sessions - {id})
    ensures Inv(s2, env) && NoneClosed(s2) && id !in s2.sessions
    ensures id in s2.db.tickets && s2.db.tickets[id].status == Revoking
    ensures id in s2.db.bindings && s2.db.bindings[id].ruleId == RuleId(id)
  {
    hide Inv, RuleId, NoneClosed, Transact;
    TransactKeeps(s, env, BeginRevoke(id));
    TransactClosed(s, env, BeginRevoke(id));
    BegunRevoke(s, env, id);
    var s1 := Transact(s, env, BeginRevoke(id)).0;
    s2 := s1.(sessions := s1.sessions - {id});
    SessionsKeep(s1, env, s2.sessions);
    SameEntries(s1, s2);
    RevokingIsBound(s2, env, id);
  }

  lemma RevokingIsBound(s: Sys, env: Env, id: nat)
    requires Inv(s, env) && id in s.db.tickets && Enforced(s.db.tickets[id].status)
    ensures id in s.db.bindings && s.db.bindings[id].ruleId == RuleId(id)
  {
    hide TablesInv, Audited, RuleId, Coherent, Tidy, Enforcing;
    assert RowOk(s, id);
    BindingOf(s, env, id);
  }

  lemma RevokeClosed(s: Sys, env: Env, id: nat)
    requires NoneClosed(s) && Inv(s, env)
    ensures NoneClosed(RevokeCall(s, env, id).0)
    ensures RevokeCall(s, env, id).1.None? ==> Gone(RevokeCall(s, env, id).0.net, RuleId(id))
  {
    hide Inv, RuleId, NoneClosed, Gone, Pull, Transact;
    if Transact(s, env, BeginRevoke(id)).1.None? {
      var s2 := RevokeStages(s, env, id);
      var agent := s2.db.bindings[id].agent;
      var (net, answer) := Pull(s2.net, env, agent, RuleId(id), s2.sessions);
      var s3 := s2.(net := net);
      PullKeeps(s2, env, id, agent);
      PullAdds(s2.net, env, agent, RuleId(id), s2.sessions);
      SameEntries(s2, s3);
      if answer.None? {
        TransactClosed(s3, env, DeferRevoke(id));
      } else {
        PulledIsGone(s2, env, id);
        FinishClosed(s3, env, id);
      }
    } else {
      TransactClosed(s, env, BeginRevoke(id));
    }
  }

  lemma FinishClosed(s: Sys, env: Env, id: nat)
    requires NoneClosed(s) && Inv(s, env) && Gone(s.net, RuleId(id))
    ensures NoneClosed(Finish(s, env, id).0) && Finish(s, env, id).0.net == s.net
  {
    hide TablesInv, Audited, RuleId, TargetsOf, NoneClosed, Gone, After;
    var s1 := s.(forwards := s.forwards - {id});
    forall k | k in s1.db.tickets ensures CacheOk(s1, k) {
      assert CacheOk(s, k);
    }
    CacheChanged(s, s1, env);
    SameEntries(s, s1);
    hide Inv;
    TransactClosed(s1, env, FinishRevoke(id));
  }

  lemma {:induction false} RevokeEachClosed(s: Sys, env: Env, ids: seq<nat>)
    requires NoneClosed(s) && Inv(s, env)
    ensures NoneClosed(RevokeEach(s, env, ids).0)
    decreases |ids|
  {
    hide Inv, RevokeCall, NoneClosed;
    if ids != [] {
      RevokeKeeps(s, env, ids[0]);
      RevokeClosed(s, env, ids[0]);
      RevokeEachClosed(RevokeCall(s, env, ids[0]).0, env, ids[1..]);
    }
  }

  lemma RebuildOneClosed(s: Sys, env: Env, id: nat)
    requires NoneClosed(s) && Inv(s, env) && id in s.db.tickets && LiveAt(s.db.tickets[id], s.net.now)
    ensures NoneClosed(RebuildOne(s, env, id).0)
  {
    hide Inv, Push, RuleId, TicketOf, NoneClosed, AddsOnly, TargetsOf;
    if id !in s.forwards {
      ReapplyPushes(s, env, id);
      PushAdds(s.net, env, s.db.bindings[id].agent, RuleId(id), TargetsOf(s.db, s.db.tickets[id]), s.db.tickets[id].expires, s.sessions);
      PushClosed(s, RebuildOne(s, env, id).0, env, id);
    }
  }

  lemma {:induction false} RebuildEachClosed(s: Sys, env: Env, ids: seq<nat>)
    requires NoneClosed(s) && Inv(s, env) && PortsNamed(env)
    requires forall i :: 0 <= i < |ids| ==> ids[i] in s.db.tickets && LiveAt(s.db.tickets[ids[i]], s.net.now)
    ensures NoneClosed(RebuildEach(s, env, ids).0)
    decreases |ids|
  {
    hide Inv, RebuildOne, NoneClosed;
    if ids != [] {
      RebuildOneKeeps(s, env, ids[0]);
      RebuildOneTables(s, env, ids[0]);
      RebuildOneClosed(s, env, ids[0]);
      RebuildEachClosed(RebuildOne(s, env, ids[0]).0, env, ids[1..]);
    }
  }

  lemma RebuildClosed(s: Sys, env: Env)
    requires NoneClosed(s) && Inv(s, env) && PortsNamed(env)
    ensures NoneClosed(RebuildCall(s, env).0)
  {
    hide Inv, NoneClosed;
    IdsLive(s.db, s.net.now);
    IdsListed(s.db, s.net.now, false, s.db.next);
    RebuildEachClosed(s, env, Ids(s.db, s.net.now, false, s.db.next));
  }

  lemma EnvironmentClosed(s: Sys, env: Env, e: Event)
    requires NoneClosed(s)
    requires e.ServerRestart? || e.AgentRestart? || e.AgentUp? || e.AgentDown? || e.Wait? || e.OpenShell? || e.DropShell?
    ensures NoneClosed(Step(s, env, e))
  {
    hide TicketOf;
    SameEntries(s, Step(s, env, e));
  }

  lemma StepClosed(s: Sys, env: Env, e: Event)
    requires NoneClosed(s) && Inv(s, env) && PortsNamed(env)
    ensures NoneClosed(Step(s, env, e))
  {
    hide Inv, NoneClosed, Transact, ApproveCall, RevokeCall, RevokeEach;
    match e {
      case OnSubmit(input) => TransactClosed(s, env, Submit(input));
      case OnApprove(id, approver) => ApproveClosed(s, env, id, approver);
      case OnReject(id, approver) => TransactClosed(s, env, Reject(id, approver));
      case OnRevoke(id) => RevokeClosed(s, env, id);
      case OnExpireDue => RevokeEachClosed(s, env, Ids(s.db, s.net.now, true, s.db.next));
      case OnRebuild => RebuildClosed(s, env);
      case OnReconnect(agent) =>
        ClearedKeeps(s, env, agent);
        SameEntries(s, Cleared(s, agent));
        RebuildClosed(Cleared(s, agent), env);
      case CatalogChange(txn) => if OfCatalog(txn) { TransactClosed(s, env, txn); }
      case _ => EnvironmentClosed(s, env, e);
    }
  }

  lemma {:induction false} RunClosed(now: int, env: Env, events: seq<Event>)
    requires PortsNamed(env)
    ensures NoneClosed(Run(now, env, events))
  {
    if events != [] {
      hide Inv, NoneClosed, Step;
      RunClosed(now, env, events[..|events| - 1]);
      RunKeeps(now, env, events[..|events| - 1]);
      StepClosed(Run(now, env, events[..|events| - 1]), env, events[|events| - 1]);
    }
  }

  /** In every serial run, no agent has an entry, and so no listener, for a closed ticket. */
  lemma ClosedIsEnforcedNowhere(now: int, env: Env, events: seq<Event>, id: nat, agent: int)
    requires PortsNamed(env)
    requires var s := Run(now, env, events); id in s.db.tickets && s.db.tickets[id].status == Closed && agent in s.net.peers
    ensures RuleId(id) !in Run(now, env, events).net.peers[agent].rules
  {
    hide RuleId, TicketOf;
    RunClosed(now, env, events);
    TicketOfRuleId(id);
  }
}
