/** Every serial run keeps the invariant of SerialRuns. */
module SerialProofs {
  import opened Wrappers
  import opened RuleIds
  import opened Store
  import opened Forwarding
  import opened Gateways
  import opened EngineSpec
  import opened SerialRuns

  // ---- one transaction ----

  lemma OnlyActivateEnforces(db: Db, txn: Txn, commits: bool, id: nat)
    requires TablesInv(db) && !txn.Activate?
    requires id in After(db, txn, commits).tickets
    ensures Enforced(After(db, txn, commits).tickets[id].status) ==>
      id in db.tickets && Enforced(db.tickets[id].status)
    ensures After(db, txn, commits).tickets[id].status == Active ==>
      id in db.tickets && db.tickets[id].status == Active
  {
    hide Listed, TicketInv, Exec;
    if commits && Exec(db, txn).Success? {
      OthersDoNotEnforce(db, txn, id);
    }
  }

  lemma OthersDoNotEnforce(db: Db, txn: Txn, id: nat)
    requires !txn.Activate? && Exec(db, txn).Success? && id in Exec(db, txn).value.tickets
    ensures var t := Exec(db, txn).value.tickets[id];
      && (Enforced(t.status) ==> id in db.tickets && Enforced(db.tickets[id].status))
      && (t.status == Active ==> id in db.tickets && db.tickets[id].status == Active)
  {
    hide Listed;
    match txn {
      case Submit(_) =>
      case Approve(_, _) =>
      case Reject(_, _) =>
      case FailApply(_) =>
      case BeginRevoke(_) =>
      case FinishRevoke(_) =>
      case DeferRevoke(_) =>
      case AddProject(_) | AddAsset(_) | AddPrimary(_, _) | Enroll(_, _) =>
    }
  }

  lemma TransactKeeps(s: Sys, env: Env, txn: Txn)
    requires Inv(s, env) && !txn.Activate?
    ensures Inv(Transact(s, env, txn).0, env)
  {
    hide Exec, TablesInv, Audited, RowEvolves, TargetsOf, Replay;
    var s' := Transact(s, env, txn).0;
    TxnKeeps(s.db, txn, env.commits(s.txs));
    forall id | id in s'.grants ensures GrantOk(s', id) {
      assert GrantOk(s, id);
      RowsKept(s.db, s'.db, id);
    }
    forall id | id in s'.db.tickets ensures RowOk(s', id) && CacheOk(s', id) {
      OnlyActivateEnforces(s.db, txn, env.commits(s.txs), id);
      if id in s.db.tickets {
        assert RowOk(s, id) && CacheOk(s, id);
        RowsKept(s.db, s'.db, id);
        if Enforced(s.db.tickets[id].status) {
          BindingKept(s.db, s'.db, id);
        }
      }
    }
    SameNet(s, s', env);
  }

  lemma RowsKept(db: Db, db': Db, id: nat)
    requires Evolves(db, db') && id in db.tickets
    ensures id in db'.tickets
    ensures WasApproved(db.tickets[id].status) ==>
      WasApproved(db'.tickets[id].status) && TargetsOf(db, db.tickets[id]) <= TargetsOf(db', db'.tickets[id])
    ensures db.tickets[id].expires.Some? ==> db'.tickets[id].expires == db.tickets[id].expires
    ensures db'.tickets[id].duration == db.tickets[id].duration
  {
    hide Listed;
    assert RowEvolves(db, db', id);
    if WasApproved(db.tickets[id].status) {
      TargetsOnlyExtended(db, db', id);
    }
  }

  lemma BindingKept(db: Db, db': Db, id: nat)
    requires Evolves(db, db') && TablesInv(db) && id in db.tickets && Enforced(db.tickets[id].status)
    ensures id in db.bindings && id in db'.bindings && db'.bindings[id] == db.bindings[id]
  {
    hide Listed, ApprovalInv;
    assert TicketInv(db, id);
  }

  /** Entries and sent commands do not depend on the tables, the cache or the sessions. */
  lemma SameNet(s: Sys, s': Sys, env: Env)
    requires s'.net == s.net
    requires forall id :: id in s.grants ==> id in s'.grants && s'.grants[id] == s.grants[id]
    requires Enforcing(s, env) && Tidy(s)
    ensures Enforcing(s', env) && Tidy(s')
  {
    forall a, r | a in s'.net.peers && r in s'.net.peers[a].rules ensures EntryOk(s', env, a, r) {
      assert EntryOk(s, env, a, r);
      var id: nat :| r == RuleId(id) && Granted(s, env, a, s.net.peers[a].rules[r], id);
      assert Granted(s', env, a, s'.net.peers[a].rules[r], id);
    }
    forall i | 0 <= i < |s'.net.sent| ensures SentOk(s', i) {
      assert SentOk(s, i);
    }
  }

  // ---- the gateway ----

  /** The entry under a ticket's rule id is that ticket's. */
  lemma EntryOfTicket(s: Sys, env: Env, agent: int, id: nat)
    requires Enforcing(s, env) && agent in s.net.peers && RuleId(id) in s.net.peers[agent].rules
    ensures Granted(s, env, agent, s.net.peers[agent].rules[RuleId(id)], id)
  {
    assert EntryOk(s, env, agent, RuleId(id));
    var other: nat :| RuleId(id) == RuleId(other) && Granted(s, env, agent, s.net.peers[agent].rules[RuleId(id)], other);
    RuleIdInjective(id, other);
  }

  lemma {:induction false} PushEachSends(net: Net, env: Env, agent: int, rule: string, targets: seq<Target>,
                                         expires: Option<int>, sessions: set<nat>, addr: string)
    requires agent in net.peers
    ensures var net' := PushEach(net, env, agent, rule, targets, expires, sessions, addr).0;
      net.sent <= net'.sent && forall i :: |net.sent| <= i < |net'.sent| ==> net'.sent[i].cmd.Apply?
    decreases |targets|
  {
    if targets != [] {
      var (net1, answer) := Exchange(net, env, agent, Apply(rule, env.Sources(), OnWire(targets[0]), expires), sessions);
      if answer.Some? {
        var addr1 := if addr == "" && answer.value != "" then answer.value else addr;
        PushEachSends(net1, env, agent, rule, targets[1..], expires, sessions, addr1);
      }
    }
  }

  /** What a call that pushes the rule of a granted ticket must pass. */
  ghost predicate Pushable(s: Sys, id: nat, agent: int, targets: seq<Target>, expires: Option<int>) {
    && id in s.grants && s.grants[id].agent == agent && s.grants[id].targets != []
    && targets != [] && targets[0] == s.grants[id].targets[0]
    && expires == Some(s.grants[id].expires) && s.net.now < s.grants[id].expires
  }

  lemma NamedEntries(s: Sys, env: Env, agent: int)
    requires Enforcing(s, env) && agent in s.net.peers
    ensures Named(s.net.peers[agent].rules)
  {
    forall r | r in s.net.peers[agent].rules ensures s.net.peers[agent].rules[r].addr != "" {
      assert EntryOk(s, env, agent, r);
    }
  }

  /** The network changed at one agent and one rule only; `id` is the ticket of that rule. */
  ghost predicate OneRuleChanged(s: Sys, s': Sys, agent: int, id: nat) {
    && s' == s.(net := s'.net) && s'.net.now == s.net.now && s'.net.peers.Keys == s.net.peers.Keys
    && agent in s.net.peers
    && (forall a :: a in s.net.peers && a != agent ==> s'.net.peers[a] == s.net.peers[a])
    && SameButRule(s.net.peers[agent].rules, s'.net.peers[agent].rules, RuleId(id))
    && s.net.sent <= s'.net.sent
  }

  lemma OneRuleKeeps(s: Sys, s': Sys, env: Env, agent: int, id: nat)
    requires Inv(s, env) && OneRuleChanged(s, s', agent, id)
    requires RuleId(id) in s'.net.peers[agent].rules ==> EntryOk(s', env, agent, RuleId(id))
    requires id in s.db.tickets ==> CacheOk(s', id)
    requires forall i :: |s.net.sent| <= i < |s'.net.sent| ==> SentOk(s', i)
    ensures Inv(s', env)
  {
    hide TablesInv, Audited, TargetsOf, RuleId;
    forall a, r | a in s'.net.peers && r in s'.net.peers[a].rules ensures EntryOk(s', env, a, r) {
      if a != agent || r != RuleId(id) {
        assert EntryOk(s, env, a, r);
        var k: nat :| r == RuleId(k) && Granted(s, env, a, s.net.peers[a].rules[r], k);
        assert Granted(s', env, a, s'.net.peers[a].rules[r], k);
      }
    }
    forall k | k in s.db.tickets ensures CacheOk(s', k) {
      assert CacheOk(s, k);
      if RuleId(k) == RuleId(id) {
        RuleIdInjective(k, id);
      }
    }
    forall i | 0 <= i < |s'.net.sent| ensures SentOk(s', i) {
      if i < |s.net.sent| {
        assert SentOk(s, i) && s'.net.sent[i] == s.net.sent[i];
      }
    }
    GrantsKept(s, s');
  }

  lemma GrantsKept(s: Sys, s': Sys)
    requires Granting(s) && s'.db == s.db && s'.grants == s.grants && s.net.now <= s'.net.now
    ensures Granting(s')
  {
    hide TargetsOf;
    forall k | k in s.grants ensures GrantOk(s', k) {
      assert GrantOk(s, k);
    }
    forall k | k in s.db.tickets ensures RowOk(s', k) {
      assert RowOk(s, k);
    }
  }

  lemma PushKeeps(s: Sys, env: Env, id: nat, agent: int, targets: seq<Target>, expires: Option<int>)
    requires Inv(s, env) && PortsNamed(env) && Pushable(s, id, agent, targets, expires)
    ensures
      var (net, forward) := Push(s.net, env, agent, RuleId(id), targets, expires, s.sessions);
      && Inv(s.(net := net), env) && net.now == s.net.now
      && (forward.Some? ==> agent in net.peers && RuleId(id) in net.peers[agent].rules
                            && net.peers[agent].rules[RuleId(id)].addr == forward.value)
  {
    hide TablesInv, Audited, TargetsOf, RuleId, PushEach, CacheOk, EntryOk, SentOk, GrantOk, RowOk;
    if Connected(s.net, agent) {
      NamedEntries(s, env, agent);
      PushEachOutcome(s.net, env, agent, RuleId(id), targets, expires, s.sessions, "");
      PushEachSends(s.net, env, agent, RuleId(id), targets, expires, s.sessions, "");
      var (net, forward) := Push(s.net, env, agent, RuleId(id), targets, expires, s.sessions);
      var s' := s.(net := net);
      PushedEntry(s, s', env, id, agent, targets, expires);
      OneRuleKeeps(s, s', env, agent, id);
    }
  }

  lemma PushedEntry(s: Sys, s': Sys, env: Env, id: nat, agent: int, targets: seq<Target>, expires: Option<int>)
    requires Inv(s, env) && Pushable(s, id, agent, targets, expires) && OneRuleChanged(s, s', agent, id)
    requires Named(s'.net.peers[agent].rules)
    requires RuleId(id) in s.net.peers[agent].rules ==>
      RuleId(id) in s'.net.peers[agent].rules && s'.net.peers[agent].rules[RuleId(id)] == s.net.peers[agent].rules[RuleId(id)]
    requires RuleId(id) in s'.net.peers[agent].rules && RuleId(id) !in s.net.peers[agent].rules ==>
      var e := s'.net.peers[agent].rules[RuleId(id)];
      e == Created(env, targets[0], expires, s.net.now, e.addr)
    requires forall i :: |s.net.sent| <= i < |s'.net.sent| ==> s'.net.sent[i].cmd.Apply?
    ensures RuleId(id) in s'.net.peers[agent].rules ==> EntryOk(s', env, agent, RuleId(id))
    ensures id in s.db.tickets ==> CacheOk(s', id)
    ensures forall i :: |s.net.sent| <= i < |s'.net.sent| ==> SentOk(s', i)
  {
    hide TablesInv, Audited, TargetsOf, RuleId;
    if RuleId(id) in s.net.peers[agent].rules {
      EntryOfTicket(s, env, agent, id);
    }
    if RuleId(id) in s'.net.peers[agent].rules {
      assert Granted(s', env, agent, s'.net.peers[agent].rules[RuleId(id)], id);
    }
    if id in s.db.tickets {
      assert CacheOk(s, id);
    }
  }

  lemma OneRevokeSent(s: Sys, i: nat, id: nat)
    requires i < |s.net.sent| && s.net.sent[i].cmd == Revoke(RuleId(id)) && id !in s.net.sent[i].sessions
    ensures SentOk(s, i)
  {
    hide RuleId;
    forall k: nat | s.net.sent[i].cmd == Revoke(RuleId(k)) ensures k !in s.net.sent[i].sessions {
      RuleIdInjective(k, id);
    }
  }

  /** A revoke changes one rule at one agent, and if the rule is still there afterwards its entry is the old one. */
  lemma PullOutcome(s: Sys, env: Env, id: nat, agent: int)
    requires Connected(s.net, agent)
    ensures
      var (net, answer) := Pull(s.net, env, agent, RuleId(id), s.sessions);
      && OneRuleChanged(s, s.(net := net), agent, id)
      && net.sent == s.net.sent + [Sent(agent, Revoke(RuleId(id)), s.sessions)]
      && (RuleId(id) in net.peers[agent].rules ==>
            RuleId(id) in s.net.peers[agent].rules && net.peers[agent].rules[RuleId(id)] == s.net.peers[agent].rules[RuleId(id)])
  {
    hide RuleId;
  }

  lemma StillGranted(s: Sys, s': Sys, env: Env, agent: int, id: nat)
    requires Enforcing(s, env) && OneRuleChanged(s, s', agent, id)
    requires RuleId(id) in s.net.peers[agent].rules && RuleId(id) in s'.net.peers[agent].rules
    requires s'.net.peers[agent].rules[RuleId(id)] == s.net.peers[agent].rules[RuleId(id)]
    ensures EntryOk(s', env, agent, RuleId(id))
  {
    hide RuleId;
    EntryOfTicket(s, env, agent, id);
    assert Granted(s', env, agent, s'.net.peers[agent].rules[RuleId(id)], id);
  }

  lemma PullKeeps(s: Sys, env: Env, id: nat, agent: int)
    requires Inv(s, env) && id !in s.sessions
    requires id in s.db.tickets && s.db.tickets[id].status != Active
    ensures
      var (net, answer) := Pull(s.net, env, agent, RuleId(id), s.sessions);
      Inv(s.(net := net), env) && net.now == s.net.now
  {
    hide TablesInv, Audited, TargetsOf, RuleId, Pull, EntryOk, SentOk, Granting, Coherent, Tidy;
    if Connected(s.net, agent) {
      PullOutcome(s, env, id, agent);
      var (net, answer) := Pull(s.net, env, agent, RuleId(id), s.sessions);
      var s' := s.(net := net);
      if RuleId(id) in net.peers[agent].rules {
        StillGranted(s, s', env, agent, id);
      }
      forall i | |s.net.sent| <= i < |net.sent| ensures SentOk(s', i) {
        OneRevokeSent(s', i, id);
      }
      OneRuleKeeps(s, s', env, agent, id);
    } else {
      NothingPulled(s, env, id, agent);
    }
  }

  lemma NothingPulled(s: Sys, env: Env, id: nat, agent: int)
    requires !Connected(s.net, agent)
    ensures s.(net := Pull(s.net, env, agent, RuleId(id), s.sessions).0) == s
  {
  }

  /** Changing the cache or the sessions keeps the invariant when the changed keys are right. */
  lemma CacheChanged(s: Sys, s': Sys, env: Env)
    requires Inv(s, env)
    requires s'.net == s.net && s'.db == s.db && s'.grants == s.grants
    requires forall id :: id in s'.db.tickets ==> CacheOk(s', id)
    ensures Inv(s', env)
  {
    hide TablesInv, Audited, TargetsOf, RuleId;
    SameNet(s, s', env);
    forall k | k in s.db.tickets ensures RowOk(s', k) {
      assert RowOk(s, k);
    }
    forall k | k in s.grants ensures GrantOk(s', k) {
      assert GrantOk(s, k);
    }
  }

  // ---- the calls ----

  lemma GrantKeeps(s: Sys, env: Env, id: nat, agent: int)
    requires Inv(s, env) && id in s.db.tickets && s.db.tickets[id].status == Approved && id !in s.grants
    ensures var t := s.db.tickets[id];
      var g := Grant(agent, TargetsOf(s.db, t), s.net.now, s.net.now + t.duration);
      && Inv(s.(grants := s.grants[id := g]), env)
      && Pushable(s.(grants := s.grants[id := g]), id, agent, g.targets, Some(g.expires))
  {
    hide TablesInv, Audited, TargetsOf, RuleId;
    var t := s.db.tickets[id];
    var g := Grant(agent, TargetsOf(s.db, t), s.net.now, s.net.now + t.duration);
    var s' := s.(grants := s.grants[id := g]);
    FirstTargetIsOwn(s.db, id);
    DurationBounded(s.db, id);
    SameNet(s, s', env);
    forall k | k in s.db.tickets ensures RowOk(s', k) && CacheOk(s', k) {
      assert RowOk(s, k) && CacheOk(s, k);
    }
    forall k | k in s'.grants ensures GrantOk(s', k) {
      if k != id {
        assert GrantOk(s, k);
      }
    }
  }

  lemma ActivatedRow(s: Sys, env: Env, id: nat, agent: int, expires: int, k: nat)
    requires Granting(s) && Coherent(s) && id in s.grants && s.grants[id].agent == agent && s.grants[id].expires == expires
    requires id in s.forwards && agent in s.net.peers && RuleId(id) in s.net.peers[agent].rules
    requires s.net.peers[agent].rules[RuleId(id)].addr == s.forwards[id]
    requires k in Transact(s, env, Activate(id, agent, expires)).0.db.tickets
    ensures var s' := Transact(s, env, Activate(id, agent, expires)).0; RowOk(s', k) && CacheOk(s', k)
  {
    hide RuleId, GrantOk;
    assert k in s.db.tickets;
    assert RowOk(s, k) && CacheOk(s, k);
  }

  lemma ActivateKeeps(s: Sys, env: Env, id: nat, agent: int, expires: int)
    requires Inv(s, env) && id in s.grants && s.grants[id].agent == agent && s.grants[id].expires == expires
    requires id in s.forwards && agent in s.net.peers && RuleId(id) in s.net.peers[agent].rules
    requires s.net.peers[agent].rules[RuleId(id)].addr == s.forwards[id]
    ensures Inv(Transact(s, env, Activate(id, agent, expires)).0, env)
  {
    hide TablesInv, Audited, RowEvolves, TargetsOf, Replay, RuleId, RowOk, CacheOk, Exec;
    var txn := Activate(id, agent, expires);
    var s' := Transact(s, env, txn).0;
    TxnKeeps(s.db, txn, env.commits(s.txs));
    forall k | k in s'.grants ensures GrantOk(s', k) {
      assert GrantOk(s, k);
      RowsKept(s.db, s'.db, k);
    }
    forall k | k in s'.db.tickets ensures RowOk(s', k) && CacheOk(s', k) {
      ActivatedRow(s, env, id, agent, expires, k);
    }
    SameNet(s, s', env);
  }

  lemma ApplyKeeps(s: Sys, env: Env, id: nat)
    requires Inv(s, env) && PortsNamed(env) && id !in s.grants
    ensures Inv(ApplyCall(s, env, id).0, env)
  {
    hide TablesInv, Audited, TargetsOf, RuleId, Push, Inv, Transact;
    if id in s.db.tickets && s.db.tickets[id].status == Approved && PrimaryOf(s.db, s.db.tickets[id].project).Some? {
      var t := s.db.tickets[id];
      var agent := PrimaryOf(s.db, t.project).value;
      var targets, expires := TargetsOf(s.db, t), s.net.now + t.duration;
      var s1 := s.(grants := s.grants[id := Grant(agent, targets, s.net.now, expires)]);
      GrantKeeps(s, env, id, agent);
      PushKeeps(s1, env, id, agent, targets, Some(expires));
      var (net, forward) := Push(s.net, env, agent, RuleId(id), targets, Some(expires), s.sessions);
      var s2 := s1.(net := net);
      if forward.None? {
        TransactKeeps(s2, env, FailApply(id));
      } else {
        var s3 := s2.(forwards := s.forwards[id := forward.value]);
        CachedForGranted(s2, env, id, forward.value);
        ActivateKeeps(s3, env, id, agent, expires);
      }
    }
  }

  lemma CachedForGranted(s: Sys, env: Env, id: nat, addr: string)
    requires Inv(s, env) && id in s.db.tickets && s.db.tickets[id].status == Approved
    ensures Inv(s.(forwards := s.forwards[id := addr]), env)
  {
    hide TablesInv, Audited, RuleId, TargetsOf;
    var s' := s.(forwards := s.forwards[id := addr]);
    forall k | k in s'.db.tickets ensures CacheOk(s', k) {
      assert CacheOk(s, k);
    }
    CacheChanged(s, s', env);
  }

  lemma ApproveKeeps(s: Sys, env: Env, id: nat, approver: int)
    requires Inv(s, env) && PortsNamed(env)
    ensures Inv(ApproveCall(s, env, id, approver).0, env)
  {
    hide Inv, ApplyCall, Transact;
    TransactKeeps(s, env, Approve(id, approver));
    var (s1, outcome) := Transact(s, env, Approve(id, approver));
    if outcome.None? {
      PendingNotGranted(s, env, id, approver);
      ApplyKeeps(s1, env, id);
    }
  }

  lemma PendingNotGranted(s: Sys, env: Env, id: nat, approver: int)
    requires Inv(s, env) && Transact(s, env, Approve(id, approver)).1.None?
    ensures id !in s.grants && id !in Transact(s, env, Approve(id, approver)).0.grants
  {
    hide TablesInv, Audited, TargetsOf, Listed;
    assert id in s.grants ==> GrantOk(s, id);
  }

  lemma RevokeKeeps(s: Sys, env: Env, id: nat)
    requires Inv(s, env)
    ensures Inv(RevokeCall(s, env, id).0, env)
  {
    hide Inv, Exec, TablesInv, RuleId, Transact, Finish, Pull;
    TransactKeeps(s, env, BeginRevoke(id));
    var (s1, outcome) := Transact(s, env, BeginRevoke(id));
    if outcome.None? {
      BegunRevoke(s, env, id);
      var s2 := s1.(sessions := s1.sessions - {id});
      SessionsKeep(s1, env, s2.sessions);
      if id !in s2.db.bindings {
        FinishKeeps(s2, env, id);
      } else {
        var b := s2.db.bindings[id];
        BindingOf(s2, env, id);
        PullKeeps(s2, env, id, b.agent);
        var (net, answer) := Pull(s2.net, env, b.agent, b.ruleId, s2.sessions);
        var s3 := s2.(net := net);
        if answer.None? {
          TransactKeeps(s3, env, DeferRevoke(id));
        } else {
          FinishKeeps(s3, env, id);
        }
      }
    }
  }

  lemma BegunRevoke(s: Sys, env: Env, id: nat)
    requires Transact(s, env, BeginRevoke(id)).1.None?
    ensures var s1 := Transact(s, env, BeginRevoke(id)).0; id in s1.db.tickets && s1.db.tickets[id].status == Revoking
  {
  }

  lemma BindingOf(s: Sys, env: Env, id: nat)
    requires Inv(s, env) && id in s.db.bindings
    ensures id in s.db.tickets && s.db.bindings[id].ruleId == RuleId(id)
  {
    hide TicketInv, Listed;
    RuleOfBinding(s.db, id);
  }

  lemma FinishKeeps(s: Sys, env: Env, id: nat)
    requires Inv(s, env)
    ensures Inv(Finish(s, env, id).0, env)
  {
    hide Exec, TablesInv, Audited, TargetsOf, RuleId;
    var s1 := s.(forwards := s.forwards - {id});
    forall k | k in s1.db.tickets ensures CacheOk(s1, k) {
      assert CacheOk(s, k);
    }
    CacheChanged(s, s1, env);
    TransactKeeps(s1, env, FinishRevoke(id));
  }

  lemma {:induction false} RevokeEachKeeps(s: Sys, env: Env, ids: seq<nat>)
    requires Inv(s, env)
    ensures Inv(RevokeEach(s, env, ids).0, env)
    decreases |ids|
  {
    hide Inv, RevokeCall;
    if ids != [] {
      RevokeKeeps(s, env, ids[0]);
      RevokeEachKeeps(RevokeCall(s, env, ids[0]).0, env, ids[1..]);
    }
  }

  /** Reapplying a live ticket sends its own rule to its own agent, with its own first target and expiry. */
  lemma ReapplyPushes(s: Sys, env: Env, id: nat)
    requires Inv(s, env) && id in s.db.tickets && LiveAt(s.db.tickets[id], s.net.now)
    ensures id in s.db.bindings && s.db.bindings[id].ruleId == RuleId(id)
    ensures Pushable(s, id, s.db.bindings[id].agent, TargetsOf(s.db, s.db.tickets[id]), s.db.tickets[id].expires)
  {
    hide TablesInv, Audited, TargetsOf, RuleId;
    assert RowOk(s, id) && GrantOk(s, id);
    BindingOf(s, env, id);
  }

  lemma RebuildOneKeeps(s: Sys, env: Env, id: nat)
    requires Inv(s, env) && PortsNamed(env) && id in s.db.tickets && LiveAt(s.db.tickets[id], s.net.now)
    ensures Inv(RebuildOne(s, env, id).0, env)
    ensures RebuildOne(s, env, id).0.net.now == s.net.now
  {
    hide TablesInv, Audited, TargetsOf, RuleId, Push, Inv;
    if id !in s.forwards {
      ReapplyPushes(s, env, id);
      PushKeeps(s, env, id, s.db.bindings[id].agent, TargetsOf(s.db, s.db.tickets[id]), s.db.tickets[id].expires);
      var (s1, forward) := Reapply(s, env, id);
      if forward.Some? {
        CachedForLive(s1, env, id, forward.value);
      }
    }
  }

  lemma CachedForLive(s: Sys, env: Env, id: nat, addr: string)
    requires Inv(s, env) && id in s.db.bindings
    requires var agent := s.db.bindings[id].agent;
      agent in s.net.peers && RuleId(id) in s.net.peers[agent].rules && s.net.peers[agent].rules[RuleId(id)].addr == addr
    ensures Inv(s.(forwards := s.forwards[id := addr]), env)
  {
    hide TablesInv, Audited, RuleId, TargetsOf;
    var s' := s.(forwards := s.forwards[id := addr]);
    forall k | k in s'.db.tickets ensures CacheOk(s', k) {
      assert CacheOk(s, k);
    }
    CacheChanged(s, s', env);
  }

  lemma {:induction false} RebuildEachKeeps(s: Sys, env: Env, ids: seq<nat>)
    requires Inv(s, env) && PortsNamed(env)
    requires forall i :: 0 <= i < |ids| ==> ids[i] in s.db.tickets && LiveAt(s.db.tickets[ids[i]], s.net.now)
    ensures Inv(RebuildEach(s, env, ids).0, env)
    decreases |ids|
  {
    hide Inv, RebuildOne;
    if ids != [] {
      RebuildOneKeeps(s, env, ids[0]);
      RebuildOneTables(s, env, ids[0]);
      RebuildEachKeeps(RebuildOne(s, env, ids[0]).0, env, ids[1..]);
    }
  }

  lemma RebuildOneTables(s: Sys, env: Env, id: nat)
    requires id in s.db.tickets
    ensures RebuildOne(s, env, id).0.db == s.db
  {
  }

  lemma IdsLive(db: Db, now: int)
    ensures forall i :: 0 <= i < |Ids(db, now, false, db.next)| ==>
      Ids(db, now, false, db.next)[i] in db.tickets && LiveAt(db.tickets[Ids(db, now, false, db.next)[i]], now)
  {
    forall i | 0 <= i < |Ids(db, now, false, db.next)|
      ensures Ids(db, now, false, db.next)[i] in db.tickets && LiveAt(db.tickets[Ids(db, now, false, db.next)[i]], now)
    {
      IdsExactly(db, now, false, db.next, Ids(db, now, false, db.next)[i]);
    }
  }

  lemma RebuildKeeps(s: Sys, env: Env)
    requires Inv(s, env) && PortsNamed(env)
    ensures Inv(RebuildCall(s, env).0, env)
  {
    hide Inv;
    IdsLive(s.db, s.net.now);
    IdsListed(s.db, s.net.now, false, s.db.next);
    RebuildEachKeeps(s, env, Ids(s.db, s.net.now, false, s.db.next));
  }

  /** The state in which a reconnecting agent's addresses have been dropped. */
  function Cleared(s: Sys, agent: int): Sys {
    s.(stale := s.stale - {agent}, forwards := s.forwards - BoundTo(s.db, agent, Ids(s.db, s.net.now, false, s.db.next)))
  }

  lemma ClearedKeeps(s: Sys, env: Env, agent: int)
    requires Inv(s, env)
    ensures Inv(Cleared(s, agent), env)
  {
    hide TablesInv, Audited, TargetsOf, RuleId, Ids, CacheOk, Granting, Enforcing, Tidy;
    forall k | k in s.db.tickets ensures CacheOk(Cleared(s, agent), k) {
      assert CacheOk(s, k);
      BelowNext(s.db, k);
      ClearedCache(s, agent, k);
    }
    CacheChanged(s, Cleared(s, agent), env);
  }

  lemma BelowNext(db: Db, k: nat)
    requires TablesInv(db) && k in db.tickets
    ensures k < db.next
  {
    hide TicketInv;
  }

  lemma ClearedCache(s: Sys, agent: int, k: nat)
    requires k in s.db.tickets && k < s.db.next && CacheOk(s, k)
    ensures CacheOk(Cleared(s, agent), k)
  {
    hide RuleId, Ids;
    IdsExactly(s.db, s.net.now, false, s.db.next, k);
  }

  lemma ReconnectKeeps(s: Sys, env: Env, agent: int)
    requires Inv(s, env) && PortsNamed(env)
    ensures Inv(ReconnectCall(s, env, agent), env)
  {
    hide Inv;
    ClearedKeeps(s, env, agent);
    RebuildKeeps(Cleared(s, agent), env);
  }

  // ---- the environment ----

  lemma AgentKeeps(s: Sys, env: Env, agent: int, up: bool)
    requires Inv(s, env)
    ensures Inv(WithPeer(s, agent, PeerOf(s.net, agent).(up := up)), env)
  {
    hide TablesInv, Audited, TargetsOf, RuleId;
    EnvironmentKeeps(s, WithPeer(s, agent, PeerOf(s.net, agent).(up := up)), env);
  }

  predicate Outlasts(e: Entry, now: int) {
    e.deadline.Some? ==> now < e.deadline.value
  }

  /** Losing entries, going stale and forgetting addresses keeps the invariant as long as trusted addresses stay live. */
  lemma EnvironmentKeeps(s: Sys, s': Sys, env: Env)
    requires Inv(s, env)
    requires s'.db == s.db && s'.grants == s.grants && s'.net.sent == s.net.sent && s.net.now <= s'.net.now
    requires forall id :: id in s'.forwards ==> id in s.forwards && s'.forwards[id] == s.forwards[id]
    requires s.stale <= s'.stale
    requires forall a :: a in s.net.peers ==> a in s'.net.peers
    requires forall a, r :: a in s'.net.peers && r in s'.net.peers[a].rules ==>
      a in s.net.peers && r in s.net.peers[a].rules && s'.net.peers[a].rules[r] == s.net.peers[a].rules[r] &&
      Outlasts(s.net.peers[a].rules[r], s'.net.now)
    requires forall a, r :: a in s.net.peers && a !in s'.stale && r in s.net.peers[a].rules ==>
      Outlasts(s.net.peers[a].rules[r], s'.net.now) ==> r in s'.net.peers[a].rules
    ensures Inv(s', env)
  {
    hide TablesInv, Audited, TargetsOf, RuleId;
    forall a, r | a in s'.net.peers && r in s'.net.peers[a].rules ensures EntryOk(s', env, a, r) {
      assert EntryOk(s, env, a, r);
      var k: nat :| r == RuleId(k) && Granted(s, env, a, s.net.peers[a].rules[r], k);
      assert Granted(s', env, a, s'.net.peers[a].rules[r], k);
    }
    forall k | k in s.grants ensures GrantOk(s', k) {
      assert GrantOk(s, k);
    }
    forall k | k in s.db.tickets ensures RowOk(s', k) && CacheOk(s', k) {
      assert RowOk(s, k) && CacheOk(s, k);
      if LiveAt(s'.db.tickets[k], s'.net.now) && k in s'.forwards && k in s'.db.bindings && s'.db.bindings[k].agent !in s'.stale {
        EntryOfTicket(s, env, s.db.bindings[k].agent, k);
      }
    }
    forall i | 0 <= i < |s'.net.sent| ensures SentOk(s', i) {
      assert SentOk(s, i);
    }
  }

  lemma SessionsKeep(s: Sys, env: Env, sessions: set<nat>)
    requires Inv(s, env)
    ensures Inv(s.(sessions := sessions), env)
  {
    hide TablesInv, Audited, TargetsOf, RuleId;
    var s' := s.(sessions := sessions);
    forall k | k in s'.db.tickets ensures CacheOk(s', k) {
      assert CacheOk(s, k);
    }
    CacheChanged(s, s', env);
  }

  lemma StepKeeps(s: Sys, env: Env, e: Event)
    requires Inv(s, env) && PortsNamed(env)
    ensures Inv(Step(s, env, e), env)
  {
    hide Inv;
    match e {
      case OnSubmit(input) => TransactKeeps(s, env, Submit(input));
      case OnApprove(id, approver) => ApproveKeeps(s, env, id, approver);
      case OnReject(id, approver) => TransactKeeps(s, env, Reject(id, approver));
      case OnRevoke(id) => RevokeKeeps(s, env, id);
      case OnExpireDue => RevokeEachKeeps(s, env, Ids(s.db, s.net.now, true, s.db.next));
      case OnRebuild => RebuildKeeps(s, env);
      case OnReconnect(agent) => ReconnectKeeps(s, env, agent);
      case ServerRestart | AgentRestart(_) | Wait(_) => LossKeeps(s, env, e);
      case AgentUp(agent) => AgentKeeps(s, env, agent, true);
      case AgentDown(agent) => AgentKeeps(s, env, agent, false);
      case CatalogChange(txn) =>
        if OfCatalog(txn) {
          TransactKeeps(s, env, txn);
        }
      case OpenShell(id) => SessionsKeep(s, env, Step(s, env, e).sessions);
      case DropShell(id) => SessionsKeep(s, env, Step(s, env, e).sessions);
    }
  }

  lemma LossKeeps(s: Sys, env: Env, e: Event)
    requires Inv(s, env) && (e.ServerRestart? || e.AgentRestart? || e.Wait?)
    ensures Inv(Step(s, env, e), env)
  {
    hide TablesInv, Audited, TargetsOf, RuleId;
    forall a, r | a in s.net.peers && r in s.net.peers[a].rules
      ensures s.net.peers[a].rules[r].deadline.Some? && s.net.now < s.net.peers[a].rules[r].deadline.value
    {
      assert EntryOk(s, env, a, r);
    }
    EnvironmentKeeps(s, Step(s, env, e), env);
  }

  lemma {:induction false} RunKeeps(now: int, env: Env, events: seq<Event>)
    requires PortsNamed(env)
    ensures Inv(Run(now, env, events), env)
  {
    if events != [] {
      hide Inv;
      RunKeeps(now, env, events[..|events| - 1]);
      StepKeeps(Run(now, env, events[..|events| - 1]), env, events[|events| - 1]);
    }
  }
}
