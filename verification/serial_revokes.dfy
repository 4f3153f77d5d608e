/** How revokes and the expiry sweep end, on the tables and what the agents answer. */
module SerialRevokes {
  import opened Wrappers
  import opened RuleIds
  import opened Store
  import opened Forwarding
  import opened Gateways
  import opened EngineSpec
  import opened SerialRuns
  import opened SerialProofs
  import opened SerialTheorems

  ghost predicate AllCommit(s: Sys, env: Env) {
    forall k :: k >= s.txs ==> env.commits(k)
  }

  /** The rule of one of these tickets. */
  ghost predicate RuleAmong(db: Db, ids: set<nat>, rule: string) {
    exists k :: k in ids && k in db.bindings && db.bindings[k].ruleId == rule
  }

  /** What revokes of `ids` leave of the agents: connections, and all rules but those of `ids`, which may only go. */
  ghost predicate NetKept(s: Sys, s': Sys, ids: set<nat>) {
    && s'.net.now == s.net.now && s.net.sent <= s'.net.sent && s'.net.peers.Keys == s.net.peers.Keys
    && (forall a :: a in s.net.peers ==> s'.net.peers[a].up == s.net.peers[a].up)
    && (forall a, r :: a in s.net.peers && r in s'.net.peers[a].rules ==>
          r in s.net.peers[a].rules && s'.net.peers[a].rules[r] == s.net.peers[a].rules[r])
    && (forall a, r :: a in s.net.peers && r in s.net.peers[a].rules && !RuleAmong(s.db, ids, r) ==> r in s'.net.peers[a].rules)
  }

  /** Everything revokes of `ids` must leave as it was. */
  ghost predicate OthersSame(s: Sys, s': Sys, ids: set<nat>) {
    && s'.db.tickets.Keys == s.db.tickets.Keys && s'.db.bindings == s.db.bindings && s'.db.next == s.db.next
    && s'.db.assets == s.db.assets && s'.db.primaries == s.db.primaries
    && (forall k :: k in s.db.tickets && k !in ids ==> s'.db.tickets[k] == s.db.tickets[k])
    && (forall k :: k !in ids ==> (k in s'.forwards <==> k in s.forwards))
    && (forall k :: k in s'.forwards ==> k in s.forwards && s'.forwards[k] == s.forwards[k])
    && s'.sessions <= s.sessions && (forall k :: k in s.sessions && k !in ids ==> k in s'.sessions)
    && s.txs <= s'.txs
  }

  /** Command k is the revoke of this ticket's binding, sent with its session closed, and its answer decided how the ticket ended. */
  ghost predicate RevokeSent(s: Sys, s': Sys, env: Env, id: nat, k: nat)
    requires id in s.db.bindings && id in s'.db.tickets
  {
    && |s.net.sent| <= k < |s'.net.sent|
    && s'.net.sent[k].agent == s.db.bindings[id].agent && s'.net.sent[k].cmd == Revoke(s.db.bindings[id].ruleId)
    && id !in s'.net.sent[k].sessions
    && (env.fate(k) == Acked ==> s'.db.tickets[id].status == Closed)
    && (env.fate(k) == Dropped || env.fate(k) == AckLost ==> s'.db.tickets[id].status == RevokePending)
  }

  /**
   * How a revoke of an active ticket may end, one of several in a row. If the transactions
   * commit: closed without a binding, revoke_pending if the bound agent is not connected, and
   * otherwise as the answer to the command it was sent says.
   */
  ghost predicate Revoked(s: Sys, s': Sys, env: Env, id: nat) {
    && id in s'.db.tickets
    && var status := s'.db.tickets[id].status;
       && (status == Active || status == Revoking || status == RevokePending || status == Closed)
       && (status == Closed ==> id !in s'.forwards)
       && (status == RevokePending ==> (id in s'.forwards <==> id in s.forwards))
       && (AllCommit(s, env) ==>
             && (status == Closed || status == RevokePending) && id !in s'.sessions
             && (id !in s.db.bindings ==> status == Closed)
             && (id in s.db.bindings && !Connected(s.net, s.db.bindings[id].agent) ==> status == RevokePending)
             && (id in s.db.bindings && Connected(s.net, s.db.bindings[id].agent) ==> exists k :: RevokeSent(s, s', env, id, k)))
  }

  lemma BeginMoves(s: Sys, env: Env, id: nat)
    requires id in s.db.tickets && s.db.tickets[id].status == Active
    ensures var (s', outcome) := Transact(s, env, BeginRevoke(id)); Moved(s, s', env, id, Revoking, outcome)
  {
  }

  lemma RevokingMoves(s: Sys, env: Env, id: nat)
    requires id in s.db.tickets && s.db.tickets[id].status == Revoking
    ensures var (s', outcome) := Transact(s, env, FinishRevoke(id)); Moved(s, s', env, id, Closed, outcome)
    ensures var (s', outcome) := Transact(s, env, DeferRevoke(id)); Moved(s, s', env, id, RevokePending, outcome)
  {
  }

  /** The bound agent answers the next command, a revoke of this ticket's rule, or there is no binding to ask for. */
  predicate RevokeWorks(s: Sys, env: Env, id: nat) {
    id in s.db.bindings ==> PullWorks(s.net, env, s.db.bindings[id].agent, s.db.bindings[id].ruleId)
  }

  /**
   * One revoke of an active ticket, on the tables and the environment alone. It stays active
   * if and only if the first transaction fails, revoking if and only if the second does; with
   * both committed it ends closed if and only if it has no binding or its agent is connected
   * and answers, and revoke_pending otherwise. Its own session alone is closed, its address
   * alone is forgotten, and only when the agent answered; no other rule of any agent is touched.
   */
  lemma RevokeOutcome(s: Sys, env: Env, id: nat)
    requires id in s.db.tickets && s.db.tickets[id].status == Active
    ensures
      var (s', outcome) := RevokeCall(s, env, id);
      var begins, ends, works := env.commits(s.txs), env.commits(s.txs + 1), RevokeWorks(s, env, id);
      && OthersSame(s, s', {id}) && NetKept(s, s', {id})
      && var status := s'.db.tickets[id].status;
         && (status == Active <==> !begins)
         && (status == Revoking <==> begins && !ends)
         && (status == Closed <==> begins && ends && works)
         && (status == RevokePending <==> begins && ends && !works)
         && outcome == (if !begins then Some(Database) else if !works then Some(Gateway) else if ends then None else Some(Database))
         && s'.sessions == (if begins then s.sessions - {id} else s.sessions)
         && s'.forwards == (if begins && works then s.forwards - {id} else s.forwards)
         && (begins && id in s.db.bindings ==>
               s'.net == Pull(s.net, env, s.db.bindings[id].agent, s.db.bindings[id].ruleId, s.sessions - {id}).0)
         && (!begins || id !in s.db.bindings ==> s'.net == s.net)
  {
    hide RevokeCall, Pull, PullWorks, NetKept;
    RevokeEnds(s, env, id);
    var s' := RevokeCall(s, env, id).0;
    if env.commits(s.txs) && id in s.db.bindings {
      PulledKept(s, s', env, id, s.sessions - {id});
    } else {
      NothingSent(s, s', {id});
    }
  }

  function EndOf(begins: bool, ends: bool, works: bool): Status {
    if !begins then Active else if !ends then Revoking else if works then Closed else RevokePending
  }

  lemma RevokeEnds(s: Sys, env: Env, id: nat)
    requires id in s.db.tickets && s.db.tickets[id].status == Active
    ensures
      var (s', outcome) := RevokeCall(s, env, id);
      var begins, ends, works := env.commits(s.txs), env.commits(s.txs + 1), RevokeWorks(s, env, id);
      && s'.db.tickets == s.db.tickets[id := s.db.tickets[id].(status := EndOf(begins, ends, works))]
      && s'.db.bindings == s.db.bindings && s'.db.next == s.db.next && s.txs <= s'.txs
      && s'.db.assets == s.db.assets && s'.db.primaries == s.db.primaries
      && outcome == (if !begins then Some(Database) else if !works then Some(Gateway) else if ends then None else Some(Database))
      && s'.sessions == (if begins then s.sessions - {id} else s.sessions)
      && s'.forwards == (if begins && works then s.forwards - {id} else s.forwards)
      && s'.net == (if begins && id in s.db.bindings
                    then Pull(s.net, env, s.db.bindings[id].agent, s.db.bindings[id].ruleId, s.sessions - {id}).0 else s.net)
  {
    hide Transact, Pull, PullWorks;
    BeginMoves(s, env, id);
    var (s1, began) := Transact(s, env, BeginRevoke(id));
    if began.None? {
      var s2 := s1.(sessions := s1.sessions - {id});
      if id !in s2.db.bindings {
        RevokingMoves(s2.(forwards := s2.forwards - {id}), env, id);
      } else {
        var b := s2.db.bindings[id];
        PullExactly(s.net, env, b.agent, b.ruleId, s2.sessions);
        var s3 := s2.(net := Pull(s2.net, env, b.agent, b.ruleId, s2.sessions).0);
        RevokingMoves(s3, env, id);
        RevokingMoves(s3.(forwards := s3.forwards - {id}), env, id);
      }
    }
  }

  lemma NothingSent(s: Sys, s': Sys, ids: set<nat>)
    requires s'.net == s.net
    ensures NetKept(s, s', ids)
  {
  }

  lemma PulledKept(s: Sys, s': Sys, env: Env, id: nat, sessions: set<nat>)
    requires id in s.db.bindings
    requires s'.net == Pull(s.net, env, s.db.bindings[id].agent, s.db.bindings[id].ruleId, sessions).0
    ensures NetKept(s, s', {id})
  {
    hide Pull;
    PullExactly(s.net, env, s.db.bindings[id].agent, s.db.bindings[id].ruleId, sessions);
    assert RuleAmong(s.db, {id}, s.db.bindings[id].ruleId);
  }

  /** A revoke of a ticket that is missing or not active is answered so, and changes nothing. */
  lemma RevokeRefused(s: Sys, env: Env, id: nat)
    requires id !in s.db.tickets || s.db.tickets[id].status != Active
    ensures RevokeCall(s, env, id) ==
      (s.(txs := s.txs + 1), Some(if !env.commits(s.txs) then Database else if id in s.db.tickets then Conflict else NotFound))
  {
  }

  /** One revoke as one of several in a row. */
  lemma RevokeRevokes(s: Sys, env: Env, id: nat)
    requires id in s.db.tickets && s.db.tickets[id].status == Active
    ensures
      var (s', outcome) := RevokeCall(s, env, id);
      && OthersSame(s, s', {id}) && NetKept(s, s', {id}) && Revoked(s, s', env, id)
      && (outcome.None? <==> s'.db.tickets[id].status == Closed)
  {
    hide RevokeCall, OthersSame, NetKept, Pull;
    RevokeOutcome(s, env, id);
    RevokeRow(s, env, id);
    var s' := RevokeCall(s, env, id).0;
    if AllCommit(s, env) && id in s.db.bindings && Connected(s.net, s.db.bindings[id].agent) {
      PullExactly(s.net, env, s.db.bindings[id].agent, s.db.bindings[id].ruleId, s.sessions - {id});
      assert RevokeSent(s, s', env, id, |s.net.sent|);
    }
  }

  lemma RevokeRow(s: Sys, env: Env, id: nat)
    requires OthersSame(s, RevokeCall(s, env, id).0, {id}) && id in s.db.tickets
    ensures id in RevokeCall(s, env, id).0.db.tickets
  {
    hide RevokeCall;
    assert id in s.db.tickets.Keys;
  }

  function ClosedAmong(db: Db, ids: seq<nat>): set<nat> {
    set id | id in ids && id in db.tickets && db.tickets[id].status == Closed
  }

  function Members(ids: seq<nat>): set<nat> {
    set id | id in ids
  }

  /** Distinct active tickets, revoked one after the other. */
  lemma {:induction false} RevokeEachOutcome(s: Sys, env: Env, ids: seq<nat>)
    requires forall i :: 0 <= i < |ids| ==> ids[i] in s.db.tickets && s.db.tickets[ids[i]].status == Active
    requires forall i, j :: 0 <= i < j < |ids| ==> ids[i] < ids[j]
    ensures
      var (s', n) := RevokeEach(s, env, ids);
      && OthersSame(s, s', Members(ids)) && NetKept(s, s', Members(ids))
      && (forall id :: id in ids ==> Revoked(s, s', env, id))
      && n == |ClosedAmong(s'.db, ids)|
    decreases |ids|
  {
    hide RevokeCall, Revoked, NetKept;
    if ids == [] {
      assert ClosedAmong(s.db, ids) == {};
      NothingSent(s, s, Members(ids));
    } else {
      RevokeRevokes(s, env, ids[0]);
      var (s1, outcome) := RevokeCall(s, env, ids[0]);
      StillActive(s, s1, ids);
      RevokeEachOutcome(s1, env, ids[1..]);
      var (s', n) := RevokeEach(s1, env, ids[1..]);
      RevokedThenOthers(s, s1, s', env, ids);
      CountClosed(s'.db, ids);
    }
  }

  lemma StillActive(s: Sys, s1: Sys, ids: seq<nat>)
    requires ids != [] && OthersSame(s, s1, {ids[0]})
    requires forall i :: 0 <= i < |ids| ==> ids[i] in s.db.tickets && s.db.tickets[ids[i]].status == Active
    requires forall i, j :: 0 <= i < j < |ids| ==> ids[i] < ids[j]
    ensures forall i :: 0 <= i < |ids[1..]| ==> ids[1..][i] in s1.db.tickets && s1.db.tickets[ids[1..][i]].status == Active
    ensures ids[0] in s1.db.tickets
  {
    assert ids[0] in s1.db.tickets.Keys;
    forall i | 0 <= i < |ids[1..]| ensures ids[1..][i] in s1.db.tickets && s1.db.tickets[ids[1..][i]].status == Active {
      assert ids[1..][i] == ids[i + 1] && ids[i + 1] in s1.db.tickets.Keys;
    }
  }

  lemma CountClosed(db: Db, ids: seq<nat>)
    requires ids != [] && forall i, j :: 0 <= i < j < |ids| ==> ids[i] < ids[j]
    requires ids[0] in db.tickets
    ensures |ClosedAmong(db, ids)| == |ClosedAmong(db, ids[1..])| + if db.tickets[ids[0]].status == Closed then 1 else 0
  {
    assert ids[0] !in ids[1..];
    var rest := ClosedAmong(db, ids[1..]);
    assert ClosedAmong(db, ids) == if db.tickets[ids[0]].status == Closed then rest + {ids[0]} else rest;
  }

  lemma RevokedEarlier(s: Sys, s1: Sys, s': Sys, env: Env, id: nat, others: set<nat>)
    requires Revoked(s, s1, env, id) && OthersSame(s1, s', others) && NetKept(s1, s', others) && id !in others
    ensures Revoked(s, s', env, id)
  {
    hide RuleAmong;
    assert id in s'.db.tickets.Keys;
    if k :| id in s.db.bindings && RevokeSent(s, s1, env, id, k) {
      assert RevokeSent(s, s', env, id, k);
    }
  }

  lemma RevokedLater(s: Sys, s1: Sys, s': Sys, env: Env, id: nat, first: nat)
    requires OthersSame(s, s1, {first}) && NetKept(s, s1, {first}) && Revoked(s1, s', env, id) && id != first
    ensures Revoked(s, s', env, id)
  {
    hide RuleAmong;
    assert forall a :: a in s.net.peers.Keys <==> a in s1.net.peers.Keys;
    if k :| id in s1.db.bindings && RevokeSent(s1, s', env, id, k) {
      assert RevokeSent(s, s', env, id, k);
    }
  }

  lemma NetKeptThrough(s: Sys, s1: Sys, s': Sys, first: nat, rest: set<nat>, all: set<nat>)
    requires NetKept(s, s1, {first}) && NetKept(s1, s', rest) && s1.db.bindings == s.db.bindings && all == {first} + rest
    ensures NetKept(s, s', all)
  {
    assert forall a :: a in s.net.peers.Keys <==> a in s1.net.peers.Keys;
    forall r | !RuleAmong(s.db, all, r) ensures !RuleAmong(s.db, {first}, r) && !RuleAmong(s1.db, rest, r) {
    }
  }

  lemma OthersSameThrough(s: Sys, s1: Sys, s': Sys, first: nat, rest: set<nat>, all: set<nat>)
    requires OthersSame(s, s1, {first}) && OthersSame(s1, s', rest) && all == {first} + rest
    ensures OthersSame(s, s', all)
  {
    forall k | k in s.db.tickets && k !in all ensures k in s'.db.tickets && s'.db.tickets[k] == s.db.tickets[k] {
      assert k in s1.db.tickets.Keys && k in s'.db.tickets.Keys;
    }
  }

  lemma RevokedThenOthers(s: Sys, s1: Sys, s': Sys, env: Env, ids: seq<nat>)
    requires ids != [] && forall i, j :: 0 <= i < j < |ids| ==> ids[i] < ids[j]
    requires OthersSame(s, s1, {ids[0]}) && NetKept(s, s1, {ids[0]}) && Revoked(s, s1, env, ids[0])
    requires OthersSame(s1, s', Members(ids[1..])) && NetKept(s1, s', Members(ids[1..]))
    requires forall id :: id in ids[1..] ==> Revoked(s1, s', env, id)
    requires ids[0] in s1.db.tickets
    ensures OthersSame(s, s', Members(ids)) && NetKept(s, s', Members(ids)) && forall id :: id in ids ==> Revoked(s, s', env, id)
    ensures ids[0] in s'.db.tickets && s'.db.tickets[ids[0]] == s1.db.tickets[ids[0]]
  {
    hide Revoked, NetKept;
    assert ids == [ids[0]] + ids[1..];
    assert ids[0] !in ids[1..];
    assert ids[0] in s'.db.tickets.Keys;
    assert Members(ids) == {ids[0]} + Members(ids[1..]);
    OthersSameThrough(s, s1, s', ids[0], Members(ids[1..]), Members(ids));
    NetKeptThrough(s, s1, s', ids[0], Members(ids[1..]), Members(ids));
    forall id | id in ids ensures Revoked(s, s', env, id) {
      if id == ids[0] {
        RevokedEarlier(s, s1, s', env, id, Members(ids[1..]));
      } else {
        RevokedLater(s, s1, s', env, id, ids[0]);
      }
    }
  }

  // ---- the expiry sweep ----

  /** The active tickets whose window is over. */
  function DueIn(s: Sys): set<nat> {
    set id | id in s.db.tickets && s.db.tickets[id].status == Active
             && s.db.tickets[id].expires.Some? && s.db.tickets[id].expires.value <= s.net.now
  }

  /** Every command sent to this agent in between was acked. */
  ghost predicate AckedTo(s: Sys, s': Sys, env: Env, agent: int) {
    forall k {:trigger s'.net.sent[k]} :: |s.net.sent| <= k < |s'.net.sent| && s'.net.sent[k].agent == agent ==> env.fate(k) == Acked
  }

  /** The ticket's agent is connected and acks what it is sent in between; without a binding there is nothing to ask. */
  ghost predicate AgentAnswers(s: Sys, s': Sys, env: Env, id: nat) {
    id in s.db.bindings ==>
      Connected(s.net, s.db.bindings[id].agent) && AckedTo(s, s', env, s.db.bindings[id].agent)
  }

  /** What a sweep leaves behind. */
  ghost predicate Swept(s: Sys, s': Sys, env: Env, n: nat) {
    && OthersSame(s, s', DueIn(s)) && NetKept(s, s', DueIn(s))
    && (forall id :: id in DueIn(s) ==> Revoked(s, s', env, id))
    && n == |set id | id in DueIn(s) && id in s'.db.tickets && s'.db.tickets[id].status == Closed|
  }

  /**
   * The expiry sweep, in any serial run and whatever the gateway answers: exactly the active
   * tickets whose expiry has come are revoked, each as Revoked says, the count returned is the
   * number of them closed, and no other ticket, binding, address, session or rule changes. If
   * the transactions commit, every due ticket whose own agent answers ends closed, whatever
   * the other agents do.
   */
  lemma SweepOutcome(now: int, env: Env, events: seq<Event>)
    requires PortsNamed(env)
    ensures
      var s := Run(now, env, events);
      var (s', n) := ExpireDueCall(s, env);
      && Swept(s, s', env, n)
      && (AllCommit(s, env) ==>
            forall id :: id in DueIn(s) && AgentAnswers(s, s', env, id) ==> id in s'.db.tickets && s'.db.tickets[id].status == Closed)
  {
    var s := Run(now, env, events);
    RunKeeps(now, env, events);
    TablesOf(s, env);
    hide Swept, ExpireDueCall, Inv, AgentAnswers, DueIn;
    SweepFrom(s, env);
    var (s', n) := ExpireDueCall(s, env);
    if AllCommit(s, env) {
      forall id | id in DueIn(s) && AgentAnswers(s, s', env, id)
        ensures id in s'.db.tickets && s'.db.tickets[id].status == Closed
      {
        AnsweredCloses(s, s', env, n, id);
      }
    }
  }

  lemma TablesOf(s: Sys, env: Env)
    requires Inv(s, env)
    ensures TablesInv(s.db)
  {
    hide TablesInv, Audited, Granting, Enforcing, Coherent, Tidy;
  }

  lemma AnsweredCloses(s: Sys, s': Sys, env: Env, n: nat, id: nat)
    requires Swept(s, s', env, n) && AllCommit(s, env) && id in DueIn(s) && AgentAnswers(s, s', env, id)
    ensures id in s'.db.tickets && s'.db.tickets[id].status == Closed
  {
    hide OthersSame, NetKept;
    assert Revoked(s, s', env, id);
    if id in s.db.bindings {
      var k: nat :| RevokeSent(s, s', env, id, k);
      assert s'.net.sent[k].agent == s.db.bindings[id].agent;
    }
  }

  lemma SweepFrom(s: Sys, env: Env)
    requires TablesInv(s.db)
    ensures var (s', n) := ExpireDueCall(s, env); Swept(s, s', env, n)
  {
    hide Revoked, OthersSame, NetKept, RevokeEach, TicketInv;
    var ids := Ids(s.db, s.net.now, true, s.db.next);
    IdsAscend(s.db, s.net.now, true, s.db.next);
    forall id: nat ensures id in ids <==> id in DueIn(s) {
      IdsExactly(s.db, s.net.now, true, s.db.next, id);
    }
    forall i | 0 <= i < |ids| ensures ids[i] in s.db.tickets && s.db.tickets[ids[i]].status == Active {
      assert ids[i] in DueIn(s);
    }
    hide Ids;
    RevokeEachOutcome(s, env, ids);
    var (s', n) := ExpireDueCall(s, env);
    assert Members(ids) == DueIn(s);
    assert ClosedAmong(s'.db, ids) == set id | id in DueIn(s) && id in s'.db.tickets && s'.db.tickets[id].status == Closed;
  }
}
