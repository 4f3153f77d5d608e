/** What rebuilding forwarder addresses achieves for each ticket, whatever the agents of the others do. */
module SerialRebuilds {
  import opened Wrappers
  import opened RuleIds
  import opened Store
  import opened Forwarding
  import opened Gateways
  import opened EngineSpec
  import opened SerialRuns
  import opened SerialProofs
  import opened SerialTheorems
  import opened SerialRevokes

  /** Active tickets whose window is not over. */
  function LiveIn(s: Sys): set<nat> {
    set id | id in s.db.tickets && s.db.tickets[id].status == Active
             && (s.db.tickets[id].expires.None? || s.db.tickets[id].expires.value > s.net.now)
  }

  /** The tickets a rebuild pass would have to resolve. */
  function Unknown(s: Sys): set<nat> {
    set id | id in LiveIn(s) && id !in s.forwards
  }

  /** What a pass over `ids` leaves as it was: the tables, and every entry and every other ticket's rule and address. */
  ghost predicate PassKept(s: Sys, s': Sys, ids: set<nat>) {
    && s' == s.(net := s'.net, forwards := s'.forwards)
    && s'.net.now == s.net.now && s.net.sent <= s'.net.sent && s'.net.peers.Keys == s.net.peers.Keys
    && (forall a :: a in s.net.peers ==> s'.net.peers[a].up == s.net.peers[a].up)
    && (forall a, r :: a in s.net.peers && r in s.net.peers[a].rules ==>
          r in s'.net.peers[a].rules && s'.net.peers[a].rules[r] == s.net.peers[a].rules[r])
    && (forall a, r :: a in s.net.peers && r in s'.net.peers[a].rules && r !in s.net.peers[a].rules ==> RuleAmong(s.db, ids, r))
    && (forall k :: k in s.forwards ==> k in s'.forwards && s'.forwards[k] == s.forwards[k])
    && (forall k :: k in s'.forwards && k !in s.forwards ==> k in ids)
  }

  /** From command k on, n commands were sent for this ticket, and its address is known if and only if all targets were answered. */
  ghost predicate AskedFor(s: Sys, s': Sys, env: Env, id: nat, k: nat, n: nat)
    requires id in s.db.tickets && id in s.db.bindings && s.db.bindings[id].agent in s.net.peers
  {
    var t, b := s.db.tickets[id], s.db.bindings[id];
    && |s.net.sent| <= k
    && Tried(s'.net.sent, env, k, n, b.agent, b.ruleId, TargetsOf(s.db, t), t.expires, s.sessions,
             b.ruleId in s.net.peers[b.agent].rules, id in s'.forwards)
  }

  /**
   * What a pass achieves for one ticket whose address was unknown: nothing if its agent is not
   * connected, and otherwise its targets were sent in order up to the first not answered, the
   * address is known if and only if there was none, and it is that of the listener there.
   */
  ghost predicate Rebuilt(s: Sys, s': Sys, env: Env, id: nat) {
    id in s.db.tickets && id in s.db.bindings &&
    var agent, rule := s.db.bindings[id].agent, s.db.bindings[id].ruleId;
    && (!Connected(s.net, agent) ==> id !in s'.forwards)
    && (Connected(s.net, agent) ==> exists k, n :: AskedFor(s, s', env, id, k, n))
    && (id in s'.forwards ==>
          agent in s'.net.peers && rule in s'.net.peers[agent].rules && s'.net.peers[agent].rules[rule].addr == s'.forwards[id])
  }

  // ---- one ticket ----

  lemma RebuildOneOutcome(s: Sys, env: Env, id: nat)
    requires Inv(s, env) && PortsNamed(env) && id in s.db.tickets && LiveAt(s.db.tickets[id], s.net.now)
    ensures
      var (s', rebuilt) := RebuildOne(s, env, id);
      && PassKept(s, s', {id}) && (rebuilt <==> id !in s.forwards && id in s'.forwards)
      && (id !in s.forwards ==> Rebuilt(s, s', env, id))
  {
    hide Inv, TargetsOf, RuleId, Push, PassKept, Rebuilt;
    if id in s.forwards {
      NothingPassed(s, {id});
    } else {
      ReapplyPushes(s, env, id);
      var t, b := s.db.tickets[id], s.db.bindings[id];
      PushExactly(s.net, env, b.agent, b.ruleId, TargetsOf(s.db, t), t.expires, s.sessions);
      if Connected(s.net, b.agent) {
        NamedHere(s, env, b.agent);
        OnePushed(s, env, id);
      } else {
        NothingPassed(s, {id});
        NotRebuilt(s, env, id);
      }
    }
  }

  lemma NamedHere(s: Sys, env: Env, agent: int)
    requires Inv(s, env) && agent in s.net.peers
    ensures Named(s.net.peers[agent].rules)
  {
    hide TablesInv, Audited, Granting, Coherent, Tidy, Enforcing;
    NamedEntries(s, env, agent);
  }

  lemma NothingPassed(s: Sys, ids: set<nat>)
    ensures PassKept(s, s, ids)
  {
  }

  lemma NotRebuilt(s: Sys, env: Env, id: nat)
    requires id in s.db.tickets && id in s.db.bindings && id !in s.forwards && !Connected(s.net, s.db.bindings[id].agent)
    ensures Rebuilt(s, s, env, id)
  {
  }

  /** The ticket's targets were pushed to its connected agent. */
  lemma OnePushed(s: Sys, env: Env, id: nat)
    requires PortsNamed(env) && id in s.db.tickets && id in s.db.bindings && id !in s.forwards
    requires Connected(s.net, s.db.bindings[id].agent) && Named(s.net.peers[s.db.bindings[id].agent].rules)
    requires TargetsOf(s.db, s.db.tickets[id]) != []
    ensures
      var s' := RebuildOne(s, env, id).0;
      PassKept(s, s', {id}) && Rebuilt(s, s', env, id)
  {
    hide TargetsOf, PushEach, Tried, Created;
    var t, b := s.db.tickets[id], s.db.bindings[id];
    var targets := TargetsOf(s.db, t);
    PushExactly(s.net, env, b.agent, b.ruleId, targets, t.expires, s.sessions);
    PushEachOutcome(s.net, env, b.agent, b.ruleId, targets, t.expires, s.sessions, "");
    var s' := RebuildOne(s, env, id).0;
    assert RuleAmong(s.db, {id}, b.ruleId);
    assert AskedFor(s, s', env, id, |s.net.sent|, |s'.net.sent| - |s.net.sent|);
  }

  // ---- one after the other ----

  lemma PassKeptThrough(s: Sys, s1: Sys, s': Sys, first: nat, rest: set<nat>, all: set<nat>)
    requires PassKept(s, s1, {first}) && PassKept(s1, s', rest) && all == {first} + rest
    ensures PassKept(s, s', all)
  {
    assert forall a :: a in s.net.peers.Keys <==> a in s1.net.peers.Keys;
    forall r | RuleAmong(s.db, {first}, r) || RuleAmong(s1.db, rest, r) ensures RuleAmong(s.db, all, r) {
      var k :| (k in {first} || k in rest) && k in s.db.bindings && s.db.bindings[k].ruleId == r;
      assert k in all;
    }
  }

  lemma RebuiltEarlier(s: Sys, s1: Sys, s': Sys, env: Env, id: nat, others: set<nat>)
    requires Rebuilt(s, s1, env, id) && PassKept(s1, s', others) && id !in others
    ensures Rebuilt(s, s', env, id)
  {
    hide Tried, TargetsOf, RuleAmong;
    assert id in s'.forwards <==> id in s1.forwards;
    if Connected(s.net, s.db.bindings[id].agent) {
      var k, n :| AskedFor(s, s1, env, id, k, n);
      TriedLater(s1.net.sent, s'.net.sent, env, k, n, s.db.bindings[id].agent, s.db.bindings[id].ruleId,
                 TargetsOf(s.db, s.db.tickets[id]), s.db.tickets[id].expires, s.sessions,
                 s.db.bindings[id].ruleId in s.net.peers[s.db.bindings[id].agent].rules, id in s1.forwards);
      assert AskedFor(s, s', env, id, k, n);
    }
  }

  lemma TriedLater(sent: seq<Sent>, sent': seq<Sent>, env: Env, k: nat, n: nat, agent: int, rule: string, targets: seq<Target>,
                   expires: Option<int>, sessions: set<nat>, had: bool, succeeded: bool)
    requires sent <= sent' && Tried(sent, env, k, n, agent, rule, targets, expires, sessions, had, succeeded)
    ensures Tried(sent', env, k, n, agent, rule, targets, expires, sessions, had, succeeded)
  {
    hide Works;
  }

  lemma RebuiltLater(s: Sys, s1: Sys, s': Sys, env: Env, id: nat, first: nat)
    requires PassKept(s, s1, {first}) && Rebuilt(s1, s', env, id) && id != first
    requires first in s.db.bindings && s.db.bindings[first].ruleId != s.db.bindings[id].ruleId
    ensures Rebuilt(s, s', env, id)
  {
    hide Tried, TargetsOf;
    assert forall a :: a in s.net.peers.Keys <==> a in s1.net.peers.Keys;
    assert !RuleAmong(s.db, {first}, s.db.bindings[id].ruleId);
    if Connected(s1.net, s1.db.bindings[id].agent) {
      var k, n :| AskedFor(s1, s', env, id, k, n);
      assert AskedFor(s, s', env, id, k, n);
    }
  }

  /** Every one of these is an active ticket in its window, in ascending order. */
  ghost predicate AllLive(s: Sys, ids: seq<nat>) {
    && (forall i :: 0 <= i < |ids| ==> ids[i] in s.db.tickets && LiveAt(s.db.tickets[ids[i]], s.net.now))
    && (forall i, j :: 0 <= i < j < |ids| ==> ids[i] < ids[j])
  }

  function Found(s: Sys, s': Sys, ids: seq<nat>): set<nat> {
    set id | id in ids && id !in s.forwards && id in s'.forwards
  }

  lemma {:induction false} RebuildEachOutcome(s: Sys, env: Env, ids: seq<nat>)
    requires Inv(s, env) && PortsNamed(env) && AllLive(s, ids)
    ensures
      var (s', n) := RebuildEach(s, env, ids);
      && PassKept(s, s', Members(ids)) && n == |Found(s, s', ids)|
      && (forall id :: id in ids && id !in s.forwards ==> Rebuilt(s, s', env, id))
    decreases |ids|
  {
    hide Inv, RebuildOne, PassKept, Rebuilt, LiveAt;
    if ids == [] {
      NothingPassed(s, Members(ids));
      assert Found(s, s, ids) == {};
    } else {
      RebuildOneKeeps(s, env, ids[0]);
      RebuildOneOutcome(s, env, ids[0]);
      var (s1, rebuilt) := RebuildOne(s, env, ids[0]);
      StillLive(s, s1, ids);
      RebuildEachOutcome(s1, env, ids[1..]);
      var (s', n) := RebuildEach(s1, env, ids[1..]);
      RebuiltThenOthers(s, s1, s', env, ids);
      CountFound(s, s1, s', ids);
    }
  }

  lemma StillLive(s: Sys, s1: Sys, ids: seq<nat>)
    requires ids != [] && AllLive(s, ids) && PassKept(s, s1, {ids[0]})
    ensures AllLive(s1, ids[1..])
  {
    forall i | 0 <= i < |ids[1..]| ensures ids[1..][i] in s1.db.tickets && LiveAt(s1.db.tickets[ids[1..][i]], s1.net.now) {
      assert ids[1..][i] == ids[i + 1];
    }
  }

  lemma RebuiltThenOthers(s: Sys, s1: Sys, s': Sys, env: Env, ids: seq<nat>)
    requires ids != [] && AllLive(s, ids) && Inv(s, env)
    requires PassKept(s, s1, {ids[0]}) && (ids[0] !in s.forwards ==> Rebuilt(s, s1, env, ids[0]))
    requires PassKept(s1, s', Members(ids[1..]))
    requires forall id :: id in ids[1..] && id !in s1.forwards ==> Rebuilt(s1, s', env, id)
    ensures PassKept(s, s', Members(ids)) && forall id :: id in ids && id !in s.forwards ==> Rebuilt(s, s', env, id)
  {
    hide Rebuilt, Inv, LiveAt;
    assert ids == [ids[0]] + ids[1..];
    assert ids[0] !in ids[1..];
    assert Members(ids) == {ids[0]} + Members(ids[1..]);
    PassKeptThrough(s, s1, s', ids[0], Members(ids[1..]), Members(ids));
    forall id | id in ids && id !in s.forwards ensures Rebuilt(s, s', env, id) {
      if id == ids[0] {
        RebuiltEarlier(s, s1, s', env, id, Members(ids[1..]));
      } else {
        OwnRules(s, env, id, ids[0]);
        RebuiltLater(s, s1, s', env, id, ids[0]);
      }
    }
  }

  /** Two live tickets are bound under two rules. */
  lemma OwnRules(s: Sys, env: Env, id: nat, other: nat)
    requires Inv(s, env) && id != other
    requires id in s.db.tickets && LiveAt(s.db.tickets[id], s.net.now)
    requires other in s.db.tickets && LiveAt(s.db.tickets[other], s.net.now)
    ensures id in s.db.bindings && other in s.db.bindings && s.db.bindings[id].ruleId != s.db.bindings[other].ruleId
  {
    hide Inv, RuleId, TargetsOf;
    ReapplyPushes(s, env, id);
    ReapplyPushes(s, env, other);
    if RuleId(id) == RuleId(other) {
      RuleIdInjective(id, other);
    }
  }

  lemma CountFound(s: Sys, s1: Sys, s': Sys, ids: seq<nat>)
    requires ids != [] && (forall i, j :: 0 <= i < j < |ids| ==> ids[i] < ids[j])
    requires PassKept(s, s1, {ids[0]}) && PassKept(s1, s', Members(ids[1..]))
    ensures |Found(s, s', ids)| == |Found(s1, s', ids[1..])| + if ids[0] !in s.forwards && ids[0] in s1.forwards then 1 else 0
  {
    hide RuleAmong;
    assert ids[0] !in ids[1..];
    assert ids == [ids[0]] + ids[1..];
    var rest := Found(s1, s', ids[1..]);
    assert forall id :: id in ids[1..] ==> (id in s.forwards <==> id in s1.forwards);
    assert Found(s, s', ids) == if ids[0] !in s.forwards && ids[0] in s1.forwards then rest + {ids[0]} else rest;
  }

  // ---- the pass ----

  /** The listing of live tickets is LiveIn, in order. */
  lemma LiveListed(s: Sys)
    requires TablesInv(s.db)
    ensures AllLive(s, Ids(s.db, s.net.now, false, s.db.next)) && Members(Ids(s.db, s.net.now, false, s.db.next)) == LiveIn(s)
  {
    hide TicketInv;
    var ids := Ids(s.db, s.net.now, false, s.db.next);
    IdsAscend(s.db, s.net.now, false, s.db.next);
    IdsLive(s.db, s.net.now);
    forall id: nat ensures id in ids <==> id in LiveIn(s) {
      IdsExactly(s.db, s.net.now, false, s.db.next, id);
    }
  }

  /** What a rebuild pass leaves behind. */
  ghost predicate Passed(s: Sys, s': Sys, env: Env, n: nat) {
    && PassKept(s, s', LiveIn(s)) && Unknown(s') <= Unknown(s)
    && n == |Unknown(s)| - |Unknown(s')|
    && forall id :: id in Unknown(s) ==> Rebuilt(s, s', env, id)
  }

  lemma PassFrom(s: Sys, env: Env)
    requires Inv(s, env) && PortsNamed(env)
    ensures var (s', n) := RebuildCall(s, env); Passed(s, s', env, n)
  {
    hide Inv, Rebuilt, RebuildEach, AllLive, RuleAmong;
    TablesOf(s, env);
    LiveListed(s);
    hide Ids;
    var ids := Ids(s.db, s.net.now, false, s.db.next);
    IdsListed(s.db, s.net.now, false, s.db.next);
    RebuildEachOutcome(s, env, ids);
    var (s', n) := RebuildCall(s, env);
    assert forall id :: id in ids <==> id in Members(ids);
    assert Unknown(s') == Unknown(s) - Found(s, s', ids);
    assert Found(s, s', ids) <= Unknown(s);
  }

  /**
   * One rebuild pass, in any serial run: tables, known addresses and entries stay, each ticket
   * whose address was unknown is rebuilt as its own agent answers, and the number returned is
   * how many addresses became known.
   */
  lemma RebuildOutcome(now: int, env: Env, events: seq<Event>)
    requires PortsNamed(env)
    ensures var s := Run(now, env, events); var (s', n) := RebuildCall(s, env); Passed(s, s', env, n)
  {
    hide Inv, Passed, RebuildCall;
    RunKeeps(now, env, events);
    PassFrom(Run(now, env, events), env);
  }

  /** The ticket has its address cached, and it is that of the listener its agent runs for it. */
  ghost predicate Reachable(s: Sys, id: nat) {
    && id in s.forwards && id in s.db.bindings
    && var agent := s.db.bindings[id].agent;
       && agent in s.net.peers && RuleId(id) in s.net.peers[agent].rules
       && s.net.peers[agent].rules[RuleId(id)].addr == s.forwards[id]
  }

  /** The ticket's targets are ones an agent accepts. */
  ghost predicate TargetsValid(s: Sys, id: nat) {
    id in s.db.tickets && forall t :: t in TargetsOf(s.db, s.db.tickets[id]) ==> Valid(t)
  }

  /** With its own agent answering, a ticket's address is known after the pass, whatever the other agents do. */
  lemma AnsweredRebuilds(s: Sys, s': Sys, env: Env, n: nat, id: nat)
    requires Inv(s, env) && Passed(s, s', env, n) && id in Unknown(s)
    ensures id in s'.forwards ==> Reachable(s', id)
    ensures id in s.db.bindings && !Connected(s.net, s.db.bindings[id].agent) ==> id !in s'.forwards
    ensures AgentAnswers(s, s', env, id) && TargetsValid(s, id) ==> Reachable(s', id)
  {
    hide Inv, TargetsOf, RuleId, RuleAmong;
    ReapplyPushes(s, env, id);
    assert Rebuilt(s, s', env, id);
  }

  lemma RebuildReaches(now: int, env: Env, events: seq<Event>, id: nat)
    requires PortsNamed(env) && id in Unknown(Run(now, env, events))
    ensures
      var s := Run(now, env, events);
      var s' := RebuildCall(s, env).0;
      && (id in s'.forwards ==> Reachable(s', id))
      && (id in s.db.bindings && !Connected(s.net, s.db.bindings[id].agent) ==> id !in s'.forwards)
      && (AgentAnswers(s, s', env, id) && TargetsValid(s, id) ==> Reachable(s', id))
  {
    hide Inv, Passed, RebuildCall, AgentAnswers, TargetsValid, Reachable;
    RunKeeps(now, env, events);
    PassFrom(Run(now, env, events), env);
    AnsweredRebuilds(Run(now, env, events), RebuildCall(Run(now, env, events), env).0, env, RebuildCall(Run(now, env, events), env).1, id);
  }

  lemma {:induction false} RebuildEachIdle(s: Sys, env: Env, ids: seq<nat>)
    requires forall i :: 0 <= i < |ids| ==> ids[i] in s.db.tickets && ids[i] in s.forwards
    ensures RebuildEach(s, env, ids) == (s, 0)
    decreases |ids|
  {
    if ids != [] {
      RebuildEachIdle(s, env, ids[1..]);
    }
  }

  /** A pass that finds every address known changes nothing, sends nothing and returns 0. */
  lemma RebuildIdle(s: Sys, env: Env)
    requires Unknown(s) == {}
    ensures RebuildCall(s, env) == (s, 0)
  {
    IdsLive(s.db, s.net.now);
    IdsListed(s.db, s.net.now, false, s.db.next);
    var ids := Ids(s.db, s.net.now, false, s.db.next);
    forall i | 0 <= i < |ids| ensures ids[i] in s.forwards {
      assert ids[i] !in Unknown(s);
    }
    RebuildEachIdle(s, env, ids);
  }

  /**
   * After a rebuild pass in which the agent of every unknown ticket answers, every active
   * unexpired ticket has its address cached, and an immediate second pass sends nothing and
   * returns 0.
   */
  lemma RebuildIsTotal(now: int, env: Env, events: seq<Event>)
    requires PortsNamed(env)
    requires
      var s := Run(now, env, events);
      forall id :: id in Unknown(s) ==> AgentAnswers(s, RebuildCall(s, env).0, env, id) && TargetsValid(s, id)
    ensures
      var s1 := RebuildCall(Run(now, env, events), env).0;
      Unknown(s1) == {} && RebuildCall(s1, env) == (s1, 0)
  {
    hide Inv, RebuildCall, AgentAnswers, TargetsValid, RuleId;
    var s := Run(now, env, events);
    var s1 := RebuildCall(s, env).0;
    RebuildOutcome(now, env, events);
    forall id ensures id !in Unknown(s1) {
      if id in Unknown(s) {
        RebuildReaches(now, env, events, id);
      }
    }
    RebuildIdle(s1, env);
  }

  // ---- an agent reconnects ----

  /** The live tickets bound to the agent. */
  function BoundLive(s: Sys, agent: int): set<nat> {
    set id | id in LiveIn(s) && id in s.db.bindings && s.db.bindings[id].agent == agent
  }

  lemma ClearedExactly(s: Sys, env: Env, agent: int)
    requires Inv(s, env)
    ensures BoundTo(s.db, agent, Ids(s.db, s.net.now, false, s.db.next)) == BoundLive(s, agent)
  {
    hide Inv;
    TablesOf(s, env);
    LiveListed(s);
    hide Ids;
    var ids := Ids(s.db, s.net.now, false, s.db.next);
    assert forall id :: id in ids <==> id in Members(ids);
  }

  /** What a reconnect achieves for a live ticket bound to the agent. */
  ghost predicate Restored(s: Sys, s': Sys, env: Env, agent: int, id: nat) {
    && (id in s'.forwards ==> Reachable(s', id))
    && (!Connected(s.net, agent) ==> id !in s'.forwards)
    && (Connected(s.net, agent) && AckedTo(s, s', env, agent) && TargetsValid(s, id) ==> Reachable(s', id))
  }

  /**
   * When an agent reconnects, every cached address of a live ticket bound to it is afterwards
   * that of a listener it runs now, even if the agent had restarted and the old address was
   * dead; if it answers, each of them is cached. The addresses of all other tickets stay as
   * they are, and without a live ticket bound to the agent nothing is sent.
   */
  lemma ReconnectOutcome(now: int, env: Env, events: seq<Event>, agent: int)
    requires PortsNamed(env)
    ensures
      var s := Run(now, env, events);
      var s' := ReconnectCall(s, env, agent);
      && s' == s.(net := s'.net, forwards := s'.forwards, stale := s.stale - {agent})
      && (forall k :: k in s.forwards && k !in BoundLive(s, agent) ==> k in s'.forwards && s'.forwards[k] == s.forwards[k])
      && (forall id :: id in BoundLive(s, agent) ==> Restored(s, s', env, agent, id))
      && (BoundLive(s, agent) == {} ==> s'.net == s.net && s'.forwards == s.forwards)
  {
    hide Inv, RebuildCall, Restored, Ids;
    var s := Run(now, env, events);
    RunKeeps(now, env, events);
    ClearedExactly(s, env, agent);
    ClearedKeeps(s, env, agent);
    if BoundLive(s, agent) != {} {
      hide BoundTo;
      RestoredFrom(s, env, agent);
    }
  }

  lemma RestoredFrom(s: Sys, env: Env, agent: int)
    requires Inv(s, env) && Inv(Cleared(s, agent), env) && PortsNamed(env)
    requires Cleared(s, agent) == s.(stale := s.stale - {agent}, forwards := s.forwards - BoundLive(s, agent))
    ensures
      var s' := RebuildCall(Cleared(s, agent), env).0;
      && s' == s.(net := s'.net, forwards := s'.forwards, stale := s.stale - {agent})
      && (forall k :: k in s.forwards && k !in BoundLive(s, agent) ==> k in s'.forwards && s'.forwards[k] == s.forwards[k])
      && (forall id :: id in BoundLive(s, agent) ==> Restored(s, s', env, agent, id))
  {
    hide Inv, RebuildCall, Cleared, TargetsValid, Reachable;
    var s1 := Cleared(s, agent);
    PassFrom(s1, env);
    var (s', n) := RebuildCall(s1, env);
    assert PassKept(s1, s', LiveIn(s1));
    forall id | id in BoundLive(s, agent) ensures Restored(s, s', env, agent, id) {
      hide Passed;
      AnsweredRebuilds(s1, s', env, n, id);
      SameTargetsValid(s, s1, id);
    }
  }

  lemma SameTargetsValid(s: Sys, s1: Sys, id: nat)
    requires s1.db == s.db
    ensures TargetsValid(s1, id) == TargetsValid(s, id)
  {
  }

  // ---- the scheduler's pass ----

  /** What a scheduler pass achieves for a ticket that was active in its window. */
  ghost predicate KeptLive(s: Sys, s': Sys, env: Env, id: nat) {
    && id in s.db.tickets && id in s'.db.tickets && s'.db.tickets[id] == s.db.tickets[id]
    && (id in s.forwards ==> id in s'.forwards && s'.forwards[id] == s.forwards[id])
    && (id !in s.forwards && id in s'.forwards ==> Reachable(s', id))
    && (id !in s.forwards && AgentAnswers(s, s', env, id) && TargetsValid(s, id) ==> Reachable(s', id))
  }

  /**
   * What one scheduler pass achieves if the transactions commit: afterwards every active
   * ticket is in its window; a ticket that was past it is closed if its own agent answers, and
   * closed or revoke_pending in any case; one in its window is left active, and its address
   * becomes known if its own agent answers, whatever the other agents do.
   */
  lemma PassOutcome(now: int, env: Env, events: seq<Event>)
    requires PortsNamed(env) && AllCommit(Run(now, env, events), env)
    ensures
      var s := Run(now, env, events);
      var s' := RebuildCall(ExpireDueCall(s, env).0, env).0;
      && s'.net.now == s.net.now
      && (forall id :: id in s'.db.tickets && s'.db.tickets[id].status == Active ==>
            s'.db.tickets[id].expires.Some? && s'.db.tickets[id].expires.value > s'.net.now)
      && (forall id :: id in DueIn(s) ==>
            && id in s'.db.tickets && (s'.db.tickets[id].status == Closed || s'.db.tickets[id].status == RevokePending)
            && (AgentAnswers(s, s', env, id) ==> s'.db.tickets[id].status == Closed))
      && (forall id :: id in LiveIn(s) ==> KeptLive(s, s', env, id))
  {
    hide Inv, RebuildCall, ExpireDueCall, Swept, Passed, KeptLive, AgentAnswers;
    var s := Run(now, env, events);
    var (s1, n) := ExpireDueCall(s, env);
    RunKeeps(now, env, events);
    SweepKeeps(s, env);
    TablesOf(s, env);
    SweepFrom(s, env);
    PassFrom(s1, env);
    var (s', m) := RebuildCall(s1, env);
    NothingDue(s, s1, s', env, n, m);
    forall id | id in DueIn(s)
      ensures id in s'.db.tickets && (s'.db.tickets[id].status == Closed || s'.db.tickets[id].status == RevokePending)
      ensures AgentAnswers(s, s', env, id) ==> s'.db.tickets[id].status == Closed
    {
      DueEnds(s, s1, s', env, n, m, id);
    }
    forall id | id in LiveIn(s) ensures KeptLive(s, s', env, id) {
      LiveStays(s, s1, s', env, n, m, id);
    }
  }

  lemma SweepKeeps(s: Sys, env: Env)
    requires Inv(s, env)
    ensures Inv(ExpireDueCall(s, env).0, env)
  {
    hide Inv, RevokeEach;
    RevokeEachKeeps(s, env, Ids(s.db, s.net.now, true, s.db.next));
  }

  lemma NothingDue(s: Sys, s1: Sys, s': Sys, env: Env, n: nat, m: nat)
    requires AllCommit(s, env) && Swept(s, s1, env, n) && Passed(s1, s', env, m) && Inv(s1, env)
    ensures s'.net.now == s.net.now
    ensures forall id :: id in s'.db.tickets && s'.db.tickets[id].status == Active ==>
      s'.db.tickets[id].expires.Some? && s'.db.tickets[id].expires.value > s'.net.now
  {
    hide Inv, RuleAmong, Rebuilt;
    TablesOf(s1, env);
    forall id | id in s'.db.tickets && s'.db.tickets[id].status == Active
      ensures s'.db.tickets[id].expires.Some? && s'.db.tickets[id].expires.value > s'.net.now
    {
      ActiveExpires(s1.db, id);
      assert id in s.db.tickets.Keys;
      assert id in DueIn(s) ==> Revoked(s, s1, env, id);
    }
  }

  lemma ActiveExpires(db: Db, id: nat)
    requires TablesInv(db) && id in db.tickets && db.tickets[id].status == Active
    ensures db.tickets[id].expires.Some?
  {
    hide ApprovalInv;
    assert TicketInv(db, id);
  }

  lemma DueEnds(s: Sys, s1: Sys, s': Sys, env: Env, n: nat, m: nat, id: nat)
    requires AllCommit(s, env) && Swept(s, s1, env, n) && Passed(s1, s', env, m) && id in DueIn(s)
    ensures id in s'.db.tickets && (s'.db.tickets[id].status == Closed || s'.db.tickets[id].status == RevokePending)
    ensures AgentAnswers(s, s', env, id) ==> s'.db.tickets[id].status == Closed
  {
    hide RuleAmong, Rebuilt, Swept, DueIn;
    assert s'.db == s1.db && s1.net.sent <= s'.net.sent;
    DueRevoked(s, s1, env, n, id);
    if AgentAnswers(s, s', env, id) {
      EarlierAnswers(s, s1, s', env, id);
      AnsweredCloses(s, s1, env, n, id);
    }
  }

  lemma DueRevoked(s: Sys, s1: Sys, env: Env, n: nat, id: nat)
    requires AllCommit(s, env) && Swept(s, s1, env, n) && id in DueIn(s)
    ensures id in s1.db.tickets && (s1.db.tickets[id].status == Closed || s1.db.tickets[id].status == RevokePending)
  {
    hide OthersSame, NetKept;
    assert Revoked(s, s1, env, id);
  }

  lemma EarlierAnswers(s: Sys, s1: Sys, s': Sys, env: Env, id: nat)
    requires AgentAnswers(s, s', env, id) && s1.net.sent <= s'.net.sent
    ensures AgentAnswers(s, s1, env, id)
  {
    if id in s.db.bindings {
      var agent := s.db.bindings[id].agent;
      forall k {:trigger s1.net.sent[k]} | |s.net.sent| <= k < |s1.net.sent| && s1.net.sent[k].agent == agent ensures env.fate(k) == Acked {
        assert s'.net.sent[k] == s1.net.sent[k];
      }
    }
  }

  lemma LaterAnswers(s: Sys, s1: Sys, s': Sys, env: Env, id: nat)
    requires AgentAnswers(s, s', env, id) && s.net.sent <= s1.net.sent && s1.db.bindings == s.db.bindings
    requires forall a :: Connected(s.net, a) ==> Connected(s1.net, a)
    ensures AgentAnswers(s1, s', env, id)
  {
  }

  lemma LiveStays(s: Sys, s1: Sys, s': Sys, env: Env, n: nat, m: nat, id: nat)
    requires Swept(s, s1, env, n) && Passed(s1, s', env, m) && Inv(s1, env) && id in LiveIn(s)
    ensures KeptLive(s, s', env, id)
  {
    hide Inv, RuleAmong, Rebuilt, Revoked, AgentAnswers, TargetsValid, Reachable;
    assert id !in DueIn(s) && id in s1.db.tickets.Keys;
    assert s1.db.tickets[id] == s.db.tickets[id];
    assert forall a :: a in s.net.peers.Keys <==> a in s1.net.peers.Keys;
    if id !in s.forwards {
      assert id in Unknown(s1);
      AnsweredRebuilds(s1, s', env, m, id);
      SameTargets(s, s1, id);
      if AgentAnswers(s, s', env, id) {
        LaterAnswers(s, s1, s', env, id);
      }
    }
  }

  lemma SameTargets(s: Sys, s1: Sys, id: nat)
    requires s1.db.assets == s.db.assets && id in s.db.tickets && id in s1.db.tickets && s1.db.tickets[id] == s.db.tickets[id]
    ensures TargetsValid(s1, id) == TargetsValid(s, id)
  {
  }
}
