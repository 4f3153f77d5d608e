/** The engine's calls as functions on the whole system, each running to completion at one instant. */
module EngineSpec {
  import opened Wrappers
  import opened RuleIds
  import opened Store
  import opened Forwarding
  import opened Gateways

  /**
   * `sessions` are the tickets with an open web shell, `txs` counts transactions.
   * History only: `grants`, and `stale`, the agents that restarted since their last OnAgentReconnect.
   */
  datatype Sys = Sys(
    net: Net, db: Db, forwards: map<nat, string>, txs: nat, sessions: set<nat>,
    grants: map<nat, Grant>, stale: set<int>)

  type Outcome = Option<Error>

  function Transact(s: Sys, env: Env, txn: Txn): (Sys, Outcome) {
    var commits := env.commits(s.txs);
    var outcome :=
      if !commits then Some(Database)
      else match Exec(s.db, txn)
        case Success(_) => None
        case Failure(e) => Some(e);
    (s.(db := After(s.db, txn, commits), txs := s.txs + 1), outcome)
  }

  function ApplyCall(s: Sys, env: Env, id: nat): (Sys, Outcome) {
    if id !in s.db.tickets then (s, Some(NotFound))
    else
      var t := s.db.tickets[id];
      if t.status != Approved then (s, Some(Conflict))
      else if PrimaryOf(s.db, t.project).None? then (s, Some(Validation))
      else
        var agent := PrimaryOf(s.db, t.project).value;
        var targets := TargetsOf(s.db, t);
        var expires := s.net.now + t.duration;
        var s1 := s.(grants := s.grants[id := Grant(agent, targets, s.net.now, expires)]);
        var (net, forward) := Push(s.net, env, agent, RuleId(id), targets, Some(expires), s.sessions);
        if forward.None? then (Transact(s1.(net := net), env, FailApply(id)).0, Some(Gateway))
        else Transact(s1.(net := net, forwards := s.forwards[id := forward.value]), env, Activate(id, agent, expires))
  }

  function ApproveCall(s: Sys, env: Env, id: nat, approver: int): (Sys, Outcome) {
    var (s1, outcome) := Transact(s, env, Approve(id, approver));
    if outcome.Some? then (s1, outcome) else ApplyCall(s1, env, id)
  }

  function RevokeCall(s: Sys, env: Env, id: nat): (Sys, Outcome) {
    var (s1, outcome) := Transact(s, env, BeginRevoke(id));
    if outcome.Some? then (s1, outcome)
    else
      var s2 := s1.(sessions := s1.sessions - {id});
      if id !in s2.db.bindings then Finish(s2, env, id)
      else
        var b := s2.db.bindings[id];
        var (net, answer) := Pull(s2.net, env, b.agent, b.ruleId, s2.sessions);
        var s3 := s2.(net := net);
        if answer.None? then (Transact(s3, env, DeferRevoke(id)).0, Some(Gateway))
        else Finish(s3, env, id)
  }

  function Finish(s: Sys, env: Env, id: nat): (Sys, Outcome) {
    Transact(s.(forwards := s.forwards - {id}), env, FinishRevoke(id))
  }

  /** Revoke one ticket after the other; the count is of calls that succeeded. */
  function RevokeEach(s: Sys, env: Env, ids: seq<nat>): (Sys, nat)
    decreases |ids|
  {
    if ids == [] then (s, 0)
    else
      var (s1, outcome) := RevokeCall(s, env, ids[0]);
      var (s2, n) := RevokeEach(s1, env, ids[1..]);
      (s2, n + if outcome.None? then 1 else 0)
  }

  function ExpireDueCall(s: Sys, env: Env): (Sys, nat) {
    RevokeEach(s, env, Ids(s.db, s.net.now, true, s.db.next))
  }

  function Reapply(s: Sys, env: Env, id: nat): (Sys, Option<string>)
    requires id in s.db.tickets
  {
    if id !in s.db.bindings then (s, None)
    else
      var t, b := s.db.tickets[id], s.db.bindings[id];
      var (net, forward) := Push(s.net, env, b.agent, b.ruleId, TargetsOf(s.db, t), t.expires, s.sessions);
      (s.(net := net), forward)
  }

  function RebuildOne(s: Sys, env: Env, id: nat): (Sys, bool)
    requires id in s.db.tickets
  {
    if id in s.forwards then (s, false)
    else
      var (s1, forward) := Reapply(s, env, id);
      if forward.None? then (s1, false) else (s1.(forwards := s1.forwards[id := forward.value]), true)
  }

  function RebuildEach(s: Sys, env: Env, ids: seq<nat>): (Sys, nat)
    requires forall i :: 0 <= i < |ids| ==> ids[i] in s.db.tickets
    ensures RebuildEach(s, env, ids).0.db == s.db
    decreases |ids|
  {
    if ids == [] then (s, 0)
    else
      var (s1, rebuilt) := RebuildOne(s, env, ids[0]);
      var (s2, n) := RebuildEach(s1, env, ids[1..]);
      (s2, n + if rebuilt then 1 else 0)
  }

  function RebuildCall(s: Sys, env: Env): (Sys, nat) {
    var ids := Ids(s.db, s.net.now, false, s.db.next);
    IdsListed(s.db, s.net.now, false, s.db.next);
    RebuildEach(s, env, ids)
  }

  lemma IdsListed(db: Db, now: int, due: bool, below: nat)
    ensures forall i :: 0 <= i < |Ids(db, now, due, below)| ==> Ids(db, now, due, below)[i] in db.tickets
  {
    forall i | 0 <= i < |Ids(db, now, due, below)| ensures Ids(db, now, due, below)[i] in db.tickets {
      IdsExactly(db, now, due, below, Ids(db, now, due, below)[i]);
    }
  }

  /** The listed tickets bound to the agent. */
  function BoundTo(db: Db, agent: int, ids: seq<nat>): set<nat> {
    set id | id in ids && id in db.bindings && db.bindings[id].agent == agent
  }

  function ReconnectCall(s: Sys, env: Env, agent: int): Sys {
    var cleared := BoundTo(s.db, agent, Ids(s.db, s.net.now, false, s.db.next));
    var s1 := s.(stale := s.stale - {agent}, forwards := s.forwards - cleared);
    if cleared == {} then s1 else RebuildCall(s1, env).0
  }
}
