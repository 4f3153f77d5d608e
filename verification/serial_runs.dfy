/**
 * Serial runs: engine calls run to completion at one instant, and between calls time
 * passes, timers fire, agents and the server restart, and rows are added.
 */
module SerialRuns {
  import opened Wrappers
  import opened RuleIds
  import opened Store
  import opened Forwarding
  import opened Gateways
  import opened EngineSpec

  datatype Event =
    | OnSubmit(input: SubmitInput)
    | OnApprove(id: nat, approver: int)
    | OnReject(id: nat, approver: int)
    | OnRevoke(id: nat)
    | OnExpireDue
    | OnRebuild
    | OnReconnect(agent: int)
    | ServerRestart
    | AgentRestart(agent: int)
    | AgentUp(agent: int)
    | AgentDown(agent: int)
    | Wait(seconds: nat)
    | CatalogChange(txn: Txn)
    | OpenShell(id: nat)
    | DropShell(id: nat)

  function PeerOf(net: Net, agent: int): Peer {
    if agent in net.peers then net.peers[agent] else Peer(false, map[])
  }

  function WithPeer(s: Sys, agent: int, peer: Peer): Sys {
    s.(net := s.net.(peers := s.net.peers[agent := peer]))
  }

  function Step(s: Sys, env: Env, e: Event): Sys {
    match e
    case OnSubmit(input) => Transact(s, env, Submit(input)).0
    case OnApprove(id, approver) => ApproveCall(s, env, id, approver).0
    case OnReject(id, approver) => Transact(s, env, Reject(id, approver)).0
    case OnRevoke(id) => RevokeCall(s, env, id).0
    case OnExpireDue => ExpireDueCall(s, env).0
    case OnRebuild => RebuildCall(s, env).0
    case OnReconnect(agent) => ReconnectCall(s, env, agent)
    case ServerRestart =>
      s.(forwards := map[], sessions := {},
         net := s.net.(peers := map a | a in s.net.peers :: s.net.peers[a].(up := false)))
    case AgentRestart(agent) => WithPeer(s, agent, Peer(false, map[])).(stale := s.stale + {agent})
    case AgentUp(agent) => WithPeer(s, agent, PeerOf(s.net, agent).(up := true))
    case AgentDown(agent) => WithPeer(s, agent, PeerOf(s.net, agent).(up := false))
    case Wait(seconds) =>
      var now := s.net.now + seconds;
      s.(net := s.net.(now := now,
         peers := map a | a in s.net.peers :: s.net.peers[a].(rules := Expire(s.net.peers[a].rules, now))))
    case CatalogChange(txn) => if OfCatalog(txn) then Transact(s, env, txn).0 else s
    case OpenShell(id) =>
      if id in s.db.tickets && s.db.tickets[id].status == Active then s.(sessions := s.sessions + {id}) else s
    case DropShell(id) => s.(sessions := s.sessions - {id})
  }

  function Start(now: int): Sys {
    Sys(Net(now, map[], []), EmptyDb(), map[], 0, {}, map[], {})
  }

  function Run(now: int, env: Env, events: seq<Event>): Sys {
    if events == [] then Start(now)
    else Step(Run(now, env, events[..|events| - 1]), env, events[|events| - 1])
  }

  // ---- the invariant ----

  /** A grant fixes an expiry 60 to 86400 s after it began and a target list that later lists only extend. */
  ghost predicate GrantOk(s: Sys, id: nat)
    requires id in s.grants
  {
    var g := s.grants[id];
    && id in s.db.tickets && WasApproved(s.db.tickets[id].status)
    && g.start <= s.net.now && g.expires == g.start + s.db.tickets[id].duration && 60 <= g.expires - g.start <= 86400
    && g.targets != [] && g.targets <= TargetsOf(s.db, s.db.tickets[id])
  }

  /** A ticket that was activated carries the agent and the expiry of its grant. */
  ghost predicate RowOk(s: Sys, id: nat)
    requires id in s.db.tickets
  {
    var t := s.db.tickets[id];
    Enforced(t.status) ==>
      && id in s.grants && t.expires == Some(s.grants[id].expires)
      && id in s.db.bindings && s.db.bindings[id].agent == s.grants[id].agent
  }

  /** What a live entry for the ticket looks like: target, allowlist and deadline are those of its grant. */
  ghost predicate Granted(s: Sys, env: Env, agent: int, e: Entry, id: nat) {
    && id in s.grants && s.grants[id].agent == agent && s.grants[id].targets != []
    && e.target == OnWire(s.grants[id].targets[0])
    && e.allow == Allowlist(env.Sources())
    && e.deadline == Some(s.grants[id].expires)
    && s.net.now < s.grants[id].expires
    && e.addr != ""
  }

  ghost predicate EntryOk(s: Sys, env: Env, agent: int, rule: string)
    requires agent in s.net.peers && rule in s.net.peers[agent].rules
  {
    exists id: nat {:trigger RuleId(id)} :: rule == RuleId(id) && Granted(s, env, agent, s.net.peers[agent].rules[rule], id)
  }

  /** The cached address of a live ticket is that of its listener, unless its agent restarted and did not yet reconnect. */
  ghost predicate CacheOk(s: Sys, id: nat)
    requires id in s.db.tickets
  {
    LiveAt(s.db.tickets[id], s.net.now) && id in s.forwards && id in s.db.bindings && s.db.bindings[id].agent !in s.stale ==>
      var agent := s.db.bindings[id].agent;
      && agent in s.net.peers && RuleId(id) in s.net.peers[agent].rules
      && s.net.peers[agent].rules[RuleId(id)].addr == s.forwards[id]
  }

  /** No revoke command was sent while a session of its ticket was open. */
  ghost predicate SentOk(s: Sys, i: nat)
    requires i < |s.net.sent|
  {
    forall id: nat {:trigger RuleId(id)} :: s.net.sent[i].cmd == Revoke(RuleId(id)) ==> id !in s.net.sent[i].sessions
  }

  ghost predicate Granting(s: Sys) {
    && (forall id :: id in s.grants ==> GrantOk(s, id))
    && (forall id :: id in s.db.tickets ==> RowOk(s, id))
  }

  ghost predicate Enforcing(s: Sys, env: Env) {
    forall a, r :: a in s.net.peers && r in s.net.peers[a].rules ==> EntryOk(s, env, a, r)
  }

  ghost predicate Coherent(s: Sys) {
    forall id :: id in s.db.tickets ==> CacheOk(s, id)
  }

  ghost predicate Tidy(s: Sys) {
    forall i :: 0 <= i < |s.net.sent| ==> SentOk(s, i)
  }

  ghost predicate Inv(s: Sys, env: Env) {
    TablesInv(s.db) && Audited(s.db) && Granting(s) && Enforcing(s, env) && Coherent(s) && Tidy(s)
  }
}
