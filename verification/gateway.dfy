/**
 * The gateway between the engine and the agents, one engine call at a time: every
 * command either reaches its agent or not, and its ack either comes back or not.
 */
module Gateways {
  import opened Wrappers
  import opened Store
  import opened Forwarding

  /** What becomes of one command: obeyed and acked, obeyed but the ack is lost, never delivered, or failing at the socket. */
  datatype Fate = Acked | AckLost | Dropped | Refused

  /** History of one command sent, with the tickets that had a web shell session open at that moment. */
  datatype Sent = Sent(agent: int, cmd: Command, sessions: set<nat>)

  datatype Peer = Peer(up: bool, rules: Rules)

  datatype Net = Net(now: int, peers: map<int, Peer>, sent: seq<Sent>)

  /** Everything the engine does not decide: the fate and port of command number k, and whether transaction number k commits. */
  datatype Env = Env(srcPeerIPs: seq<string>, fate: nat -> Fate, port: nat -> string, commits: nat -> bool) {
    /** The source addresses as sent: never empty, so that the agent accepts the command. */
    function Sources(): seq<string> {
      if srcPeerIPs == [] then [""] else srcPeerIPs
    }
  }

  predicate Connected(net: Net, agent: int) {
    agent in net.peers && net.peers[agent].up
  }

  function Exchange(net: Net, env: Env, agent: int, cmd: Command, sessions: set<nat>): (Net, Option<string>)
    requires agent in net.peers
  {
    var k := |net.sent|;
    var net1 := net.(sent := net.sent + [Sent(agent, cmd, sessions)]);
    if env.fate(k) == Dropped then (net1, None)
    else
      var peer := net.peers[agent];
      var (rules, answer) := Obey(peer.rules, cmd, net.now, env.fate(k) != Refused, env.port(k));
      (net1.(peers := net.peers[agent := peer.(rules := rules)]),
       if env.fate(k) == AckLost then None else answer)
  }

  /** One Apply per target under one rule id, stopping at the first failure; the first address reported wins. */
  function PushEach(net: Net, env: Env, agent: int, rule: string, targets: seq<Target>, expires: Option<int>,
                     sessions: set<nat>, addr: string): (Net, Option<string>)
    requires agent in net.peers
    decreases |targets|
  {
    if targets == [] then (net, Some(addr))
    else
      var (net1, answer) := Exchange(net, env, agent, Apply(rule, env.Sources(), OnWire(targets[0]), expires), sessions);
      if answer.None? then (net1, None)
      else PushEach(net1, env, agent, rule, targets[1..], expires, sessions,
                     if addr == "" && answer.value != "" then answer.value else addr)
  }

  function Push(net: Net, env: Env, agent: int, rule: string, targets: seq<Target>, expires: Option<int>,
                     sessions: set<nat>): (Net, Option<string>)
  {
    if !Connected(net, agent) then (net, None)
    else PushEach(net, env, agent, rule, targets, expires, sessions, "")
  }

  function Pull(net: Net, env: Env, agent: int, rule: string, sessions: set<nat>): (Net, Option<string>) {
    if !Connected(net, agent) then (net, None)
    else Exchange(net, env, agent, Revoke(rule), sessions)
  }

  // ---- the controller ----

  class Controller {
    const env: Env
    var now: int
    var peers: map<int, Peer>
    var sent: seq<Sent>

    function Abs(): Net
      reads this
    {
      Net(now, peers, sent)
    }

    constructor (env: Env, now: int)
      ensures this.env == env && Abs() == Net(now, map[], [])
    {
      this.env, this.now := env, now;
      peers, sent := map[], [];
    }

    method Roundtrip(agent: int, cmd: Command, sessions: set<nat>) returns (answer: Option<string>)
      requires agent in peers
      modifies this
      ensures (Abs(), answer) == Exchange(old(Abs()), env, agent, cmd, sessions)
    {
      var k := |sent|;
      sent := sent + [Sent(agent, cmd, sessions)];
      if env.fate(k) == Dropped {
        return None;
      }
      var (rules, reply) := Obey(peers[agent].rules, cmd, now, env.fate(k) != Refused, env.port(k));
      peers := peers[agent := peers[agent].(rules := rules)];
      answer := if env.fate(k) == AckLost then None else reply;
    }

    method ApplyRule(agent: int, rule: string, targets: seq<Target>, expires: Option<int>, sessions: set<nat>)
      returns (forward: Option<string>)
      modifies this
      ensures (Abs(), forward) == Push(old(Abs()), env, agent, rule, targets, expires, sessions)
    {
      if !(agent in peers && peers[agent].up) {
        return None;
      }
      var srcs := env.srcPeerIPs;
      if |srcs| == 0 {
        srcs := [""];
      }
      var addr := "";
      var i := 0;
      while i < |targets|
        invariant 0 <= i <= |targets| && agent in peers
        invariant PushEach(old(Abs()), env, agent, rule, targets, expires, sessions, "")
               == PushEach(Abs(), env, agent, rule, targets[i..], expires, sessions, addr)
      {
        assert targets[i..][0] == targets[i] && targets[i..][1..] == targets[i + 1..];
        var answer := Roundtrip(agent, Apply(rule, srcs, OnWire(targets[i]), expires), sessions);
        if answer.None? {
          return None;
        }
        if addr == "" && answer.value != "" {
          addr := answer.value;
        }
        i := i + 1;
      }
      return Some(addr);
    }

    method RevokeRule(agent: int, rule: string, sessions: set<nat>) returns (answer: Option<string>)
      modifies this
      ensures (Abs(), answer) == Pull(old(Abs()), env, agent, rule, sessions)
    {
      if !(agent in peers && peers[agent].up) {
        return None;
      }
      answer := Roundtrip(agent, Revoke(rule), sessions);
    }
  }

  // ---- what a call leaves behind ----

  /** No bound port is reported as the empty string. */
  ghost predicate PortsNamed(env: Env) {
    forall k: nat :: env.port(k) != ""
  }

  ghost predicate Named(rules: Rules) {
    forall r :: r in rules ==> rules[r].addr != ""
  }

  ghost predicate SameButRule(before: Rules, after: Rules, rule: string) {
    forall r :: r != rule ==> (r in after <==> r in before) && (r in before ==> after[r] == before[r])
  }

  /** The entry a first Apply of the rule creates, if it creates one. */
  function Created(env: Env, target: Target, expires: Option<int>, now: int, addr: string): Entry {
    var ttl := Ttl(expires, now);
    Entry(OnWire(target), Allowlist(env.Sources()), addr, if ttl > 0 then Some(now + ttl) else None, now)
  }

  /** One Apply at the agent, whether or not binding the port works. */
  lemma ObeyedApply(rules: Rules, env: Env, rule: string, target: Target, expires: Option<int>, now: int, works: bool, port: string)
    requires Named(rules) && port != ""
    ensures
      var (rules', answer) := Obey(rules, Apply(rule, env.Sources(), OnWire(target), expires), now, works, port);
      && SameButRule(rules, rules', rule) && Named(rules')
      && (rule in rules ==> rule in rules' && rules'[rule] == rules[rule])
      && (rule in rules' && rule !in rules ==> rules'[rule] == Created(env, target, expires, now, rules'[rule].addr))
      && (answer.Some? ==> rule in rules' && rules'[rule].addr == answer.value != "")
  {
    hide Allowlist, OnWire;
  }

  /** One Apply command, whatever its fate. */
  lemma ApplyOneOutcome(net: Net, env: Env, agent: int, rule: string, target: Target, expires: Option<int>, sessions: set<nat>)
    requires agent in net.peers && PortsNamed(env) && Named(net.peers[agent].rules)
    ensures
      var (net', answer) := Exchange(net, env, agent, Apply(rule, env.Sources(), OnWire(target), expires), sessions);
      && net'.now == net.now && net'.peers.Keys == net.peers.Keys
      && (forall a :: a in net.peers && a != agent ==> net'.peers[a] == net.peers[a])
      && net'.peers[agent].up == net.peers[agent].up
      && var before, after := net.peers[agent].rules, net'.peers[agent].rules;
         && SameButRule(before, after, rule) && Named(after)
         && (rule in before ==> rule in after && after[rule] == before[rule])
         && (rule in after && rule !in before ==> after[rule] == Created(env, target, expires, net.now, after[rule].addr))
         && (answer.Some? ==> rule in after && after[rule].addr == answer.value != "")
  {
    hide Obey, Created, OnWire, Env.Sources;
    var k := |net.sent|;
    ObeyedApply(net.peers[agent].rules, env, rule, target, expires, net.now, env.fate(k) != Refused, env.port(k));
  }

  /**
   * Whatever the fates, applying a rule touches no other agent and no other rule, leaves a
   * live entry alone, creates at most the entry of the first target, and when it succeeds
   * it returns the address of the entry that is there.
   */
  lemma {:induction false} PushEachOutcome(net: Net, env: Env, agent: int, rule: string, targets: seq<Target>,
                                            expires: Option<int>, sessions: set<nat>, addr: string)
    requires agent in net.peers && PortsNamed(env) && Named(net.peers[agent].rules)
    requires addr != "" ==> rule in net.peers[agent].rules && net.peers[agent].rules[rule].addr == addr
    ensures
      var (net', forward) := PushEach(net, env, agent, rule, targets, expires, sessions, addr);
      && net'.now == net.now && net'.peers.Keys == net.peers.Keys
      && (forall a :: a in net.peers && a != agent ==> net'.peers[a] == net.peers[a])
      && net'.peers[agent].up == net.peers[agent].up
      && var before, after := net.peers[agent].rules, net'.peers[agent].rules;
         && SameButRule(before, after, rule) && Named(after)
         && (rule in before ==> rule in after && after[rule] == before[rule])
         && (rule in after && rule !in before ==>
               targets != [] && after[rule] == Created(env, targets[0], expires, net.now, after[rule].addr))
         && (forward.Some? && (targets != [] || addr != "") ==> rule in after && after[rule].addr == forward.value)
    decreases |targets|
  {
    if targets != [] {
      ApplyOneOutcome(net, env, agent, rule, targets[0], expires, sessions);
      hide Exchange, Created;
      var (net1, answer) := Exchange(net, env, agent, Apply(rule, env.Sources(), OnWire(targets[0]), expires), sessions);
      if answer.Some? {
        var addr1 := if addr == "" && answer.value != "" then answer.value else addr;
        PushEachOutcome(net1, env, agent, rule, targets[1..], expires, sessions, addr1);
      }
    }
  }

  /** Every command of the call is acked. */
  ghost predicate AckedFrom(env: Env, k: nat, n: nat) {
    forall i: nat :: k <= i < k + n ==> env.fate(i) == Acked
  }

  predicate Valid(t: Target) {
    t.ip != "" && t.port % 0x1_0000_0000 != 0
  }

  lemma {:induction false} PushEachAnswered(net: Net, env: Env, agent: int, rule: string, targets: seq<Target>,
                                             expires: Option<int>, sessions: set<nat>, addr: string)
    requires agent in net.peers && AckedFrom(env, |net.sent|, |targets|)
    requires forall t :: t in targets ==> Valid(t)
    ensures var (net', forward) := PushEach(net, env, agent, rule, targets, expires, sessions, addr);
      forward.Some? && |net'.sent| == |net.sent| + |targets| &&
      agent in net'.peers && (targets != [] ==> rule in net'.peers[agent].rules)
    decreases |targets|
  {
    if targets != [] {
      assert env.fate(|net.sent|) == Acked;
      assert Valid(targets[0]);
      var (net1, answer) := Exchange(net, env, agent, Apply(rule, env.Sources(), OnWire(targets[0]), expires), sessions);
      var addr1 := if addr == "" && answer.value != "" then answer.value else addr;
      PushEachAnswered(net1, env, agent, rule, targets[1..], expires, sessions, addr1);
      assert targets[1..] == [] ==> PushEach(net1, env, agent, rule, targets[1..], expires, sessions, addr1).0 == net1;
    }
  }

  /**
   * ApplyRule over any number of targets of a fresh rule, with every command acked, leaves
   * exactly one new entry: its target is the first one and its address is the one returned.
   */
  lemma FreshRuleLeavesOneEntry(net: Net, env: Env, agent: int, rule: string, targets: seq<Target>,
                                expires: Option<int>, sessions: set<nat>)
    requires Connected(net, agent) && PortsNamed(env) && Named(net.peers[agent].rules)
    requires rule !in net.peers[agent].rules && targets != []
    requires AckedFrom(env, |net.sent|, |targets|)
    requires forall t :: t in targets ==> Valid(t)
    ensures
      var (net', forward) := Push(net, env, agent, rule, targets, expires, sessions);
      && forward.Some? && |net'.sent| == |net.sent| + |targets|
      && agent in net'.peers && net'.peers[agent].rules ==
           net.peers[agent].rules[rule := Created(env, targets[0], expires, net.now, forward.value)]
  {
    PushEachOutcome(net, env, agent, rule, targets, expires, sessions, "");
    PushEachAnswered(net, env, agent, rule, targets, expires, sessions, "");
    var (net', forward) := Push(net, env, agent, rule, targets, expires, sessions);
    var after := net'.peers[agent].rules;
    assert after == net.peers[agent].rules[rule := after[rule]];
  }

  // ---- exactly when the agent's answers come back ----

  /** The agent accepts this Apply and its answer comes back; `there` is whether it already has the rule. */
  predicate Works(env: Env, k: nat, target: Target, there: bool) {
    Valid(target) && (env.fate(k) == Acked || (env.fate(k) == Refused && there))
  }

  /** The agent is connected, and every one of these targets is accepted and answered. */
  ghost predicate PushWorks(net: Net, env: Env, agent: int, rule: string, targets: seq<Target>) {
    && Connected(net, agent)
    && forall i {:trigger targets[i]} :: 0 <= i < |targets| ==>
         Works(env, |net.sent| + i, targets[i], i > 0 || rule in net.peers[agent].rules)
  }

  /** The agent is connected, and the next command, a revoke of this rule, is answered without error. */
  predicate PullWorks(net: Net, env: Env, agent: int, rule: string) {
    && Connected(net, agent)
    && (env.fate(|net.sent|) == Acked || (env.fate(|net.sent|) == Refused && rule !in net.peers[agent].rules))
  }

  /**
   * From command k on, `n` commands of an Apply were sent, one per target in order; all but
   * the last were accepted and answered, and so was the last if and only if the call succeeded,
   * which it did not before all targets were tried. `had` is whether the agent had the rule.
   */
  ghost predicate Tried(sent: seq<Sent>, env: Env, k: nat, n: nat, agent: int, rule: string, targets: seq<Target>,
                        expires: Option<int>, sessions: set<nat>, had: bool, succeeded: bool)
  {
    && k + n <= |sent| && n <= |targets|
    && (forall i {:trigger targets[i]} :: 0 <= i < n ==>
          sent[k + i] == Sent(agent, Apply(rule, env.Sources(), OnWire(targets[i]), expires), sessions))
    && (forall i {:trigger targets[i]} :: 0 <= i < n - 1 ==> Works(env, k + i, targets[i], i > 0 || had))
    && (if succeeded then n == |targets| && (n > 0 ==> Works(env, k + n - 1, targets[n - 1], n > 1 || had))
        else n > 0 && !Works(env, k + n - 1, targets[n - 1], n > 1 || had))
  }

  lemma OneMoreTried(sent: seq<Sent>, env: Env, k: nat, n: nat, agent: int, rule: string, targets: seq<Target>,
                     expires: Option<int>, sessions: set<nat>, had: bool, succeeded: bool)
    requires targets != [] && Tried(sent, env, k + 1, n, agent, rule, targets[1..], expires, sessions, true, succeeded)
    requires Works(env, k, targets[0], had)
    requires sent[k] == Sent(agent, Apply(rule, env.Sources(), OnWire(targets[0]), expires), sessions)
    ensures Tried(sent, env, k, n + 1, agent, rule, targets, expires, sessions, had, succeeded)
  {
    hide Works;
    forall i {:trigger targets[i]} | 0 <= i < n + 1
      ensures sent[k + i] == Sent(agent, Apply(rule, env.Sources(), OnWire(targets[i]), expires), sessions)
      ensures i < n ==> Works(env, k + i, targets[i], i > 0 || had)
    {
      if i > 0 {
        assert targets[1..][i - 1] == targets[i];
      }
    }
  }

  lemma ApplyOneExactly(net: Net, env: Env, agent: int, rule: string, target: Target, expires: Option<int>, sessions: set<nat>)
    requires agent in net.peers
    ensures
      var (net', answer) := Exchange(net, env, agent, Apply(rule, env.Sources(), OnWire(target), expires), sessions);
      var k, had := |net.sent|, rule in net.peers[agent].rules;
      && agent in net'.peers
      && net'.sent == net.sent + [Sent(agent, Apply(rule, env.Sources(), OnWire(target), expires), sessions)]
      && (answer.Some? <==> Works(env, k, target, had))
      && (rule in net'.peers[agent].rules <==> had || (Valid(target) && (env.fate(k) == Acked || env.fate(k) == AckLost)))
  {
  }

  /**
   * Applying a rule, on the environment alone: the targets are tried in order up to the
   * first that is not accepted and answered, and it succeeds if and only if there is none;
   * the agent has the rule afterwards if and only if it had it or the first target, accepted,
   * reached it.
   */
  lemma {:induction false} PushEachExactly(net: Net, env: Env, agent: int, rule: string, targets: seq<Target>,
                                            expires: Option<int>, sessions: set<nat>, addr: string)
    requires agent in net.peers
    ensures
      var (net', forward) := PushEach(net, env, agent, rule, targets, expires, sessions, addr);
      var k, had := |net.sent|, rule in net.peers[agent].rules;
      && agent in net'.peers && net.sent <= net'.sent
      && Tried(net'.sent, env, k, |net'.sent| - k, agent, rule, targets, expires, sessions, had, forward.Some?)
      && (rule in net'.peers[agent].rules <==>
            had || (targets != [] && Valid(targets[0]) && (env.fate(k) == Acked || env.fate(k) == AckLost)))
    decreases |targets|
  {
    hide Tried, Exchange, Works;
    if targets == [] {
      NoneTried(net.sent, env, |net.sent|, agent, rule, targets, expires, sessions, rule in net.peers[agent].rules);
    } else {
      ApplyOneExactly(net, env, agent, rule, targets[0], expires, sessions);
      var (net1, answer) := Exchange(net, env, agent, Apply(rule, env.Sources(), OnWire(targets[0]), expires), sessions);
      if answer.None? {
        OneFailed(net1.sent, env, |net.sent|, agent, rule, targets, expires, sessions, rule in net.peers[agent].rules);
      } else {
        var addr1 := if addr == "" && answer.value != "" then answer.value else addr;
        PushEachExactly(net1, env, agent, rule, targets[1..], expires, sessions, addr1);
        var (net', forward) := PushEach(net1, env, agent, rule, targets[1..], expires, sessions, addr1);
        assert net'.sent[|net.sent|] == net1.sent[|net.sent|];
        WorkedThere(env, |net.sent|, targets[0], rule in net.peers[agent].rules);
        OneMoreTried(net'.sent, env, |net.sent|, |net'.sent| - |net1.sent|, agent, rule, targets, expires, sessions,
                     rule in net.peers[agent].rules, forward.Some?);
      }
    }
  }

  lemma NoneTried(sent: seq<Sent>, env: Env, k: nat, agent: int, rule: string, targets: seq<Target>,
                  expires: Option<int>, sessions: set<nat>, had: bool)
    requires targets == [] && k <= |sent|
    ensures Tried(sent, env, k, 0, agent, rule, targets, expires, sessions, had, true)
  {
  }

  lemma OneFailed(sent: seq<Sent>, env: Env, k: nat, agent: int, rule: string, targets: seq<Target>,
                  expires: Option<int>, sessions: set<nat>, had: bool)
    requires targets != [] && k < |sent| && !Works(env, k, targets[0], had)
    requires sent[k] == Sent(agent, Apply(rule, env.Sources(), OnWire(targets[0]), expires), sessions)
    ensures Tried(sent, env, k, 1, agent, rule, targets, expires, sessions, had, false)
  {
    hide Works;
  }

  lemma WorkedThere(env: Env, k: nat, target: Target, there: bool)
    requires Works(env, k, target, there)
    ensures there || (Valid(target) && (env.fate(k) == Acked || env.fate(k) == AckLost))
  {
  }

  /** A call that tried its targets succeeded if and only if each of them is accepted and answered. */
  lemma TriedAll(sent: seq<Sent>, env: Env, k: nat, n: nat, agent: int, rule: string, targets: seq<Target>,
                 expires: Option<int>, sessions: set<nat>, had: bool, succeeded: bool)
    requires Tried(sent, env, k, n, agent, rule, targets, expires, sessions, had, succeeded)
    ensures succeeded <==> forall i {:trigger targets[i]} :: 0 <= i < |targets| ==> Works(env, k + i, targets[i], i > 0 || had)
  {
    hide Works;
  }

  /** Applying a rule succeeds if and only if the agent is connected and accepts and answers every target. */
  lemma PushExactly(net: Net, env: Env, agent: int, rule: string, targets: seq<Target>, expires: Option<int>, sessions: set<nat>)
    ensures
      var (net', forward) := Push(net, env, agent, rule, targets, expires, sessions);
      && (forward.Some? <==> PushWorks(net, env, agent, rule, targets))
      && net.sent <= net'.sent
      && (Connected(net, agent) ==>
            Tried(net'.sent, env, |net.sent|, |net'.sent| - |net.sent|, agent, rule, targets, expires, sessions,
                  rule in net.peers[agent].rules, forward.Some?))
      && (!Connected(net, agent) ==> net' == net)
  {
    hide PushEach, Tried;
    if Connected(net, agent) {
      PushEachExactly(net, env, agent, rule, targets, expires, sessions, "");
      var (net', forward) := Push(net, env, agent, rule, targets, expires, sessions);
      TriedAll(net'.sent, env, |net.sent|, |net'.sent| - |net.sent|, agent, rule, targets, expires, sessions,
               rule in net.peers[agent].rules, forward.Some?);
    }
  }

  /**
   * A revoke, on the environment alone: one command if the agent is connected; its rule is gone
   * unless the command was dropped, and no other rule or agent is touched.
   */
  lemma PullExactly(net: Net, env: Env, agent: int, rule: string, sessions: set<nat>)
    ensures
      var (net', answer) := Pull(net, env, agent, rule, sessions);
      && (answer.Some? <==> PullWorks(net, env, agent, rule))
      && (!Connected(net, agent) ==> net' == net)
      && (Connected(net, agent) ==>
            && net'.now == net.now && net'.sent == net.sent + [Sent(agent, Revoke(rule), sessions)]
            && net'.peers.Keys == net.peers.Keys && net'.peers[agent].up
            && (forall a :: a in net.peers && a != agent ==> net'.peers[a] == net.peers[a])
            && net'.peers[agent].rules ==
                 if env.fate(|net.sent|) == Dropped then net.peers[agent].rules else net.peers[agent].rules - {rule})
  {
  }
}
