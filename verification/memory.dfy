/** The in-process reference gateway, and the proof that the real one reports the same active rules. */
module MemoryGateways {
  import opened Wrappers
  import opened Store
  import opened Forwarding
  import opened Gateways

  datatype ApplyInput = ApplyInput(agent: int, targets: seq<Target>, expires: Option<int>)

  datatype Call =
    | CallApply(rule: string, input: ApplyInput)
    | CallRevoke(agent: int, rule: string)

  /** What one call leaves recorded. */
  function Recorded(rules: map<string, ApplyInput>, call: Call): map<string, ApplyInput> {
    match call
    case CallApply(rule, input) => rules[rule := input]
    case CallRevoke(_, rule) => rules - {rule}
  }

  class Memory {
    var rules: map<string, ApplyInput>

    constructor ()
      ensures rules == map[]
    {
      rules := map[];
    }

    method ApplyRule(rule: string, input: ApplyInput) returns (forward: string)
      modifies this
      ensures rules == Recorded(old(rules), CallApply(rule, input)) && forward == ""
    {
      rules := rules[rule := input];
      forward := "";
    }

    method RevokeRule(agent: int, rule: string)
      modifies this
      ensures rules == Recorded(old(rules), CallRevoke(agent, rule))
    {
      rules := rules - {rule};
    }

    /** Every rule id active on the agent, once. */
    method Reconcile(agent: int) returns (ids: seq<string>)
      ensures forall r :: r in ids <==> r in OnAgent(rules, agent)
      ensures forall i, j :: 0 <= i < j < |ids| ==> ids[i] != ids[j]
    {
      ids := [];
      var todo := rules.Keys;
      while todo != {}
        invariant todo <= rules.Keys
        invariant forall r :: r in ids <==> r in OnAgent(rules, agent) && r !in todo
        invariant forall i, j :: 0 <= i < j < |ids| ==> ids[i] != ids[j]
        decreases todo
      {
        var r :| r in todo;
        todo := todo - {r};
        if rules[r].agent == agent {
          ids := ids + [r];
        }
      }
    }
  }

  function OnAgent(rules: map<string, ApplyInput>, agent: int): set<string> {
    set r | r in rules && rules[r].agent == agent
  }

  // ---- one sequence of gateway calls, against both gateways ----

  function InMemory(calls: seq<Call>): map<string, ApplyInput> {
    if calls == [] then map[] else Recorded(InMemory(calls[..|calls| - 1]), calls[|calls| - 1])
  }

  function OverTheWire(net: Net, env: Env, calls: seq<Call>): Net {
    if calls == [] then net
    else
      var net1 := OverTheWire(net, env, calls[..|calls| - 1]);
      match calls[|calls| - 1]
      case CallApply(rule, input) => Push(net1, env, input.agent, rule, input.targets, input.expires, {}).0
      case CallRevoke(agent, rule) => Pull(net1, env, agent, rule, {}).0
  }

  /** Each rule id is used on one connected agent, targets are there and valid, and everything is acked. */
  ghost predicate Ordinary(net: Net, env: Env, home: string -> int, calls: seq<Call>) {
    && (forall k: nat :: env.fate(k) == Acked)
    && PortsNamed(env)
    && (forall a :: a in net.peers ==> net.peers[a].up && net.peers[a].rules == map[])
    && (forall i :: 0 <= i < |calls| ==>
          match calls[i]
          case CallApply(rule, input) =>
            input.agent == home(rule) && input.agent in net.peers && input.targets != [] && forall t :: t in input.targets ==> Valid(t)
          case CallRevoke(agent, rule) => agent == home(rule) && agent in net.peers)
  }

  /** What Reconcile reports of an agent. */
  function ActiveOn(net: Net, agent: int): set<string>
    requires agent in net.peers
  {
    net.peers[agent].rules.Keys
  }

  ghost predicate Matches(net: Net, rules: map<string, ApplyInput>, home: string -> int) {
    && (forall a :: a in net.peers ==> net.peers[a].up && Named(net.peers[a].rules))
    && (forall a :: a in net.peers ==> forall r :: r in net.peers[a].rules <==> r in rules && rules[r].agent == a)
    && (forall r :: r in rules ==> rules[r].agent == home(r))
  }

  lemma AllAcked(env: Env, k: nat, n: nat)
    requires forall i: nat :: env.fate(i) == Acked
    ensures AckedFrom(env, k, n)
  {
  }

  lemma ApplyMatches(net: Net, env: Env, home: string -> int, rules: map<string, ApplyInput>, rule: string, input: ApplyInput)
    requires Matches(net, rules, home) && (forall k: nat :: env.fate(k) == Acked) && PortsNamed(env)
    requires input.agent == home(rule) && input.agent in net.peers && input.targets != []
    requires forall t :: t in input.targets ==> Valid(t)
    ensures var net' := Push(net, env, input.agent, rule, input.targets, input.expires, {}).0;
      net'.peers.Keys == net.peers.Keys && Matches(net', rules[rule := input], home)
  {
    hide PushEach, Created, Exchange, Valid, AckedFrom, PortsNamed;
    assert AckedFrom(env, |net.sent|, |input.targets|) by { AllAcked(env, |net.sent|, |input.targets|); }
    PushEachOutcome(net, env, input.agent, rule, input.targets, input.expires, {}, "");
    PushEachAnswered(net, env, input.agent, rule, input.targets, input.expires, {}, "");
  }

  lemma RevokeMatches(net: Net, env: Env, home: string -> int, rules: map<string, ApplyInput>, agent: int, rule: string)
    requires Matches(net, rules, home) && (forall k: nat :: env.fate(k) == Acked)
    requires agent == home(rule) && agent in net.peers
    ensures var net' := Pull(net, env, agent, rule, {}).0;
      net'.peers.Keys == net.peers.Keys && Matches(net', rules - {rule}, home)
  {
    assert env.fate(|net.sent|) == Acked;
  }

  lemma {:induction false} SimulationHolds(net: Net, env: Env, home: string -> int, calls: seq<Call>)
    requires Ordinary(net, env, home, calls)
    ensures OverTheWire(net, env, calls).peers.Keys == net.peers.Keys
    ensures Matches(OverTheWire(net, env, calls), InMemory(calls), home)
  {
    if calls != [] {
      var before := calls[..|calls| - 1];
      SimulationHolds(net, env, home, before);
      var net1, rules := OverTheWire(net, env, before), InMemory(before);
      hide Push, Pull, Matches;
      match calls[|calls| - 1] {
        case CallApply(rule, input) => ApplyMatches(net1, env, home, rules, rule, input);
        case CallRevoke(agent, rule) => RevokeMatches(net1, env, home, rules, agent, rule);
      }
    }
  }

  /**
   * After any such sequence of calls, the rule ids the controller, the agents' loops and
   * their forwarders report for an agent are exactly those the reference gateway reports.
   */
  lemma RealGatewayRefinesMemory(net: Net, env: Env, home: string -> int, calls: seq<Call>, agent: int)
    requires Ordinary(net, env, home, calls) && agent in net.peers
    ensures agent in OverTheWire(net, env, calls).peers
    ensures ActiveOn(OverTheWire(net, env, calls), agent) == OnAgent(InMemory(calls), agent)
  {
    SimulationHolds(net, env, home, calls);
  }
}
