/**
 * What one agent enforces: a map from rule id to one listener with a fixed target, an
 * allowlist of source hosts, and a timer that removes it.
 */
module Forwarding {
  import opened Wrappers
  import opened Store

  const HOUR := 3600

  /** `made` is history only: when the entry was created. */
  datatype Entry = Entry(target: Target, allow: set<string>, addr: string, deadline: Option<int>, made: int)

  /** History of the one Apply of a ticket: the agent chosen, the targets, when it began and the expiry it fixed. */
  datatype Grant = Grant(agent: int, targets: seq<Target>, start: int, expires: int)

  type Rules = map<string, Entry>

  datatype Command =
    | Apply(rule: string, srcs: seq<string>, target: Target, expires: Option<int>)
    | Revoke(rule: string)

  /** The controller casts the signed port to an unsigned 32-bit one before sending it. */
  function OnWire(t: Target): Target {
    Target(t.ip, t.port % 0x1_0000_0000)
  }

  function Allowlist(srcs: seq<string>): set<string> {
    set s | s in srcs && s != ""
  }

  function Ttl(expires: Option<int>, now: int): int {
    if expires.Some? then expires.value - now else HOUR
  }

  /** Forwarder.Apply. `listen` is what binding a fresh port gave; the answer is None on error. */
  function Open(rules: Rules, rule: string, srcs: seq<string>, dst: Target, ttl: int, now: int, listen: Option<string>)
    : (r: (Rules, Option<string>))
    ensures rule !in rules && rule in r.0 ==> forall h :: h in r.0[rule].allow <==> h != "" && h in srcs
  {
    if dst.ip == "" || dst.port == 0 then (rules, None)
    else if rule in rules then (rules, Some(rules[rule].addr))
    else if listen.None? then (rules, None)
    else
      var deadline := if ttl > 0 then Some(now + ttl) else None;
      (rules[rule := Entry(dst, Allowlist(srcs), listen.value, deadline, now)], listen)
  }

  /** The agent's handling of one command; `works` is whether binding or closing the listener succeeds. */
  function Obey(rules: Rules, cmd: Command, now: int, works: bool, port: string): (Rules, Option<string>) {
    match cmd
    case Apply(rule, srcs, target, expires) =>
      if srcs == [] then (rules, None)
      else Open(rules, rule, srcs, target, Ttl(expires, now), now, if works then Some(port) else None)
    case Revoke(rule) =>
      (rules - {rule}, if rule !in rules || works then Some("") else None)
  }

  /** Every timer that is due has fired. */
  function Expire(rules: Rules, now: int): Rules {
    map r | r in rules && (rules[r].deadline.Some? ==> now < rules[r].deadline.value) :: rules[r]
  }
}
