/** The agent's command loop: one answer for every command it receives. */
module Agents {
  import opened Wrappers
  import opened Store
  import opened Forwarding
  import opened Forwarders

  class Client {
    const eng: Forwarder

    constructor (eng: Forwarder)
      ensures this.eng == eng
    {
      this.eng := eng;
    }

    /** One turn of the loop; the answer is what the ack carries, None for a failed one. */
    method Handle(cmd: Command, now: int, works: bool, port: string) returns (answer: Option<string>)
      requires eng.Valid()
      modifies eng, eng.listeners, eng.timers
      ensures eng.Valid() && fresh(eng.listeners - old(eng.listeners)) && fresh(eng.timers - old(eng.timers))
      ensures (eng.Abs(), answer) == Obey(old(eng.Abs()), cmd, now, works, port)
      ensures cmd.Revoke? ==> eng.rules == old(eng.rules) - {cmd.rule}
      ensures cmd.Revoke? ==> (answer.Some? <==> works || cmd.rule !in old(eng.rules))
    {
      match cmd {
        case Apply(rule, srcs, target, expires) =>
          answer := HandleApply(rule, srcs, target, expires, now, works, port);
        case Revoke(rule) =>
          var ok := eng.Revoke(rule, works);
          answer := if ok then Some("") else None;
      }
    }

    method HandleApply(rule: string, srcs: seq<string>, target: Target, expires: Option<int>, now: int, works: bool, port: string)
      returns (answer: Option<string>)
      requires eng.Valid()
      modifies eng
      ensures eng.Valid() && fresh(eng.listeners - old(eng.listeners)) && fresh(eng.timers - old(eng.timers))
      ensures (eng.Abs(), answer) == Obey(old(eng.Abs()), Apply(rule, srcs, target, expires), now, works, port)
      ensures srcs == [] ==> answer.None? && eng.rules == old(eng.rules)
      ensures answer.Some? && rule !in old(eng.rules) ==>
        && rule in eng.rules && eng.rules == old(eng.rules)[rule := eng.rules[rule]]
        && answer == Some(port) && eng.rules[rule].ln.dst == target
        && var end := if expires.Some? then expires.value else now + 3600;
           if now < end then eng.rules[rule].timer != null && eng.rules[rule].timer.due == end else eng.rules[rule].timer == null
    {
      var ttl := HOUR;
      if expires.Some? {
        ttl := expires.value - now;
      }
      if |srcs| == 0 {
        return None;
      }
      answer := eng.Apply(rule, srcs, target, ttl, now, if works then Some(port) else None);
    }
  }
}
