/** The agent's userspace forwarder, with its listeners and timers as objects. */
module Forwarders {
  import opened Wrappers
  import opened Store
  import opened Forwarding
  import opened StringOrder

  /** A bound port and the accept loop that serves it. */
  class Listener {
    const rule: string
    const addr: string
    const dst: Target
    const allow: set<string>
    const made: int
    var open: bool
    var cancelled: bool

    constructor (rule: string, addr: string, dst: Target, allow: set<string>, made: int)
      ensures this.rule == rule && this.addr == addr && this.dst == dst && this.allow == allow && this.made == made
      ensures open && !cancelled
    {
      this.rule, this.addr, this.dst, this.allow, this.made := rule, addr, dst, allow, made;
      open, cancelled := true, false;
    }

    /** serve: what an incoming connection from `host` is relayed to, if anything. */
    method Accept(host: string) returns (relayed: Option<Target>)
      ensures relayed == if open && (allow == {} || host in allow) then Some(dst) else None
    {
      if !open {
        return None;
      }
      if |allow| > 0 {
        if host !in allow {
          return None;
        }
      }
      return Some(dst);
    }
  }

  class Timer {
    const rule: string
    const due: int
    var armed: bool

    constructor (rule: string, due: int)
      ensures this.rule == rule && this.due == due && armed
    {
      this.rule, this.due := rule, due;
      armed := true;
    }
  }

  datatype Slot = Slot(ln: Listener, timer: Timer?) {
    predicate Due(now: int) {
      timer != null && timer.due <= now
    }

    function Entry(): Entry {
      Forwarding.Entry(ln.dst, ln.allow, ln.addr, if timer == null then None else Some(timer.due), ln.made)
    }
  }

  /** The entries the slots stand for; it reads no mutable state. */
  function Image(slots: map<string, Slot>): Rules {
    map r | r in slots :: slots[r].Entry()
  }

  lemma ImageUpdates(slots: map<string, Slot>, rule: string, slot: Slot)
    ensures Image(slots[rule := slot]) == Image(slots)[rule := slot.Entry()]
    ensures Image(slots - {rule}) == Image(slots) - {rule}
    ensures Image(slots).Keys == slots.Keys
  {
  }

  class Forwarder {
    var rules: map<string, Slot>
    ghost var listeners: set<Listener>
    ghost var timers: set<Timer>

    ghost predicate SlotOk(r: string)
      reads this, listeners, timers
    {
      r in rules ==>
        var slot := rules[r];
        && slot.ln in listeners && slot.ln.rule == r && slot.ln.open
        && (slot.timer != null ==> slot.timer in timers && slot.timer.rule == r && slot.timer.armed)
    }

    ghost predicate ListenerOk(l: Listener)
      reads this, l
    {
      l.open == !l.cancelled && (l.open ==> l.rule in rules && rules[l.rule].ln == l)
    }

    ghost predicate TimerOk(t: Timer)
      reads this, t
    {
      t.armed ==> t.rule in rules && rules[t.rule].timer == t
    }

    /**
     * Open listeners and entries correspond one to one, every armed timer belongs to the
     * entry of its rule, and only removed listeners have had their connections cancelled.
     */
    ghost predicate Valid()
      reads this, listeners, timers
    {
      && (forall r {:trigger SlotOk(r)} :: SlotOk(r))
      && (forall l {:trigger ListenerOk(l)} :: l in listeners ==> ListenerOk(l))
      && (forall t {:trigger TimerOk(t)} :: t in timers ==> TimerOk(t))
    }

    ghost function Abs(): Rules
      reads this
    {
      Image(rules)
    }

    constructor ()
      ensures Valid() && Abs() == map[] && listeners == {} && timers == {}
    {
      rules, listeners, timers := map[], {}, {};
    }

    method Apply(rule: string, srcs: seq<string>, dst: Target, ttl: int, now: int, listen: Option<string>)
      returns (addr: Option<string>)
      requires Valid()
      modifies this
      ensures Valid() && fresh(listeners - old(listeners)) && fresh(timers - old(timers))
      ensures old(listeners) <= listeners && old(timers) <= timers
      ensures (Abs(), addr) == Open(old(Abs()), rule, srcs, dst, ttl, now, listen)
      ensures addr.Some? <==> dst.ip != "" && dst.port != 0 && (rule in old(rules) || listen.Some?)
      ensures addr.None? || rule in old(rules) ==> rules == old(rules)
      ensures addr.Some? && rule in old(rules) ==> addr.value == rules[rule].ln.addr
      ensures addr.Some? && rule !in old(rules) ==>
        && rule in rules && rules == old(rules)[rule := rules[rule]] && addr == listen
        && var slot := rules[rule];
           && slot.ln.open && slot.ln.dst == dst && slot.ln.addr == addr.value
           && (forall h :: h in slot.ln.allow <==> h != "" && h in srcs)
           && (if ttl > 0 then slot.timer != null && slot.timer.due == now + ttl && slot.timer.armed else slot.timer == null)
    {
      if dst.ip == "" || dst.port == 0 {
        return None;
      }
      if rule in rules {
        return Some(rules[rule].ln.addr);
      }
      if listen.None? {
        return None;
      }
      var allow := set s | s in srcs && s != "";
      var ln := new Listener(rule, listen.value, dst, allow, now);
      var timer: Timer? := null;
      if ttl > 0 {
        timer := new Timer(rule, now + ttl);
      }
      ImageUpdates(rules, rule, Slot(ln, timer));
      Enter(rule, ln, timer);
      return Some(ln.addr);
    }

    /** Enter a new listener, and its timer if it has one, under a rule that is not in the table. */
    method Enter(rule: string, ln: Listener, timer: Timer?)
      requires Valid() && rule !in rules && ln !in listeners && ln.rule == rule && ln.open && !ln.cancelled
      requires timer != null ==> timer !in timers && timer.rule == rule && timer.armed
      modifies this
      ensures Valid() && rules == old(rules)[rule := Slot(ln, timer)]
      ensures listeners == old(listeners) + {ln} && timers == old(timers) + if timer == null then {} else {timer}
      ensures ln.open && (timer != null ==> timer.armed)
    {
      if timer != null {
        timers := timers + {timer};
      }
      listeners := listeners + {ln};
      rules := rules[rule := Slot(ln, timer)];
      forall r ensures SlotOk(r) { assert old(SlotOk(r)); }
      forall l | l in listeners ensures ListenerOk(l) { assert l == ln || old(ListenerOk(l)); }
      forall t | t in timers ensures TimerOk(t) { assert t == timer || old(TimerOk(t)); }
    }

    /** Removes one rule and touches nothing that belongs to another; `works` is what closing the listener gave. */
    method Revoke(rule: string, works: bool) returns (ok: bool)
      requires Valid()
      modifies this, listeners, timers
      ensures Valid() && listeners == old(listeners) && timers == old(timers)
      ensures rules == old(rules) - {rule} && Abs() == old(Abs()) - {rule}
      ensures ok == (rule !in old(rules) || works)
      ensures forall l :: l in listeners && l.rule != rule ==> unchanged(l)
      ensures forall t :: t in timers && t.rule != rule ==> unchanged(t)
      ensures forall l :: l in listeners && l.rule == rule ==> !l.open && l.cancelled
      ensures forall t :: t in timers && t.rule == rule ==> !t.armed
    {
      if rule in rules {
        ImageUpdates(rules, rule, rules[rule]);
        assert SlotOk(rule);
        Drop(rule);
        ok := works;
      } else {
        ok := true;
      }
      forall l | l in listeners ensures l.rule == rule ==> !l.open && l.cancelled { assert ListenerOk(l); }
      forall t | t in timers ensures t.rule == rule ==> !t.armed { assert TimerOk(t); }
    }

    /** Delete the entry, stop its timer, cancel its connections and close its listener. */
    method Drop(rule: string)
      requires Valid() && rule in rules
      modifies `rules, rules[rule].ln, rules[rule].timer
      ensures Valid() && rules == old(rules) - {rule}
      ensures forall l :: l in listeners && l.rule != rule ==> unchanged(l)
      ensures forall t :: t in timers && t.rule != rule ==> unchanged(t)
    {
      var slot := rules[rule];
      assert SlotOk(rule);
      rules := rules - {rule};
      if slot.timer != null {
        slot.timer.armed := false;
      }
      slot.ln.cancelled := true;
      slot.ln.open := false;
      forall r ensures SlotOk(r) { assert old(SlotOk(r)); }
      forall l | l in listeners ensures ListenerOk(l) { assert old(ListenerOk(l)); }
      forall t | t in timers ensures TimerOk(t) { assert old(TimerOk(t)); }
    }

    /** The callback of a timer that has come due. */
    method Fire(t: Timer)
      requires Valid() && t in timers && t.armed
      modifies this, listeners, timers
      ensures Valid() && listeners == old(listeners) && timers == old(timers)
      ensures !t.armed && rules == old(rules) - {t.rule} && Abs() == old(Abs()) - {t.rule}
    {
      var _ := Revoke(t.rule, true);
    }

    /** All timers due at `now` fire, in any order. */
    method FireDue(now: int)
      requires Valid()
      modifies this, listeners, timers
      ensures Valid() && listeners == old(listeners) && timers == old(timers)
      ensures Abs() == Expire(old(Abs()), now)
      ensures forall r :: r in rules <==> r in old(rules) && (old(rules)[r].timer != null ==> now < old(rules)[r].timer.due)
      ensures forall r :: r in rules ==> rules[r] == old(rules)[r]
    {
      var todo := rules.Keys;
      while todo != {}
        invariant Valid() && listeners == old(listeners) && timers == old(timers)
        invariant todo <= rules.Keys <= old(rules).Keys
        invariant forall r :: r in rules ==> rules[r] == old(rules)[r]
        invariant forall r :: r in old(rules) && r !in rules ==> old(rules)[r].Due(now)
        invariant forall r :: r in rules && r !in todo ==> !rules[r].Due(now)
        decreases todo
      {
        var r :| r in todo;
        todo := todo - {r};
        assert SlotOk(r);
        if rules[r].Due(now) {
          Fire(rules[r].timer);
        }
      }
      assert Abs() == Expire(old(Abs()), now);
    }

    method ActiveRuleIDs() returns (ids: seq<string>)
      ensures Ascending(ids)
      ensures forall r :: r in ids <==> r in rules
    {
      var found: seq<string> := [];
      var todo := rules.Keys;
      while todo != {}
        invariant todo <= rules.Keys
        invariant forall r :: r in rules.Keys <==> r in found || r in todo
        invariant forall r :: r in found ==> r !in todo
        invariant forall i, j :: 0 <= i < j < |found| ==> found[i] != found[j]
        decreases todo
      {
        var r :| r in todo;
        found, todo := found + [r], todo - {r};
      }
      ids := Sorted(found);
      SortedCorrect(found);
      forall r ensures r in ids <==> r in found {
        assert r in multiset(ids) <==> r in multiset(found);
      }
    }
  }
}
