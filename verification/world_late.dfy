/** When a closed ticket can still have a listener. */
module WorldLate {
  import opened Wrappers
  import opened RuleIds
  import opened Store
  import opened Forwarding
  import opened Links
  import opened Worlds
  import opened WorldFrames
  import opened WorldSteps
  import opened WorldCalls
  import opened WorldTheorems
  import D = WorldDrive

  predicate Enforces(w: World, agent: int, rule: string) {
    agent in w.procs && rule in w.procs[agent].rules
  }

  /** In this state the event makes the agent obey this message, which is next on this stream. */
  predicate Obeys(w: World, e: Event, agent: int, link: nat, m: Message) {
    && e.Receive? && e.agent == agent && agent in w.procs && w.procs[agent].session == Some(link) && w.procs[agent].owes.None?
    && link < |w.links| && w.links[link].queue != [] && w.links[link].queue[0] == m
  }

  /** The event makes the agent obey an Apply of the rule. */
  ghost predicate Applies(w: World, e: Event, agent: int, rule: string) {
    exists link, m :: Obeys(w, e, agent, link, m) && m.cmd.Apply? && m.cmd.rule == rule
  }

  // ---- entries come from Apply commands only ----

  lemma OnlyApplyAdds(w: World, e: Event, agent: int, rule: string)
    requires !Enforces(w, agent, rule) && Enforces(Step(w, e), agent, rule)
    ensures Applies(w, e, agent, rule)
  {
    hide AdvanceCall, BeginCall, After;
    if e.Advance? || e.StartApprove? || e.StartRevoke? || e.StartReapply? {
      SameProcs(w, e);
    } else {
      var p := ProcOf(w, agent);
      assert e.Receive? && e.agent == agent;
      var l := w.links[p.session.value];
      assert Obeys(w, e, agent, p.session.value, l.queue[0]);
    }
  }

  lemma SameProcs(w: World, e: Event)
    requires e.Advance? || e.StartApprove? || e.StartRevoke? || e.StartReapply?
    ensures Step(w, e).procs == w.procs
  {
    hide After, Exec, AdvanceCall;
    if e.Advance? && e.call in w.calls {
      SameProcsCalled(w, e.call, e.good);
    }
  }

  lemma SameProcsCalled(w: World, c: nat, good: bool)
    requires c in w.calls
    ensures AdvanceCall(w, c, good).procs == w.procs
  {
    hide After, Exec, Pushes, BuildTargets, Listed, AdvanceGateway;
    if w.calls[c].Connecting? || w.calls[c].Sending? || w.calls[c].Enqueuing? || w.calls[c].Awaiting? {
      SameProcsSending(w, c, good);
    }
  }

  lemma SameProcsSending(w: World, c: nat, good: bool)
    requires c in w.calls
    ensures AdvanceGateway(w, c, good).procs == w.procs
  {
  }

  /** An entry that was not there at one point and is there at the end was made by an Apply obeyed in between. */
  lemma {:induction false} EntryMade(now: int, srcPeerIPs: seq<string>, events: seq<Event>, m: nat, agent: int, rule: string)
    returns (j: nat)
    requires m <= |events| && !Enforces(Reached(now, srcPeerIPs, events[..m]), agent, rule)
    requires Enforces(Reached(now, srcPeerIPs, events), agent, rule)
    ensures m <= j < |events| && Applies(Reached(now, srcPeerIPs, events[..j]), events[j], agent, rule)
  {
    hide Step, Enforces, Applies;
    assert events[..|events|] == events;
    var n := |events| - 1;
    var before := events[..n];
    assert before[..m] == events[..m];
    if Enforces(Reached(now, srcPeerIPs, before), agent, rule) {
      j := EntryMade(now, srcPeerIPs, before, m, agent, rule);
      assert before[..j] == events[..j];
    } else {
      OnlyApplyAdds(Reached(now, srcPeerIPs, before), events[n], agent, rule);
      j := n;
    }
  }

  // ---- every command obeyed was obeyed by an event of the run ----

  /** How many commands have been obeyed on a stream. */
  function Obeyed(w: World, link: nat): nat {
    if link < |w.links| then |w.links[link].done| else 0
  }

  lemma OnlyReceiveObeys(w: World, e: Event, link: nat)
    requires Inv(w) && Obeyed(Step(w, e), link) != Obeyed(w, link)
    ensures Obeyed(Step(w, e), link) == Obeyed(w, link) + 1 && link < |w.links| && w.links[link].queue != []
    ensures Obeys(w, e, w.links[link].agent, link, w.links[link].queue[0])
  {
    hide Inv, After, BeginCall;
    if e.Advance? {
      SameDone(w, e.call, e.good, link);
    } else if e.StartApprove? || e.StartRevoke? || e.StartReapply? {
      SameLinks(w, e);
    } else {
      assert e.Receive?;
      ProcOkHere(w, e.agent);
    }
  }

  lemma SameLinks(w: World, e: Event)
    requires e.StartApprove? || e.StartRevoke? || e.StartReapply?
    ensures Step(w, e).links == w.links
  {
    hide After, Exec;
  }

  lemma SameDone(w: World, c: nat, good: bool, link: nat)
    ensures Obeyed(Step(w, Advance(c, good)), link) == Obeyed(w, link)
  {
    hide After, Pushes, BuildTargets, Listed, Exec, AdvanceGateway;
    if c in w.calls && (w.calls[c].Connecting? || w.calls[c].Sending? || w.calls[c].Enqueuing? || w.calls[c].Awaiting?) {
      SameDoneSending(w, c, good, link);
    } else {
      assert Step(w, Advance(c, good)).links == w.links;
    }
  }

  lemma SameDoneSending(w: World, c: nat, good: bool, link: nat)
    requires c in w.calls && (w.calls[c].Connecting? || w.calls[c].Sending? || w.calls[c].Enqueuing? || w.calls[c].Awaiting?)
    ensures Obeyed(AdvanceGateway(w, c, good), link) == Obeyed(w, link)
  {
  }

  /** The event of the run at which the i-th command of a stream was obeyed. */
  lemma {:induction false} ObeyedWhen(now: int, srcPeerIPs: seq<string>, events: seq<Event>, link: nat, i: nat) returns (k: nat)
    requires i < Obeyed(Reached(now, srcPeerIPs, events), link)
    ensures k < |events|
    ensures
      var w, wk := Reached(now, srcPeerIPs, events), Reached(now, srcPeerIPs, events[..k]);
      && i < |w.links[link].sent| && Obeys(wk, events[k], w.links[link].agent, link, w.links[link].sent[i])
    decreases |events|
  {
    hide Inv, Step, Obeys, Extends;
    var n := |events| - 1;
    var before := events[..n];
    var w, wn := Reached(now, srcPeerIPs, events), Reached(now, srcPeerIPs, before);
    RunKeeps(now, srcPeerIPs, before);
    RunKeeps(now, srcPeerIPs, events);
    RunExtends(now, srcPeerIPs, events, n);
    if i < Obeyed(wn, link) {
      k := ObeyedWhen(now, srcPeerIPs, before, link, i);
      assert before[..k] == events[..k];
      SentStays(wn, w, link, i);
    } else {
      OnlyReceiveObeys(wn, events[n], link);
      NextIsSent(wn, link);
      SentStays(wn, w, link, i);
      k := n;
    }
  }

  lemma NextIsSent(w: World, link: nat)
    requires Inv(w) && link < |w.links| && w.links[link].queue != []
    ensures var l := w.links[link]; |l.done| < |l.sent| && l.queue[0] == l.sent[|l.done|]
  {
    hide Inv, Distinct, Answers;
    LinkOkHere(w, link);
  }

  lemma SentStays(w: World, w': World, link: nat, i: nat)
    requires Extends(w, w') && link < |w.links| && i < |w.links[link].sent|
    ensures link < |w'.links| && i < |w'.links[link].sent| && w'.links[link].sent[i] == w.links[link].sent[i]
    ensures w'.links[link].agent == w.links[link].agent
  {
    hide Evolves, PastExtends;
    assert LinkExtends(w.links[link], w'.links[link]);
  }

  lemma RevokedAway(w: World, e: Event, agent: int, link: nat, m: Message)
    requires Obeys(w, e, agent, link, m) && m.cmd.Revoke?
    ensures !Enforces(Step(w, e), agent, m.cmd.rule)
  {
  }

  /**
   * How a closed ticket that was really revoked comes to have a listener: its agent obeyed an
   * Apply of the rule after it had obeyed the very revoke the ticket was closed on.
   */
  lemma ClosedListenerIsLater(now: int, srcPeerIPs: seq<string>, events: seq<Event>, id: nat, agent: int) returns (k: nat, j: nat)
    requires
      var w := Reached(now, srcPeerIPs, events);
      && id in w.db.tickets && w.db.tickets[id].status == Closed && id in w.past.looked && w.past.looked[id]
      && Enforces(w, agent, RuleId(id))
    ensures k < j < |events|
    ensures
      var w := Reached(now, srcPeerIPs, events);
      && id in w.past.closing && w.past.closing[id].Some?
      && var r := w.past.closing[id].value;
         Obeys(Reached(now, srcPeerIPs, events[..k]), events[k], agent, r.link, Message(r.id, Revoke(RuleId(id))))
    ensures Applies(Reached(now, srcPeerIPs, events[..j]), events[j], agent, RuleId(id))
  {
    hide Inv, RuleId, TicketOf, Obeys, Applies, Step, HistoryInv, TablesInv;
    var w := Reached(now, srcPeerIPs, events);
    RunKeeps(now, srcPeerIPs, events);
    HistoryHere(w);
    RowHere(w, id);
    var r := w.past.closing[id].value;
    var l := w.links[r.link];
    var i :| RevokedAt(l, id, r.id, i);
    EnforcedByGranted(w, agent, id);
    k := ObeyedWhen(now, srcPeerIPs, events, r.link, i);
    assert events[..k + 1][..k] == events[..k];
    RevokedAway(Reached(now, srcPeerIPs, events[..k]), events[k], agent, r.link, Message(r.id, Revoke(RuleId(id))));
    j := EntryMade(now, srcPeerIPs, events, k + 1, agent, RuleId(id));
  }

  lemma EnforcedByGranted(w: World, agent: int, id: nat)
    requires Inv(w) && Enforces(w, agent, RuleId(id))
    ensures id in w.past.grants && w.past.grants[id].agent == agent
  {
    hide Inv, RuleId, TicketOf, Aimed;
    ProcOkHere(w, agent);
    TicketOfRuleId(id);
    assert EntryOk(w, agent, RuleId(id), w.procs[agent].rules[RuleId(id)]);
  }
}
