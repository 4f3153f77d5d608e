/** A listener does not go before its ticket's window is over, unless it is revoked or its agent starts again. */
module WorldWindows {
  import opened Wrappers
  import opened RuleIds
  import opened Store
  import opened Forwarding
  import opened Links
  import opened Worlds
  import opened WorldFrames
  import opened WorldSteps
  import opened WorldCalls
  import opened WorldTheorems
  import opened WorldLate

  /** The window of the ticket of this rule is over. */
  ghost predicate Over(w: World, rule: string) {
    TicketOf(rule) in w.past.grants && w.past.grants[TicketOf(rule)].expires <= w.now
  }

  /** Every timer that has gone off belongs to a window that is over. */
  ghost predicate TimersInv(w: World) {
    forall a, r :: a in w.procs && r in w.procs[a].firing ==> Over(w, r)
  }

  lemma OverStays(w: World, w': World, rule: string)
    requires Extends(w, w') && Over(w, rule)
    ensures Over(w', rule)
  {
    hide Evolves, TicketOf;
  }

  /** A timer only goes off when it is due. */
  lemma FiringOnlyDue(w: World, e: Event, agent: int, rule: string)
    requires agent in Step(w, e).procs && rule in Step(w, e).procs[agent].firing
    ensures
      || (agent in w.procs && rule in w.procs[agent].firing)
      || (agent in w.procs && rule in w.procs[agent].rules
          && w.procs[agent].rules[rule].deadline.Some? && w.procs[agent].rules[rule].deadline.value <= w.now)
  {
    hide AdvanceCall, BeginCall, After, Obey;
    if e.Advance? || e.StartApprove? || e.StartRevoke? || e.StartReapply? {
      SameProcs(w, e);
    }
  }

  lemma DueIsOver(w: World, agent: int, rule: string)
    requires Inv(w) && Enforces(w, agent, rule)
    requires w.procs[agent].rules[rule].deadline.Some? && w.procs[agent].rules[rule].deadline.value <= w.now
    ensures Over(w, rule)
  {
    hide Inv, RuleId, TicketOf, Aimed;
    ProcOkHere(w, agent);
    assert EntryOk(w, agent, rule, w.procs[agent].rules[rule]);
  }

  lemma StepTimers(w: World, e: Event)
    requires Inv(w) && TimersInv(w)
    ensures TimersInv(Step(w, e))
  {
    hide Inv, Step, Over, Extends;
    StepExtends(w, e);
    forall a, r | a in Step(w, e).procs && r in Step(w, e).procs[a].firing ensures Over(Step(w, e), r) {
      FiringOnlyDue(w, e, a, r);
      if !(a in w.procs && r in w.procs[a].firing) {
        DueIsOver(w, a, r);
      }
      OverStays(w, Step(w, e), r);
    }
  }

  lemma {:induction false} RunTimers(now: int, srcPeerIPs: seq<string>, events: seq<Event>)
    ensures TimersInv(Reached(now, srcPeerIPs, events))
  {
    if events != [] {
      hide Inv, Step, Over;
      RunTimers(now, srcPeerIPs, events[..|events| - 1]);
      RunKeeps(now, srcPeerIPs, events[..|events| - 1]);
      StepTimers(Reached(now, srcPeerIPs, events[..|events| - 1]), events[|events| - 1]);
    }
  }

  /** The event makes the agent obey a revoke of the rule. */
  ghost predicate Withdraws(w: World, e: Event, agent: int, rule: string) {
    exists link, m :: Obeys(w, e, agent, link, m) && m.cmd == Command.Revoke(rule)
  }

  /** What takes an entry away: its agent starts again, it is revoked, or a timer of its rule runs. */
  lemma OnlyTheseRemove(w: World, e: Event, agent: int, rule: string)
    requires Inv(w) && Enforces(w, agent, rule) && !Enforces(Step(w, e), agent, rule)
    ensures e == AgentRestart(agent) || Withdraws(w, e, agent, rule) || (e == TimerRuns(agent, rule) && rule in w.procs[agent].firing)
  {
    hide Inv, AdvanceCall, BeginCall, After;
    if e.Advance? || e.StartApprove? || e.StartRevoke? || e.StartReapply? {
      SameProcs(w, e);
    } else if e.Receive? {
      var p := w.procs[agent];
      assert e.agent == agent;
      var l := w.links[p.session.value];
      assert Obeys(w, e, agent, p.session.value, l.queue[0]);
    }
  }

  /** An entry that stays is not changed. */
  lemma EntryStays(w: World, e: Event, agent: int, rule: string)
    requires Enforces(w, agent, rule) && Enforces(Step(w, e), agent, rule)
    ensures Step(w, e).procs[agent].rules[rule] == w.procs[agent].rules[rule]
  {
    hide AdvanceCall, BeginCall, After;
    if e.Advance? || e.StartApprove? || e.StartRevoke? || e.StartReapply? {
      SameProcs(w, e);
    }
  }

  /** What may take an entry away before its window is over. */
  ghost predicate CutShort(w: World, e: Event, agent: int, rule: string) {
    e == AgentRestart(agent) || Withdraws(w, e, agent, rule)
  }

  /**
   * An entry that is there at one point of a run is there at the end, and is the same, unless
   * in between its agent started again, or obeyed a revoke of its rule, or its ticket's window
   * came to its end.
   */
  lemma {:induction false} KeptUntilExpiry(now: int, srcPeerIPs: seq<string>, events: seq<Event>, m: nat, agent: int, rule: string)
    requires m <= |events| && Enforces(Reached(now, srcPeerIPs, events[..m]), agent, rule)
    requires forall j :: m <= j < |events| ==> !CutShort(Reached(now, srcPeerIPs, events[..j]), events[j], agent, rule)
    requires !Over(Reached(now, srcPeerIPs, events), rule)
    ensures
      var w, w' := Reached(now, srcPeerIPs, events[..m]), Reached(now, srcPeerIPs, events);
      SameEntry(w, w', agent, rule)
  {
    hide Step, Over, CutShort, Inv, TimersInv, SameEntry, Enforces;
    assert events[..|events|] == events;
    if m == |events| {
      SameReflexive(Reached(now, srcPeerIPs, events), agent, rule);
    } else {
      var n := |events| - 1;
      var before, e := events[..n], events[n];
      var w := Reached(now, srcPeerIPs, before);
      assert before[..m] == events[..m];
      forall j | m <= j < n ensures !CutShort(Reached(now, srcPeerIPs, before[..j]), before[j], agent, rule) {
        assert before[..j] == events[..j];
      }
      RunKeeps(now, srcPeerIPs, before);
      RunTimers(now, srcPeerIPs, before);
      NotOverBefore(w, e, rule);
      KeptUntilExpiry(now, srcPeerIPs, before, m, agent, rule);
      SameNext(Reached(now, srcPeerIPs, events[..m]), w, e, agent, rule);
    }
  }

  ghost predicate SameEntry(w: World, w': World, agent: int, rule: string) {
    && Enforces(w, agent, rule) && Enforces(w', agent, rule)
    && w'.procs[agent].rules[rule] == w.procs[agent].rules[rule]
  }

  lemma SameReflexive(w: World, agent: int, rule: string)
    requires Enforces(w, agent, rule)
    ensures SameEntry(w, w, agent, rule)
  {
  }

  lemma SameNext(w0: World, w: World, e: Event, agent: int, rule: string)
    requires SameEntry(w0, w, agent, rule) && Inv(w) && TimersInv(w) && !CutShort(w, e, agent, rule) && !Over(w, rule)
    ensures SameEntry(w0, Step(w, e), agent, rule)
  {
    hide Inv, Step, Over, CutShort, TimersInv;
    NotRemoved(w, e, agent, rule);
    EntryStays(w, e, agent, rule);
  }

  lemma NotOverBefore(w: World, e: Event, rule: string)
    requires Inv(w) && !Over(Step(w, e), rule)
    ensures !Over(w, rule)
  {
    hide Inv, Step, Over, Extends;
    StepExtends(w, e);
    if Over(w, rule) {
      OverStays(w, Step(w, e), rule);
    }
  }

  lemma NotRemoved(w: World, e: Event, agent: int, rule: string)
    requires Inv(w) && TimersInv(w) && Enforces(w, agent, rule) && !CutShort(w, e, agent, rule) && !Over(w, rule)
    ensures Enforces(Step(w, e), agent, rule)
  {
    hide Inv, Step, Over, Withdraws;
    if !Enforces(Step(w, e), agent, rule) {
      OnlyTheseRemove(w, e, agent, rule);
    }
  }
}
