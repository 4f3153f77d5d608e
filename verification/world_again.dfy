/** Exactly when a ticket that is past active can still have a listener, now or later. */
module WorldAgain {
  import opened Wrappers
  import opened RuleIds
  import opened Store
  import opened Forwarding
  import opened Links
  import opened Worlds
  import opened WorldFrames
  import opened WorldSteps
  import opened WorldCalls
  import opened WorldTheorems
  import opened WorldLate
  import D = WorldDrive
  import F = WorldForeign
  import P = WorldPorts

  // ---- calls send only their own ticket's rule ----

  predicate AllApply(todo: seq<Command>, rule: string) {
    forall i :: 0 <= i < |todo| ==> todo[i].Apply? && todo[i].rule == rule
  }

  predicate CallRules(call: Call) {
    match call
    case Connecting(goal, _, todo) => goal.ToRevoke? || AllApply(todo, RuleId(goal.ticket))
    case Sending(goal, _, todo, _) => goal.ToRevoke? || AllApply(todo, RuleId(goal.ticket))
    case Enqueuing(goal, _, todo, _) => goal.ToRevoke? || AllApply(todo, RuleId(goal.ticket))
    case Awaiting(goal, _, todo, _) => goal.ToRevoke? || AllApply(todo, RuleId(goal.ticket))
    case _ => true
  }

  ghost predicate RulesInv(w: World) {
    forall c :: c in w.calls ==> CallRules(w.calls[c])
  }

  lemma PushesApply(w: World, rule: string, targets: seq<Target>, expires: Option<int>)
    ensures AllApply(Pushes(w, rule, targets, expires), rule)
  {
  }

  lemma ReadingRules(w: World, c: nat, good: bool)
    requires Inv(w) && c in w.calls
    requires var call := w.calls[c];
      call.ApplyAt? || call.ApplyRow? || call.ApplyAgent? || call.ReapplyAt? || call.ReapplyBound? || call.RevokeAt?
    ensures var w' := AdvanceCall(w, c, good); c in w'.calls ==> CallRules(w'.calls[c])
  {
    hide Inv, BuildTargets, Listed, RuleId, Pushes, AllApply, Snapshot;
    CallHere(w, c);
    match w.calls[c] {
      case ApplyAgent(t, row, agent) =>
        PushesApply(w, RuleId(t), BuildTargets(Listed(w.db.assets, row.frozen), row.ports), Some(w.now + row.duration));
      case ReapplyBound(t, row, b) =>
        PushesApply(w, b.ruleId, BuildTargets(Listed(w.db.assets, row.frozen), row.ports), row.expires);
      case _ =>
    }
  }

  lemma SendingRules(w: World, c: nat, good: bool)
    requires c in w.calls && CallRules(w.calls[c])
    requires w.calls[c].Connecting? || w.calls[c].Sending? || w.calls[c].Enqueuing? || w.calls[c].Awaiting?
    ensures CallRules(AdvanceGateway(w, c, good).calls[c])
  {
    hide RuleId;
  }

  lemma AdvanceRules(w: World, c: nat, good: bool)
    requires Inv(w) && RulesInv(w) && c in w.calls
    ensures RulesInv(AdvanceCall(w, c, good))
  {
    hide Inv, CallRules, AdvanceApply, AdvanceRevoke, AdvanceGateway, AdvanceEnd;
    P.AdvanceFrame(w, c, good);
    match w.calls[c] {
      case Succeeded(_, _) | Failed(_) => P.GoneCallPorts(w, c, good);
      case Connecting(_, _, _) | Sending(_, _, _, _) | Enqueuing(_, _, _, _) | Awaiting(_, _, _, _) => SendingRules(w, c, good);
      case _ => ReadingRules(w, c, good);
    }
  }

  /** Only an Advance changes a call; other events end calls or begin new ones. */
  lemma OtherCalls(w: World, e: Event, c: nat)
    requires !e.Advance? && c in Step(w, e).calls
    ensures
      var call := Step(w, e).calls[c];
      || (c in w.calls && w.calls[c] == call) || call.ApplyAt? || call.RevokeAt?
      || (call.ReapplyAt? && e == StartReapply(call.ticket) && call.ticket in w.db.tickets && LiveAt(w.db.tickets[call.ticket], w.now))
  {
    hide After, Exec, Obey, AdvanceCall;
  }

  lemma StepRules(w: World, e: Event)
    requires Inv(w) && RulesInv(w)
    ensures RulesInv(Step(w, e))
  {
    hide Inv, CallRules, Step;
    if e.Advance? {
      CalledStep(w, e);
      if e.call in w.calls {
        AdvanceRules(w, e.call, e.good);
      }
    } else {
      forall c | c in Step(w, e).calls ensures CallRules(Step(w, e).calls[c]) {
        OtherCalls(w, e, c);
        FreshRules(Step(w, e).calls[c]);
      }
    }
  }

  lemma CalledStep(w: World, e: Event)
    requires e.Advance?
    ensures Step(w, e) == if e.call in w.calls then AdvanceCall(w, e.call, e.good) else w
  {
    hide AdvanceCall;
  }

  lemma FreshRules(call: Call)
    ensures call.ApplyAt? || call.RevokeAt? || call.ReapplyAt? ==> CallRules(call)
  {
  }

  lemma {:induction false} RunRules(now: int, srcPeerIPs: seq<string>, events: seq<Event>)
    ensures RulesInv(Reached(now, srcPeerIPs, events))
  {
    if events != [] {
      hide Inv, Step, RulesInv;
      RunRules(now, srcPeerIPs, events[..|events| - 1]);
      RunKeeps(now, srcPeerIPs, events[..|events| - 1]);
      StepRules(Reached(now, srcPeerIPs, events[..|events| - 1]), events[|events| - 1]);
    }
  }

  // ---- what can still open a listener ----

  /** The stream's agent reads from it. */
  predicate Served(w: World, link: nat) {
    link < |w.links| && w.links[link].agent in w.procs && w.procs[w.links[link].agent].session == Some(link)
  }

  predicate IsApply(m: Message, t: nat) {
    m.cmd.Apply? && m.cmd.rule == RuleId(t)
  }

  /** An Apply of the ticket's rule is on a stream its agent reads from. */
  predicate Queued(w: World, t: nat, link: nat) {
    Served(w, link) && exists i :: 0 <= i < |w.links[link].queue| && IsApply(w.links[link].queue[i], t)
  }

  /** An OK answer to this command is in its channel, or on the stream, or about to be sent. */
  predicate AckComing(w: World, link: nat, id: nat) {
    && Served(w, link) && id in w.links[link].slots
    && var l := w.links[link];
       if l.slots[id].Some? then l.slots[id].value.answer.Some?
       else
         || (exists k :: 0 <= k < |l.replies| && l.replies[k].id == id && l.replies[k].answer.Some?)
         || (w.procs[l.agent].owes.Some? && w.procs[l.agent].owes.value.id == id && w.procs[l.agent].owes.value.answer.Some?)
  }

  predicate For(goal: Goal, t: nat) {
    !goal.ToRevoke? && goal.ticket == t
  }

  /** The call is not done sending Apply commands of the ticket, and nothing keeps it from going on. */
  predicate MaySend(w: World, t: nat, call: Call) {
    match call
    case ReapplyAt(u, _) => u == t
    case ReapplyBound(u, _, _) => u == t
    case Connecting(goal, _, todo) => For(goal, t) && todo != []
    case Sending(goal, link, todo, _) => For(goal, t) && todo != [] && Served(w, link)
    case Enqueuing(goal, link, todo, _) => For(goal, t) && todo != [] && Served(w, link)
    case Awaiting(goal, link, todo, id) => For(goal, t) && |todo| > 1 && AckComing(w, link, id)
    case _ => false
  }

  /** A listener is there, an Apply is on its way to the agent, or a call may still send one. */
  ghost predicate StillComing(w: World, t: nat) {
    || (exists agent :: Enforces(w, agent, RuleId(t)))
    || (exists link :: Queued(w, t, link))
    || (exists c :: c in w.calls && MaySend(w, t, w.calls[c]))
  }

  ghost predicate PastActive(w: World, t: nat) {
    t in w.db.tickets && Enforced(w.db.tickets[t].status) && w.db.tickets[t].status != Active
  }

  // ---- when nothing can, nothing ever will ----

  lemma EnforcedComes(w: World, e: Event, t: nat, agent: int)
    requires Inv(w) && Enforces(Step(w, e), agent, RuleId(t))
    ensures Enforces(w, agent, RuleId(t)) || exists link :: Queued(w, t, link)
  {
    hide Inv, Step, RuleId, Enforces;
    if !Enforces(w, agent, RuleId(t)) {
      OnlyApplyAdds(w, e, agent, RuleId(t));
      var link: nat, m :| Obeys(w, e, agent, link, m) && m.cmd.Apply? && m.cmd.rule == RuleId(t);
      ServesItsOwn(w, agent, link);
      assert IsApply(w.links[link].queue[0], t);
      assert Queued(w, t, link);
    }
  }

  lemma ServesItsOwn(w: World, agent: int, link: nat)
    requires Inv(w) && agent in w.procs && w.procs[agent].session == Some(link)
    ensures Served(w, link) && w.links[link].agent == agent
  {
    hide Inv, EntryOk, Owed;
    ProcOkHere(w, agent);
  }

  /** Nobody reads again from a stream it did not read from, and a queue only loses its head; a new stream is empty. */
  predicate StreamFramed(w: World, w': World, link: nat)
    requires link < |w'.links|
  {
    var queue := w'.links[link].queue;
    if link >= |w.links| then queue == []
    else
      && w'.links[link].agent == w.links[link].agent && (Served(w', link) ==> Served(w, link))
      && (queue == w.links[link].queue || (w.links[link].queue != [] && queue == w.links[link].queue[1..]))
  }

  lemma OpenFrame(w: World, e: Event, link: nat)
    requires Inv(w) && e.OpenStream? && link < |Step(w, e).links|
    ensures StreamFramed(w, Step(w, e), link)
  {
    hide Inv, AdvanceCall, BeginCall, After;
    ProcOkHere(w, e.agent);
  }

  lemma ReceiveFrame(w: World, e: Event, link: nat)
    requires Inv(w) && e.Receive? && link < |Step(w, e).links|
    ensures StreamFramed(w, Step(w, e), link)
  {
    hide Inv, AdvanceCall, BeginCall, After, Obey;
    ProcOkHere(w, e.agent);
  }

  lemma BeginFrame(w: World, e: Event, link: nat)
    requires (e.Database? || e.StartApprove? || e.StartRevoke? || e.StartReapply?) && link < |Step(w, e).links|
    ensures StreamFramed(w, Step(w, e), link)
  {
    hide AdvanceCall, AgentStep, After, Exec;
  }

  lemma WireFrame(w: World, e: Event, link: nat)
    requires e.Abandon? || e.ServerCrash? || e.ControlReturns? || e.RouteAck? || e.Tick?
    requires link < |Step(w, e).links|
    ensures StreamFramed(w, Step(w, e), link)
  {
    hide AdvanceCall, BeginCall, AgentStep, After;
  }

  lemma AgentFrame(w: World, e: Event, link: nat)
    requires e.StreamBreaks? || e.AgentRestart? || e.Reply? || e.TimerGoesOff? || e.TimerRuns?
    requires link < |Step(w, e).links|
    ensures StreamFramed(w, Step(w, e), link)
  {
    hide AdvanceCall, BeginCall, After;
  }

  lemma StreamFrame(w: World, e: Event, link: nat)
    requires Inv(w) && link < |Step(w, e).links| && !e.Advance?
    ensures StreamFramed(w, Step(w, e), link)
  {
    hide Inv, Step, StreamFramed;
    match e {
      case OpenStream(_) => OpenFrame(w, e, link);
      case Receive(_, _, _) => ReceiveFrame(w, e, link);
      case Database(_, _) | StartApprove(_, _, _) | StartRevoke(_, _) | StartReapply(_) => BeginFrame(w, e, link);
      case StreamBreaks(_) | AgentRestart(_) | Reply(_, _) | TimerGoesOff(_, _) | TimerRuns(_, _) => AgentFrame(w, e, link);
      case _ => WireFrame(w, e, link);
    }
  }

  lemma OtherQueued(w: World, e: Event, t: nat, link: nat)
    requires Inv(w) && !e.Advance? && Queued(Step(w, e), t, link)
    ensures Queued(w, t, link)
  {
    hide Inv, Step, RuleId, Served, IsApply;
    assert link < |Step(w, e).links| by { ServedExists(Step(w, e), link); }
    StreamFrame(w, e, link);
    var queue := Step(w, e).links[link].queue;
    var i :| 0 <= i < |queue| && IsApply(queue[i], t);
    assert queue == w.links[link].queue ==> IsApply(w.links[link].queue[i], t);
    if queue != w.links[link].queue {
      assert IsApply(w.links[link].queue[i + 1], t);
    }
  }

  lemma ServedExists(w: World, link: nat)
    requires Served(w, link)
    ensures link < |w.links|
  {
  }

  /** The call that moves may enqueue one command, on its own stream. */
  lemma AdvanceQueue(w: World, c: nat, good: bool, link: nat)
    requires c in w.calls && link < |w.links|
    ensures
      var w' := AdvanceCall(w, c, good);
      && w'.procs == w.procs && link < |w'.links| && w'.links[link].agent == w.links[link].agent
      && (w'.links[link].queue == w.links[link].queue
          || (w.calls[c].Enqueuing? && w.calls[c].link == link && w.calls[c].todo != []
              && w'.links[link].queue == w.links[link].queue + [Message(w.calls[c].id, w.calls[c].todo[0])]))
  {
    hide After, Pushes, BuildTargets, Listed, AdvanceGateway, Exec;
    if w.calls[c].Connecting? || w.calls[c].Sending? || w.calls[c].Enqueuing? || w.calls[c].Awaiting? {
      GatewayQueue(w, c, good, link);
    } else {
      assert AdvanceCall(w, c, good).links == w.links;
    }
  }

  lemma GatewayQueue(w: World, c: nat, good: bool, link: nat)
    requires c in w.calls && link < |w.links|
    ensures
      var w' := AdvanceGateway(w, c, good);
      && w'.procs == w.procs && link < |w'.links| && w'.links[link].agent == w.links[link].agent
      && (w'.links[link].queue == w.links[link].queue
          || (w.calls[c].Enqueuing? && w.calls[c].link == link && w.calls[c].todo != []
              && w'.links[link].queue == w.links[link].queue + [Message(w.calls[c].id, w.calls[c].todo[0])]))
  {
    hide AdvanceGateway;
    if w.calls[c].Enqueuing? {
      EnqueuesOne(w, c, good, link);
    } else {
      EnqueuesNone(w, c, good, link);
    }
  }

  lemma EnqueuesNone(w: World, c: nat, good: bool, link: nat)
    requires c in w.calls && link < |w.links| && !w.calls[c].Enqueuing?
    ensures
      var w' := AdvanceGateway(w, c, good);
      && w'.procs == w.procs && link < |w'.links|
      && w'.links[link].agent == w.links[link].agent && w'.links[link].queue == w.links[link].queue
  {
  }

  lemma EnqueuesOne(w: World, c: nat, good: bool, link: nat)
    requires c in w.calls && link < |w.links| && w.calls[c].Enqueuing?
    ensures
      var w', call := AdvanceGateway(w, c, good), w.calls[c];
      && w'.procs == w.procs && link < |w'.links| && w'.links[link].agent == w.links[link].agent
      && (w'.links[link].queue == w.links[link].queue
          || (call.link == link && call.todo != []
              && w'.links[link].queue == w.links[link].queue + [Message(call.id, call.todo[0])]))
  {
  }

  /** An Apply of the ticket's rule is only enqueued by a call that may send one. */
  lemma EnqueuesOwn(w: World, t: nat, c: nat)
    requires Inv(w) && RulesInv(w) && c in w.calls && w.calls[c].Enqueuing? && w.calls[c].todo != []
    requires IsApply(Message(w.calls[c].id, w.calls[c].todo[0]), t)
    ensures For(w.calls[c].goal, t)
  {
    hide Inv, RuleId, CmdOk, GoalOk, Holds;
    CallHere(w, c);
    assert CallRules(w.calls[c]);
    if !w.calls[c].goal.ToRevoke? {
      RuleIdInjective(w.calls[c].goal.ticket, t);
    }
  }

  lemma AdvanceQueued(w: World, c: nat, good: bool, t: nat, link: nat)
    requires Inv(w) && RulesInv(w) && c in w.calls && Queued(AdvanceCall(w, c, good), t, link)
    ensures Queued(w, t, link) || MaySend(w, t, w.calls[c])
  {
    hide Inv, RuleId, AdvanceCall, RulesInv, IsApply;
    var w' := AdvanceCall(w, c, good);
    P.AdvanceFrame(w, c, good);
    AdvanceQueue(w, c, good, link);
    var i :| 0 <= i < |w'.links[link].queue| && IsApply(w'.links[link].queue[i], t);
    if i < |w.links[link].queue| {
      assert IsApply(w.links[link].queue[i], t);
    } else {
      EnqueuesOwn(w, t, c);
    }
  }

  // ---- calls that do not move ----

  /** An answer that comes now was coming before, or the command itself was still on the stream. */
  lemma AckCame(w: World, e: Event, t: nat, c: nat)
    requires Inv(w) && RulesInv(w) && c in w.calls && w.calls[c].Awaiting? && For(w.calls[c].goal, t) && !e.Advance?
    requires AckComing(Step(w, e), w.calls[c].link, w.calls[c].id)
    ensures AckComing(w, w.calls[c].link, w.calls[c].id) || Queued(w, t, w.calls[c].link)
  {
    hide Inv, Step, RuleId, RulesInv, Served, IsApply;
    var link, id := w.calls[c].link, w.calls[c].id;
    AwaitsOnLink(w, c);
    ServedExists(Step(w, e), link);
    StreamFrame(w, e, link);
    AckFrame(w, e, link, id);
    if OwesNow(w, e, link, id) {
      AnswersNow(w, e, t, c);
    }
  }

  lemma AwaitsOnLink(w: World, c: nat)
    requires Inv(w) && c in w.calls && w.calls[c].Awaiting?
    ensures w.calls[c].link < |w.links| && w.calls[c].todo != [] && w.calls[c].id < w.nextCmd
    ensures Message(w.calls[c].id, w.calls[c].todo[0]) in w.links[w.calls[c].link].sent
  {
    hide Inv, GoalOk, TodoOk;
    CallHere(w, c);
  }

  /** The agent has just obeyed the command with this id. */
  predicate OwesNow(w: World, e: Event, link: nat, id: nat) {
    && e.Receive? && link < |w.links| && e.agent in w.procs && w.procs[e.agent].session == Some(link)
    && w.links[link].agent == e.agent && w.links[link].queue != [] && w.links[link].queue[0].id == id
  }

  lemma AckFrame(w: World, e: Event, link: nat, id: nat)
    requires Inv(w) && !e.Advance? && link < |w.links| && AckComing(Step(w, e), link, id) && Served(w, link)
    ensures AckComing(w, link, id) || OwesNow(w, e, link, id)
  {
    hide Inv, Obey, After, Exec, AdvanceCall;
    var w' := Step(w, e);
    ProcOkHere(w, w.links[link].agent);
    match e {
      case RouteAck(k) =>
        if k == link && w.links[link].replies != [] {
          RoutedFrame(w, e, link, id);
        }
      case Reply(agent, delivered) =>
        if agent == w.links[link].agent && w.procs[agent].owes.Some? {
          RepliedFrame(w, e, link, id);
        } else {
          ProcOkHere(w, agent);
          assert w'.links[link] == w.links[link];
        }
      case Receive(agent, works, port) =>
        ProcOkHere(w, agent);
      case _ => SameStream(w, e, link);
    }
  }

  lemma RoutedFrame(w: World, e: Event, link: nat, id: nat)
    requires Inv(w) && e == RouteAck(link) && Served(w, link) && w.links[link].replies != [] && AckComing(Step(w, e), link, id)
    ensures AckComing(w, link, id)
  {
    hide Inv, LinkInv, AdvanceCall, BeginCall, After, AgentStep;
    var l, l' := w.links[link], Step(w, e).links[link];
    assert l' == Route(l);
    if l.replies[0].id == id {
      LinkOkHere(w, link);
      RouteFindsRoom(l);
    } else if l'.slots[id].None? {
      if k :| 0 <= k < |l'.replies| && l'.replies[k].id == id && l'.replies[k].answer.Some? {
        assert l.replies[k + 1] == l'.replies[k];
      }
    }
  }

  lemma SameStream(w: World, e: Event, link: nat)
    requires link < |w.links| && !e.Advance? && !e.RouteAck? && !e.Reply? && !e.Receive?
    ensures link < |Step(w, e).links| && Step(w, e).links[link] == w.links[link]
    ensures Served(Step(w, e), link) && Served(w, link) ==>
      Step(w, e).procs[w.links[link].agent].owes == w.procs[w.links[link].agent].owes
  {
    hide Obey, After, Exec, AdvanceCall;
  }

  lemma RepliedFrame(w: World, e: Event, link: nat, id: nat)
    requires e.Reply? && Served(w, link) && e.agent == w.links[link].agent && w.procs[e.agent].owes.Some?
    requires AckComing(Step(w, e), link, id)
    ensures AckComing(w, link, id)
  {
    hide AdvanceCall, BeginCall, After;
    var w' := Step(w, e);
    var l, l' := w.links[link], w'.links[link];
    assert l'.slots == l.slots;
    if l'.slots[id].None? {
      var k :| 0 <= k < |l'.replies| && l'.replies[k].id == id && l'.replies[k].answer.Some?;
      assert k < |l.replies| ==> l.replies[k] == l'.replies[k];
    }
  }

  /** If the agent has just obeyed the awaited command, that command was on the stream it reads from. */
  lemma AnswersNow(w: World, e: Event, t: nat, c: nat)
    requires Inv(w) && RulesInv(w) && c in w.calls && w.calls[c].Awaiting? && For(w.calls[c].goal, t)
    requires OwesNow(w, e, w.calls[c].link, w.calls[c].id)
    ensures Queued(w, t, w.calls[c].link)
  {
    hide Inv, RuleId, Step, LinkInv;
    var link, id, todo := w.calls[c].link, w.calls[c].id, w.calls[c].todo;
    AwaitsOnLink(w, c);
    NextIsSent(w, link);
    var l := w.links[link];
    var j :| 0 <= j < |l.sent| && l.sent[j] == Message(id, todo[0]);
    LinkOkHere(w, link);
    SameIdSameMessage(l, j, |l.done|);
    assert CallRules(w.calls[c]);
    assert IsApply(l.queue[0], t);
  }

  lemma SameIdSameMessage(l: Link, i: nat, j: nat)
    requires LinkInv(l) && i < |l.sent| && j < |l.sent| && l.sent[i].id == l.sent[j].id
    ensures i == j
  {
    hide Distinct, Answers;
  }

  lemma UnmovedCall(w: World, e: Event, t: nat, c: nat)
    requires Inv(w) && RulesInv(w) && c in w.calls && !e.Advance? && MaySend(Step(w, e), t, w.calls[c])
    ensures MaySend(w, t, w.calls[c]) || exists link :: Queued(w, t, link)
  {
    hide Inv, Step, RuleId, RulesInv, Served, AckComing, Queued;
    match w.calls[c] {
      case Sending(_, link, _, _) => StillServed(w, e, c, link);
      case Enqueuing(_, link, _, _) => StillServed(w, e, c, link);
      case Awaiting(_, _, _, _) => AckCame(w, e, t, c);
      case _ =>
    }
  }

  lemma StillServed(w: World, e: Event, c: nat, link: nat)
    requires Inv(w) && c in w.calls && !e.Advance?
    requires (w.calls[c].Sending? && w.calls[c].link == link) || (w.calls[c].Enqueuing? && w.calls[c].link == link)
    ensures Served(Step(w, e), link) ==> Served(w, link)
  {
    hide Inv, Step, GoalOk, TodoOk, Served, ReceiptOk, Holds;
    CallHere(w, c);
    if Served(Step(w, e), link) {
      ServedExists(Step(w, e), link);
      StreamFrame(w, e, link);
    }
  }

  /** A call other than the one that moves. */
  lemma BesideMover(w: World, c: nat, good: bool, t: nat, k: nat)
    requires Inv(w) && c in w.calls && k in w.calls && k != c && MaySend(AdvanceCall(w, c, good), t, w.calls[k])
    ensures MaySend(w, t, w.calls[k])
  {
    hide Inv, RuleId, AdvanceCall, AckComing;
    match w.calls[k] {
      case Sending(_, link, _, _) => MoverServes(w, c, good, link);
      case Enqueuing(_, link, _, _) => MoverServes(w, c, good, link);
      case Awaiting(_, link, _, id) =>
        AwaitsOnLink(w, k);
        MoverAcks(w, c, good, link, id);
      case _ =>
    }
  }

  lemma MoverServes(w: World, c: nat, good: bool, link: nat)
    requires c in w.calls
    ensures Served(AdvanceCall(w, c, good), link) ==> Served(w, link)
  {
    hide AdvanceCall;
    P.AdvanceFrame(w, c, good);
    if link < |w.links| {
      AdvanceQueue(w, c, good, link);
    }
  }

  lemma MoverAcks(w: World, c: nat, good: bool, link: nat, id: nat)
    requires c in w.calls && link < |w.links| && id < w.nextCmd && AckComing(AdvanceCall(w, c, good), link, id)
    ensures AckComing(w, link, id)
  {
    hide After, Pushes, BuildTargets, Listed, AdvanceGateway, Exec;
    if w.calls[c].Connecting? || w.calls[c].Sending? || w.calls[c].Enqueuing? || w.calls[c].Awaiting? {
      GatewayAcks(w, c, good, link, id);
    } else {
      var w' := AdvanceCall(w, c, good);
      assert w'.links == w.links && w'.procs == w.procs;
    }
  }

  lemma GatewayAcks(w: World, c: nat, good: bool, link: nat, id: nat)
    requires c in w.calls && link < |w.links| && id < w.nextCmd && AckComing(AdvanceGateway(w, c, good), link, id)
    ensures AckComing(w, link, id)
  {
    GatewayLink(w, c, good, link, id);
    hide AdvanceGateway;
  }

  lemma GatewayLink(w: World, c: nat, good: bool, link: nat, id: nat)
    requires c in w.calls && link < |w.links| && id < w.nextCmd
    ensures
      var w' := AdvanceGateway(w, c, good);
      && w'.procs == w.procs && link < |w'.links|
      && var l, l' := w.links[link], w'.links[link];
         && l'.agent == l.agent && l'.replies == l.replies
         && (id in l'.slots ==> id in l.slots && l'.slots[id] == l.slots[id])
  {
  }

  // ---- the call that moves ----

  lemma MovedSender(w: World, c: nat, good: bool, t: nat)
    requires Inv(w) && PastActive(w, t) && c in w.calls
    requires var w' := AdvanceCall(w, c, good); c in w'.calls && MaySend(w', t, w'.calls[c])
    ensures MaySend(w, t, w.calls[c])
  {
    hide Inv, RuleId, AdvanceApply, AdvanceGateway, AdvanceEnd, AdvanceRevoke, MaySend;
    if w.calls[c].Connecting? || w.calls[c].Sending? || w.calls[c].Enqueuing? || w.calls[c].Awaiting? {
      MovedOnLink(w, c, good, t);
    } else {
      MovedReading(w, c, good, t);
    }
  }

  lemma MovedReading(w: World, c: nat, good: bool, t: nat)
    requires Inv(w) && PastActive(w, t) && c in w.calls
    requires !(w.calls[c].Connecting? || w.calls[c].Sending? || w.calls[c].Enqueuing? || w.calls[c].Awaiting?)
    requires var w' := AdvanceCall(w, c, good); c in w'.calls && MaySend(w', t, w'.calls[c])
    ensures MaySend(w, t, w.calls[c])
  {
    hide Inv, RuleId, AdvanceCall, MaySend;
    if w.calls[c].ApplyAgent? {
      NotApplying(w, c, t);
    }
    ReadsOn(w, c, good, t);
  }

  lemma ReadsOn(w: World, c: nat, good: bool, t: nat)
    requires c in w.calls && (w.calls[c].ApplyAgent? ==> w.calls[c].ticket != t)
    requires !(w.calls[c].Connecting? || w.calls[c].Sending? || w.calls[c].Enqueuing? || w.calls[c].Awaiting?)
    requires var w' := AdvanceCall(w, c, good); c in w'.calls && MaySend(w', t, w'.calls[c])
    ensures MaySend(w, t, w.calls[c])
  {
    hide RuleId, Pushes, BuildTargets, Listed, Served, AckComing, After, Exec;
  }

  /** A ticket that is past active has its grant, so no call is about to make one. */
  lemma NotApplying(w: World, c: nat, t: nat)
    requires Inv(w) && PastActive(w, t) && c in w.calls && w.calls[c].ApplyAgent?
    ensures w.calls[c].ticket != t
  {
    hide Inv, RuleId, Snapshot, HistoryInv, ReceiptOk;
    CallHere(w, c);
    HistoryHere(w);
    RowHere(w, t);
  }

  lemma MovedOnLink(w: World, c: nat, good: bool, t: nat)
    requires c in w.calls && (w.calls[c].Connecting? || w.calls[c].Sending? || w.calls[c].Enqueuing? || w.calls[c].Awaiting?)
    requires MaySend(AdvanceGateway(w, c, good), t, AdvanceGateway(w, c, good).calls[c])
    ensures MaySend(w, t, w.calls[c])
  {
    match w.calls[c] {
      case Connecting(_, _, _) => hide Served; MovedConnecting(w, c, good, t);
      case Sending(_, _, _, _) => MovedSending(w, c, good, t);
      case Enqueuing(_, _, _, _) => MovedEnqueuing(w, c, good, t);
      case Awaiting(_, _, _, _) => MovedAwaiting(w, c, good, t);
    }
  }

  lemma MovedConnecting(w: World, c: nat, good: bool, t: nat)
    requires c in w.calls && w.calls[c].Connecting?
    requires MaySend(AdvanceGateway(w, c, good), t, AdvanceGateway(w, c, good).calls[c])
    ensures MaySend(w, t, w.calls[c])
  {
    hide Served, AckComing;
  }

  lemma MovedSending(w: World, c: nat, good: bool, t: nat)
    requires c in w.calls && w.calls[c].Sending?
    requires MaySend(AdvanceGateway(w, c, good), t, AdvanceGateway(w, c, good).calls[c])
    ensures MaySend(w, t, w.calls[c])
  {
    hide AckComing;
  }

  lemma MovedEnqueuing(w: World, c: nat, good: bool, t: nat)
    requires c in w.calls && w.calls[c].Enqueuing?
    requires MaySend(AdvanceGateway(w, c, good), t, AdvanceGateway(w, c, good).calls[c])
    ensures MaySend(w, t, w.calls[c])
  {
    AckIsServed(AdvanceGateway(w, c, good), w.calls[c].link, w.calls[c].id);
    hide AckComing;
  }

  lemma AckIsServed(w: World, link: nat, id: nat)
    ensures AckComing(w, link, id) ==> Served(w, link)
  {
  }

  lemma MovedAwaiting(w: World, c: nat, good: bool, t: nat)
    requires c in w.calls && w.calls[c].Awaiting?
    requires MaySend(AdvanceGateway(w, c, good), t, AdvanceGateway(w, c, good).calls[c])
    ensures MaySend(w, t, w.calls[c])
  {
    var w' := AdvanceGateway(w, c, good);
    if w'.calls[c].Awaiting? {
      assert w' == w;
    } else {
      assert w'.calls[c].Sending? && w'.procs == w.procs;
    }
  }

  // ---- every step and every run ----

  lemma QuietStep(w: World, e: Event, t: nat)
    requires Inv(w) && RulesInv(w) && PastActive(w, t) && !StillComing(w, t)
    ensures !StillComing(Step(w, e), t) && PastActive(Step(w, e), t)
  {
    hide Inv, RulesInv, Step, Queued, MaySend, RuleId, Enforces;
    var w' := Step(w, e);
    StaysPast(w, e, t);
    forall agent ensures !Enforces(w', agent, RuleId(t)) {
      if Enforces(w', agent, RuleId(t)) {
        EnforcedComes(w, e, t, agent);
      }
    }
    if e.Advance? {
      CalledStep(w, e);
    }
    forall link ensures !Queued(w', t, link) {
      if Queued(w', t, link) {
        if e.Advance? && e.call in w.calls {
          AdvanceQueued(w, e.call, e.good, t, link);
        } else if !e.Advance? {
          OtherQueued(w, e, t, link);
        }
      }
    }
    forall c | c in w'.calls ensures !MaySend(w', t, w'.calls[c]) {
      if MaySend(w', t, w'.calls[c]) {
        if e.Advance? && e.call in w.calls {
          P.AdvanceFrame(w, e.call, e.good);
          if c == e.call {
            MovedSender(w, c, e.good, t);
          } else {
            BesideMover(w, e.call, e.good, t, c);
          }
        } else if !e.Advance? {
          OtherSender(w, e, t, c);
        }
      }
    }
  }

  lemma StaysPast(w: World, e: Event, t: nat)
    requires Inv(w) && PastActive(w, t)
    ensures PastActive(Step(w, e), t)
  {
    hide Inv, Step, TablesInv;
    StepExtends(w, e);
    StepKeeps(w, e);
    EvolvesHere(w, Step(w, e));
    assert RowEvolves(w.db, Step(w, e).db, t);
    BoundStays(w, Step(w, e), t);
  }

  lemma EvolvesHere(w: World, w': World)
    requires Extends(w, w')
    ensures Evolves(w.db, w'.db)
  {
    hide Evolves;
  }

  /** A bound ticket stays enforced. */
  lemma BoundStays(w: World, w': World, t: nat)
    requires Inv(w) && Inv(w') && Evolves(w.db, w'.db) && t in w.db.tickets && Enforced(w.db.tickets[t].status)
    ensures t in w'.db.tickets && Enforced(w'.db.tickets[t].status)
  {
    hide Inv, TablesInv, RowEvolves;
    TablesHere(w);
    TablesHere(w');
    BoundIsEnforced(w.db, t);
    BoundIsEnforced(w'.db, t);
  }

  lemma OtherSender(w: World, e: Event, t: nat, c: nat)
    requires Inv(w) && RulesInv(w) && PastActive(w, t) && !e.Advance? && c in Step(w, e).calls && MaySend(Step(w, e), t, Step(w, e).calls[c])
    ensures StillComing(w, t)
  {
    hide Inv, RulesInv, Step, Queued, Served, AckComing, Enforces, RuleId;
    OtherCalls(w, e, c);
    if c in w.calls && w.calls[c] == Step(w, e).calls[c] {
      UnmovedCall(w, e, t, c);
    }
  }

  lemma {:induction false} QuietRun(w: World, more: seq<Event>, t: nat)
    requires Inv(w) && RulesInv(w) && PastActive(w, t) && !StillComing(w, t)
    ensures Inv(Run(w, more)) && RulesInv(Run(w, more)) && PastActive(Run(w, more), t) && !StillComing(Run(w, more), t)
  {
    hide Inv, RulesInv, PastActive, StillComing, Step;
    if more != [] {
      var before := Run(w, more[..|more| - 1]);
      QuietRun(w, more[..|more| - 1], t);
      QuietStep(before, more[|more| - 1], t);
      StepKeeps(before, more[|more| - 1]);
      StepRules(before, more[|more| - 1]);
    }
  }

  // ---- when something can, a continuation opens a listener ----

  /** A good world in which the ticket was activated. */
  ghost predicate Good(w: World, t: nat) {
    Inv(w) && P.PortsInv(w) && RulesInv(w) && t in w.db.tickets && Enforced(w.db.tickets[t].status)
  }

  lemma GoodStep(w: World, e: Event, t: nat)
    requires Good(w, t)
    ensures Good(Step(w, e), t)
  {
    hide Inv, Step, RulesInv, P.PortsInv;
    StepExtends(w, e);
    StepKeeps(w, e);
    P.StepPorts(w, e);
    StepRules(w, e);
    EvolvesHere(w, Step(w, e));
    BoundStays(w, Step(w, e), t);
  }

  /** Every Apply command of an activated ticket is one an agent accepts. */
  lemma ApplyAccepted(w: World, t: nat, agent: int, cmd: Command)
    requires Good(w, t) && CmdOk(w, agent, cmd) && cmd.Apply? && cmd.rule == RuleId(t)
    ensures cmd.srcs != [] && cmd.target.ip != "" && cmd.target.port != 0
  {
    hide Inv, RuleId, TicketOf, TargetsOf, Catalogued, TablesInv;
    TicketOfRuleId(t);
    TablesHere(w);
    F.CataloguedHere(w.db);
    var row := w.db.tickets[t];
    var x :| x in TargetsOf(w.db, row) && cmd.target == OnWire(x);
    var i :| 0 <= i < |TargetsOf(w.db, row)| && TargetsOf(w.db, row)[i] == x;
    F.TargetAddressed(w.db, row, i);
    assert P.RowPorts(w.db, t);
    UsablePort(row.ports, x.port);
  }

  lemma NoneAsked(port: int)
    ensures !P.Asks([], port)
  {
  }

  lemma UsablePort(ports: seq<int>, port: int)
    requires P.Covered(ports, []) && port in ports
    ensures port % 0x1_0000_0000 != 0
  {
    NoneAsked(port);
    var i :| 0 <= i < |ports| && ports[i] == port;
    assert P.Usable(ports[i]);
  }

  lemma AcceptedEnforced(rules: Rules, cmd: Command, now: int, port: string)
    requires cmd.Apply? && cmd.srcs != [] && cmd.target.ip != "" && cmd.target.port != 0
    ensures cmd.rule in Obey(rules, cmd, now, true, port).0
  {
  }

  /** The agent sends what it owes, or loses it, and obeys the next command. */
  function ReceiveNext(agent: int): seq<Event> {
    [Reply(agent, false), Receive(agent, true, "p")]
  }

  lemma NextReceived(w: World, t: nat, link: nat)
    requires Good(w, t) && Served(w, link) && w.links[link].queue != []
    ensures
      var agent := w.links[link].agent;
      var w' := Run(w, ReceiveNext(agent));
      && Good(w', t) && Served(w', link) && w'.links[link].agent == agent && w'.links[link].queue == w.links[link].queue[1..]
      && agent in w.procs && agent in w'.procs
      && w'.procs[agent].rules == Obey(w.procs[agent].rules, w.links[link].queue[0].cmd, w.now, true, "p").0
  {
    hide Good, Run, Step, Obey;
    var agent := w.links[link].agent;
    D.RunTwo(w, Reply(agent, false), Receive(agent, true, "p"));
    GoodStep(w, Reply(agent, false), t);
    GoodStep(Step(w, Reply(agent, false)), Receive(agent, true, "p"), t);
    AnswerLost(w, agent, link);
    CommandReceived(Step(w, Reply(agent, false)), agent, link);
  }

  lemma AnswerLost(w: World, agent: int, link: nat)
    requires Served(w, link) && w.links[link].agent == agent
    ensures
      var w' := Step(w, Reply(agent, false));
      && w'.links == w.links && w'.now == w.now && Served(w', link) && w'.procs[agent].owes.None?
      && w'.procs[agent].rules == w.procs[agent].rules
  {
    hide AdvanceCall, BeginCall, After;
  }

  lemma CommandReceived(w: World, agent: int, link: nat)
    requires Served(w, link) && w.links[link].agent == agent && w.procs[agent].owes.None? && w.links[link].queue != []
    ensures
      var w' := Step(w, Receive(agent, true, "p"));
      && Served(w', link) && w'.links[link].agent == agent && w'.links[link].queue == w.links[link].queue[1..]
      && w'.procs[agent].rules == Obey(w.procs[agent].rules, w.links[link].queue[0].cmd, w.now, true, "p").0
  {
    hide AdvanceCall, BeginCall, After, Obey;
  }

  /** An Apply on a stream its agent reads from is obeyed once all before it are. */
  lemma {:induction false} QueuedOpens(w: World, t: nat, link: nat, i: nat) returns (more: seq<Event>)
    requires Good(w, t) && Served(w, link) && i < |w.links[link].queue| && IsApply(w.links[link].queue[i], t)
    ensures Enforces(Run(w, more), w.links[link].agent, RuleId(t))
    decreases i
  {
    hide Good, Run, RuleId, Obey, Served;
    ServedExists(w, link);
    var agent := w.links[link].agent;
    NextReceived(w, t, link);
    var w1 := Run(w, ReceiveNext(agent));
    ServedExists(w1, link);
    if i == 0 {
      more := ReceiveNext(agent);
      QueuedCmd(w, t, link);
      ApplyAccepted(w, t, agent, w.links[link].queue[0].cmd);
      AcceptedEnforced(w.procs[agent].rules, w.links[link].queue[0].cmd, w.now, "p");
    } else {
      assert w1.links[link].queue[i - 1] == w.links[link].queue[i];
      var rest := QueuedOpens(w1, t, link, i - 1);
      more := ReceiveNext(agent) + rest;
      D.RunSplit(w, ReceiveNext(agent), rest);
    }
  }

  lemma QueuedCmd(w: World, t: nat, link: nat)
    requires Good(w, t) && Served(w, link) && w.links[link].queue != []
    ensures CmdOk(w, w.links[link].agent, w.links[link].queue[0].cmd)
  {
    hide Inv, CmdOk;
    LinkOkHere(w, link);
    NextCommand(w, w.links[link]);
  }

  /** A call about to enqueue on such a stream. */
  lemma EnqueuingOpens(w: World, t: nat, c: nat) returns (more: seq<Event>, agent: int)
    requires Good(w, t) && c in w.calls && w.calls[c].Enqueuing? && MaySend(w, t, w.calls[c])
    ensures Enforces(Run(w, more), agent, RuleId(t))
  {
    hide Good, Run, Step, RuleId, Enforces;
    var e := Advance(c, true);
    EnqueuedNow(w, t, c);
    GoodStep(w, e, t);
    var link := w.calls[c].link;
    var rest := QueuedOpens(Step(w, e), t, link, |w.links[link].queue|);
    agent := Step(w, e).links[link].agent;
    more := OneThen(w, e, rest);
  }

  /** One event and then the rest. */
  lemma OneThen(w: World, e: Event, rest: seq<Event>) returns (more: seq<Event>)
    ensures more == [e] + rest && Run(w, more) == Run(Step(w, e), rest)
  {
    hide Run, Step;
    more := [e] + rest;
    D.RunSnoc(w, [], e);
    D.RunNone(w);
    assert [] + [e] == [e];
    D.RunSplit(w, [e], rest);
  }

  lemma EnqueuedNow(w: World, t: nat, c: nat)
    requires Good(w, t) && c in w.calls && w.calls[c].Enqueuing? && MaySend(w, t, w.calls[c])
    ensures
      var w', link := Step(w, Advance(c, true)), w.calls[c].link;
      && Served(w, link) && Served(w', link) && |w'.links[link].queue| == |w.links[link].queue| + 1
      && IsApply(w'.links[link].queue[|w.links[link].queue|], t)
  {
    hide Inv, RuleId, AdvanceApply, AdvanceRevoke, AdvanceEnd, P.PortsInv, AckComing;
    assert CallRules(w.calls[c]);
  }

  lemma SendingOpens(w: World, t: nat, c: nat) returns (more: seq<Event>, agent: int)
    requires Good(w, t) && c in w.calls && w.calls[c].Sending? && MaySend(w, t, w.calls[c])
    ensures Enforces(Run(w, more), agent, RuleId(t))
  {
    hide Good, Run, Step, RuleId, Enforces, MaySend;
    var e := Advance(c, true);
    GoodStep(w, e, t);
    SendsNext(w, t, c);
    var rest;
    rest, agent := EnqueuingOpens(Step(w, e), t, c);
    more := OneThen(w, e, rest);
  }

  lemma SendsNext(w: World, t: nat, c: nat)
    requires c in w.calls && w.calls[c].Sending? && MaySend(w, t, w.calls[c])
    ensures
      var w' := Step(w, Advance(c, true));
      c in w'.calls && w'.calls[c].Enqueuing? && MaySend(w', t, w'.calls[c])
  {
    hide AdvanceApply, AdvanceRevoke, AdvanceEnd, AckComing;
  }

  /** The agent opens a new stream, and the call takes it. */
  lemma ConnectingOpens(w: World, t: nat, c: nat) returns (more: seq<Event>, agent: int)
    requires Good(w, t) && c in w.calls && w.calls[c].Connecting? && MaySend(w, t, w.calls[c])
    ensures Enforces(Run(w, more), agent, RuleId(t))
  {
    hide Good, Run, Step, RuleId, Enforces, MaySend;
    var e1, e2, e3 := StreamBreaks(w.calls[c].agent), OpenStream(w.calls[c].agent), Advance(c, true);
    var w1 := Step(w, e1);
    var w2 := Step(w1, e2);
    GoodStep(w, e1, t);
    GoodStep(w1, e2, t);
    GoodStep(w2, e3, t);
    TakesNewStream(w, t, c);
    var rest;
    rest, agent := SendingOpens(Step(w2, e3), t, c);
    more := OneThen(w2, e3, rest);
    more := OneThen(w1, e2, more);
    more := OneThen(w, e1, more);
  }

  lemma TakesNewStream(w: World, t: nat, c: nat)
    requires c in w.calls && w.calls[c].Connecting? && MaySend(w, t, w.calls[c])
    ensures
      var w' := Step(Step(Step(w, StreamBreaks(w.calls[c].agent)), OpenStream(w.calls[c].agent)), Advance(c, true));
      c in w'.calls && w'.calls[c].Sending? && MaySend(w', t, w'.calls[c])
  {
    hide AdvanceApply, AdvanceRevoke, AdvanceEnd, AckComing;
  }

  lemma BoundOpens(w: World, t: nat, c: nat) returns (more: seq<Event>, agent: int)
    requires Good(w, t) && c in w.calls && w.calls[c].ReapplyBound? && MaySend(w, t, w.calls[c])
    ensures Enforces(Run(w, more), agent, RuleId(t))
  {
    hide Good, Run, Step, RuleId, Enforces, MaySend;
    var e := Advance(c, true);
    GoodStep(w, e, t);
    BuildsPushes(w, t, c);
    var rest;
    rest, agent := ConnectingOpens(Step(w, e), t, c);
    more := OneThen(w, e, rest);
  }

  lemma BuildsPushes(w: World, t: nat, c: nat)
    requires Good(w, t) && c in w.calls && w.calls[c].ReapplyBound? && MaySend(w, t, w.calls[c])
    ensures
      var w' := Step(w, Advance(c, true));
      c in w'.calls && w'.calls[c].Connecting? && MaySend(w', t, w'.calls[c])
  {
    hide Inv, RuleId, P.PortsInv, RulesInv, TargetsOf, TablesInv, BuildTargets, Listed, Pushes;
    CallHere(w, c);
    var ReapplyBound(_, row, b) := w.calls[c];
    TablesHere(w);
    FirstTargetIsOwn(w.db, t);
    F.ReapplyBuilds(w, c, t, row, b);
    SameTargets(w.db, t, row);
    var targets := BuildTargets(Listed(w.db.assets, row.frozen), row.ports);
    F.PushAt(w, b.ruleId, targets, row.expires, 0);
  }

  lemma SameTargets(db: Db, t: nat, row: Ticket)
    requires t in db.tickets && row.frozen == db.tickets[t].frozen && row.ports == db.tickets[t].ports
    ensures BuildTargets(Listed(db.assets, row.frozen), row.ports) == TargetsOf(db, db.tickets[t])
  {
    hide BuildTargets, Listed;
  }

  lemma ReadOpens(w: World, t: nat, c: nat) returns (more: seq<Event>, agent: int)
    requires Good(w, t) && c in w.calls && w.calls[c].ReapplyAt? && MaySend(w, t, w.calls[c])
    ensures Enforces(Run(w, more), agent, RuleId(t))
  {
    hide Good, Run, Step, RuleId, Enforces;
    var e := Advance(c, true);
    GoodStep(w, e, t);
    EnforcedIsBound(w, t);
    F.ReapplyReads(w, c, t, w.calls[c].row);
    var rest;
    rest, agent := BoundOpens(Step(w, e), t, c);
    more := OneThen(w, e, rest);
  }

  lemma EnforcedIsBound(w: World, t: nat)
    requires Good(w, t)
    ensures t in w.db.bindings
  {
    hide Inv, TablesInv, P.PortsInv, RulesInv;
    TablesHere(w);
    BoundIsEnforced(w.db, t);
  }

  // ---- a call waiting for an answer that is coming ----

  /** The call awaits an OK answer and has more to send, on a stream its agent reads from. */
  ghost predicate Waiting(w: World, t: nat, c: nat) {
    && Good(w, t) && c in w.calls && w.calls[c].Awaiting? && For(w.calls[c].goal, t) && |w.calls[c].todo| > 1
    && Served(w, w.calls[c].link) && w.calls[c].id in w.links[w.calls[c].link].slots
  }

  function SlotOf(w: World, c: nat): Option<Ack>
    requires c in w.calls && w.calls[c].Awaiting? && w.calls[c].link < |w.links|
    requires w.calls[c].id in w.links[w.calls[c].link].slots
  {
    w.links[w.calls[c].link].slots[w.calls[c].id]
  }

  lemma FilledOpens(w: World, t: nat, c: nat) returns (more: seq<Event>, agent: int)
    requires Waiting(w, t, c) && SlotOf(w, c).Some? && SlotOf(w, c).value.answer.Some?
    ensures Enforces(Run(w, more), agent, RuleId(t))
  {
    hide Good, Run, Step, RuleId, Enforces;
    var e := Advance(c, true);
    GoodStep(w, e, t);
    CollectsAnswer(w, t, c);
    var rest;
    rest, agent := SendingOpens(Step(w, e), t, c);
    more := OneThen(w, e, rest);
  }

  lemma CollectsAnswer(w: World, t: nat, c: nat)
    requires Waiting(w, t, c) && SlotOf(w, c).Some? && SlotOf(w, c).value.answer.Some?
    ensures
      var w' := Step(w, Advance(c, true));
      c in w'.calls && w'.calls[c].Sending? && MaySend(w', t, w'.calls[c])
  {
    hide Good, AdvanceApply, AdvanceRevoke, AdvanceEnd, AckComing;
  }

  /** Routing the acks one by one brings the awaited one to its channel. */
  lemma {:induction false} RepliedOpens(w: World, t: nat, c: nat, k: nat) returns (more: seq<Event>, agent: int)
    requires Waiting(w, t, c) && SlotOf(w, c).None?
    requires var l := w.links[w.calls[c].link]; k < |l.replies| && l.replies[k].id == w.calls[c].id && l.replies[k].answer.Some?
    ensures Enforces(Run(w, more), agent, RuleId(t))
    decreases k
  {
    hide Good, Run, Step, RuleId, Enforces;
    var link := w.calls[c].link;
    var e := RouteAck(link);
    GoodStep(w, e, t);
    RoutesAnswer(w, t, c, k);
    var rest;
    if w.links[link].replies[0].id == w.calls[c].id {
      rest, agent := FilledOpens(Step(w, e), t, c);
    } else {
      rest, agent := RepliedOpens(Step(w, e), t, c, k - 1);
    }
    more := OneThen(w, e, rest);
  }

  lemma RoutesAnswer(w: World, t: nat, c: nat, k: nat)
    requires Waiting(w, t, c) && SlotOf(w, c).None? && Good(Step(w, RouteAck(w.calls[c].link)), t)
    requires var l := w.links[w.calls[c].link]; k < |l.replies| && l.replies[k].id == w.calls[c].id && l.replies[k].answer.Some?
    ensures
      var link := w.calls[c].link;
      var w' := Step(w, RouteAck(link));
      && Waiting(w', t, c) && w'.calls[c] == w.calls[c]
      && if w.links[link].replies[0].id == w.calls[c].id then SlotOf(w', c).Some? && SlotOf(w', c).value.answer.Some?
         else
           && k > 0 && SlotOf(w', c).None? && k - 1 < |w'.links[link].replies|
           && w'.links[link].replies[k - 1] == w.links[link].replies[k]
  {
    hide Good, Step, Route;
    var link := w.calls[c].link;
    OneAnswer(w, t, link, k);
    RoutesHead(w, link);
    RoutedSlots(w.links[link], w.calls[c].id);
  }

  lemma RoutesHead(w: World, link: nat)
    requires link < |w.links| && w.links[link].replies != []
    ensures Step(w, RouteAck(link)) == w.(links := w.links[link := Route(w.links[link])])
  {
    hide AdvanceCall, BeginCall, After, AgentStep, Route;
  }

  /** The oldest ack goes to its channel and the others move up. */
  lemma RoutedSlots(l: Link, id: nat)
    requires l.replies != [] && id in l.slots && l.slots[id].None?
    ensures
      var l' := Route(l);
      && l'.agent == l.agent && id in l'.slots && l'.replies == l.replies[1..]
      && l'.slots[id] == if l.replies[0].id == id then Some(l.replies[0]) else None
  {
  }

  /** No two acks on a stream answer the same command. */
  lemma OneAnswer(w: World, t: nat, link: nat, k: nat)
    requires Good(w, t) && link < |w.links| && k < |w.links[link].replies|
    ensures w.links[link].replies[0].id == w.links[link].replies[k].id ==> k == 0
  {
    hide Inv, P.PortsInv, RulesInv, InOrder, Answers;
    LinkOkHere(w, link);
    var l := w.links[link];
    assert (l.routed + l.replies)[|l.routed|] == l.replies[0] && (l.routed + l.replies)[|l.routed| + k] == l.replies[k];
  }

  /** The agent sends the awaited answer. */
  lemma OwedOpens(w: World, t: nat, c: nat) returns (more: seq<Event>, agent: int)
    requires Waiting(w, t, c) && SlotOf(w, c).None?
    requires
      var owes := w.procs[w.links[w.calls[c].link].agent].owes;
      owes.Some? && owes.value.id == w.calls[c].id && owes.value.answer.Some?
    ensures Enforces(Run(w, more), agent, RuleId(t))
  {
    hide Good, Run, Step, RuleId, Enforces;
    var link := w.calls[c].link;
    var e := Reply(w.links[link].agent, true);
    GoodStep(w, e, t);
    SendsAnswer(w, t, c);
    var rest;
    rest, agent := RepliedOpens(Step(w, e), t, c, |w.links[link].replies|);
    more := OneThen(w, e, rest);
  }

  lemma SendsAnswer(w: World, t: nat, c: nat)
    requires Waiting(w, t, c) && SlotOf(w, c).None? && Good(Step(w, Reply(w.links[w.calls[c].link].agent, true)), t)
    requires
      var owes := w.procs[w.links[w.calls[c].link].agent].owes;
      owes.Some? && owes.value.id == w.calls[c].id && owes.value.answer.Some?
    ensures
      var link := w.calls[c].link;
      var w' := Step(w, Reply(w.links[link].agent, true));
      && Waiting(w', t, c) && w'.calls[c] == w.calls[c] && SlotOf(w', c).None?
      && |w'.links[link].replies| == |w.links[link].replies| + 1
      && w'.links[link].replies[|w.links[link].replies|].id == w.calls[c].id
      && w'.links[link].replies[|w.links[link].replies|].answer.Some?
  {
    hide Good, AdvanceCall, BeginCall, After;
  }

  lemma AwaitingOpens(w: World, t: nat, c: nat) returns (more: seq<Event>, agent: int)
    requires Good(w, t) && c in w.calls && w.calls[c].Awaiting? && MaySend(w, t, w.calls[c])
    ensures Enforces(Run(w, more), agent, RuleId(t))
  {
    hide Good, Run, RuleId, Enforces;
    var l := w.links[w.calls[c].link];
    if SlotOf(w, c).Some? {
      more, agent := FilledOpens(w, t, c);
    } else if k :| 0 <= k < |l.replies| && l.replies[k].id == w.calls[c].id && l.replies[k].answer.Some? {
      more, agent := RepliedOpens(w, t, c, k);
    } else {
      more, agent := OwedOpens(w, t, c);
    }
  }

  lemma SenderOpens(w: World, t: nat, c: nat) returns (more: seq<Event>, agent: int)
    requires Good(w, t) && c in w.calls && MaySend(w, t, w.calls[c])
    ensures Enforces(Run(w, more), agent, RuleId(t))
  {
    hide Good, Run, RuleId, Enforces;
    match w.calls[c] {
      case ReapplyAt(_, _) => more, agent := ReadOpens(w, t, c);
      case ReapplyBound(_, _, _) => more, agent := BoundOpens(w, t, c);
      case Connecting(_, _, _) => more, agent := ConnectingOpens(w, t, c);
      case Sending(_, _, _, _) => more, agent := SendingOpens(w, t, c);
      case Enqueuing(_, _, _, _) => more, agent := EnqueuingOpens(w, t, c);
      case Awaiting(_, _, _, _) => more, agent := AwaitingOpens(w, t, c);
    }
  }

  lemma ComesOpens(w: World, t: nat) returns (more: seq<Event>, agent: int)
    requires Good(w, t) && StillComing(w, t)
    ensures Enforces(Run(w, more), agent, RuleId(t))
  {
    hide Good, Run, RuleId, MaySend, Served, IsApply;
    if a :| Enforces(w, a, RuleId(t)) {
      more, agent := [], a;
      D.RunNone(w);
    } else if link: nat :| Queued(w, t, link) {
      ServedExists(w, link);
      var i :| 0 <= i < |w.links[link].queue| && IsApply(w.links[link].queue[i], t);
      agent := w.links[link].agent;
      more := QueuedOpens(w, t, link, i);
    } else {
      var c :| c in w.calls && MaySend(w, t, w.calls[c]);
      more, agent := SenderOpens(w, t, c);
    }
  }

  /**
   * Exactly when a ticket that is past active (closed, being revoked, or revoke_pending) can
   * have a listener again: some continuation of the run gives an agent an entry for its rule
   * if and only if, now, an agent has one, or an Apply of the rule is on a stream its agent
   * reads from, or a call that has not sent all of its Apply commands can still go on.
   */
  lemma ListenerAgainIff(now: int, srcPeerIPs: seq<string>, events: seq<Event>, t: nat)
    requires PastActive(Reached(now, srcPeerIPs, events), t)
    ensures
      var w := Reached(now, srcPeerIPs, events);
      (exists more, agent :: Enforces(Run(w, more), agent, RuleId(t))) <==> StillComing(w, t)
  {
    hide Inv, Run, RuleId, RulesInv, P.PortsInv, Enforces;
    var w := Reached(now, srcPeerIPs, events);
    RunKeeps(now, srcPeerIPs, events);
    RunRules(now, srcPeerIPs, events);
    P.RunPorts(now, srcPeerIPs, events);
    if StillComing(w, t) {
      var more, agent := ComesOpens(w, t);
    } else {
      forall more, agent ensures !Enforces(Run(w, more), agent, RuleId(t)) {
        QuietRun(w, more, t);
      }
    }
  }
}
