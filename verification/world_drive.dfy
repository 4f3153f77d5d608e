/** How a call in progress can be driven on: the steps that get one command obeyed and acked. */
module WorldDrive {
  import opened Wrappers
  import opened RuleIds
  import opened Store
  import opened Forwarding
  import opened Links
  import opened Worlds

  lemma {:induction false} RunSplit(w: World, before: seq<Event>, after: seq<Event>)
    ensures Run(w, before + after) == Run(Run(w, before), after)
  {
    hide Step;
    if after == [] {
      assert before + after == before;
    } else {
      assert (before + after)[..|before + after| - 1] == before + after[..|after| - 1];
      RunSplit(w, before, after[..|after| - 1]);
    }
  }

  lemma RunSnoc(w: World, before: seq<Event>, e: Event)
    ensures Run(w, before + [e]) == Step(Run(w, before), e)
  {
    hide Step;
    assert (before + [e])[..|before|] == before;
  }

  /** The agent serves this stream, which carries nothing at the moment, and owes no answer. */
  predicate Quiet(w: World, agent: int, link: nat) {
    && link < |w.links| && w.links[link].agent == agent && w.links[link].queue == [] && w.links[link].replies == []
    && agent in w.procs && w.procs[agent].session == Some(link) && w.procs[agent].owes.None?
  }

  /** Tables, time and connections are as they were. */
  predicate Still(w: World, w': World) {
    w'.db == w.db && w'.now == w.now && w'.srcPeerIPs == w.srcPeerIPs && w'.current == w.current && w'.nextCall == w.nextCall
  }

  /** The call's next command has been enqueued and is all the stream carries. */
  predicate InFlight(w: World, c: nat, agent: int, link: nat, goal: Goal, todo: seq<Command>, id: nat) {
    && todo != [] && c in w.calls && w.calls[c] == Awaiting(goal, link, todo, id)
    && link < |w.links| && w.links[link].agent == agent && w.links[link].queue == [Message(id, todo[0])]
    && w.links[link].replies == [] && id in w.links[link].slots && w.links[link].slots[id].None?
    && agent in w.procs && w.procs[agent].session == Some(link) && w.procs[agent].owes.None?
  }

  lemma Enqueued(w: World, c: nat, agent: int, link: nat, goal: Goal, todo: seq<Command>, last: Option<nat>)
    requires Quiet(w, agent, link) && c in w.calls && w.calls[c] == Sending(goal, link, todo, last) && todo != []
    ensures
      var w' := Step(Step(w, Advance(c, true)), Advance(c, true));
      && InFlight(w', c, agent, link, goal, todo, w.nextCmd) && Still(w, w') && w'.procs == w.procs
      && w'.calls == w.calls[c := w'.calls[c]]
  {
    var w1 := Step(w, Advance(c, true));
    assert w1.calls == w.calls[c := Enqueuing(goal, link, todo, w.nextCmd)];
    assert w1.links[link] == Register(w.links[link], w.nextCmd);
    var w2 := Step(w1, Advance(c, true));
    assert w2.links[link] == Enqueue(w1.links[link], Message(w.nextCmd, todo[0]));
    assert w2.links[link].queue == [Message(w.nextCmd, todo[0])];
  }

  lemma Received(w: World, c: nat, agent: int, link: nat, goal: Goal, todo: seq<Command>, id: nat, port: string)
    requires InFlight(w, c, agent, link, goal, todo, id)
    ensures
      var w' := Step(w, Receive(agent, true, port));
      var (rules, answer) := Obey(w.procs[agent].rules, todo[0], w.now, true, port);
      && Still(w, w') && w'.calls == w.calls && |w'.links| == |w.links| && w'.links[link].agent == agent
      && w'.links[link].queue == [] && w'.links[link].replies == [] && w'.links[link].slots == w.links[link].slots
      && w'.procs == w.procs[agent := w.procs[agent].(rules := rules, owes := Some(Done(id, answer)))]
  {
    hide Obey;
  }

  lemma Answered(w: World, agent: int, link: nat, id: nat, answer: string)
    requires agent in w.procs && w.procs[agent].session == Some(link) && w.procs[agent].owes == Some(Done(id, Some(answer)))
    requires link < |w.links| && w.links[link].replies == [] && id in w.links[link].slots
    ensures
      var w' := Step(Step(w, Reply(agent, true)), RouteAck(link));
      && Still(w, w') && w'.calls == w.calls && |w'.links| == |w.links| && w'.links[link].agent == w.links[link].agent
      && w'.links[link].queue == w.links[link].queue && w'.links[link].replies == []
      && id in w'.links[link].slots && w'.links[link].slots[id].Some? && w'.links[link].slots[id].value.answer.Some?
      && w'.procs == w.procs[agent := w.procs[agent].(owes := None)]
  {
    var w1 := Step(w, Reply(agent, true));
    var ack := Ack(id, Some(answer), w.procs[agent].rules.Keys);
    assert w1.links[link] == Replied(w.links[link], ack);
    assert w1.links[link].replies == [ack];
    var w2 := Step(w1, RouteAck(link));
    assert w2.links[link] == Route(w1.links[link]);
  }

  lemma Collected(w: World, c: nat, link: nat, goal: Goal, todo: seq<Command>, id: nat)
    requires c in w.calls && w.calls[c] == Awaiting(goal, link, todo, id) && todo != [] && link < |w.links|
    requires id in w.links[link].slots && w.links[link].slots[id].Some? && w.links[link].slots[id].value.answer.Some?
    ensures
      var w' := Step(w, Advance(c, true));
      && Still(w, w') && w'.calls == w.calls[c := Sending(goal, link, todo[1..], Some(id))] && w'.procs == w.procs
      && |w'.links| == |w.links| && w'.links[link].agent == w.links[link].agent
      && w'.links[link].queue == w.links[link].queue && w'.links[link].replies == w.links[link].replies
  {
  }

  /** The events that get the next command of call `c` enqueued. */
  function EnqueueOne(c: nat): seq<Event> {
    [Advance(c, true), Advance(c, true)]
  }

  /** The events that get it obeyed, acked and collected. */
  function AckOne(c: nat, agent: int, link: nat, port: string): seq<Event> {
    [Receive(agent, true, port), Reply(agent, true), RouteAck(link), Advance(c, true)]
  }

  lemma RunTwo(w: World, a: Event, b: Event)
    ensures Run(w, [a, b]) == Step(Step(w, a), b)
  {
    hide Step, Run;
    RunSnoc(w, [], a);
    RunSnoc(w, [a], b);
    assert [] + [a] == [a] && [a] + [b] == [a, b];
    RunNone(w);
  }

  lemma RunNone(w: World)
    ensures Run(w, []) == w
  {
  }

  lemma RunFour(w: World, a: Event, b: Event, c: Event, d: Event)
    ensures Run(w, [a, b, c, d]) == Step(Step(Step(Step(w, a), b), c), d)
  {
    hide Step;
    RunTwo(w, a, b);
    RunTwo(Run(w, [a, b]), c, d);
    RunSplit(w, [a, b], [c, d]);
    assert [a, b] + [c, d] == [a, b, c, d];
  }

  lemma EnqueueDrives(w: World, c: nat, agent: int, link: nat, goal: Goal, todo: seq<Command>, last: Option<nat>)
    requires Quiet(w, agent, link) && c in w.calls && w.calls[c] == Sending(goal, link, todo, last) && todo != []
    ensures
      var w' := Run(w, EnqueueOne(c));
      && InFlight(w', c, agent, link, goal, todo, w.nextCmd) && Still(w, w') && w'.procs == w.procs
      && w'.calls == w.calls[c := w'.calls[c]]
  {
    hide Step, Run;
    RunTwo(w, Advance(c, true), Advance(c, true));
    Enqueued(w, c, agent, link, goal, todo, last);
  }

  /** The command in flight is obeyed without error and its ack collected. */
  lemma AckDrives(w: World, c: nat, agent: int, link: nat, goal: Goal, todo: seq<Command>, id: nat, port: string)
    requires InFlight(w, c, agent, link, goal, todo, id)
    requires Obey(w.procs[agent].rules, todo[0], w.now, true, port).1.Some?
    ensures
      var w' := Run(w, AckOne(c, agent, link, port));
      && Quiet(w', agent, link) && Still(w, w') && w'.calls == w.calls[c := Sending(goal, link, todo[1..], Some(id))]
      && w'.procs == w.procs[agent := w.procs[agent].(rules := Obey(w.procs[agent].rules, todo[0], w.now, true, port).0)]
  {
    hide Step, Run, Obey;
    RunFour(w, Receive(agent, true, port), Reply(agent, true), RouteAck(link), Advance(c, true));
    var (rules, answer) := Obey(w.procs[agent].rules, todo[0], w.now, true, port);
    Received(w, c, agent, link, goal, todo, id, port);
    var w1 := Step(w, Receive(agent, true, port));
    Answered(w1, agent, link, id, answer.value);
    var w2 := Step(Step(w1, Reply(agent, true)), RouteAck(link));
    Collected(w2, c, link, goal, todo, id);
    assert w2.procs == w.procs[agent := w.procs[agent].(rules := rules)];
  }

  function PushOne(c: nat, agent: int, link: nat, port: string): seq<Event> {
    EnqueueOne(c) + AckOne(c, agent, link, port)
  }

  /** One command of a call that is sending is enqueued, obeyed without error, acked and collected. */
  lemma PushDrives(w: World, c: nat, agent: int, link: nat, goal: Goal, todo: seq<Command>, last: Option<nat>, port: string)
    requires Quiet(w, agent, link) && c in w.calls && w.calls[c] == Sending(goal, link, todo, last) && todo != []
    requires Obey(w.procs[agent].rules, todo[0], w.now, true, port).1.Some?
    ensures
      var w' := Run(w, PushOne(c, agent, link, port));
      && Quiet(w', agent, link) && Still(w, w') && w'.calls == w.calls[c := Sending(goal, link, todo[1..], Some(w.nextCmd))]
      && w'.procs == w.procs[agent := w.procs[agent].(rules := Obey(w.procs[agent].rules, todo[0], w.now, true, port).0)]
  {
    hide Step, Run, Obey, Quiet, InFlight, AckOne;
    EnqueueDrives(w, c, agent, link, goal, todo, last);
    var w1 := Run(w, EnqueueOne(c));
    AckDrives(w1, c, agent, link, goal, todo, w.nextCmd, port);
    RunSplit(w, EnqueueOne(c), AckOne(c, agent, link, port));
  }
}
