/** Exactly when a live ticket's forwarder can come to relay to an asset of another project. */
module WorldForeign {
  import opened Wrappers
  import opened RuleIds
  import opened Store
  import opened Forwarding
  import opened Links
  import opened Worlds
  import opened WorldFrames
  import opened WorldSteps
  import opened WorldCalls
  import opened WorldTheorems
  import D = WorldDrive
  import P = WorldPorts

  /** The target is the address of none of the ticket's own project's frozen assets on any of its ports. */
  ghost predicate Foreign(db: Db, t: nat, target: Target) {
    t in db.tickets && forall a, port :: a in db.assets && OwnFrozen(db.tickets[t], a) && port in db.tickets[t].ports ==>
      target != OnWire(Target(a.ip, port))
  }

  predicate OwnFrozen(row: Ticket, a: Asset) {
    a.id in row.frozen && a.project == row.project
  }

  ghost predicate ForeignEntry(w: World, t: nat) {
    exists agent :: agent in w.procs && RuleId(t) in w.procs[agent].rules
                    && Foreign(w.db, t, w.procs[agent].rules[RuleId(t)].target)
  }

  /** No own frozen asset has this address. */
  ghost predicate NoOwnAt(db: Db, t: nat, ip: string)
    requires t in db.tickets
  {
    forall a :: a in db.assets && OwnFrozen(db.tickets[t], a) ==> a.ip != ip
  }

  /** One of the frozen ids is above all asset ids there are. */
  ghost predicate Dangling(db: Db, t: nat)
    requires t in db.tickets
  {
    exists id :: id in db.tickets[t].frozen && (db.assets == [] || id > db.assets[|db.assets| - 1].id)
  }

  /** One of the frozen ids is another project's asset by now, at an address of its own. */
  ghost predicate Stray(db: Db, t: nat)
    requires t in db.tickets
  {
    exists a :: a in db.assets && a.id in db.tickets[t].frozen && a.project != db.tickets[t].project && NoOwnAt(db, t, a.ip)
  }

  // ---- only a dangling or strayed id can lead there ----

  /** A foreign target, now or later, comes from an asset that is foreign now or does not exist yet. */
  lemma AimedOutside(db: Db, db': Db, t: nat, target: Target)
    requires Catalogued(db'.assets) && Evolves(db, db') && t in db.tickets && WasApproved(db.tickets[t].status)
    requires Aimed(db', t, target) && Foreign(db', t, target)
    ensures Stray(db, t) || Dangling(db, t)
  {
    assert RowEvolves(db, db', t);
    var row := db'.tickets[t];
    var x :| x in TargetsOf(db', row) && target == OnWire(x);
    var listed := Listed(db'.assets, row.frozen);
    TargetsExactly(listed, row.ports, x);
    var a: Asset :| a in listed && a.ip == x.ip;
    ListedExactly(db'.assets, row.frozen, a);
    assert x == Target(a.ip, x.port);
    assert !OwnFrozen(row, a);
    forall own | own in db.assets && OwnFrozen(db.tickets[t], own) ensures own.ip != a.ip {
      assert own in db'.assets && OwnFrozen(row, own);
    }
    if db.assets != [] && a.id <= db.assets[|db.assets| - 1].id {
      RowAt(db'.assets, |db.assets|, a);
      assert db'.assets[..|db.assets|] == db.assets;
      assert Stray(db, t);
    }
  }

  lemma NeverForeign(now: int, srcPeerIPs: seq<string>, events: seq<Event>, more: seq<Event>, t: nat)
    requires var db := Reached(now, srcPeerIPs, events).db;
      t in db.tickets && WasApproved(db.tickets[t].status) && !Stray(db, t) && !Dangling(db, t)
    ensures !ForeignEntry(Run(Reached(now, srcPeerIPs, events), more), t)
  {
    hide Inv, TablesInv, Audited, Foreign, RuleId, TicketOf, Evolves, Aimed, Catalogued, Stray, Dangling;
    var w := Reached(now, srcPeerIPs, events);
    var w' := Run(w, more);
    D.RunSplit(Start(now, srcPeerIPs), events, more);
    RunKeeps(now, srcPeerIPs, events + more);
    assert (events + more)[..|events|] == events;
    RunExtends(now, srcPeerIPs, events + more, |events|);
    TablesHere(w');
    CataloguedHere(w'.db);
    TicketOfRuleId(t);
    forall agent | agent in w'.procs && RuleId(t) in w'.procs[agent].rules
      ensures !Foreign(w'.db, t, w'.procs[agent].rules[RuleId(t)].target)
    {
      ProcOkHere(w', agent);
      assert EntryOk(w', agent, RuleId(t), w'.procs[agent].rules[RuleId(t)]);
      if Foreign(w'.db, t, w'.procs[agent].rules[RuleId(t)].target) {
        AimedOutside(w.db, w'.db, t, w'.procs[agent].rules[RuleId(t)].target);
        assert false;
      }
    }
  }

  lemma CataloguedHere(db: Db)
    requires TablesInv(db)
    ensures Catalogued(db.assets)
  {
    hide TicketInv;
  }

  // ---- and either can ----

  function Stranger(w: World, t: nat, id: int): Asset
    requires t in w.db.tickets
  {
    Asset(id, w.db.tickets[t].project + 1, Unused(w.db.assets))
  }

  /** A live ticket with a usable port list, bound to its agent, in a good world. */
  ghost predicate LiveTicket(w: World, t: nat) {
    && Inv(w) && t in w.db.tickets && LiveAt(w.db.tickets[t], w.now)
    && forall port :: port in w.db.tickets[t].ports ==> port % 0x1_0000_0000 != 0
  }

  /** A call of the ticket is sending, and its agent enforces at most this rule, until `expires`. */
  predicate Pushing(w: World, db: Db, t: nat, c: nat, goal: Goal, agent: int, link: nat, todo: seq<Command>, expires: int) {
    && w.db == db && w.now < expires && D.Quiet(w, agent, link)
    && c in w.calls && w.calls[c].Sending? && w.calls[c].goal == goal && w.calls[c].link == link && w.calls[c].todo == todo
    && w.procs[agent].rules.Keys <= {RuleId(t)}
    && (RuleId(t) in w.procs[agent].rules ==> w.procs[agent].rules[RuleId(t)].deadline == Some(expires))
  }

  /** An Apply for this rule that the agent will not refuse. */
  predicate Acceptable(cmd: Command, rule: string, expires: int) {
    && cmd.Apply? && cmd.rule == rule && cmd.srcs != [] && cmd.target.ip != "" && cmd.target.port != 0
    && cmd.expires == Some(expires)
  }

  lemma AcceptedOne(rules: Rules, cmd: Command, rule: string, now: int, expires: int, port: string)
    requires Acceptable(cmd, rule, expires) && now < expires && rules.Keys <= {rule}
    requires rule in rules ==> rules[rule].deadline == Some(expires)
    ensures
      var (rules', answer) := Obey(rules, cmd, now, true, port);
      answer.Some? && rules'.Keys == {rule} && rules'[rule].deadline == Some(expires)
  {
    if rule in rules {
      assert rules.Keys == {rule};
    } else {
      assert rules.Keys == {};
    }
  }

  lemma {:induction false} OwnPushed(w: World, db: Db, t: nat, c: nat, goal: Goal, agent: int, link: nat, todo: seq<Command>,
                                     expires: int, n: nat)
    returns (more: seq<Event>)
    requires n <= |todo| && Pushing(w, db, t, c, goal, agent, link, todo, expires)
    requires forall i :: 0 <= i < n ==> Acceptable(todo[i], RuleId(t), expires)
    ensures Pushing(Run(w, more), db, t, c, goal, agent, link, todo[n..], expires)
    ensures n > 0 ==> RuleId(t) in Run(w, more).procs[agent].rules
    decreases n
  {
    hide Run, Step, D.Quiet, RuleId, Obey;
    if n == 0 {
      more := [];
      D.RunNone(w);
      assert todo[0..] == todo;
    } else {
      AgentThere(w, agent, link);
      AcceptedOne(w.procs[agent].rules, todo[0], RuleId(t), w.now, expires, "p");
      D.PushDrives(w, c, agent, link, goal, todo, w.calls[c].last, "p");
      var one := D.PushOne(c, agent, link, "p");
      var w1 := Run(w, one);
      AgentThere(w1, agent, link);
      if n == 1 {
        more := one;
      } else {
        var rest := OwnPushed(w1, db, t, c, goal, agent, link, todo[1..], expires, n - 1);
        more := one + rest;
        D.RunSplit(w, one, rest);
        assert todo[1..][n - 1..] == todo[n..];
      }
    }
  }

  lemma AgentThere(w: World, agent: int, link: nat)
    requires D.Quiet(w, agent, link)
    ensures agent in w.procs
  {
  }

  /** The next command is enqueued in time, the window passes, the entry's timer runs, and only then is the command obeyed. */
  lemma LateOne(w: World, db: Db, t: nat, c: nat, goal: Goal, agent: int, link: nat, todo: seq<Command>, expires: int)
    returns (more: seq<Event>)
    requires Pushing(w, db, t, c, goal, agent, link, todo, expires) && todo != [] && Acceptable(todo[0], RuleId(t), expires)
    requires RuleId(t) in w.procs[agent].rules
    ensures var w' := Run(w, more);
      && w'.db == db && agent in w'.procs && RuleId(t) in w'.procs[agent].rules
      && w'.procs[agent].rules[RuleId(t)].target == todo[0].target
  {
    hide Run, Step, D.Quiet, RuleId, Obey;
    D.EnqueueDrives(w, c, agent, link, goal, todo, w.calls[c].last);
    var id := w.nextCmd;
    var w1 := Run(w, D.EnqueueOne(c));
    var late := [Tick(expires - w.now), TimerGoesOff(agent, RuleId(t)), TimerRuns(agent, RuleId(t)), Receive(agent, true, "p")];
    D.RunFour(w1, late[0], late[1], late[2], late[3]);
    D.RunSplit(w, D.EnqueueOne(c), late);
    more := D.EnqueueOne(c) + late;
    TimerPassed(w1, c, goal, agent, link, t, todo, id, expires);
    var w2 := Step(Step(Step(w1, late[0]), late[1]), late[2]);
    D.Received(w2, c, agent, link, goal, todo, id, "p");
    ObeyedFresh(w2.procs[agent].rules, todo[0], RuleId(t), w2.now, expires, "p");
  }

  lemma TimerPassed(w: World, c: nat, goal: Goal, agent: int, link: nat, t: nat, todo: seq<Command>, id: nat, expires: int)
    requires D.InFlight(w, c, agent, link, goal, todo, id) && w.now < expires
    requires RuleId(t) in w.procs[agent].rules && w.procs[agent].rules[RuleId(t)].deadline == Some(expires)
    ensures
      var w' := Step(Step(Step(w, Tick(expires - w.now)), TimerGoesOff(agent, RuleId(t))), TimerRuns(agent, RuleId(t)));
      D.InFlight(w', c, agent, link, goal, todo, id) && w'.db == w.db && RuleId(t) !in w'.procs[agent].rules
  {
    hide RuleId, Step;
    TimePasses(w, expires - w.now);
    TimerFires(Step(w, Tick(expires - w.now)), agent, RuleId(t), expires);
  }

  lemma TimePasses(w: World, seconds: nat)
    ensures Step(w, Tick(seconds)) == w.(now := w.now + seconds)
  {
    hide AdvanceCall, BeginCall, AgentStep;
  }

  lemma TimerFires(w: World, agent: int, rule: string, expires: int)
    requires agent in w.procs && rule in w.procs[agent].rules && w.procs[agent].rules[rule].deadline == Some(expires) && expires <= w.now
    ensures
      var w' := Step(Step(w, TimerGoesOff(agent, rule)), TimerRuns(agent, rule));
      && w' == w.(procs := w'.procs)
      && agent in w'.procs && w'.procs[agent].session == w.procs[agent].session && w'.procs[agent].owes == w.procs[agent].owes
      && w'.procs[agent].rules == w.procs[agent].rules - {rule}
  {
    hide AdvanceCall, BeginCall;
  }

  lemma ObeyedFresh(rules: Rules, cmd: Command, rule: string, now: int, expires: int, port: string)
    requires Acceptable(cmd, rule, expires) && rule !in rules
    ensures var rules' := Obey(rules, cmd, now, true, port).0; rule in rules' && rules'[rule].target == cmd.target
  {
  }

  // ---- getting there ----

  function Crowded(w: World, t: nat, id: int): Db
    requires t in w.db.tickets
  {
    w.db.(assets := w.db.assets + [Stranger(w, t, id)])
  }

  lemma StrangerAdded(w: World, t: nat, id: int)
    requires t in w.db.tickets && w.db.assets != [] && id > w.db.assets[|w.db.assets| - 1].id
    ensures Step(w, Event.Database(AddAsset(Stranger(w, t, id)), true)) == w.(db := Crowded(w, t, id))
  {
    assert Placeable(w.db.assets, Stranger(w, t, id));
  }

  /** The agent starts again with nothing and opens a new stream. */
  lemma AgentReturns(w: World, agent: int)
    ensures
      var w' := Step(Step(w, AgentRestart(agent)), OpenStream(agent));
      && w' == w.(links := w'.links, procs := w'.procs, current := w.current[agent := |w.links|])
      && D.Quiet(w', agent, |w.links|) && w'.procs[agent].rules == map[]
  {
    hide AdvanceCall, BeginCall, After;
    var w' := Step(Step(w, AgentRestart(agent)), OpenStream(agent));
    assert w'.links == w.links + [NewLink(agent)];
  }

  lemma ReapplyStarts(w: World, t: nat)
    requires t in w.db.tickets && LiveAt(w.db.tickets[t], w.now)
    ensures Step(w, StartReapply(t)) == Spawn(w, ReapplyAt(t, w.db.tickets[t]))
  {
    hide After, AdvanceCall, AgentStep;
  }

  /** The events that give the agent a new stream and start a reapply. */
  function Reopening(t: nat, agent: int): seq<Event> {
    [AgentRestart(agent), OpenStream(agent)] + [StartReapply(t)]
  }

  lemma Reopened(w: World, t: nat, agent: int)
    requires t in w.db.tickets && LiveAt(w.db.tickets[t], w.now)
    ensures
      var w' := Run(w, Reopening(t, agent));
      && w'.db == w.db && w'.now == w.now && w'.srcPeerIPs == w.srcPeerIPs
      && D.Quiet(w', agent, |w.links|) && agent in w'.procs && w'.procs[agent].rules == map[]
      && agent in w'.current && w'.current[agent] == |w.links|
      && w.nextCall in w'.calls && w'.calls[w.nextCall] == ReapplyAt(t, w.db.tickets[t])
  {
    hide Run, Step;
    D.RunTwo(w, AgentRestart(agent), OpenStream(agent));
    D.RunSnoc(w, [AgentRestart(agent), OpenStream(agent)], StartReapply(t));
    AgentReturns(w, agent);
    ReapplyStarts(Step(Step(w, AgentRestart(agent)), OpenStream(agent)), t);
  }

  lemma ReapplyReads(w: World, c: nat, t: nat, row: Ticket)
    requires c in w.calls && w.calls[c] == ReapplyAt(t, row) && t in w.db.bindings
    ensures Step(w, Advance(c, true)) == w.(calls := w.calls[c := ReapplyBound(t, row, w.db.bindings[t])])
  {
    hide RuleId, BuildTargets, Listed, Pushes, AdvanceGateway, AdvanceRevoke, AdvanceEnd;
  }

  lemma ReapplyBuilds(w: World, c: nat, t: nat, row: Ticket, b: Binding)
    requires c in w.calls && w.calls[c] == ReapplyBound(t, row, b)
    ensures
      var targets := BuildTargets(Listed(w.db.assets, row.frozen), row.ports);
      Step(w, Advance(c, true)) ==
        w.(calls := w.calls[c := Connecting(ToReapply(t), b.agent, Pushes(w, b.ruleId, targets, row.expires))])
  {
    hide RuleId, BuildTargets, Listed, Pushes, AdvanceGateway, AdvanceRevoke, AdvanceEnd;
  }

  lemma CallConnects(w: World, c: nat, goal: Goal, agent: int, todo: seq<Command>)
    requires c in w.calls && w.calls[c] == Connecting(goal, agent, todo)
    requires agent in w.current && w.current[agent] < |w.links|
    ensures Step(w, Advance(c, true)) == w.(calls := w.calls[c := Sending(goal, w.current[agent], todo, None)])
  {
    hide AdvanceApply, AdvanceRevoke, AdvanceEnd;
  }

  lemma ReapplySends(w: World, c: nat, t: nat, row: Ticket, agent: int, link: nat, expires: int)
    requires c in w.calls && w.calls[c] == ReapplyAt(t, row) && t in w.db.bindings
    requires w.db.bindings[t].agent == agent && w.db.bindings[t].ruleId == RuleId(t) && row.expires == Some(expires)
    requires agent in w.current && w.current[agent] == link && link < |w.links|
    ensures
      var w' := Run(w, [Advance(c, true), Advance(c, true)] + [Advance(c, true)]);
      var targets := BuildTargets(Listed(w.db.assets, row.frozen), row.ports);
      w' == w.(calls := w.calls[c := Sending(ToReapply(t), link, Pushes(w, RuleId(t), targets, Some(expires)), None)])
  {
    hide RuleId, BuildTargets, Listed, Pushes, Run, Step;
    D.RunTwo(w, Advance(c, true), Advance(c, true));
    D.RunSnoc(w, [Advance(c, true), Advance(c, true)], Advance(c, true));
    ReapplyReads(w, c, t, row);
    var w1 := Step(w, Advance(c, true));
    ReapplyBuilds(w1, c, t, row, w.db.bindings[t]);
    var todo := Pushes(w, RuleId(t), BuildTargets(Listed(w.db.assets, row.frozen), row.ports), Some(expires));
    SamePushes(w, w1, RuleId(t), BuildTargets(Listed(w.db.assets, row.frozen), row.ports), Some(expires));
    CallConnects(Step(w1, Advance(c, true)), c, ToReapply(t), agent, todo);
    assert w.calls[c := ReapplyBound(t, row, w.db.bindings[t])][c := Connecting(ToReapply(t), agent, todo)]
        [c := Sending(ToReapply(t), link, todo, None)] == w.calls[c := Sending(ToReapply(t), link, todo, None)];
  }

  /** The stranger's targets come after all the others. */
  lemma StrangerIsLast(w: World, t: nat, id: int)
    requires t in w.db.tickets && id in w.db.tickets[t].frozen
    ensures
      var row := w.db.tickets[t];
      TargetsOf(Crowded(w, t, id), row) == TargetsOf(w.db, row) + PortTargets(Stranger(w, t, id), row.ports)
  {
    var row := w.db.tickets[t];
    var s := Stranger(w, t, id);
    assert (w.db.assets + [s])[..|w.db.assets|] == w.db.assets;
    var listed := Listed(w.db.assets, row.frozen);
    assert Listed(w.db.assets + [s], row.frozen) == listed + [s];
    assert (listed + [s])[..|listed|] == listed;
  }

  lemma StrangerIsForeign(w: World, t: nat, id: int, port: int)
    requires t in w.db.tickets
    ensures Foreign(Crowded(w, t, id), t, OnWire(Target(Unused(w.db.assets), port)))
  {
    var db := Crowded(w, t, id);
    forall a, p | a in db.assets && OwnFrozen(db.tickets[t], a) && p in db.tickets[t].ports
      ensures OnWire(Target(Unused(w.db.assets), port)) != OnWire(Target(a.ip, p))
    {
      assert a in w.db.assets;
    }
  }

  /** Every target has an address, because every asset row has one. */
  lemma TargetAddressed(db: Db, row: Ticket, i: nat)
    requires Catalogued(db.assets) && i < |TargetsOf(db, row)|
    ensures TargetsOf(db, row)[i].ip != "" && TargetsOf(db, row)[i].port in row.ports
  {
    hide Catalogued, BuildTargets, Listed;
    var x := TargetsOf(db, row)[i];
    var listed := Listed(db.assets, row.frozen);
    TargetsExactly(listed, row.ports, x);
    var a: Asset :| a in listed && a.ip == x.ip;
    ListedExactly(db.assets, row.frozen, a);
    AddressOf(db.assets, a);
  }

  lemma PushAt(w: World, rule: string, targets: seq<Target>, expires: Option<int>, i: nat)
    requires i < |targets|
    ensures |Pushes(w, rule, targets, expires)| == |targets|
    ensures Pushes(w, rule, targets, expires)[i] == Apply(rule, Sources(w), OnWire(targets[i]), expires) && Sources(w) != []
  {
  }

  /** Every target of the ticket gives a command its agent accepts. */
  lemma PushAccepted(w: World, t: nat, expires: int, i: nat)
    requires LiveTicket(w, t) && i < |TargetsOf(w.db, w.db.tickets[t])|
    ensures
      var todo := Pushes(w, RuleId(t), TargetsOf(w.db, w.db.tickets[t]), Some(expires));
      i < |todo| && Acceptable(todo[i], RuleId(t), expires)
  {
    hide Inv, RuleId, TargetsOf, Pushes, TablesInv, Catalogued, Audited;
    TablesHere(w);
    CataloguedHere(w.db);
    TargetAddressed(w.db, w.db.tickets[t], i);
    PushAt(w, RuleId(t), TargetsOf(w.db, w.db.tickets[t]), Some(expires), i);
  }

  lemma AddressOf(assets: seq<Asset>, a: Asset)
    requires Catalogued(assets) && a in assets
    ensures a.ip != ""
  {
    var i :| 0 <= i < |assets| && assets[i] == a;
    assert Placeable(assets[..i], assets[i]);
  }

  /** What a live ticket's records say: bound to an agent, with an expiry ahead and a target to begin with. */
  lemma LiveFacts(w: World, t: nat)
    requires LiveTicket(w, t)
    ensures t in w.db.bindings && w.db.bindings[t].ruleId == RuleId(t)
    ensures w.db.tickets[t].expires.Some? && w.now < w.db.tickets[t].expires.value
    ensures TargetsOf(w.db, w.db.tickets[t]) != [] && w.db.tickets[t].ports != []
  {
    hide Inv, RuleId;
    TablesHere(w);
    HistoryHere(w);
    RowHere(w, t);
    BoundIsEnforced(w.db, t);
    BindingHere(w, t);
    FirstTargetIsOwn(w.db, t);
    hide TablesInv, HistoryInv, TargetsOf;
  }

  /** Any target but the first: some continuation leaves the ticket with an entry for it, and the tables as they are. */
  lemma ReachesTarget(w: World, t: nat, m: nat) returns (more: seq<Event>)
    requires LiveTicket(w, t) && 0 < m < |TargetsOf(w.db, w.db.tickets[t])|
    ensures
      var w' := Run(w, more);
      && w'.db == w.db && t in w.db.bindings && w.db.bindings[t].agent in w'.procs
      && RuleId(t) in w'.procs[w.db.bindings[t].agent].rules
      && w'.procs[w.db.bindings[t].agent].rules[RuleId(t)].target == OnWire(TargetsOf(w.db, w.db.tickets[t])[m])
  {
    hide LiveTicket, Run, RuleId, TargetsOf, Acceptable, Pushes, D.Quiet;
    LiveHere(w, t);
    LiveFacts(w, t);
    var row, c, link := w.db.tickets[t], w.nextCall, |w.links|;
    var agent, expires := w.db.bindings[t].agent, row.expires.value;
    var w1, pre := AtSending(w, t);
    var todo := Pushes(w, RuleId(t), TargetsOf(w.db, row), Some(expires));
    PushAt(w, RuleId(t), TargetsOf(w.db, row), Some(expires), m);
    forall i | 0 <= i <= m ensures Acceptable(todo[i], RuleId(t), expires) {
      PushAccepted(w, t, expires, i);
    }
    var own := OwnPushed(w1, w.db, t, c, ToReapply(t), agent, link, todo, expires, m);
    var w2 := Run(w1, own);
    var late := LateOne(w2, w.db, t, c, ToReapply(t), agent, link, todo[m..], expires);
    more := pre + own + late;
    D.RunSplit(w, pre, own);
    D.RunSplit(w, pre + own, late);
  }

  lemma AtSending(w: World, t: nat) returns (w1: World, pre: seq<Event>)
    requires LiveTicket(w, t)
    ensures t in w.db.bindings && w.db.tickets[t].expires.Some? && w1 == Run(w, pre)
    ensures
      var row := w.db.tickets[t];
      Pushing(w1, w.db, t, w.nextCall, ToReapply(t), w.db.bindings[t].agent, |w.links|,
              Pushes(w, RuleId(t), TargetsOf(w.db, row), row.expires), row.expires.value)
  {
    hide LiveTicket, Run, RuleId, BuildTargets, Listed;
    LiveHere(w, t);
    LiveFacts(w, t);
    var row, c, link := w.db.tickets[t], w.nextCall, |w.links|;
    var agent, expires := w.db.bindings[t].agent, row.expires.value;
    Reopened(w, t, agent);
    var w0 := Run(w, Reopening(t, agent));
    ReapplySends(w0, c, t, row, agent, link, expires);
    var sends := [Advance(c, true), Advance(c, true)] + [Advance(c, true)];
    pre := Reopening(t, agent) + sends;
    D.RunSplit(w, Reopening(t, agent), sends);
    w1 := Run(w, pre);
    SamePushes(w, w0, RuleId(t), TargetsOf(w.db, row), row.expires);
  }

  /** With a dangling id: another project's asset is added under it, and a reapply reaches its target. */
  lemma BecomesForeign(w: World, t: nat, id: int) returns (more: seq<Event>)
    requires LiveTicket(w, t) && id in w.db.tickets[t].frozen
    requires w.db.assets != [] && id > w.db.assets[|w.db.assets| - 1].id
    ensures ForeignEntry(Run(w, more), t)
  {
    hide Inv, Run, Step, RuleId, TargetsOf, Foreign, Stranger, PortTargets;
    LiveFacts(w, t);
    var e := Event.Database(AddAsset(Stranger(w, t, id)), true);
    StrangerAdded(w, t, id);
    StepKeeps(w, e);
    var w0 := Step(w, e);
    StrangerIsLast(w, t, id);
    var m := |TargetsOf(w.db, w.db.tickets[t])|;
    FirstPort(Stranger(w, t, id), w.db.tickets[t].ports);
    var rest := ReachesTarget(w0, t, m);
    more := [e] + rest;
    D.RunSnoc(w, [], e);
    D.RunNone(w);
    assert [] + [e] == [e];
    D.RunSplit(w, [e], rest);
    StrangerIsForeign(w, t, id, w.db.tickets[t].ports[0]);
    StrangerAddress(w, t, id);
  }

  lemma FirstPort(a: Asset, ports: seq<int>)
    requires ports != []
    ensures PortTargets(a, ports) != [] && PortTargets(a, ports)[0] == Target(a.ip, ports[0])
  {
  }

  lemma StrangerAddress(w: World, t: nat, id: int)
    requires t in w.db.tickets
    ensures Stranger(w, t, id).ip == Unused(w.db.assets)
  {
  }

  /** With a strayed id: a reapply reaches that asset's target. */
  lemma ReachesStray(w: World, t: nat) returns (more: seq<Event>)
    requires LiveTicket(w, t) && Stray(w.db, t)
    ensures ForeignEntry(Run(w, more), t)
  {
    hide LiveTicket, Run, RuleId, TargetsOf, Foreign;
    LiveHere(w, t);
    LiveFacts(w, t);
    var row := w.db.tickets[t];
    var a :| a in w.db.assets && a.id in row.frozen && a.project != row.project && NoOwnAt(w.db, t, a.ip);
    var m := StrayTarget(w.db, t, a);
    FirstIsElsewhere(w, t, a);
    more := ReachesTarget(w, t, m);
    StrayIsForeign(w.db, t, a.ip, row.ports[0]);
  }

  lemma StrayTarget(db: Db, t: nat, a: Asset) returns (m: nat)
    requires t in db.tickets && db.tickets[t].ports != [] && a in db.assets && a.id in db.tickets[t].frozen
    ensures m < |TargetsOf(db, db.tickets[t])| && TargetsOf(db, db.tickets[t])[m] == Target(a.ip, db.tickets[t].ports[0])
  {
    hide BuildTargets, Listed;
    var row := db.tickets[t];
    ListedExactly(db.assets, row.frozen, a);
    TargetsExactly(Listed(db.assets, row.frozen), row.ports, Target(a.ip, row.ports[0]));
    m :| 0 <= m < |TargetsOf(db, row)| && TargetsOf(db, row)[m] == Target(a.ip, row.ports[0]);
  }

  lemma FirstIsElsewhere(w: World, t: nat, a: Asset)
    requires LiveTicket(w, t) && NoOwnAt(w.db, t, a.ip)
    ensures TargetsOf(w.db, w.db.tickets[t]) != [] && TargetsOf(w.db, w.db.tickets[t])[0].ip != a.ip
  {
    hide Inv, TargetsOf;
    TablesHere(w);
    FirstTargetIsOwn(w.db, t);
    hide TablesInv;
  }

  lemma StrayIsForeign(db: Db, t: nat, ip: string, port: int)
    requires t in db.tickets && NoOwnAt(db, t, ip)
    ensures Foreign(db, t, OnWire(Target(ip, port)))
  {
  }

  lemma LiveHere(w: World, t: nat)
    requires LiveTicket(w, t)
    ensures t in w.db.tickets && LiveAt(w.db.tickets[t], w.now)
  {
    hide Inv;
  }

  lemma SamePushes(w: World, w': World, rule: string, targets: seq<Target>, expires: Option<int>)
    requires w'.srcPeerIPs == w.srcPeerIPs
    ensures Pushes(w', rule, targets, expires) == Pushes(w, rule, targets, expires)
  {
  }

  /**
   * Exactly when a live ticket's forwarder can come to relay outside its project: some
   * continuation of the run gives it an entry whose target is no own frozen asset's if and
   * only if one of its frozen ids is above all asset ids that exist, or is by now another
   * project's asset at an address none of its own frozen assets has.
   */
  lemma ForeignEntryIff(now: int, srcPeerIPs: seq<string>, events: seq<Event>, t: nat)
    requires var w := Reached(now, srcPeerIPs, events); t in w.db.tickets && LiveAt(w.db.tickets[t], w.now)
    ensures
      var w := Reached(now, srcPeerIPs, events);
      (exists more {:trigger Run(w, more)} :: ForeignEntry(Run(w, more), t)) <==> Dangling(w.db, t) || Stray(w.db, t)
  {
    hide Run, Inv, ForeignEntry, TargetsOf, Stray;
    var w := Reached(now, srcPeerIPs, events);
    RunKeeps(now, srcPeerIPs, events);
    forall port | port in w.db.tickets[t].ports ensures port % 0x1_0000_0000 != 0 {
      P.ActivatedPortsAreUsable(now, srcPeerIPs, events, t, port);
    }
    LiveFacts(w, t);
    SomeAsset(w.db, w.db.tickets[t]);
    if Dangling(w.db, t) {
      var id :| id in w.db.tickets[t].frozen && (w.db.assets == [] || id > w.db.assets[|w.db.assets| - 1].id);
      var more := BecomesForeign(w, t, id);
      assert ForeignEntry(Run(w, more), t);
    } else if Stray(w.db, t) {
      var more := ReachesStray(w, t);
      assert ForeignEntry(Run(w, more), t);
    } else {
      forall more ensures !ForeignEntry(Run(w, more), t) {
        NeverForeign(now, srcPeerIPs, events, more, t);
      }
    }
  }

  lemma SomeAsset(db: Db, row: Ticket)
    requires TargetsOf(db, row) != []
    ensures db.assets != []
  {
  }
}
