/** Every step of the world keeps its invariant. */
module WorldSteps {
  import opened Wrappers
  import opened RuleIds
  import opened Store
  import opened Forwarding
  import opened Links
  import opened Worlds
  import opened WorldFrames

  // ---- steps of streams, agents and time ----

  /** Calls may have ended, but nothing they rely on changed. */
  lemma QuietKeeps(w: World, w': World)
    requires Inv(w) && Extends(w, w') && w'.db == w.db && w'.past == w.past
    requires forall c :: c in w'.calls ==> c in w.calls && w'.calls[c] == w.calls[c]
    requires forall i :: 0 <= i < |w'.links| ==>
      if i < |w.links| then w'.links[i].sent == w.links[i].sent else w'.links[i].sent == []
    requires forall i :: 0 <= i < |w'.links| ==> (i < |w.links| && w'.links[i] == w.links[i]) || LinkOk(w', w'.links[i])
    requires forall a :: a in w'.procs ==> ProcSame(w, w', a) || ProcOk(w', a, w'.procs[a])
    requires forall a :: a in w'.current ==>
      (a in w.current && w'.current[a] == w.current[a]) || (w'.current[a] < |w'.links| && w'.links[w'.current[a]].agent == a)
    ensures Inv(w')
  {
    HistoryHolders(w);
    hide TablesInv, Audited, HistoryInv, LinkOk, CallOk, ProcOk, ProcSame, Extends, Still;
    HistoryKept(w, w');
    QuietStill(w, w');
    CallsKept(w, w', w.nextCall);
    LinksKept(w, w');
    ProcsKept(w, w');
  }

  lemma QuietStill(w: World, w': World)
    requires w'.past == w.past
    requires forall i :: 0 <= i < |w'.links| ==>
      if i < |w.links| then w'.links[i].sent == w.links[i].sent else w'.links[i].sent == []
    ensures forall k :: Still(w, w', k)
  {
    forall k ensures Still(w, w', k) {
    }
  }

  ghost predicate CallsBounded(w: World) {
    forall c :: c in w.calls ==> c < w.nextCall
  }

  lemma HistoryHolders(w: World)
    requires Inv(w)
    ensures forall id :: id in w.past.holder ==> id < w.nextCmd
    ensures CallsBounded(w)
  {
    hide TablesInv, Audited, GrantOk, RowOk;
    forall c | c in w.calls ensures c < w.nextCall {
      assert CallOk(w, c, w.calls[c]);
    }
  }

  /** Only streams, processes and time differ, and each stream only went further. */
  ghost predicate WireOnly(w: World, w': World) {
    && w' == w.(now := w'.now, links := w'.links, procs := w'.procs, current := w'.current, calls := w'.calls)
    && w.now <= w'.now && |w.links| <= |w'.links|
    && forall i :: 0 <= i < |w.links| ==> LinkExtends(w.links[i], w'.links[i])
  }

  lemma WireExtends(w: World, w': World)
    requires WireOnly(w, w')
    ensures Extends(w, w')
  {
    EvolvesReflexive(w.db);
    hide Evolves;
  }

  /** One stream is replaced by a good one that has sent the same commands. */
  lemma OneLinkKeeps(w: World, w': World, i: nat, l: Link)
    requires Inv(w) && i < |w.links| && WireOnly(w, w') && w'.links == w.links[i := l]
    requires l.sent == w.links[i].sent && LinkOk(w', l)
    requires w'.calls == w.calls && w'.current == w.current
    requires forall a :: a in w'.procs ==> ProcSame(w, w', a) || ProcOk(w', a, w'.procs[a])
    ensures Inv(w')
  {
    hide Inv, LinkOk, ProcOk, ProcSame;
    WireExtends(w, w');
    hide Extends;
    QuietKeeps(w, w');
  }

  lemma LinkOkHere(w: World, i: nat)
    requires Inv(w) && i < |w.links|
    ensures LinkOk(w, w.links[i]) && LinkInv(w.links[i])
  {
    hide TablesInv, Audited, HistoryInv, CallsInv, ProcsInv, LinkInv, MessageOk;
  }

  lemma ProcOkHere(w: World, agent: int)
    requires Inv(w)
    ensures ProcOk(w, agent, ProcOf(w, agent))
  {
    hide TablesInv, Audited, HistoryInv, CallsInv, LinksInv, EntryOk, Owed;
  }

  /** The commands of a stream stay good when only its acks and waiters change. */
  lemma SameSentOk(w: World, w': World, l: Link, l': Link)
    requires Inv(w) && Extends(w, w') && LinkOk(w, l) && l'.sent == l.sent && l'.agent == l.agent && LinkInv(l')
    ensures LinkOk(w', l')
  {
    hide TablesInv, Audited, CallsInv, LinksInv, ProcsInv, LinkInv, Extends, HistoryInv, MessageOk;
    LinkKept(w, w', l);
  }

  lemma RouteKeepsWorld(w: World, i: nat)
    requires Inv(w) && i < |w.links| && w.links[i].replies != []
    ensures Inv(WithLink(w, i, Route(w.links[i])))
  {
    hide Inv, LinkOk, ProcOk, Extends, LinkInv;
    var l := w.links[i];
    var w' := WithLink(w, i, Route(l));
    LinkOkHere(w, i);
    RouteKeeps(l);
    WireExtends(w, w');
    SameSentOk(w, w', l, Route(l));
    forall a | a in w'.procs ensures ProcSame(w, w', a) {
      assert forall k :: 0 <= k < |w.links| ==> Unobeyed(w.links[k], w'.links[k]);
    }
    OneLinkKeeps(w, w', i, Route(l));
  }

  /** One process changed; streams did not. */
  lemma OneProcKeeps(w: World, agent: int, p: Proc)
    requires Inv(w) && ProcOk(w, agent, p)
    ensures Inv(WithProc(w, agent, p))
  {
    hide Inv, LinkOk, LinkInv, CallOk;
    var w' := WithProc(w, agent, p);
    WireExtends(w, w');
    hide Extends;
    assert ProcOk(w', agent, p) by {
      ProcKept(w, w', agent, p) by { HistoryHere(w); }
    }
    hide ProcOk;
    forall a | a in w'.procs ensures ProcSame(w, w', a) || ProcOk(w', a, w'.procs[a]) {
      assert forall k :: 0 <= k < |w.links| ==> Unobeyed(w.links[k], w'.links[k]);
    }
    QuietKeeps(w, w');
  }

  lemma HistoryHere(w: World)
    requires Inv(w)
    ensures HistoryInv(w)
  {
    hide TablesInv, Audited, HistoryInv, CallsInv, ProcsInv, LinksInv;
  }

  /** Obeying a good command leaves only good entries, whatever the listener and the clock do. */
  lemma ObeyEntries(w: World, agent: int, rules: Rules, cmd: Command, works: bool, port: string)
    requires forall r :: r in rules ==> EntryOk(w, agent, r, rules[r])
    requires CmdOk(w, agent, cmd)
    ensures var rules' := Obey(rules, cmd, w.now, works, port).0;
      && (forall r :: r in rules' ==> EntryOk(w, agent, r, rules'[r]))
      && (cmd.Revoke? ==> cmd.rule !in rules')
  {
    hide Aimed, RuleId, TicketOf;
  }

  lemma ReceiveKeeps(w: World, e: Event)
    requires Inv(w) && e.Receive?
    ensures Inv(AgentStep(w, e))
  {
    hide Inv, LinkInv, EntryOk, CmdOk, Owed, Obey;
    var p := ProcOf(w, e.agent);
    ProcOkHere(w, e.agent);
    if p.session.Some? && p.owes.None? && w.links[p.session.value].queue != [] {
      var i := p.session.value;
      var l := w.links[i];
      LinkOkHere(w, i);
      NextCommand(w, l);
      var (rules, answer) := Obey(p.rules, l.queue[0].cmd, w.now, e.works, e.port);
      ObeyEntries(w, e.agent, p.rules, l.queue[0].cmd, e.works, e.port);
      ObeyedKeeps(l, answer);
      ObeyedOwes(l, answer, rules);
      var w1 := WithLink(w, i, Obeyed(l, answer));
      var p' := p.(rules := rules, owes := Some(Done(l.queue[0].id, answer)));
      ReceivedKeeps(w, e.agent, i, Obeyed(l, answer), p');
    }
  }

  lemma NextCommand(w: World, l: Link)
    requires LinkOk(w, l) && l.queue != []
    ensures CmdOk(w, l.agent, l.queue[0].cmd)
  {
    hide CmdOk, Distinct, Answers;
    assert l.queue[0] == l.sent[|l.done|];
    assert MessageOk(w, l.agent, l.sent[|l.done|]);
  }

  lemma ReceivedKeeps(w: World, agent: int, i: nat, l: Link, p: Proc)
    requires Inv(w) && i < |w.links| && LinkExtends(w.links[i], l) && l.sent == w.links[i].sent && LinkInv(l)
    requires w.links[i].agent == agent && p.session == Some(i) && p.owes.Some?
    requires Owed(l, p.owes.value.id, p.owes.value.answer, p.rules.Keys)
    requires forall r :: r in p.rules ==> EntryOk(w, agent, r, p.rules[r])
    ensures Inv(WithProc(WithLink(w, i, l), agent, p))
  {
    hide Inv, LinkInv, EntryOk, Owed, LinkOk;
    var w' := WithProc(WithLink(w, i, l), agent, p);
    WireExtends(w, w');
    LinkOkHere(w, i);
    HistoryHere(w);
    SameSentOk(w, w', w.links[i], l);
    hide Extends, HistoryInv;
    forall r | r in p.rules ensures EntryOk(w', agent, r, p.rules[r]) {
      EntryKept(w, w', agent, r, p.rules[r]);
    }
    forall a | a in w'.procs && a != agent ensures ProcSame(w, w', a) {
      ProcOkHere(w, a);
      assert forall k :: 0 <= k < |w.links| && k != i ==> Unobeyed(w.links[k], w'.links[k]);
    }
    assert ProcOk(w', agent, p);
    OneLinkKeeps(w, w', i, l);
  }

  lemma ReplyKeeps(w: World, e: Event)
    requires Inv(w) && e.Reply?
    ensures Inv(AgentStep(w, e))
  {
    hide Inv, LinkInv, EntryOk, Owed, LinkOk;
    var p := ProcOf(w, e.agent);
    ProcOkHere(w, e.agent);
    if p.session.Some? && p.owes.Some? {
      var w1 := WithProc(w, e.agent, p.(owes := None));
      OneProcKeeps(w, e.agent, p.(owes := None));
      if e.delivered {
        var i := p.session.value;
        var l := w.links[i];
        var ack := Ack(p.owes.value.id, p.owes.value.answer, p.rules.Keys);
        LinkOkHere(w, i);
        RepliedKeeps(l, ack);
        RepliedToOwner(w1, e.agent, i, ack);
      }
    }
  }

  lemma RepliedToOwner(w: World, agent: int, i: nat, ack: Ack)
    requires Inv(w) && i < |w.links| && w.links[i].agent == agent && LinkInv(Replied(w.links[i], ack))
    requires agent in w.procs && w.procs[agent].owes.None?
    ensures Inv(WithLink(w, i, Replied(w.links[i], ack)))
  {
    hide Inv, LinkInv, LinkOk, EntryOk, Owed;
    var l := Replied(w.links[i], ack);
    var w' := WithLink(w, i, l);
    WireExtends(w, w');
    LinkOkHere(w, i);
    SameSentOk(w, w', w.links[i], l);
    hide Extends;
    forall a | a in w'.procs ensures ProcSame(w, w', a) {
      ProcOkHere(w, a);
      assert forall k :: 0 <= k < |w.links| && k != i ==> Unobeyed(w.links[k], w'.links[k]);
    }
    OneLinkKeeps(w, w', i, l);
  }

  lemma OpenStreamKeeps(w: World, e: Event)
    requires Inv(w) && e.OpenStream?
    ensures Inv(AgentStep(w, e))
  {
    hide Inv, EntryOk, Owed, CmdOk;
    var p := ProcOf(w, e.agent);
    ProcOkHere(w, e.agent);
    if p.session.None? {
      var n := |w.links|;
      var p' := p.(session := Some(n), owes := None);
      var w' := AgentStep(w, e);
      WireExtends(w, w');
      HistoryHere(w);
      hide Extends, HistoryInv;
      forall r | r in p'.rules ensures EntryOk(w', e.agent, r, p'.rules[r]) {
        EntryKept(w, w', e.agent, r, p'.rules[r]);
      }
      assert LinkInv(NewLink(e.agent)) && LinkOk(w', NewLink(e.agent));
      hide LinkInv;
      assert ProcOk(w', e.agent, p');
      forall a | a in w'.procs && a != e.agent ensures ProcSame(w, w', a) {
        assert forall k :: 0 <= k < |w.links| ==> Unobeyed(w.links[k], w'.links[k]);
      }
      hide ProcSame, ProcOk;
      QuietKeeps(w, w');
    }
  }

  lemma AgentStepKeeps(w: World, e: Event)
    requires Inv(w)
    requires e.OpenStream? || e.StreamBreaks? || e.AgentRestart? || e.Receive? || e.Reply? || e.TimerGoesOff? || e.TimerRuns?
    ensures Inv(AgentStep(w, e))
  {
    hide Inv, EntryOk, Owed;
    ProcOkHere(w, e.agent);
    var p := ProcOf(w, e.agent);
    match e {
      case OpenStream(_) => OpenStreamKeeps(w, e);
      case Receive(_, _, _) => ReceiveKeeps(w, e);
      case Reply(_, _) => ReplyKeeps(w, e);
      case StreamBreaks(agent) => OneProcKeeps(w, agent, p.(session := None, owes := None));
      case AgentRestart(agent) => OneProcKeeps(w, agent, Proc(map[], None, None, {}));
      case TimerGoesOff(agent, rule) => OneProcKeeps(w, agent, p.(firing := p.firing + {rule}));
      case TimerRuns(agent, rule) =>
        FewerRulesOwed(w, agent, p, rule);
        OneProcKeeps(w, agent, p.(rules := p.rules - {rule}, firing := p.firing - {rule}));
    }
  }

  lemma FewerRulesOwed(w: World, agent: int, p: Proc, rule: string)
    requires ProcOk(w, agent, p)
    ensures ProcOk(w, agent, p.(rules := p.rules - {rule}, firing := p.firing - {rule}))
  {
    hide EntryOk;
    if p.owes.Some? {
      var l := w.links[p.session.value];
      OwedKept(l, l, p.owes.value.id, p.owes.value.answer, p.rules.Keys, (p.rules - {rule}).Keys);
    }
  }

  /** Calls dying, the server crashing, a control handler returning, and time passing. */
  lemma LossKeeps(w: World, e: Event)
    requires Inv(w) && (e.Abandon? || e.ServerCrash? || e.ControlReturns? || e.Tick?)
    ensures Inv(Step(w, e))
  {
    hide Inv, LinkOk, ProcOk, AgentStep, BeginCall, AdvanceCall, After, Route, Extends;
    var w' := Step(w, e);
    WireExtends(w, w');
    forall a | a in w'.procs ensures ProcSame(w, w', a) {
      assert forall k :: 0 <= k < |w.links| ==> Unobeyed(w.links[k], w'.links[k]);
    }
    QuietKeeps(w, w');
  }

  // ---- steps of engine calls ----

  /** Call `c` moved, possibly with its stream; everything else only moved on. */
  lemma CallMoveKeeps(w: World, w': World, c: nat)
    requires Inv(w) && Extends(w, w') && TablesInv(w'.db) && Audited(w'.db) && HistoryInv(w')
    requires forall k :: k in w'.calls && k != c ==> k in w.calls && w'.calls[k] == w.calls[k] && Still(w, w', k)
    requires c in w'.calls ==> CallOk(w', c, w'.calls[c])
    requires |w'.links| == |w.links| && w'.procs == w.procs && w'.current == w.current
    requires forall i :: 0 <= i < |w.links| ==> w'.links[i] == w.links[i] || (LinkOk(w', w'.links[i]) && Unobeyed(w.links[i], w'.links[i]))
    ensures Inv(w')
  {
    hide TablesInv, Audited, HistoryInv, LinkOk, CallOk, ProcOk, Extends, Still, LinkInv;
    CallsKept(w, w', c);
    LinksKept(w, w');
    forall a | a in w'.procs ensures ProcSame(w, w', a) {
      assert forall i :: 0 <= i < |w.links| ==> Unobeyed(w.links[i], w'.links[i]);
    }
    ProcsKept(w, w');
  }

  lemma CallHere(w: World, c: nat)
    requires Inv(w) && c in w.calls
    ensures CallOk(w, c, w.calls[c]) && c < w.nextCall
  {
    hide TablesInv, Audited, HistoryInv, LinksInv, ProcsInv;
    assert CallOk(w, c, w.calls[c]);
  }

  lemma TablesHere(w: World)
    requires Inv(w)
    ensures TablesInv(w.db) && Audited(w.db)
  {
    hide TablesInv, Audited, HistoryInv, LinksInv, ProcsInv, CallsInv;
  }

  /** The call moved and took nothing with it. */
  lemma PutKeeps(w: World, c: nat, call: Call)
    requires Inv(w) && c in w.calls && CallOk(w, c, call)
    ensures Inv(Put(w, c, call))
  {
    hide Inv, LinkOk, LinkInv, Extends, Still, CallOk, TablesInv, Audited, HistoryInv;
    var w' := Put(w, c, call);
    PutStill(w, c, call);
    HistoryHere(w);
    HistoryHolders(w);
    HistoryKept(w, w');
    TablesHere(w);
    CallKept(w, w', c, call);
    CallMoveKeeps(w, w', c);
  }

  lemma PutStill(w: World, c: nat, call: Call)
    ensures Extends(w, Put(w, c, call)) && forall k :: Still(w, Put(w, c, call), k)
  {
    WireExtends(w, Put(w, c, call));
    hide Extends;
  }

  /** The call moved together with one stream, whose commands are all good. */
  lemma StreamMoveKeeps(w: World, w': World, c: nat, i: nat, l: Link)
    requires Inv(w) && c in w.calls && i < |w.links|
    requires w' == w.(links := w.links[i := l], calls := w'.calls, nextCmd := w'.nextCmd, past := w.past.(holder := w'.past.holder))
    requires w'.calls.Keys == w.calls.Keys && forall k :: k in w.calls && k != c ==> w'.calls[k] == w.calls[k]
    requires w.nextCmd <= w'.nextCmd && Sub(w.past.holder, w'.past.holder)
    requires forall id :: id in w'.past.holder ==> id < w'.nextCmd
    requires LinkOk(w', l) && Unobeyed(w.links[i], l)
    requires forall j :: |w.links[i].sent| <= j < |l.sent| ==> l.sent[j].id in w.past.holder && w.past.holder[l.sent[j].id] == c
    requires CallOk(w', c, w'.calls[c])
    ensures Inv(w')
  {
    hide Inv, LinkOk, LinkInv, CallOk;
    EvolvesReflexive(w.db);
    hide Evolves;
    assert Extends(w, w');
    forall k | k != c ensures Still(w, w', k) {
    }
    hide Extends, Still;
    HistoryHere(w);
    HistoryKept(w, w');
    TablesHere(w);
    hide TablesInv, Audited, HistoryInv;
    forall k | k in w'.calls && k != c ensures k in w.calls {
      assert k in w'.calls.Keys;
    }
    assert c in w'.calls.Keys;
    CallMoveKeeps(w, w', c);
  }

  lemma ConnectingKeeps(w: World, c: nat, good: bool)
    requires Inv(w) && c in w.calls && w.calls[c].Connecting?
    ensures Inv(AdvanceGateway(w, c, good))
  {
    hide TablesInv, Audited, HistoryInv, LinksInv, CallsInv, ProcOk, TodoOk, RuleId, GoalOk;
    CallHere(w, c);
    var call := w.calls[c];
    if call.agent in w.current && w.current[call.agent] < |w.links| {
      assert w.links[w.current[call.agent]].agent == call.agent;
      PutKeeps(w, c, Sending(call.goal, w.current[call.agent], call.todo, None));
    } else {
      PutKeeps(w, c, Failed(call.goal));
    }
  }

  /** A stream whose waiters changed and nothing else. */
  lemma WaitersOk(w: World, w': World, i: nat, l: Link)
    requires Inv(w) && i < |w.links| && Extends(w, w')
    requires l == w.links[i].(slots := l.slots) && LinkInv(l)
    ensures LinkOk(w', l) && Unobeyed(w.links[i], l)
  {
    hide Inv, LinkInv, Extends, LinkOk;
    LinkOkHere(w, i);
    SameSentOk(w, w', w.links[i], l);
  }

  lemma IssueKeeps(w: World, c: nat, good: bool)
    requires Inv(w) && c in w.calls && w.calls[c].Sending?
    ensures Inv(AdvanceGateway(w, c, good))
  {
    hide Inv, LinkInv, TodoOk, GoalOk, LinkOk, ReceiptOk, RuleId;
    CallHere(w, c);
    var Sending(goal, link, todo, last) := w.calls[c];
    if todo == [] {
      PutKeeps(w, c, Succeeded(goal, if last.Some? then Some(Receipt(link, last.value)) else None));
    } else {
      var id := w.nextCmd;
      var w' := AdvanceGateway(w, c, good);
      var l := Register(w.links[link], id);
      HistoryHolders(w);
      IssueExtends(w, c, link, id, Enqueuing(goal, link, todo, id));
      LinkOkHere(w, link);
      RegisterKeeps(w.links[link], id);
      WaitersOk(w, w', link, l);
      IssuedOk(w, w', c, goal, link, todo, id);
      hide CallOk, CallsBounded;
      StreamMoveKeeps(w, w', c, link, l);
    }
  }

  lemma IssueExtends(w: World, c: nat, link: nat, id: nat, call: Call)
    requires link < |w.links| && id == w.nextCmd && forall k :: k in w.past.holder ==> k < w.nextCmd
    ensures Extends(w, Put(WithLink(w, link, Register(w.links[link], id)), c, call)
                       .(nextCmd := id + 1, past := w.past.(holder := w.past.holder[id := c])))
  {
    EvolvesReflexive(w.db);
    hide Evolves;
  }

  /** A fresh command id: no stream has carried it. */
  lemma FreshId(w: World)
    requires LinksInv(w)
    ensures forall i, j :: 0 <= i < |w.links| && 0 <= j < |w.links[i].sent| ==> w.links[i].sent[j].id < w.nextCmd
  {
    hide LinkInv, CmdOk;
    forall i, j | 0 <= i < |w.links| && 0 <= j < |w.links[i].sent| ensures w.links[i].sent[j].id < w.nextCmd {
      assert LinkOk(w, w.links[i]);
      assert MessageOk(w, w.links[i].agent, w.links[i].sent[j]);
    }
  }

  lemma LinksHere(w: World)
    requires Inv(w)
    ensures LinksInv(w)
  {
    hide TablesInv, Audited, HistoryInv, LinksInv, ProcsInv, CallsInv;
  }

  lemma IssuedOk(w: World, w': World, c: nat, goal: Goal, link: nat, todo: seq<Command>, id: nat)
    requires Inv(w) && Extends(w, w') && OnLink(w, c, goal, link, todo) && todo != [] && id == w.nextCmd && c < w.nextCall
    requires w'.nextCmd == id + 1 && w'.past.holder == w.past.holder[id := c] && w'.past.began == w.past.began
    requires |w'.links| == |w.links| && forall i :: 0 <= i < |w.links| ==> w'.links[i].sent == w.links[i].sent
    ensures CallOk(w', c, Enqueuing(goal, link, todo, id))
  {
    hide Inv, OnLink, LinksInv, HistoryInv, Extends;
    BeganBounded(w);
    HistoryHere(w);
    LinksHere(w);
    FreshId(w);
    OnLinkKept(w, w', c, goal, link, todo);
    GoalBegan(w, w', c, goal, link, todo);
    ExtendsCounts(w, w');
  }

  lemma ExtendsCounts(w: World, w': World)
    requires Extends(w, w')
    ensures w.nextCall <= w'.nextCall && w.nextCmd <= w'.nextCmd
  {
    hide Evolves, PastExtends;
  }

  lemma BeganBounded(w: World)
    requires Inv(w)
    ensures forall t :: t in w.past.began ==> w.past.began[t] <= w.nextCmd
  {
    hide TablesInv, Audited, CallsInv, ProcsInv, LinksInv, GrantOk, RowOk;
  }

  lemma GoalBegan(w: World, w': World, c: nat, goal: Goal, link: nat, todo: seq<Command>)
    requires OnLink(w, c, goal, link, todo) && w'.past.began == w.past.began
    ensures goal.ToRevoke? ==> goal.ticket in w'.past.began
  {
    hide TodoOk;
  }

  lemma EnqueueingKeeps(w: World, c: nat, good: bool)
    requires Inv(w) && c in w.calls && w.calls[c].Enqueuing?
    ensures Inv(AdvanceGateway(w, c, good))
  {
    hide Inv, LinkInv, GoalOk, LinkOk, RuleId, TodoOk, HistoryInv;
    CallHere(w, c);
    var Enqueuing(goal, link, todo, id) := w.calls[c];
    var w' := AdvanceGateway(w, c, good);
    LinkOkHere(w, link);
    HistoryHere(w);
    HistoryHolders(w);
    if good {
      var l := Enqueue(w.links[link], Message(id, todo[0]));
      EnqueueKeeps(w.links[link], Message(id, todo[0]));
      OneStreamExtends(w, c, link, l, Awaiting(goal, link, todo, id));
      EnqueuedOk(w, w', link, l, Message(id, todo[0]), goal, todo);
      EnqueuedCall(w, w', c, goal, link, todo, id);
      hide CallOk, CallsBounded;
      StreamMoveKeeps(w, w', c, link, l);
    } else {
      var l := Clear(w.links[link], id);
      RegisterKeeps(w.links[link], id);
      OneStreamExtends(w, c, link, l, Failed(goal));
      WaitersOk(w, w', link, l);
      FailedOk(w, w', c, goal);
      hide CallOk, CallsBounded;
      StreamMoveKeeps(w, w', c, link, l);
    }
  }

  lemma OneStreamExtends(w: World, c: nat, link: nat, l: Link, call: Call)
    requires link < |w.links| && LinkExtends(w.links[link], l)
    ensures Extends(w, Put(WithLink(w, link, l), c, call))
  {
    EvolvesReflexive(w.db);
    hide Evolves;
  }

  lemma FailedOk(w: World, w': World, c: nat, goal: Goal)
    requires GoalOk(w, c, goal) && Extends(w, w') && c < w.nextCall
    ensures CallOk(w', c, Failed(goal))
  {
    hide Evolves;
  }

  lemma EnqueuedOk(w: World, w': World, link: nat, l: Link, m: Message, goal: Goal, todo: seq<Command>)
    requires Inv(w) && Extends(w, w') && link < |w.links| && l == Enqueue(w.links[link], m) && LinkInv(l)
    requires todo != [] && TodoOk(w, w.links[link].agent, goal, todo) && m.cmd == todo[0]
    requires m.id < w.nextCmd && m.id in w.past.holder
    ensures LinkOk(w', l) && Unobeyed(w.links[link], l)
  {
    hide Inv, LinkInv, Extends, CmdOk, HistoryInv;
    LinkOkHere(w, link);
    HistoryHere(w);
    LinkKept(w, w', w.links[link]);
    CmdKept(w, w', l.agent, m.cmd);
    HoldersGrow(w, w', m.id);
    hide LinkOk;
    OneMoreOk(w', w.links[link], l, m);
  }

  lemma OneMoreOk(w: World, l: Link, l': Link, m: Message)
    requires LinkOk(w, l) && l' == Enqueue(l, m) && LinkInv(l') && MessageOk(w, l.agent, m)
    ensures LinkOk(w, l')
  {
    hide LinkInv, MessageOk;
  }

  lemma HoldersGrow(w: World, w': World, id: nat)
    requires Extends(w, w') && id < w.nextCmd && id in w.past.holder
    ensures id < w'.nextCmd && id in w'.past.holder && w'.past.holder[id] == w.past.holder[id]
  {
    hide Evolves;
  }

  lemma EnqueuedCall(w: World, w': World, c: nat, goal: Goal, link: nat, todo: seq<Command>, id: nat)
    requires HistoryInv(w) && Extends(w, w') && OnLink(w, c, goal, link, todo) && todo != [] && Holds(w, c, goal, id)
    requires c < w.nextCall && w'.past == w.past
    requires link < |w'.links| && Message(id, todo[0]) in w'.links[link].sent
    ensures CallOk(w', c, Awaiting(goal, link, todo, id))
  {
    hide HistoryInv, TodoOk, GoalOk;
    OnLinkKept(w, w', c, goal, link, todo);
    hide OnLink, Evolves;
  }

  lemma AwaitingKeeps(w: World, c: nat, good: bool)
    requires Inv(w) && c in w.calls && w.calls[c].Awaiting?
    ensures Inv(AdvanceGateway(w, c, good))
  {
    hide Inv, LinkInv, GoalOk, LinkOk, RuleId, TodoOk, HistoryInv, ReceiptOk, CmdOk;
    CallHere(w, c);
    var Awaiting(goal, link, todo, id) := w.calls[c];
    var w' := AdvanceGateway(w, c, good);
    LinkOkHere(w, link);
    HistoryHere(w);
    HistoryHolders(w);
    var l := Clear(w.links[link], id);
    RegisterKeeps(w.links[link], id);
    if w' != w {
      OneStreamExtends(w, c, link, l, w'.calls[c]);
      WaitersOk(w, w', link, l);
      if w'.calls[c].Failed? {
        FailedOk(w, w', c, goal);
      } else {
        AckedCall(w, w', c, goal, link, todo, id);
      }
      hide CallOk, CallsBounded;
      StreamMoveKeeps(w, w', c, link, l);
    }
  }

  /** The ack arrived: the command was obeyed, and for a revoke that is the receipt the ticket is closed on. */
  lemma AckedCall(w: World, w': World, c: nat, goal: Goal, link: nat, todo: seq<Command>, id: nat)
    requires HistoryInv(w) && Extends(w, w') && CallOk(w, c, Awaiting(goal, link, todo, id)) && w'.past == w.past
    requires LinkInv(w.links[link])
    requires var slots := w.links[link].slots; id in slots && slots[id].Some? && slots[id].value.answer.Some?
    ensures CallOk(w', c, Sending(goal, link, todo[1..], Some(id)))
  {
    hide HistoryInv, CmdOk, GoalOk, LinkInv, Evolves, RuleId;
    var at := AckMeansObeyedOnce(w.links[link], id);
    assert OnLink(w, c, goal, link, todo[1..]) by {
      assert forall i :: 0 <= i < |todo[1..]| ==> todo[1..][i] == todo[i + 1];
    }
    OnLinkKept(w, w', c, goal, link, todo[1..]);
    if goal.ToRevoke? {
      assert todo[0] == Revoke(RuleId(goal.ticket));
      assert RevokedAt(w.links[link], goal.ticket, id, at);
      RevokeOnGranted(w, w.links[link].agent, goal.ticket);
      assert ReceiptOk(w, goal.ticket, Receipt(link, id));
      ReceiptKept(w, w', goal.ticket, Receipt(link, id));
    }
    hide OnLink, Extends, ReceiptOk;
  }

  lemma RevokeOnGranted(w: World, agent: int, t: nat)
    requires CmdOk(w, agent, Revoke(RuleId(t)))
    ensures t in w.past.grants && w.past.grants[t].agent == agent
  {
    TicketOfRuleId(t);
  }

  // ---- steps that write the tables or the record ----

  /** At most the row of ticket `t` and the record of ticket `t` changed. */
  lemma RecordKept(w: World, w': World, t: nat)
    requires HistoryInv(w) && Extends(w, w') && Bookkeeping(w')
    requires forall k :: k in w'.db.tickets && k != t ==> k in w.db.tickets && w'.db.tickets[k] == w.db.tickets[k]
    requires t in w'.db.tickets ==> RowOk(w', t)
    requires t in w'.past.grants ==> t in w.past.grants || GrantOk(w', t)
    requires forall k :: k != t ==> (k in w'.past.began <==> k in w.past.began)
    requires forall k :: k != t && k in w'.past.starts ==> k in w.past.starts
    requires forall k :: k != t && k in w'.past.grants ==> k in w.past.grants
    requires forall k :: k != t && k in w'.past.closing ==> k in w.past.closing
    ensures HistoryInv(w')
  {
    hide GrantOk, RowOk, Extends, Bookkeeping;
    forall k | k in w'.past.grants ensures GrantOk(w', k) {
      if k in w.past.grants {
        GrantKept(w, w', k);
      }
    }
    forall k | k in w'.db.tickets ensures RowOk(w', k) {
      if k != t {
        RowKept(w, w', k);
      }
    }
  }

  lemma BookkeepingHere(w: World)
    requires HistoryInv(w)
    ensures Bookkeeping(w)
  {
    hide GrantOk, RowOk, Bookkeeping;
  }

  lemma RowHere(w: World, t: nat)
    requires HistoryInv(w) && t in w.db.tickets
    ensures RowOk(w, t)
  {
    hide GrantOk, RowOk, Bookkeeping;
  }

  /** Only the record of ticket `t`, which call `c` owns, grew. */
  ghost predicate Recorded(w: World, w': World, c: nat, t: nat) {
    && w' == w.(calls := w'.calls, past := w'.past)
    && w'.past == w.past.(chosen := w'.past.chosen, grants := w'.past.grants, looked := w'.past.looked)
    && w'.calls.Keys == w.calls.Keys && (forall k :: k in w.calls && k != c ==> w'.calls[k] == w.calls[k])
    && PastExtends(w.past, w'.past)
    && (forall k :: k in w'.past.chosen || k in w'.past.grants ==>
          (k in w.past.chosen || k in w.past.grants) || (k == t && t in w.past.owner && w.past.owner[t] == c))
    && (forall k :: k in w'.past.chosen && k !in w.past.chosen ==> k == t && t in w.past.owner && w.past.owner[t] == c)
    && (forall k :: k in w'.past.grants && k !in w.past.grants ==> k == t && t in w.past.owner && w.past.owner[t] == c)
    && (forall k :: k in w'.past.looked && k !in w.past.looked ==> k == t && t in w.past.revoker && w.past.revoker[t] == c)
  }

  lemma RecordedExtends(w: World, w': World, c: nat, t: nat)
    requires Recorded(w, w', c, t)
    ensures Extends(w, w') && forall k :: k != c ==> Still(w, w', k)
  {
    EvolvesReflexive(w.db);
    hide Evolves;
    forall k | k != c ensures Still(w, w', k) {
    }
  }

  lemma RecordedBooks(w: World, w': World, c: nat, t: nat)
    requires Recorded(w, w', c, t) && Bookkeeping(w)
    ensures Bookkeeping(w')
  {
  }

  lemma RecordedHistory(w: World, w': World, c: nat, t: nat)
    requires HistoryInv(w) && Recorded(w, w', c, t) && Extends(w, w') && Bookkeeping(w')
    requires t in w'.past.grants ==> t in w.past.grants || GrantOk(w', t)
    ensures HistoryInv(w')
  {
    hide GrantOk, RowOk, Extends, Bookkeeping, HistoryInv, Sub;
    forall k | k in w'.db.tickets ensures RowOk(w', k) {
      RowHere(w, k);
      RowKept(w, w', k);
    }
    RecordKept(w, w', t);
  }

  lemma RecordedKeeps(w: World, w': World, c: nat, t: nat)
    requires Inv(w) && c in w.calls && Recorded(w, w', c, t)
    requires t in w'.past.grants ==> t in w.past.grants || GrantOk(w', t)
    requires CallOk(w', c, w'.calls[c])
    ensures Inv(w')
  {
    hide Inv, GrantOk, CallOk, LinkOk, LinkInv, TablesInv, Audited, HistoryInv, Extends, Still, Recorded, Bookkeeping;
    HistoryHere(w);
    BookkeepingHere(w);
    TablesHere(w);
    RecordedExtends(w, w', c, t);
    RecordedBooks(w, w', c, t);
    RecordedHistory(w, w', c, t);
    forall k | k in w'.calls && k != c ensures k in w.calls && w'.calls[k] == w.calls[k] {
      RecordedCalls(w, w', c, t, k);
    }
    RecordedRest(w, w', c, t);
    CallMoveKeeps(w, w', c);
  }

  lemma RecordedCalls(w: World, w': World, c: nat, t: nat, k: nat)
    requires Recorded(w, w', c, t) && k in w'.calls && k != c
    ensures k in w.calls && w'.calls[k] == w.calls[k]
  {
    assert k in w'.calls.Keys;
  }

  lemma RecordedRest(w: World, w': World, c: nat, t: nat)
    requires Recorded(w, w', c, t)
    ensures w'.links == w.links && w'.procs == w.procs && w'.current == w.current && w'.db == w.db
  {
  }
}
