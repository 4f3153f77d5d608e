/** What holds in every run, whatever the interleaving, the failures and the crashes. */
module WorldTheorems {
  import opened Wrappers
  import opened RuleIds
  import opened Store
  import opened Forwarding
  import opened Links
  import opened Worlds
  import opened WorldFrames
  import opened WorldSteps
  import opened WorldCalls

  // ---- runs only move on ----

  lemma WireStepExtends(w: World, e: Event)
    requires Inv(w)
    requires !e.Database? && !e.StartApprove? && !e.StartRevoke? && !e.StartReapply? && !e.Advance?
    ensures Extends(w, Step(w, e))
  {
    hide Inv, Obey, AgentStep, AdvanceCall, BeginCall, After, Extends;
    if e.Abandon? || e.ServerCrash? || e.ControlReturns? || e.RouteAck? || e.Tick? {
      WireExtends(w, Step(w, e));
    } else {
      AgentStepIsWire(w, e);
      WireExtends(w, Step(w, e));
    }
  }

  lemma AgentStepIsWire(w: World, e: Event)
    requires e.OpenStream? || e.StreamBreaks? || e.AgentRestart? || e.Receive? || e.Reply? || e.TimerGoesOff? || e.TimerRuns?
    ensures WireOnly(w, AgentStep(w, e))
  {
    hide Obey;
  }

  lemma GatewayExtends(w: World, c: nat, good: bool)
    requires Inv(w) && c in w.calls
    requires var call := w.calls[c]; call.Connecting? || call.Sending? || call.Enqueuing? || call.Awaiting?
    ensures Extends(w, AdvanceGateway(w, c, good))
  {
    hide Inv, Extends;
    HistoryHolders(w);
    var w' := AdvanceGateway(w, c, good);
    match w.calls[c] {
      case Sending(goal, link, todo, _) =>
        if link < |w.links| && todo != [] {
          IssueExtends(w, c, link, w.nextCmd, Enqueuing(goal, link, todo, w.nextCmd));
        } else {
          WireExtends(w, w');
        }
      case Enqueuing(_, link, todo, id) =>
        WireExtends(w, w');
      case _ => WireExtends(w, w');
    }
  }

  lemma ChoiceExtends(w: World, c: nat, good: bool)
    requires Inv(w) && c in w.calls && w.calls[c].ApplyRow?
    ensures Extends(w, AdvanceApply(w, c, good))
  {
    hide Inv;
    CallHere(w, c);
    EvolvesReflexive(w.db);
    hide Evolves;
  }

  lemma GrantingExtends(w: World, c: nat, good: bool)
    requires Inv(w) && c in w.calls && w.calls[c].ApplyAgent?
    ensures Extends(w, AdvanceApply(w, c, good))
  {
    hide Inv, Pushes, BuildTargets, Listed, Snapshot;
    CallHere(w, c);
    EvolvesReflexive(w.db);
    hide Evolves;
  }

  lemma LookingExtends(w: World, c: nat, good: bool)
    requires Inv(w) && c in w.calls && w.calls[c].RevokeAt?
    ensures Extends(w, AdvanceRevoke(w, c, good))
  {
    hide Inv;
    CallHere(w, c);
    EvolvesReflexive(w.db);
    hide Evolves;
  }

  lemma ApplyExtends(w: World, c: nat, good: bool)
    requires Inv(w) && c in w.calls
    requires var call := w.calls[c];
      call.ApplyAt? || call.ApplyRow? || call.ApplyAgent? || call.ReapplyAt? || call.ReapplyBound? || call.RevokeAt?
    ensures Extends(w, AdvanceCall(w, c, good))
  {
    hide Inv, Extends, Pushes, BuildTargets, Listed, AdvanceRevoke, AdvanceGateway, AdvanceEnd;
    match w.calls[c] {
      case ApplyRow(_, _) => ChoiceExtends(w, c, good);
      case ApplyAgent(_, _, _) => GrantingExtends(w, c, good);
      case RevokeAt(_) => LookingExtends(w, c, good);
      case _ => WireExtends(w, AdvanceApply(w, c, good));
    }
  }

  lemma EndExtends(w: World, c: nat, good: bool)
    requires Inv(w) && c in w.calls && (w.calls[c].Succeeded? || w.calls[c].Failed?)
    ensures Extends(w, AdvanceEnd(w, c, good))
  {
    hide Inv, Extends, TablesInv, Audited, Wrote, EndTxn, AdvanceEnd;
    var call := w.calls[c];
    if call.goal.ToReapply? {
      ReapplyEnds(w, c, good);
      WireExtends(w, Drop(w, c));
    } else {
      var txn := EndTxn(call);
      NotYetClosed(w, call.goal.ticket);
      EndWrote(w, c, good);
      WroteExtends(w, AdvanceEnd(w, c, good), c, txn, good);
    }
  }

  lemma BeginExtends(w: World, e: Event)
    requires Inv(w) && (e.StartApprove? || e.StartRevoke? || e.StartReapply?)
    ensures Extends(w, BeginCall(w, e))
  {
    hide Inv, Extends, TablesInv, Audited, HistoryInv, RowOk, Bookkeeping, Wrote, Listed, CallOk;
    var w' := BeginCall(w, e);
    if w' == w {
      WireExtends(w, w);
    } else {
      HistoryHere(w);
      BookkeepingHere(w);
      match e {
        case StartApprove(t, approver, _) =>
          RowHere(w, t);
          ApprovedRecord(w, t, approver);
          WroteExtends(w, w', w.nextCall, Approve(t, approver), true);
        case StartRevoke(t, _) =>
          RowHere(w, t);
          RevokingRecord(w, t);
          WroteExtends(w, w', w.nextCall, BeginRevoke(t), true);
        case StartReapply(t) =>
          SpawnExtends(w, ReapplyAt(t, w.db.tickets[t]));
      }
    }
  }

  /** No step rewrites or loses anything recorded: rows, approvals, bindings, expiries, grants. */
  lemma StepExtends(w: World, e: Event)
    requires Inv(w)
    ensures Extends(w, Step(w, e))
  {
    hide Inv, Extends, AgentStep, BeginCall, AdvanceApply, AdvanceRevoke, AdvanceGateway, AdvanceEnd, Route, After, Drop;
    match e {
      case Database(txn, commits) =>
        if StandsAlone(txn) {
          assert Wrote(w, Step(w, e), w.nextCall, txn, commits);
          WroteExtends(w, Step(w, e), w.nextCall, txn, commits);
        } else {
          WireExtends(w, w);
        }
      case StartApprove(_, _, _) => BeginExtends(w, e);
      case StartRevoke(_, _) => BeginExtends(w, e);
      case StartReapply(_) => BeginExtends(w, e);
      case Advance(c, good) =>
        if c !in w.calls {
          WireExtends(w, w);
        } else {
          match w.calls[c] {
            case Succeeded(_, _) | Failed(_) => EndExtends(w, c, good);
            case Connecting(_, _, _) | Sending(_, _, _, _) | Enqueuing(_, _, _, _) | Awaiting(_, _, _, _) => GatewayExtends(w, c, good);
            case _ => ApplyExtends(w, c, good);
          }
        }
      case _ => WireStepExtends(w, e);
    }
  }

  lemma ExtendsTransitively(a: World, b: World, c: World)
    requires Extends(a, b) && Extends(b, c)
    ensures Extends(a, c)
  {
    EvolvesTransitively(a.db, b.db, c.db);
    hide Evolves;
    forall i | 0 <= i < |a.links| ensures LinkExtends(a.links[i], c.links[i]) {
      assert LinkExtends(a.links[i], b.links[i]) && LinkExtends(b.links[i], c.links[i]);
    }
  }

  /** The state after a list of events. */
  function Reached(now: int, srcPeerIPs: seq<string>, events: seq<Event>): World {
    Run(Start(now, srcPeerIPs), events)
  }

  /** What a run has recorded at any point is still there at its end. */
  lemma {:induction false} RunExtends(now: int, srcPeerIPs: seq<string>, events: seq<Event>, k: nat)
    requires k <= |events|
    ensures Extends(Reached(now, srcPeerIPs, events[..k]), Reached(now, srcPeerIPs, events))
  {
    hide Inv, Step;
    if k == |events| {
      assert events[..k] == events;
      WireExtends(Reached(now, srcPeerIPs, events), Reached(now, srcPeerIPs, events));
    } else {
      hide Extends;
      var shorter := events[..|events| - 1];
      assert shorter[..k] == events[..k];
      RunExtends(now, srcPeerIPs, shorter, k);
      RunKeeps(now, srcPeerIPs, shorter);
      StepExtends(Reached(now, srcPeerIPs, shorter), events[|events| - 1]);
      ExtendsTransitively(Reached(now, srcPeerIPs, events[..k]), Reached(now, srcPeerIPs, shorter), Reached(now, srcPeerIPs, events));
    }
  }

  // ---- no forwarder without approval ----

  /** No frozen id is above the ids that existed when the ticket was approved. */
  ghost predicate NoneDangling(db: Db, id: nat)
    requires id in db.tickets
  {
    id in db.seen && 0 < db.seen[id] <= |db.assets| &&
    forall i :: i in db.tickets[id].frozen ==> i <= db.assets[db.seen[id] - 1].id
  }

  lemma RowAt(assets: seq<Asset>, n: nat, a: Asset)
    requires InIdOrder(assets) && 0 < n <= |assets| && a in assets
    ensures a in assets[..n] <==> a.id <= assets[n - 1].id
  {
    var i :| 0 <= i < |assets| && assets[i] == a;
    if a.id <= assets[n - 1].id {
      assert assets[..n][i] == a;
    }
  }

  /**
   * Exactly when approval binds the assets for good: whatever asset rows are added later,
   * all listed assets stay in the project if and only if no listed id was above the last
   * existing one. Asset ids only grow, so an id that dangles above may later be given to
   * an asset of any project.
   */
  lemma OwnProjectForever(assets: seq<Asset>, ids: seq<int>, project: int)
    requires assets != [] && Catalogued(assets) && AllOwn(assets, ids, project)
    ensures (forall more {:trigger assets + more} :: Catalogued(assets + more) ==> AllOwn(assets + more, ids, project))
       <==> (forall id :: id in ids ==> id <= assets[|assets| - 1].id)
  {
    if forall id :: id in ids ==> id <= assets[|assets| - 1].id {
      forall more {:trigger assets + more} | Catalogued(assets + more) ensures AllOwn(assets + more, ids, project) {
        OwnStays(assets, more, ids, project);
      }
    } else {
      var id :| id in ids && id > assets[|assets| - 1].id;
      var stranger := Asset(id, project + 1, Unused(assets));
      CataloguedAppend(assets, stranger);
      ListedExactly(assets + [stranger], ids, stranger);
      assert (assets + [stranger])[|assets|] == stranger;
      assert !AllOwn(assets + [stranger], ids, project);
    }
  }

  lemma OwnStays(assets: seq<Asset>, more: seq<Asset>, ids: seq<int>, project: int)
    requires assets != [] && Catalogued(assets + more) && AllOwn(assets, ids, project)
    requires forall id :: id in ids ==> id <= assets[|assets| - 1].id
    ensures AllOwn(assets + more, ids, project)
  {
    forall a | a in Listed(assets + more, ids) ensures a.project == project {
      ListedExactly(assets + more, ids, a);
      RowAt(assets + more, |assets|, a);
      assert (assets + more)[..|assets|] == assets;
      ListedExactly(assets, ids, a);
    }
  }

  /** What every target aimed at comes from. */
  lemma AimedAt(db: Db, t: nat, target: Target) returns (asset: Asset, port: int)
    requires TablesInv(db) && Aimed(db, t, target) && WasApproved(db.tickets[t].status)
    ensures target == OnWire(Target(asset.ip, port)) && port in db.tickets[t].ports
    ensures asset in db.assets && asset.id in db.tickets[t].frozen
    ensures db.tickets[t].approver.Some? && db.tickets[t].approver.value != db.tickets[t].requester
    ensures NoneDangling(db, t) ==> asset.project == db.tickets[t].project
  {
    var row := db.tickets[t];
    assert TicketInv(db, t) && ApprovalInv(db, t);
    var x :| x in TargetsOf(db, row) && target == OnWire(x);
    var listed := Listed(db.assets, row.frozen);
    TargetsExactly(listed, row.ports, x);
    var a: Asset :| a in listed && a.ip == x.ip;
    ListedExactly(db.assets, row.frozen, a);
    asset, port := a, x.port;
    if NoneDangling(db, t) {
      RowAt(db.assets, db.seen[t], a);
      ListedExactly(db.assets[..db.seen[t]], row.frozen, a);
    }
  }

  /**
   * In every interleaving, each live forwarder entry carries the rule id of exactly one
   * ticket; someone other than its requester approved that ticket; it admits only the
   * configured sources and relays to one of the frozen assets on one of the ticket's
   * ports; and that asset is of the ticket's own project unless a frozen id was above all
   * existing ones at approval.
   */
  lemma NoForwarderWithoutApproval(now: int, srcPeerIPs: seq<string>, events: seq<Event>, agent: int, rule: string)
    returns (id: nat, asset: Asset, port: int)
    requires var w := Reached(now, srcPeerIPs, events); agent in w.procs && rule in w.procs[agent].rules
    ensures rule == RuleId(id) && forall k: nat {:trigger RuleId(k)} :: rule == RuleId(k) ==> k == id
    ensures
      var w := Reached(now, srcPeerIPs, events);
      var e := w.procs[agent].rules[rule];
      && id in w.db.tickets
      && var t := w.db.tickets[id];
         && WasApproved(t.status) && t.approver.Some? && t.approver.value != t.requester
         && id in w.past.grants && w.past.grants[id].agent == agent
         && asset in w.db.assets && asset.id in t.frozen && port in t.ports && e.target == Target(asset.ip, port % 0x1_0000_0000)
         && (NoneDangling(w.db, id) ==> asset.project == t.project)
         && (forall h :: h in e.allow <==> h != "" && h in w.srcPeerIPs)
  {
    hide Inv, TablesInv, Audited, HistoryInv, Aimed, RuleId, TicketOf, NoneDangling;
    var w := Reached(now, srcPeerIPs, events);
    RunKeeps(now, srcPeerIPs, events);
    ProcOkHere(w, agent);
    HistoryHere(w);
    TablesHere(w);
    id := TicketOf(rule);
    assert EntryOk(w, agent, rule, w.procs[agent].rules[rule]);
    RowApproved(w, id);
    asset, port := AimedAt(w.db, id, w.procs[agent].rules[rule].target);
    forall k: nat {:trigger RuleId(k)} | rule == RuleId(k) ensures k == id {
      RuleIdInjective(k, id);
    }
  }

  // ---- access windows ----

  /**
   * The exact deadline of every live entry, in every interleaving: it is the expiry fixed by
   * the ticket's one Apply, the ticket's 60 to 86400 s after that began, if the entry was made before it,
   * and no deadline at all if the command was obeyed only at or after it.
   */
  lemma WindowIsExact(now: int, srcPeerIPs: seq<string>, events: seq<Event>, agent: int, rule: string)
    requires var w := Reached(now, srcPeerIPs, events); agent in w.procs && rule in w.procs[agent].rules
    ensures
      var w := Reached(now, srcPeerIPs, events);
      var e := w.procs[agent].rules[rule];
      var id := TicketOf(rule);
      && rule == RuleId(id) && id in w.past.grants
      && var g := w.past.grants[id];
         && id in w.db.tickets && g.expires == g.start + w.db.tickets[id].duration && 60 <= g.expires - g.start <= 86400
         && g.start <= w.now
         && (e.deadline == Some(g.expires) <==> e.made < g.expires)
         && (e.deadline.None? <==> e.made >= g.expires)
  {
    hide Inv, TablesInv, Audited, Aimed, RuleId, TicketOf, TargetsOf, RowOk;
    var w := Reached(now, srcPeerIPs, events);
    RunKeeps(now, srcPeerIPs, events);
    ProcOkHere(w, agent);
    HistoryHere(w);
    assert EntryOk(w, agent, rule, w.procs[agent].rules[rule]);
    assert GrantOk(w, TicketOf(rule));
  }

  /** The grant of a ticket, with its expiry, never changes once made: no reapply, restart or crash moves it. */
  lemma GrantIsFixed(now: int, srcPeerIPs: seq<string>, events: seq<Event>, k: nat, id: nat)
    requires k <= |events| && id in Reached(now, srcPeerIPs, events[..k]).past.grants
    ensures var w, w' := Reached(now, srcPeerIPs, events[..k]), Reached(now, srcPeerIPs, events);
      id in w'.past.grants && w'.past.grants[id] == w.past.grants[id]
  {
    RunExtends(now, srcPeerIPs, events, k);
    hide Evolves, Reached;
  }

  // ---- commands and acks ----

  /** No one-place ack channel is full when the receive loop writes to it. */
  lemma NoAckBlocks(now: int, srcPeerIPs: seq<string>, events: seq<Event>, link: nat)
    requires var w := Reached(now, srcPeerIPs, events);
      link < |w.links| && w.links[link].replies != [] && w.links[link].replies[0].id in w.links[link].slots
    ensures var l := Reached(now, srcPeerIPs, events).links[link]; l.slots[l.replies[0].id].None?
  {
    hide Inv, LinkInv;
    RunKeeps(now, srcPeerIPs, events);
    LinkOkHere(Reached(now, srcPeerIPs, events), link);
    RouteFindsRoom(Reached(now, srcPeerIPs, events).links[link]);
  }

  /** No command id was enqueued twice, on one stream or on two. */
  ghost predicate IdsUnique(w: World) {
    forall i, j, p, q {:trigger w.links[i].sent[p], w.links[j].sent[q]} ::
      (0 <= i < |w.links| && 0 <= j < |w.links| && 0 <= p < |w.links[i].sent| && 0 <= q < |w.links[j].sent|
       && w.links[i].sent[p].id == w.links[j].sent[q].id) ==> i == j && p == q
  }

  lemma StepUnique(w: World, e: Event)
    requires Inv(w) && IdsUnique(w)
    ensures IdsUnique(Step(w, e))
  {
    hide Inv, IdsUnique, After, Pushes, Listed;
    var w' := Step(w, e);
    if e.Advance? && e.call in w.calls && w.calls[e.call].Enqueuing? {
      CallHere(w, e.call);
      hide OnLink, Holds;
      EnqueueUnique(w, e.call, e.good);
    } else {
      SameCommands(w, e);
      SentUnique(w, w');
    }
  }

  lemma SameCommands(w: World, e: Event)
    requires !(e.Advance? && e.call in w.calls && w.calls[e.call].Enqueuing?)
    ensures |w.links| <= |Step(w, e).links|
    ensures forall i :: 0 <= i < |Step(w, e).links| ==>
      Step(w, e).links[i].sent == if i < |w.links| then w.links[i].sent else []
  {
    hide After, Pushes, Listed, BuildTargets, Obey, AdvanceCall;
    if e.Advance? && e.call in w.calls {
      SameCommandsCalled(w, e.call, e.good);
    }
  }

  lemma SameCommandsCalled(w: World, c: nat, good: bool)
    requires c in w.calls && !w.calls[c].Enqueuing?
    ensures |w.links| == |AdvanceCall(w, c, good).links|
    ensures forall i :: 0 <= i < |w.links| ==> AdvanceCall(w, c, good).links[i].sent == w.links[i].sent
  {
    hide After, Pushes, Listed, BuildTargets, Exec, AdvanceGateway;
    if w.calls[c].Connecting? || w.calls[c].Sending? || w.calls[c].Awaiting? {
      SameCommandsSent(w, c, good);
    } else {
      assert AdvanceCall(w, c, good).links == w.links;
    }
  }

  lemma SameCommandsSent(w: World, c: nat, good: bool)
    requires c in w.calls && (w.calls[c].Connecting? || w.calls[c].Sending? || w.calls[c].Awaiting?)
    ensures |w.links| == |AdvanceGateway(w, c, good).links|
    ensures forall i :: 0 <= i < |w.links| ==> AdvanceGateway(w, c, good).links[i].sent == w.links[i].sent
  {
  }

  lemma SentUnique(w: World, w': World)
    requires IdsUnique(w) && |w.links| <= |w'.links|
    requires forall i :: 0 <= i < |w'.links| ==> w'.links[i].sent == if i < |w.links| then w.links[i].sent else []
    ensures IdsUnique(w')
  {
  }

  lemma EnqueueUnique(w: World, c: nat, good: bool)
    requires IdsUnique(w) && c in w.calls && w.calls[c].Enqueuing?
    requires forall i, j :: 0 <= i < |w.links| && 0 <= j < |w.links[i].sent| ==> w.links[i].sent[j].id != w.calls[c].id
    ensures IdsUnique(AdvanceGateway(w, c, good))
  {
  }

  lemma {:induction false} RunUnique(now: int, srcPeerIPs: seq<string>, events: seq<Event>)
    ensures IdsUnique(Reached(now, srcPeerIPs, events))
  {
    hide Inv, Step;
    if events != [] {
      RunUnique(now, srcPeerIPs, events[..|events| - 1]);
      RunKeeps(now, srcPeerIPs, events[..|events| - 1]);
      StepUnique(Reached(now, srcPeerIPs, events[..|events| - 1]), events[|events| - 1]);
    }
  }

  /**
   * When a caller finds an ack in its channel: its own command, and that one alone on any
   * stream, has that id; the agent obeyed it exactly once, with the answer now acked, after
   * obeying every command enqueued before it on the stream; and if it is a revoke, the rule
   * was not enforced when the ack was sent.
   */
  lemma SuccessMeansObeyed(now: int, srcPeerIPs: seq<string>, events: seq<Event>, c: nat) returns (at: nat)
    requires
      var w := Reached(now, srcPeerIPs, events);
      && c in w.calls && w.calls[c].Awaiting? && w.calls[c].link < |w.links|
      && w.calls[c].id in w.links[w.calls[c].link].slots && w.links[w.calls[c].link].slots[w.calls[c].id].Some?
    ensures
      var w := Reached(now, srcPeerIPs, events);
      var call := w.calls[c];
      var l := w.links[call.link];
      var ack := l.slots[call.id].value;
      && call.todo != [] && ack.id == call.id
      && at < |l.done| <= |l.sent| && l.sent[at] == Message(call.id, call.todo[0])
      && (forall i, j :: 0 <= i < |w.links| && 0 <= j < |w.links[i].sent| && w.links[i].sent[j].id == call.id ==> i == call.link && j == at)
      && l.done[at] == Done(call.id, ack.answer)
      && (forall i :: 0 <= i < |l.done| && l.done[i].id == call.id ==> i == at)
      && (forall i :: 0 <= i <= at ==> l.done[i].id == l.sent[i].id)
      && (call.todo[0].Revoke? ==> call.todo[0].rule !in ack.live)
  {
    hide Inv, LinkInv, OnLink, Holds;
    var w := Reached(now, srcPeerIPs, events);
    RunKeeps(now, srcPeerIPs, events);
    RunUnique(now, srcPeerIPs, events);
    CallHere(w, c);
    var call := w.calls[c];
    LinkOkHere(w, call.link);
    at := AckMeansObeyedOnce(w.links[call.link], call.id);
    var j :| 0 <= j < |w.links[call.link].sent| && w.links[call.link].sent[j] == Message(call.id, call.todo[0]);
    assert j == at;
  }

  // ---- the state machine of a ticket ----

  /**
   * In every reachable state, with any transaction failing at any point, the stored status
   * is the legal replay of the ticket's audit entries, of which there are at most five.
   */
  lemma StatusIsReplay(now: int, srcPeerIPs: seq<string>, events: seq<Event>, id: nat)
    ensures
      var db := Reached(now, srcPeerIPs, events).db;
      && Replay(db.audit, id) == StatusOf(db, id) != Illegal
      && Entries(db.audit, id) <= 5
  {
    hide Inv, Audited, TablesInv;
    RunKeeps(now, srcPeerIPs, events);
    TablesHere(Reached(now, srcPeerIPs, events));
    AuditedHere(Reached(now, srcPeerIPs, events).db, id);
    AtMostFiveEntries(Reached(now, srcPeerIPs, events).db.audit, id);
  }

  lemma AuditedHere(db: Db, id: nat)
    requires Audited(db)
    ensures Replay(db.audit, id) == StatusOf(db, id) != Illegal
  {
  }

  /** Between two points of a run a ticket keeps its status or moves to one of higher rank. */
  lemma StatusRises(now: int, srcPeerIPs: seq<string>, events: seq<Event>, k: nat, id: nat)
    requires k <= |events| && id in Reached(now, srcPeerIPs, events[..k]).db.tickets
    ensures
      var db, db' := Reached(now, srcPeerIPs, events[..k]).db, Reached(now, srcPeerIPs, events).db;
      id in db'.tickets && (db'.tickets[id].status == db.tickets[id].status
                            || Rank(At(db.tickets[id].status)) < Rank(At(db'.tickets[id].status)))
  {
    RunExtends(now, srcPeerIPs, events, k);
    hide Reached;
    assert RowEvolves(Reached(now, srcPeerIPs, events[..k]).db, Reached(now, srcPeerIPs, events).db, id);
  }

  /**
   * A ticket that a sweep listed as active is never active again after the sweep's revoke
   * of it, whatever ran in between and whatever follows, unless the transaction itself failed.
   */
  lemma SweptIsNotActive(now: int, srcPeerIPs: seq<string>, before: seq<Event>, meanwhile: seq<Event>, after: seq<Event>, id: nat)
    requires var db := Reached(now, srcPeerIPs, before).db; id in db.tickets && db.tickets[id].status == Active
    ensures
      var db := Reached(now, srcPeerIPs, before + meanwhile + [StartRevoke(id, true)] + after).db;
      id in db.tickets && db.tickets[id].status != Active
  {
    var listed := before + meanwhile;
    var swept := listed + [StartRevoke(id, true)];
    assert listed[..|before|] == before && swept[..|listed|] == listed && (swept + after)[..|swept|] == swept;
    StatusRises(now, srcPeerIPs, listed, |before|, id);
    StatusRises(now, srcPeerIPs, swept, |listed|, id);
    StatusRises(now, srcPeerIPs, swept + after, |swept|, id);
    assert Reached(now, srcPeerIPs, swept) == Step(Reached(now, srcPeerIPs, listed), StartRevoke(id, true));
  }

  // ---- closing ----

  /** While a ticket is active or being revoked its binding is there and names its rule and its agent. */
  lemma BindingIsThere(now: int, srcPeerIPs: seq<string>, events: seq<Event>, id: nat)
    requires var db := Reached(now, srcPeerIPs, events).db; id in db.tickets && Enforced(db.tickets[id].status)
    ensures
      var w := Reached(now, srcPeerIPs, events);
      && id in w.db.bindings && w.db.bindings[id].ruleId == RuleId(id)
      && id in w.past.grants && w.db.bindings[id].agent == w.past.grants[id].agent
  {
    hide Inv, TablesInv, RuleId;
    var w := Reached(now, srcPeerIPs, events);
    RunKeeps(now, srcPeerIPs, events);
    TablesHere(w);
    BoundIsEnforced(w.db, id);
    BindingHere(w, id);
  }

  /**
   * Exactly when a closed ticket was really revoked. If its revoke could read the binding
   * row, it was closed on an OK ack for a revoke of its rule, enqueued after it entered
   * revoking and obeyed without error by the bound agent. If the read failed, no revoke of
   * its rule was ever enqueued on any stream.
   */
  lemma ClosedWasRevoked(now: int, srcPeerIPs: seq<string>, events: seq<Event>, id: nat)
    requires var db := Reached(now, srcPeerIPs, events).db; id in db.tickets && db.tickets[id].status == Closed
    ensures
      var w := Reached(now, srcPeerIPs, events);
      && id in w.past.looked && id in w.past.closing && id in w.past.began && id in w.db.bindings
      && (w.past.looked[id] <==> w.past.closing[id].Some?)
      && (w.past.looked[id] ==>
            var r := w.past.closing[id].value;
            && w.past.began[id] <= r.id && r.link < |w.links| && w.links[r.link].agent == w.db.bindings[id].agent
            && exists i :: RevokedAt(w.links[r.link], id, r.id, i))
      && (!w.past.looked[id] ==> NeverRevoked(w, id))
  {
    hide Inv, TablesInv, RuleId, LinkInv, LinkOk, TicketOf;
    var w := Reached(now, srcPeerIPs, events);
    RunKeeps(now, srcPeerIPs, events);
    BindingIsThere(now, srcPeerIPs, events, id);
    HistoryHere(w);
    RowHere(w, id);
    hide HistoryInv, RevokedAt, Reached;
    if !w.past.looked[id] {
      forall i, j | 0 <= i < |w.links| && 0 <= j < |w.links[i].sent| ensures w.links[i].sent[j].cmd != Revoke(RuleId(id)) {
        LinkOkHere(w, i);
        NotSent(w, w.links[i], j, id);
      }
    }
  }

  ghost predicate NeverRevoked(w: World, id: nat) {
    forall i, j :: 0 <= i < |w.links| && 0 <= j < |w.links[i].sent| ==> w.links[i].sent[j].cmd != Revoke(RuleId(id))
  }

  /** A revoke is only ever enqueued for a ticket whose binding was found. */
  lemma NotSent(w: World, l: Link, j: nat, id: nat)
    requires LinkOk(w, l) && j < |l.sent| && !(id in w.past.looked && w.past.looked[id])
    ensures l.sent[j].cmd != Revoke(RuleId(id))
  {
    hide LinkInv, RuleId, TicketOf;
    assert MessageOk(w, l.agent, l.sent[j]);
    TicketOfRuleId(id);
  }

  // ---- one agent per ticket ----

  /** At most one Apply ever starts for a ticket. */
  lemma OneApplyPerTicket(now: int, srcPeerIPs: seq<string>, events: seq<Event>)
    ensures var starts := Reached(now, srcPeerIPs, events).past.starts;
      forall i, j :: 0 <= i < j < |starts| ==> starts[i] != starts[j]
  {
    hide Inv;
    RunKeeps(now, srcPeerIPs, events);
    HistoryHere(Reached(now, srcPeerIPs, events));
    hide HistoryInv;
    BookkeepingHere(Reached(now, srcPeerIPs, events));
  }

  /**
   * Every command for a ticket's rule, first or rebuilt, on any stream, went to the one agent
   * of its grant, which when it was chosen was the approved primary of the ticket's project.
   */
  lemma OneAgentPerTicket(now: int, srcPeerIPs: seq<string>, events: seq<Event>, link: nat, j: nat)
    requires var w := Reached(now, srcPeerIPs, events); link < |w.links| && j < |w.links[link].sent|
    ensures
      var w := Reached(now, srcPeerIPs, events);
      var l := w.links[link];
      var id := TicketOf(l.sent[j].cmd.rule);
      && l.sent[j].cmd.rule == RuleId(id) && id in w.past.grants && id in w.db.tickets && id in w.past.starts
      && l.agent == w.past.grants[id].agent
      && id in w.past.chosen && w.past.chosen[id] == Choice(w.db.tickets[id].project, Primary(l.agent, true))
  {
    hide Inv, RuleId, TicketOf, TargetsOf, Aimed, LinkInv, RowOk;
    var w := Reached(now, srcPeerIPs, events);
    RunKeeps(now, srcPeerIPs, events);
    LinkOkHere(w, link);
    HistoryHere(w);
    var l := w.links[link];
    assert MessageOk(w, l.agent, l.sent[j]);
    var id := TicketOf(l.sent[j].cmd.rule);
    assert GrantOk(w, id);
    BookkeepingHere(w);
  }
}
