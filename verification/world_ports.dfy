/** A ticket that was ever activated has only ports an agent accepts: every one of its commands was acked. */
module WorldPorts {
  import opened Wrappers
  import opened RuleIds
  import opened Store
  import opened Forwarding
  import opened Links
  import opened Worlds
  import opened WorldFrames
  import opened WorldSteps
  import opened WorldCalls
  import opened WorldTheorems

  predicate Usable(port: int) {
    port % 0x1_0000_0000 != 0
  }

  /** One of the commands asks for this port. */
  predicate Asks(todo: seq<Command>, port: int) {
    exists i :: 0 <= i < |todo| && todo[i].Apply? && todo[i].target.port == port % 0x1_0000_0000
  }

  /** Every port is usable or still to be asked for. */
  predicate Covered(ports: seq<int>, todo: seq<Command>) {
    forall i :: 0 <= i < |ports| ==> Usable(ports[i]) || Asks(todo, ports[i])
  }

  predicate CallPorts(db: Db, call: Call) {
    match call
    case Connecting(ToApply(t, _, _), _, todo) => t in db.tickets && Covered(db.tickets[t].ports, todo)
    case Sending(ToApply(t, _, _), _, todo, _) => t in db.tickets && Covered(db.tickets[t].ports, todo)
    case Enqueuing(ToApply(t, _, _), _, todo, _) => t in db.tickets && Covered(db.tickets[t].ports, todo)
    case Awaiting(ToApply(t, _, _), _, todo, _) => t in db.tickets && Covered(db.tickets[t].ports, todo)
    case Succeeded(ToApply(t, _, _), _) => t in db.tickets && Covered(db.tickets[t].ports, [])
    case _ => true
  }

  /** No Apply was obeyed without error for port 0. */
  predicate AckedUsable(l: Link) {
    forall i :: 0 <= i < |l.done| && i < |l.sent| && l.done[i].answer.Some? && l.sent[i].cmd.Apply? ==> l.sent[i].cmd.target.port != 0
  }

  predicate RowPorts(db: Db, t: nat)
    requires t in db.tickets
  {
    Enforced(db.tickets[t].status) ==> Covered(db.tickets[t].ports, [])
  }

  ghost predicate PortsInv(w: World) {
    && (forall c :: c in w.calls ==> CallPorts(w.db, w.calls[c]))
    && (forall i :: 0 <= i < |w.links| ==> AckedUsable(w.links[i]))
    && (forall t :: t in w.db.tickets ==> RowPorts(w.db, t))
  }

  // ---- what a step leaves alone ----

  lemma CallPortsKept(db: Db, db': Db, call: Call)
    requires Evolves(db, db') && CallPorts(db, call)
    ensures CallPorts(db', call)
  {
    hide Covered;
    if (call.Connecting? || call.Sending? || call.Enqueuing? || call.Awaiting? || call.Succeeded?) && call.goal.ToApply? {
      assert RowEvolves(db, db', call.goal.ticket);
    }
  }

  /** A stream on which no command was obeyed. */
  lemma LinkPortsKept(l: Link, l': Link)
    requires AckedUsable(l) && LinkInv(l) && l'.done == l.done && l.sent <= l'.sent
    ensures AckedUsable(l')
  {
    hide Distinct, Answers;
  }

  lemma RowPortsKept(w: World, txn: Txn, commits: bool, t: nat)
    requires TablesInv(w.db) && Audited(w.db) && (forall k :: k in w.db.tickets ==> RowPorts(w.db, k))
    requires t in After(w.db, txn, commits).tickets
    requires txn.Activate? && txn.id in w.db.tickets ==> Covered(w.db.tickets[txn.id].ports, [])
    ensures RowPorts(After(w.db, txn, commits), t)
  {
    TxnKeeps(w.db, txn, commits);
    hide Covered, Listed, TablesInv, Audited;
    if t in w.db.tickets {
      assert RowEvolves(w.db, After(w.db, txn, commits), t);
      hide RowEvolves, Evolves;
      NewlyEnforced(w.db, txn, commits, t);
    } else {
      NewRow(w.db, txn, commits, t);
    }
  }

  lemma NewlyEnforced(db: Db, txn: Txn, commits: bool, t: nat)
    requires t in db.tickets && t in After(db, txn, commits).tickets && db.next !in db.tickets
    ensures Enforced(After(db, txn, commits).tickets[t].status) ==>
      Enforced(db.tickets[t].status) || (txn.Activate? && txn.id == t)
  {
    hide Listed;
  }

  lemma NewRow(db: Db, txn: Txn, commits: bool, t: nat)
    requires t !in db.tickets && t in After(db, txn, commits).tickets
    ensures !Enforced(After(db, txn, commits).tickets[t].status)
  {
    hide Listed;
  }

  // ---- the call that moves ----

  /** The pushes of an Apply ask for every port. */
  lemma PushesCover(w: World, t: nat, row: Ticket, todo: seq<Command>, expires: int)
    requires Inv(w) && Snapshot(w, t, row)
    requires todo == Pushes(w, RuleId(t), BuildTargets(Listed(w.db.assets, row.frozen), row.ports), Some(expires))
    ensures t in w.db.tickets && Covered(w.db.tickets[t].ports, todo)
  {
    hide Inv, TablesInv, Audited, RuleId, Listed, BuildTargets, TargetsOf;
    TablesHere(w);
    FirstTargetIsOwn(w.db, t);
    var listed := Listed(w.db.assets, row.frozen);
    var targets := BuildTargets(listed, row.ports);
    SomeListed(w.db, w.db.tickets[t]);
    forall i | 0 <= i < |row.ports| ensures Asks(todo, row.ports[i]) {
      var x := Target(listed[0].ip, row.ports[i]);
      TargetsExactly(listed, row.ports, x);
      var j :| 0 <= j < |targets| && targets[j] == x;
      assert todo[j].Apply? && todo[j].target == OnWire(x);
    }
  }

  lemma SomeListed(db: Db, row: Ticket)
    requires TargetsOf(db, row) != []
    ensures Listed(db.assets, row.frozen) != []
  {
    hide Listed;
  }

  /** The first command was acked, so its port was usable. */
  lemma OneLessCovered(ports: seq<int>, todo: seq<Command>)
    requires todo != [] && Covered(ports, todo) && (todo[0].Apply? ==> todo[0].target.port != 0)
    ensures Covered(ports, todo[1..])
  {
    forall i | 0 <= i < |ports| ensures Usable(ports[i]) || Asks(todo[1..], ports[i]) {
      if !Usable(ports[i]) {
        var j :| 0 <= j < |todo| && todo[j].Apply? && todo[j].target.port == ports[i] % 0x1_0000_0000;
        assert todo[1..][j - 1] == todo[j];
      }
    }
  }

  lemma AckedPort(w: World, c: nat)
    requires Inv(w) && PortsInv(w) && c in w.calls && w.calls[c].Awaiting? && w.calls[c].link < |w.links|
    requires
      var slots := w.links[w.calls[c].link].slots;
      w.calls[c].id in slots && slots[w.calls[c].id].Some? && slots[w.calls[c].id].value.answer.Some?
    ensures var todo := w.calls[c].todo; todo != [] && (todo[0].Apply? ==> todo[0].target.port != 0)
  {
    hide Inv, LinkInv, OnLink, Holds, CallPorts, RowPorts;
    CallHere(w, c);
    var Awaiting(goal, link, todo, id) := w.calls[c];
    LinkOkHere(w, link);
    var at := AckMeansObeyedOnce(w.links[link], id);
    assert AckedUsable(w.links[link]);
  }

  lemma MovedCallPorts(w: World, c: nat, good: bool)
    requires Inv(w) && PortsInv(w) && c in w.calls
    ensures var w' := AdvanceCall(w, c, good); c in w'.calls && w'.db == w.db ==> CallPorts(w'.db, w'.calls[c])
  {
    hide Inv, CallPorts, AdvanceApply, AdvanceRevoke, AdvanceGateway, AdvanceEnd, AckedUsable, RowPorts;
    assert CallPorts(w.db, w.calls[c]);
    match w.calls[c] {
      case ApplyAgent(_, _, _) => GrantCovers(w, c, good);
      case Awaiting(_, _, _, _) => AckedCallPorts(w, c, good);
      case _ => OtherCallPorts(w, c, good);
    }
  }

  lemma OtherCallPorts(w: World, c: nat, good: bool)
    requires c in w.calls && CallPorts(w.db, w.calls[c]) && !w.calls[c].ApplyAgent? && !w.calls[c].Awaiting?
    ensures var w' := AdvanceCall(w, c, good); c in w'.calls && w'.db == w.db ==> CallPorts(w'.db, w'.calls[c])
  {
    hide CallPorts, AdvanceApply, AdvanceRevoke, AdvanceGateway, AdvanceEnd;
    if w.calls[c].Connecting? || w.calls[c].Sending? || w.calls[c].Enqueuing? {
      SendingCallPorts(w, c, good);
    } else if w.calls[c].Succeeded? || w.calls[c].Failed? {
      GoneCallPorts(w, c, good);
    } else {
      ReadingCallPorts(w, c, good);
    }
  }

  lemma SendingCallPorts(w: World, c: nat, good: bool)
    requires c in w.calls && CallPorts(w.db, w.calls[c]) && (w.calls[c].Connecting? || w.calls[c].Sending? || w.calls[c].Enqueuing?)
    ensures CallPorts(w.db, AdvanceGateway(w, c, good).calls[c])
  {
    hide Covered;
  }

  lemma GoneCallPorts(w: World, c: nat, good: bool)
    requires c in w.calls && (w.calls[c].Succeeded? || w.calls[c].Failed?)
    ensures c !in AdvanceEnd(w, c, good).calls
  {
    hide After;
  }

  lemma ReadingCallPorts(w: World, c: nat, good: bool)
    requires c in w.calls
    requires var call := w.calls[c]; call.ApplyAt? || call.ApplyRow? || call.ReapplyAt? || call.ReapplyBound? || call.RevokeAt?
    ensures var w' := AdvanceCall(w, c, good); c in w'.calls ==> CallPorts(w'.db, w'.calls[c])
  {
    hide Covered, BuildTargets, Listed, RuleId, Pushes;
  }

  /** The call goes on with the next command, ends, or still waits. */
  lemma AckedMoves(w: World, c: nat, good: bool)
    requires c in w.calls && w.calls[c].Awaiting?
    ensures
      var w' := AdvanceGateway(w, c, good);
      var Awaiting(goal, link, todo, id) := w.calls[c];
      && c in w'.calls
      && (w'.calls[c] == w.calls[c] || w'.calls[c] == Failed(goal)
          || (link < |w.links| && id in w.links[link].slots && w.links[link].slots[id].Some?
              && w.links[link].slots[id].value.answer.Some? && todo != [] && w'.calls[c] == Sending(goal, link, todo[1..], Some(id))))
  {
  }

  lemma NextPorts(db: Db, goal: Goal, link: nat, todo: seq<Command>, id: nat)
    requires todo != [] && CallPorts(db, Awaiting(goal, link, todo, id)) && (todo[0].Apply? ==> todo[0].target.port != 0)
    ensures CallPorts(db, Sending(goal, link, todo[1..], Some(id)))
  {
    hide Covered;
    if goal.ToApply? {
      OneLessCovered(db.tickets[goal.ticket].ports, todo);
    }
  }

  lemma AckedCallPorts(w: World, c: nat, good: bool)
    requires Inv(w) && PortsInv(w) && c in w.calls && w.calls[c].Awaiting? && CallPorts(w.db, w.calls[c])
    ensures var w' := AdvanceGateway(w, c, good); c in w'.calls && CallPorts(w.db, w'.calls[c])
  {
    hide Inv, PortsInv, CallPorts, AdvanceGateway;
    var Awaiting(goal, link, todo, id) := w.calls[c];
    AckedMoves(w, c, good);
    if AdvanceGateway(w, c, good).calls[c].Sending? {
      AckedPort(w, c);
      NextPorts(w.db, goal, link, todo, id);
    }
    FailedPorts(w.db, goal);
  }

  lemma FailedPorts(db: Db, goal: Goal)
    ensures CallPorts(db, Failed(goal))
  {
  }

  lemma GrantCovers(w: World, c: nat, good: bool)
    requires Inv(w) && c in w.calls && w.calls[c].ApplyAgent?
    ensures var w' := AdvanceApply(w, c, good); c in w'.calls ==> CallPorts(w'.db, w'.calls[c])
  {
    hide Inv, Covered, BuildTargets, Listed, RuleId, Pushes, Snapshot;
    CallHere(w, c);
    var ApplyAgent(t, row, agent) := w.calls[c];
    var todo := Pushes(w, RuleId(t), BuildTargets(Listed(w.db.assets, row.frozen), row.ports), Some(w.now + row.duration));
    PushesCover(w, t, row, todo, w.now + row.duration);
  }

  // ---- every step ----

  /** What a step does to calls other than the one that moves, and to streams. */
  lemma AdvanceFrame(w: World, c: nat, good: bool)
    requires c in w.calls
    ensures
      var w' := AdvanceCall(w, c, good);
      && (forall k :: k in w'.calls && k != c ==> k in w.calls && w'.calls[k] == w.calls[k])
      && |w'.links| == |w.links|
      && forall i :: 0 <= i < |w.links| ==> w'.links[i].done == w.links[i].done && w.links[i].sent <= w'.links[i].sent
  {
    hide After, Pushes, BuildTargets, Listed, AdvanceGateway;
    if w.calls[c].Connecting? || w.calls[c].Sending? || w.calls[c].Enqueuing? || w.calls[c].Awaiting? {
      GatewayFrame(w, c, good);
    } else {
      assert AdvanceCall(w, c, good).links == w.links;
    }
  }

  lemma GatewayFrame(w: World, c: nat, good: bool)
    requires c in w.calls
    ensures
      var w' := AdvanceGateway(w, c, good);
      && (forall k :: k in w'.calls && k != c ==> k in w.calls && w'.calls[k] == w.calls[k])
      && |w'.links| == |w.links|
      && forall i :: 0 <= i < |w.links| ==> w'.links[i].done == w.links[i].done && w.links[i].sent <= w'.links[i].sent
  {
    GatewayCalls(w, c, good);
    GatewayLinks(w, c, good);
    hide AdvanceGateway;
  }

  lemma GatewayCalls(w: World, c: nat, good: bool)
    requires c in w.calls
    ensures
      var w' := AdvanceGateway(w, c, good);
      forall k :: k in w'.calls && k != c ==> k in w.calls && w'.calls[k] == w.calls[k]
  {
    hide Register, Enqueue, Clear;
  }

  /** No command was obeyed on any stream, and none enqueued is lost. */
  predicate NoneObeyed(w: World, w': World) {
    && |w'.links| == |w.links|
    && forall i :: 0 <= i < |w.links| ==> w'.links[i].done == w.links[i].done && w.links[i].sent <= w'.links[i].sent
  }

  lemma GatewayLinks(w: World, c: nat, good: bool)
    requires c in w.calls
    ensures NoneObeyed(w, AdvanceGateway(w, c, good))
  {
    hide NoneObeyed;
    match w.calls[c] {
      case Awaiting(_, _, _, _) => AwaitingLinks(w, c, good);
      case Enqueuing(_, _, _, _) => EnqueuingLinks(w, c, good);
      case _ => OtherLinks(w, c, good);
    }
  }

  lemma AwaitingLinks(w: World, c: nat, good: bool)
    requires c in w.calls && w.calls[c].Awaiting?
    ensures NoneObeyed(w, AdvanceGateway(w, c, good))
  {
  }

  lemma EnqueuingLinks(w: World, c: nat, good: bool)
    requires c in w.calls && w.calls[c].Enqueuing?
    ensures NoneObeyed(w, AdvanceGateway(w, c, good))
  {
  }

  lemma OtherLinks(w: World, c: nat, good: bool)
    requires c in w.calls && !w.calls[c].Awaiting? && !w.calls[c].Enqueuing?
    ensures NoneObeyed(w, AdvanceGateway(w, c, good))
  {
  }

  /** A transaction ran: rows and calls keep their ports. */
  lemma TablePorts(w: World, w': World, txn: Txn, commits: bool)
    requires Inv(w) && PortsInv(w) && w'.db == After(w.db, txn, commits) && w'.links == w.links
    requires txn.Activate? && txn.id in w.db.tickets ==> Covered(w.db.tickets[txn.id].ports, [])
    requires forall k :: k in w'.calls ==> (k in w.calls && w'.calls[k] == w.calls[k]) || w'.calls[k].ApplyAt? || w'.calls[k].RevokeAt?
    ensures PortsInv(w')
  {
    hide Inv, AckedUsable, RowPorts, CallPorts, Evolves, Covered, After;
    TablesHere(w);
    TxnKeeps(w.db, txn, commits);
    hide TablesInv, Audited;
    forall t | t in w'.db.tickets ensures RowPorts(w'.db, t) {
      RowPortsKept(w, txn, commits, t);
    }
    forall k | k in w'.calls ensures CallPorts(w'.db, w'.calls[k]) {
      if k in w.calls && w'.calls[k] == w.calls[k] {
        CallPortsKept(w.db, w'.db, w.calls[k]);
      } else {
        FreshCallPorts(w'.db, w'.calls[k]);
      }
    }
  }

  lemma FreshCallPorts(db: Db, call: Call)
    requires call.ApplyAt? || call.RevokeAt? || call.ReapplyAt?
    ensures CallPorts(db, call)
  {
  }

  lemma AdvancePorts(w: World, c: nat, good: bool)
    requires Inv(w) && PortsInv(w) && c in w.calls
    ensures PortsInv(AdvanceCall(w, c, good))
  {
    hide Inv, AckedUsable, RowPorts, CallPorts, AdvanceCall, After;
    var w' := AdvanceCall(w, c, good);
    if w.calls[c].Succeeded? || w.calls[c].Failed? {
      EndPorts(w, c, good);
    } else {
      SameTables(w, c, good);
      AdvanceFrame(w, c, good);
      forall k | k in w'.calls ensures CallPorts(w'.db, w'.calls[k]) {
        if k == c {
          MovedCallPorts(w, c, good);
        }
      }
      forall i | 0 <= i < |w'.links| ensures AckedUsable(w'.links[i]) {
        LinkOkHere(w, i);
        LinkPortsKept(w.links[i], w'.links[i]);
      }
    }
  }

  lemma SameTables(w: World, c: nat, good: bool)
    requires c in w.calls && !w.calls[c].Succeeded? && !w.calls[c].Failed?
    ensures AdvanceCall(w, c, good).db == w.db
  {
    hide Pushes, BuildTargets, Listed;
  }

  lemma EndPorts(w: World, c: nat, good: bool)
    requires Inv(w) && PortsInv(w) && c in w.calls && (w.calls[c].Succeeded? || w.calls[c].Failed?)
    ensures PortsInv(AdvanceCall(w, c, good))
  {
    hide Inv, AckedUsable, RowPorts, Covered, After, Wrote, EndTxn, AdvanceEnd;
    var w' := AdvanceEnd(w, c, good);
    assert CallPorts(w.db, w.calls[c]);
    if w.calls[c].goal.ToReapply? {
      ReapplyEnds(w, c, good);
    } else {
      EndsWithPorts(w, c, good);
      TablePorts(w, w', EndTxn(w.calls[c]), good);
    }
  }

  lemma EndsWithPorts(w: World, c: nat, good: bool)
    requires c in w.calls && (w.calls[c].Succeeded? || w.calls[c].Failed?) && !w.calls[c].goal.ToReapply?
    requires CallPorts(w.db, w.calls[c])
    ensures
      var w', txn := AdvanceEnd(w, c, good), EndTxn(w.calls[c]);
      && w'.db == After(w.db, txn, good) && w'.links == w.links && (forall k :: k in w'.calls ==> k in w.calls && w'.calls[k] == w.calls[k])
      && (txn.Activate? && txn.id in w.db.tickets ==> Covered(w.db.tickets[txn.id].ports, []))
  {
    hide Covered, Exec;
  }

  lemma AgentPorts(w: World, e: Event)
    requires Inv(w) && PortsInv(w)
    requires !e.Database? && !e.StartApprove? && !e.StartRevoke? && !e.StartReapply? && !e.Advance?
    ensures PortsInv(Step(w, e))
  {
    hide Inv, CallPorts, RowPorts, AckedUsable, LinkInv, Obey, AdvanceCall, BeginCall, After;
    var w' := Step(w, e);
    forall i | 0 <= i < |w'.links| ensures AckedUsable(w'.links[i]) {
      if i < |w.links| {
        LinkOkHere(w, i);
        if w'.links[i].done == w.links[i].done {
          SentSame(w, e, i);
          LinkPortsKept(w.links[i], w'.links[i]);
        } else {
          ReceivedPorts(w, e, i);
        }
      } else {
        NewLinkPorts(w, e, i);
      }
    }
  }

  lemma SentSame(w: World, e: Event, i: nat)
    requires i < |w.links| && i < |Step(w, e).links|
    requires !e.Database? && !e.StartApprove? && !e.StartRevoke? && !e.StartReapply? && !e.Advance?
    ensures Step(w, e).links[i].sent == w.links[i].sent
  {
    hide Obey, AdvanceCall, BeginCall, After;
  }

  lemma NewLinkPorts(w: World, e: Event, i: nat)
    requires |w.links| <= i < |Step(w, e).links|
    requires !e.Database? && !e.StartApprove? && !e.StartRevoke? && !e.StartReapply? && !e.Advance?
    ensures AckedUsable(Step(w, e).links[i])
  {
    hide Obey, AdvanceCall, BeginCall, After;
  }

  lemma ReceivedPorts(w: World, e: Event, i: nat)
    requires Inv(w) && i < |w.links| && AckedUsable(w.links[i]) && i < |Step(w, e).links|
    requires !e.Database? && !e.StartApprove? && !e.StartRevoke? && !e.StartReapply? && !e.Advance?
    requires Step(w, e).links[i].done != w.links[i].done
    ensures AckedUsable(Step(w, e).links[i])
  {
    hide Inv, Obey, Step, LinkInv;
    var l := w.links[i];
    var p, answer := OnlyReceived(w, e, i);
    LinkOkHere(w, i);
    NextObeyed(l);
    RefusesPortZero(p.rules, l.queue[0].cmd, w.now, e.works, e.port);
  }

  lemma OnlyReceived(w: World, e: Event, i: nat) returns (p: Proc, answer: Option<string>)
    requires i < |w.links| && i < |Step(w, e).links|
    requires !e.Database? && !e.StartApprove? && !e.StartRevoke? && !e.StartReapply? && !e.Advance?
    requires Step(w, e).links[i].done != w.links[i].done
    ensures e.Receive? && w.links[i].queue != [] && Step(w, e).links[i] == Links.Obeyed(w.links[i], answer)
    ensures answer == Obey(p.rules, w.links[i].queue[0].cmd, w.now, e.works, e.port).1
  {
    hide Obey, AdvanceCall, BeginCall, After;
    assert e.Receive?;
    p := ProcOf(w, e.agent);
    answer := Obey(p.rules, w.links[i].queue[0].cmd, w.now, e.works, e.port).1;
  }

  lemma NextObeyed(l: Link)
    requires LinkInv(l) && l.queue != []
    ensures |l.done| < |l.sent| && l.queue[0] == l.sent[|l.done|]
  {
    hide Distinct, Answers;
  }

  lemma RefusesPortZero(rules: Rules, cmd: Command, now: int, works: bool, port: string)
    ensures Obey(rules, cmd, now, works, port).1.Some? && cmd.Apply? ==> cmd.target.port != 0
  {
  }

  lemma StepPorts(w: World, e: Event)
    requires Inv(w) && PortsInv(w)
    ensures PortsInv(Step(w, e))
  {
    hide Inv, PortsInv, AdvanceCall, BeginCall, AgentStep, After, Exec;
    match e {
      case Database(txn, commits) => if StandsAlone(txn) { TablePorts(w, Step(w, e), txn, commits); }
      case StartApprove(t, approver, commits) => BeginPorts(w, e);
      case StartRevoke(t, commits) => BeginPorts(w, e);
      case StartReapply(t) => BeginPorts(w, e);
      case Advance(c, good) => if c in w.calls { AdvancePorts(w, c, good); }
      case _ => AgentPorts(w, e);
    }
  }

  lemma BeginPorts(w: World, e: Event)
    requires Inv(w) && PortsInv(w) && (e.StartApprove? || e.StartRevoke? || e.StartReapply?)
    ensures PortsInv(BeginCall(w, e))
  {
    hide Inv, AckedUsable, RowPorts, CallPorts, Exec, After;
    match e {
      case StartApprove(t, approver, commits) => TablePorts(w, BeginCall(w, e), Approve(t, approver), commits);
      case StartRevoke(t, commits) => TablePorts(w, BeginCall(w, e), BeginRevoke(t), commits);
      case StartReapply(t) =>
        if t in w.db.tickets {
          FreshCallPorts(w.db, ReapplyAt(t, w.db.tickets[t]));
        }
    }
  }

  lemma {:induction false} RunPorts(now: int, srcPeerIPs: seq<string>, events: seq<Event>)
    ensures PortsInv(Reached(now, srcPeerIPs, events))
  {
    if events != [] {
      hide Inv, Step, PortsInv;
      RunPorts(now, srcPeerIPs, events[..|events| - 1]);
      RunKeeps(now, srcPeerIPs, events[..|events| - 1]);
      StepPorts(Reached(now, srcPeerIPs, events[..|events| - 1]), events[|events| - 1]);
    }
  }

  /** In every run, a ticket that was ever activated has only ports an agent accepts: a port 0 ends in apply_failed. */
  lemma ActivatedPortsAreUsable(now: int, srcPeerIPs: seq<string>, events: seq<Event>, t: nat, port: int)
    requires var db := Reached(now, srcPeerIPs, events).db;
      t in db.tickets && Enforced(db.tickets[t].status) && port in db.tickets[t].ports
    ensures port % 0x1_0000_0000 != 0
  {
    hide Reached;
    RunPorts(now, srcPeerIPs, events);
    var db := Reached(now, srcPeerIPs, events).db;
    assert RowPorts(db, t);
    var i :| 0 <= i < |db.tickets[t].ports| && db.tickets[t].ports[i] == port;
    assert Usable(db.tickets[t].ports[i]) || Asks([], db.tickets[t].ports[i]);
  }
}
