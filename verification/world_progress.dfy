/** Which tickets can still move, in every reachable state, and how far. */
module WorldProgress {
  import opened Wrappers
  import opened RuleIds
  import opened Store
  import opened Forwarding
  import opened Links
  import opened Worlds
  import opened WorldFrames
  import opened WorldSteps
  import opened WorldCalls
  import opened WorldTheorems
  import A = WorldAgain
  import D = WorldDrive
  import F = WorldForeign
  import P = WorldPorts

  predicate OfApply(goal: Goal, t: nat) {
    goal.ToApply? && goal.ticket == t
  }

  predicate OfRevoke(goal: Goal, t: nat) {
    goal.ToRevoke? && goal.ticket == t
  }

  /** The call runs the ticket's Apply. */
  predicate Applies(call: Call, t: nat) {
    match call
    case ApplyAt(u) => u == t
    case ApplyRow(u, _) => u == t
    case ApplyAgent(u, _, _) => u == t
    case ReapplyAt(_, _) => false
    case ReapplyBound(_, _, _) => false
    case RevokeAt(_) => false
    case _ => OfApply(call.goal, t)
  }

  /** The call runs the ticket's revoke. */
  predicate Revokes(call: Call, t: nat) {
    match call
    case RevokeAt(u) => u == t
    case ApplyAt(_) => false
    case ApplyRow(_, _) => false
    case ApplyAgent(_, _, _) => false
    case ReapplyAt(_, _) => false
    case ReapplyBound(_, _, _) => false
    case _ => OfRevoke(call.goal, t)
  }

  /** A call in progress that will write the ticket's next status. */
  predicate Own(call: Call, t: nat, status: Status) {
    (status == Approved && Applies(call, t)) || (status == Revoking && Revokes(call, t))
  }

  ghost predicate Driven(w: World, t: nat)
    requires t in w.db.tickets
  {
    exists c :: c in w.calls && Own(w.calls[c], t, w.db.tickets[t].status)
  }

  /** The ticket waits for a call of its own, and there is none. */
  ghost predicate Stuck(w: World, t: nat) {
    && t in w.db.tickets && (w.db.tickets[t].status == Approved || w.db.tickets[t].status == Revoking)
    && !Driven(w, t)
  }

  ghost predicate StaysStuck(w: World, w': World, t: nat) {
    t in w.db.tickets && Stuck(w', t) && w'.db.tickets[t].status == w.db.tickets[t].status
  }

  // ---- without a call of its own it never moves again ----

  /** A transaction that does not fit the ticket's status leaves its row alone. */
  lemma OtherStatus(db: Db, txn: Txn, commits: bool, t: nat)
    requires t in db.tickets && db.next !in db.tickets
    requires db.tickets[t].status == Approved ==> !(txn.Activate? && txn.id == t) && !(txn.FailApply? && txn.id == t)
    requires db.tickets[t].status == Revoking ==> !(txn.FinishRevoke? && txn.id == t) && !(txn.DeferRevoke? && txn.id == t)
    requires db.tickets[t].status == Approved || db.tickets[t].status == Revoking
    ensures t in After(db, txn, commits).tickets && After(db, txn, commits).tickets[t] == db.tickets[t]
  {
    hide Listed;
    match txn {
      case Submit(_) =>
      case Approve(_, _) =>
      case Reject(_, _) =>
      case Activate(_, _, _) =>
      case FailApply(_) =>
      case BeginRevoke(_) =>
      case FinishRevoke(_) =>
      case DeferRevoke(_) =>
      case AddProject(_) | AddAsset(_) | AddPrimary(_, _) | Enroll(_, _) =>
    }
  }

  lemma NextIsFresh(w: World)
    requires Inv(w)
    ensures w.db.next !in w.db.tickets
  {
    hide Audited, HistoryInv, LinksInv, ProcsInv, CallsInv, TicketInv;
  }

  /** The call that moves keeps its ticket and its kind. */
  lemma AdvanceOwn(w: World, c: nat, good: bool, t: nat)
    requires c in w.calls && c in AdvanceCall(w, c, good).calls
    ensures var call' := AdvanceCall(w, c, good).calls[c];
      (Applies(call', t) ==> Applies(w.calls[c], t)) && (Revokes(call', t) ==> Revokes(w.calls[c], t))
  {
    hide AdvanceApply, AdvanceRevoke, AdvanceGateway, AdvanceEnd, Applies, Revokes;
    match w.calls[c] {
      case Succeeded(_, _) | Failed(_) => P.GoneCallPorts(w, c, good);
      case Connecting(_, _, _) | Sending(_, _, _, _) | Enqueuing(_, _, _, _) | Awaiting(_, _, _, _) => GatewayOwn(w, c, good, t);
      case _ => ReadingOwn(w, c, good, t);
    }
  }

  lemma GatewayOwn(w: World, c: nat, good: bool, t: nat)
    requires c in w.calls
    requires var call := w.calls[c]; call.Connecting? || call.Sending? || call.Enqueuing? || call.Awaiting?
    ensures c in AdvanceGateway(w, c, good).calls
    ensures var call' := AdvanceGateway(w, c, good).calls[c];
      (Applies(call', t) ==> Applies(w.calls[c], t)) && (Revokes(call', t) ==> Revokes(w.calls[c], t))
  {
    hide Applies, Revokes;
    GoalKept(w, c, good);
    GoalTells(w.calls[c], t);
    GoalTells(AdvanceGateway(w, c, good).calls[c], t);
  }

  lemma GoalKept(w: World, c: nat, good: bool)
    requires c in w.calls
    requires var call := w.calls[c]; call.Connecting? || call.Sending? || call.Enqueuing? || call.Awaiting?
    ensures var w' := AdvanceGateway(w, c, good); c in w'.calls && AtGateway(w'.calls[c]) && w'.calls[c].goal == w.calls[c].goal
  {
  }

  /** The call talks to the gateway, or is done with it. */
  predicate AtGateway(call: Call) {
    call.Connecting? || call.Sending? || call.Enqueuing? || call.Awaiting? || call.Succeeded? || call.Failed?
  }

  lemma GoalTells(call: Call, t: nat)
    requires AtGateway(call)
    ensures Applies(call, t) == OfApply(call.goal, t) && Revokes(call, t) == OfRevoke(call.goal, t)
  {
  }

  lemma ReadingOwn(w: World, c: nat, good: bool, t: nat)
    requires c in w.calls && !AtGateway(w.calls[c]) && c in AdvanceCall(w, c, good).calls
    ensures var call' := AdvanceCall(w, c, good).calls[c];
      (Applies(call', t) ==> Applies(w.calls[c], t)) && (Revokes(call', t) ==> Revokes(w.calls[c], t))
  {
    hide AdvanceGateway, AdvanceEnd, Pushes, BuildTargets, Listed, RuleId;
  }

  /** Only the end of a call writes the tables, and only for its own ticket. */
  lemma AdvanceRowKept(w: World, c: nat, good: bool, t: nat)
    requires Inv(w) && c in w.calls && t in w.db.tickets
    requires w.db.tickets[t].status == Approved || w.db.tickets[t].status == Revoking
    requires !Own(w.calls[c], t, w.db.tickets[t].status)
    ensures var db' := AdvanceCall(w, c, good).db; t in db'.tickets && db'.tickets[t] == w.db.tickets[t]
  {
    hide Inv, After, Exec, Pushes, BuildTargets, Listed, RuleId, AdvanceGateway;
    NextIsFresh(w);
    match w.calls[c] {
      case Succeeded(goal, _) =>
        match goal {
          case ToApply(u, agent, expires) => OtherStatus(w.db, Activate(u, agent, expires), good, t);
          case ToReapply(_) =>
          case ToRevoke(u) => OtherStatus(w.db, FinishRevoke(u), good, t);
        }
      case Failed(goal) =>
        match goal {
          case ToApply(u, _, _) => OtherStatus(w.db, FailApply(u), good, t);
          case ToReapply(_) =>
          case ToRevoke(u) => OtherStatus(w.db, DeferRevoke(u), good, t);
        }
      case Connecting(_, _, _) | Sending(_, _, _, _) | Enqueuing(_, _, _, _) | Awaiting(_, _, _, _) => GatewayTables(w, c, good);
      case _ =>
    }
  }

  lemma GatewayTables(w: World, c: nat, good: bool)
    requires c in w.calls
    ensures AdvanceGateway(w, c, good).db == w.db
  {
  }

  lemma AdvanceStuck(w: World, c: nat, good: bool, t: nat)
    requires Inv(w) && Stuck(w, t) && c in w.calls
    ensures StaysStuck(w, AdvanceCall(w, c, good), t)
  {
    hide Inv, AdvanceCall, Own;
    NotOwn(w, t, c);
    AdvanceRowKept(w, c, good, t);
    P.AdvanceFrame(w, c, good);
    var w' := AdvanceCall(w, c, good);
    forall k | k in w'.calls ensures !Own(w'.calls[k], t, w'.db.tickets[t].status) {
      if k == c {
        AdvanceOwn(w, c, good, t);
        OwnBefore(w.calls[c], w'.calls[c], t, w.db.tickets[t].status);
      } else {
        NotOwn(w, t, k);
      }
    }
  }

  lemma NotOwn(w: World, t: nat, c: nat)
    requires Stuck(w, t) && c in w.calls
    ensures !Own(w.calls[c], t, w.db.tickets[t].status)
  {
  }

  lemma OwnBefore(call: Call, call': Call, t: nat, status: Status)
    requires Applies(call', t) ==> Applies(call, t)
    requires Revokes(call', t) ==> Revokes(call, t)
    ensures Own(call', t, status) ==> Own(call, t, status)
  {
    hide Applies, Revokes;
  }

  /** A call begins only with a transaction this ticket's status does not allow. */
  lemma BeginStuck(w: World, e: Event, t: nat)
    requires Inv(w) && Stuck(w, t) && (e.StartApprove? || e.StartRevoke? || e.StartReapply?)
    ensures StaysStuck(w, BeginCall(w, e), t)
  {
    hide Inv, After, Exec, LiveAt;
    NextIsFresh(w);
    match e {
      case StartApprove(u, approver, commits) =>
        OtherStatus(w.db, Approve(u, approver), commits, t);
        ApprovesPending(w.db, u, approver);
      case StartRevoke(u, commits) =>
        OtherStatus(w.db, BeginRevoke(u), commits, t);
        RevokesActive(w.db, u);
      case StartReapply(_) =>
    }
    var w' := BeginCall(w, e);
    forall k | k in w'.calls ensures !Own(w'.calls[k], t, w'.db.tickets[t].status) {
      if k in w.calls {
        NotOwn(w, t, k);
      }
    }
  }

  lemma ApprovesPending(db: Db, t: nat, approver: int)
    ensures Exec(db, Approve(t, approver)).Success? ==> t in db.tickets && db.tickets[t].status == Pending
  {
    hide Listed;
  }

  lemma RevokesActive(db: Db, t: nat)
    ensures Exec(db, BeginRevoke(t)).Success? ==> t in db.tickets && db.tickets[t].status == Active
  {
  }

  lemma AloneStuck(w: World, e: Event, t: nat)
    requires Inv(w) && Stuck(w, t) && e.Database?
    ensures StaysStuck(w, Step(w, e), t)
  {
    hide Inv, After, Own;
    NextIsFresh(w);
    if StandsAlone(e.txn) {
      OtherStatus(w.db, e.txn, e.commits, t);
    }
    var w' := Step(w, e);
    forall k | k in w'.calls ensures !Own(w'.calls[k], t, w'.db.tickets[t].status) {
      NotOwn(w, t, k);
    }
  }

  /** Other events change no table and begin no call. */
  lemma WireCalls(w: World, e: Event)
    requires !e.Database? && !e.StartApprove? && !e.StartRevoke? && !e.StartReapply? && !e.Advance?
    ensures var w' := Step(w, e); w'.db == w.db && forall k :: k in w'.calls ==> k in w.calls && w'.calls[k] == w.calls[k]
  {
    hide AdvanceCall, BeginCall, After, Obey;
  }

  lemma BeginStep(w: World, e: Event)
    requires e.StartApprove? || e.StartRevoke? || e.StartReapply?
    ensures Step(w, e) == BeginCall(w, e)
  {
    hide BeginCall, AdvanceCall, AgentStep;
  }

  lemma WireStuck(w: World, e: Event, t: nat)
    requires Stuck(w, t) && !e.Database? && !e.StartApprove? && !e.StartRevoke? && !e.StartReapply? && !e.Advance?
    ensures StaysStuck(w, Step(w, e), t)
  {
    hide Step, Own;
    WireCalls(w, e);
    var w' := Step(w, e);
    forall k | k in w'.calls ensures !Own(w'.calls[k], t, w'.db.tickets[t].status) {
      NotOwn(w, t, k);
    }
  }

  lemma SameStuck(w: World, t: nat)
    requires Stuck(w, t)
    ensures StaysStuck(w, w, t)
  {
    hide Driven;
  }

  lemma StepStuck(w: World, e: Event, t: nat)
    requires Inv(w) && Stuck(w, t)
    ensures StaysStuck(w, Step(w, e), t)
  {
    hide Inv, Stuck, StaysStuck, Step;
    match e {
      case Database(_, _) => AloneStuck(w, e, t);
      case StartApprove(_, _, _) | StartRevoke(_, _) | StartReapply(_) => BeginStuck(w, e, t); BeginStep(w, e);
      case Advance(c, good) =>
        A.CalledStep(w, e);
        SameStuck(w, t);
        if c in w.calls {
          AdvanceStuck(w, c, good, t);
        }
      case _ => WireStuck(w, e, t);
    }
  }

  lemma {:induction false} RunStuck(w: World, more: seq<Event>, t: nat)
    requires Inv(w) && Stuck(w, t)
    ensures Inv(Run(w, more)) && StaysStuck(w, Run(w, more), t)
  {
    hide Inv, Step, Stuck;
    if more == [] {
      SameStuck(w, t);
    } else {
      var before := Run(w, more[..|more| - 1]);
      RunStuck(w, more[..|more| - 1], t);
      StepStuck(before, more[|more| - 1], t);
      StepKeeps(before, more[|more| - 1]);
    }
  }

  // ---- with one, it can ----

  /** A call of the ticket's own is in progress. */
  ghost predicate Moving(w: World, t: nat, c: nat) {
    Inv(w) && t in w.db.tickets && c in w.calls && Own(w.calls[c], t, w.db.tickets[t].status)
  }

  ghost predicate Moved(w: World, w': World, t: nat) {
    t in w.db.tickets && t in w'.db.tickets && w'.db.tickets[t].status != w.db.tickets[t].status
  }

  /** One event of a call, which keeps the tables and stays the ticket's own. */
  lemma StillMoving(w: World, e: Event, t: nat, c: nat)
    requires Moving(w, t, c) && Step(w, e).db.tickets == w.db.tickets && c in Step(w, e).calls
    requires (Applies(w.calls[c], t) ==> Applies(Step(w, e).calls[c], t)) && (Revokes(w.calls[c], t) ==> Revokes(Step(w, e).calls[c], t))
    ensures Moving(Step(w, e), t, c)
  {
    hide Inv, Step, Applies, Revokes;
    StepKeeps(w, e);
  }

  lemma ThenMoved(w: World, e: Event, rest: seq<Event>, t: nat) returns (more: seq<Event>)
    requires Step(w, e).db.tickets == w.db.tickets && Moved(Step(w, e), Run(Step(w, e), rest), t)
    ensures Moved(w, Run(w, more), t)
  {
    hide Run, Step;
    more := A.OneThen(w, e, rest);
  }

  lemma JustOne(w: World, e: Event)
    ensures Run(w, [e]) == Step(w, e)
  {
    hide Run, Step;
    D.RunSnoc(w, [], e);
    D.RunNone(w);
    assert [] + [e] == [e];
  }

  lemma EndMoves(w: World, t: nat, c: nat) returns (more: seq<Event>)
    requires Moving(w, t, c) && (w.calls[c].Succeeded? || w.calls[c].Failed?)
    ensures Moved(w, Run(w, more), t)
  {
    hide Run, Inv, Step;
    more := [Advance(c, true)];
    JustOne(w, Advance(c, true));
    A.CalledStep(w, Advance(c, true));
    EndWrites(w, t, c);
  }

  lemma EndWrites(w: World, t: nat, c: nat)
    requires t in w.db.tickets && c in w.calls && Own(w.calls[c], t, w.db.tickets[t].status) && (w.calls[c].Succeeded? || w.calls[c].Failed?)
    ensures Moved(w, AdvanceCall(w, c, true), t)
  {
    hide RuleId;
    GoalTells(w.calls[c], t);
  }

  /** A command that is not sent, or not answered in time, fails the call, and nobody waits for its ack any more. */
  lemma TimesOut(w: World, c: nat)
    requires c in w.calls && (w.calls[c].Enqueuing? || w.calls[c].Awaiting?)
    requires w.calls[c].link < |w.links| && w.calls[c].todo != []
    ensures
      var w', link := Step(w, Advance(c, false)), w.calls[c].link;
      && w' == w.(calls := w.calls[c := Failed(w.calls[c].goal)], links := w'.links)
      && |w'.links| == |w.links| && (forall i :: 0 <= i < |w.links| && i != link ==> w'.links[i] == w.links[i])
      && w'.links[link] == w.links[link].(slots := w.links[link].slots - {w.calls[c].id})
  {
    hide AdvanceApply, AdvanceRevoke, AdvanceEnd, BeginCall, AgentStep;
  }

  lemma GivesUp(w: World, t: nat, c: nat)
    requires Moving(w, t, c) && (w.calls[c].Enqueuing? || w.calls[c].Awaiting?)
    ensures var w' := Step(w, Advance(c, false)); Moving(w', t, c) && w'.calls[c].Failed? && w'.db == w.db
  {
    hide Inv, Own, Applies, Revokes, Holds;
    var e := Advance(c, false);
    CallHere(w, c);
    hide Step;
    TimesOut(w, c);
    GoalTells(w.calls[c], t);
    GoalTells(Step(w, e).calls[c], t);
    StillMoving(w, e, t, c);
  }

  lemma WaitingMoves(w: World, t: nat, c: nat) returns (more: seq<Event>)
    requires Moving(w, t, c) && (w.calls[c].Enqueuing? || w.calls[c].Awaiting?)
    ensures Moved(w, Run(w, more), t)
  {
    hide Run, Step, Moving, Moved;
    CallThere(w, t, c);
    GivesUp(w, t, c);
    var rest := EndMoves(Step(w, Advance(c, false)), t, c);
    more := ThenMoved(w, Advance(c, false), rest, t);
  }

  lemma CallThere(w: World, t: nat, c: nat)
    requires Moving(w, t, c)
    ensures c in w.calls && t in w.db.tickets
  {
    hide Inv;
  }

  lemma Sends(w: World, t: nat, c: nat)
    requires Moving(w, t, c) && w.calls[c].Sending?
    ensures var w' := Step(w, Advance(c, true)); Moving(w', t, c) && (w'.calls[c].Succeeded? || w'.calls[c].Enqueuing?) && w'.db == w.db
  {
    hide Inv, Own, Applies, Revokes;
    var e := Advance(c, true);
    CallHere(w, c);
    A.CalledStep(w, e);
    assert AtGateway(Step(w, e).calls[c]) && Step(w, e).calls[c].goal == w.calls[c].goal && Step(w, e).db == w.db;
    assert Step(w, e).calls[c].Succeeded? || Step(w, e).calls[c].Enqueuing?;
    hide Step;
    GoalTells(w.calls[c], t);
    GoalTells(Step(w, e).calls[c], t);
    StillMoving(w, e, t, c);
  }

  lemma SendingMoves(w: World, t: nat, c: nat) returns (more: seq<Event>)
    requires Moving(w, t, c) && w.calls[c].Sending?
    ensures Moved(w, Run(w, more), t)
  {
    hide Run, Step, Moving, Moved;
    CallThere(w, t, c);
    Sends(w, t, c);
    var w1 := Step(w, Advance(c, true));
    CallThere(w1, t, c);
    var rest;
    if w1.calls[c].Succeeded? {
      rest := EndMoves(w1, t, c);
    } else {
      rest := WaitingMoves(w1, t, c);
    }
    more := ThenMoved(w, Advance(c, true), rest, t);
  }

  lemma Connects(w: World, t: nat, c: nat)
    requires Moving(w, t, c) && w.calls[c].Connecting?
    ensures var w' := Step(w, Advance(c, true)); Moving(w', t, c) && (w'.calls[c].Sending? || w'.calls[c].Failed?) && w'.db == w.db
  {
    hide Inv, Own, Applies, Revokes;
    var e := Advance(c, true);
    A.CalledStep(w, e);
    assert AtGateway(Step(w, e).calls[c]) && Step(w, e).calls[c].goal == w.calls[c].goal && Step(w, e).db == w.db;
    assert Step(w, e).calls[c].Sending? || Step(w, e).calls[c].Failed?;
    hide Step;
    GoalTells(w.calls[c], t);
    GoalTells(Step(w, e).calls[c], t);
    StillMoving(w, e, t, c);
  }

  lemma ConnectingMoves(w: World, t: nat, c: nat) returns (more: seq<Event>)
    requires Moving(w, t, c) && w.calls[c].Connecting?
    ensures Moved(w, Run(w, more), t)
  {
    hide Run, Step, Moving, Moved;
    CallThere(w, t, c);
    Connects(w, t, c);
    var w1 := Step(w, Advance(c, true));
    CallThere(w1, t, c);
    var rest;
    if w1.calls[c].Failed? {
      rest := EndMoves(w1, t, c);
    } else {
      rest := SendingMoves(w1, t, c);
    }
    more := ThenMoved(w, Advance(c, true), rest, t);
  }

  /** The revoke reads its binding, or does not find it. */
  lemma RevokeLooks(w: World, t: nat, c: nat)
    requires Moving(w, t, c) && w.calls[c].RevokeAt?
    ensures var w' := Step(w, Advance(c, true)); Moving(w', t, c) && (w'.calls[c].Connecting? || w'.calls[c].Succeeded?) && w'.db == w.db
  {
    hide Inv, Own, RuleId;
    var e := Advance(c, true);
    A.CalledStep(w, e);
    assert AtGateway(Step(w, e).calls[c]) && Step(w, e).calls[c].goal == ToRevoke(w.calls[c].ticket) && Step(w, e).db == w.db;
    assert Step(w, e).calls[c].Connecting? || Step(w, e).calls[c].Succeeded?;
    hide Step;
    StillMoving(w, e, t, c);
  }

  lemma RevokeMoves(w: World, t: nat, c: nat) returns (more: seq<Event>)
    requires Moving(w, t, c) && w.calls[c].RevokeAt?
    ensures Moved(w, Run(w, more), t)
  {
    hide Run, Step, Moving, Moved;
    CallThere(w, t, c);
    RevokeLooks(w, t, c);
    var w1 := Step(w, Advance(c, true));
    CallThere(w1, t, c);
    var rest;
    if w1.calls[c].Succeeded? {
      rest := EndMoves(w1, t, c);
    } else {
      rest := ConnectingMoves(w1, t, c);
    }
    more := ThenMoved(w, Advance(c, true), rest, t);
  }

  /** The Apply fixes its targets and expiry. */
  lemma Builds(w: World, t: nat, c: nat)
    requires Moving(w, t, c) && w.calls[c].ApplyAgent?
    ensures var w' := Step(w, Advance(c, true)); Moving(w', t, c) && w'.calls[c].Connecting? && w'.db == w.db
  {
    hide Inv, RuleId, Pushes, BuildTargets, Listed;
    var e := Advance(c, true);
    A.CalledStep(w, e);
    assert Step(w, e).calls[c].Connecting? && OfApply(Step(w, e).calls[c].goal, w.calls[c].ticket) && Step(w, e).db == w.db;
    hide Step;
    StillMoving(w, e, t, c);
  }

  lemma AgentChosenMoves(w: World, t: nat, c: nat) returns (more: seq<Event>)
    requires Moving(w, t, c) && w.calls[c].ApplyAgent?
    ensures Moved(w, Run(w, more), t)
  {
    hide Run, Step, Moving, Moved;
    CallThere(w, t, c);
    Builds(w, t, c);
    var rest := ConnectingMoves(Step(w, Advance(c, true)), t, c);
    more := ThenMoved(w, Advance(c, true), rest, t);
  }

  lemma Chooses(w: World, t: nat, c: nat)
    requires Moving(w, t, c) && w.calls[c].ApplyRow? && PrimaryOf(w.db, w.calls[c].row.project).Some?
    ensures var w' := Step(w, Advance(c, true)); Moving(w', t, c) && w'.calls[c].ApplyAgent? && w'.db == w.db && w'.calls[c].row == w.calls[c].row
  {
    hide Inv, RuleId, Pushes, BuildTargets, Listed;
    var e := Advance(c, true);
    A.CalledStep(w, e);
    assert Step(w, e).calls[c].ApplyAgent? && Step(w, e).calls[c].ticket == w.calls[c].ticket && Step(w, e).db == w.db;
    hide Step;
    StillMoving(w, e, t, c);
  }

  // ---- a primary agent can always be enrolled ----

  lemma {:induction false} Beyond(s: set<int>) returns (x: int)
    ensures forall y :: y in s ==> y < x
  {
    if y :| y in s {
      var rest := Beyond(s - {y});
      x := if y < rest then rest else y + 1;
      forall z | z in s ensures z < x {
        assert z == y || z in s - {y};
      }
    } else {
      x := 0;
    }
  }

  /** The world with an approved primary agent for the project, nothing else of tickets and calls changed. */
  ghost predicate Primed(w: World, w': World, project: int) {
    && w' == w.(db := w'.db) && w'.db == w.db.(primaries := w'.db.primaries) && Inv(w')
    && PrimaryOf(w'.db, project).Some?
  }

  lemma TableStep(w: World, txn: Txn)
    requires StandsAlone(txn)
    ensures Step(w, Event.Database(txn, true)) == w.(db := After(w.db, txn, true))
  {
    hide After, BeginCall, AdvanceCall, AgentStep;
  }

  lemma Enrolls(w: World, project: int) returns (more: seq<Event>)
    requires Inv(w) && project in w.db.primaries
    ensures Primed(w, Run(w, more), project)
  {
    hide Inv, Run, Step;
    var e := Event.Database(Enroll(project, true), true);
    TableStep(w, Enroll(project, true));
    StepKeeps(w, e);
    JustOne(w, e);
    more := [e];
  }

  lemma CanPrime(w: World, project: int) returns (more: seq<Event>)
    requires Inv(w)
    ensures Primed(w, Run(w, more), project)
  {
    hide Inv, Run, Step;
    if project in w.db.primaries {
      more := Enrolls(w, project);
    } else {
      var agents := set p | p in w.db.primaries :: w.db.primaries[p].agent;
      var agent := Beyond(agents);
      forall q | q in w.db.primaries ensures w.db.primaries[q].agent != agent {
        assert w.db.primaries[q].agent in agents;
      }
      var e := Event.Database(AddPrimary(project, agent), true);
      TableStep(w, AddPrimary(project, agent));
      StepKeeps(w, e);
      var rest := Enrolls(Step(w, e), project);
      more := A.OneThen(w, e, rest);
    }
  }

  lemma PrimedMoving(w: World, w': World, project: int, t: nat, c: nat)
    requires Moving(w, t, c) && Primed(w, w', project)
    ensures Moving(w', t, c) && w'.calls[c] == w.calls[c] && w'.db.tickets == w.db.tickets
  {
    hide Inv, Own;
  }

  lemma RowReadMoves(w: World, t: nat, c: nat) returns (more: seq<Event>)
    requires Moving(w, t, c) && w.calls[c].ApplyRow?
    ensures Moved(w, Run(w, more), t)
  {
    hide Run, Step, Moving, Inv;
    CallThere(w, t, c);
    InvThere(w, t, c);
    var project := w.calls[c].row.project;
    var pre := CanPrime(w, project);
    var w1 := Run(w, pre);
    PrimedMoving(w, w1, project, t, c);
    Chooses(w1, t, c);
    CallThere(w1, t, c);
    var rest := AgentChosenMoves(Step(w1, Advance(c, true)), t, c);
    rest := ThenMoved(w1, Advance(c, true), rest, t);
    more := pre + rest;
    D.RunSplit(w, pre, rest);
  }

  lemma InvThere(w: World, t: nat, c: nat)
    requires Moving(w, t, c)
    ensures Inv(w)
  {
    hide Inv;
  }

  lemma Reads(w: World, t: nat, c: nat)
    requires Moving(w, t, c) && w.calls[c].ApplyAt?
    ensures var w' := Step(w, Advance(c, true)); Moving(w', t, c) && w'.calls[c] == ApplyRow(t, w.db.tickets[t]) && w'.db == w.db
  {
    hide Inv, RuleId, Pushes, BuildTargets, Listed;
    var e := Advance(c, true);
    A.CalledStep(w, e);
    assert Step(w, e).calls[c] == ApplyRow(t, w.db.tickets[t]) && Step(w, e).db == w.db;
    hide Step;
    StillMoving(w, e, t, c);
  }

  lemma StartedMoves(w: World, t: nat, c: nat) returns (more: seq<Event>)
    requires Moving(w, t, c) && w.calls[c].ApplyAt?
    ensures Moved(w, Run(w, more), t)
  {
    hide Run, Step, Moving, Moved;
    CallThere(w, t, c);
    Reads(w, t, c);
    var rest := RowReadMoves(Step(w, Advance(c, true)), t, c);
    more := ThenMoved(w, Advance(c, true), rest, t);
  }

  lemma OwnMoves(w: World, t: nat, c: nat) returns (more: seq<Event>)
    requires Moving(w, t, c)
    ensures Moved(w, Run(w, more), t)
  {
    hide Run, Moved, Inv;
    match w.calls[c] {
      case ApplyAt(_) => more := StartedMoves(w, t, c);
      case ApplyRow(_, _) => more := RowReadMoves(w, t, c);
      case ApplyAgent(_, _, _) => more := AgentChosenMoves(w, t, c);
      case RevokeAt(_) => more := RevokeMoves(w, t, c);
      case Connecting(_, _, _) => more := ConnectingMoves(w, t, c);
      case Sending(_, _, _, _) => more := SendingMoves(w, t, c);
      case Enqueuing(_, _, _, _) => more := WaitingMoves(w, t, c);
      case Awaiting(_, _, _, _) => more := WaitingMoves(w, t, c);
      case Succeeded(_, _) => more := EndMoves(w, t, c);
      case Failed(_) => more := EndMoves(w, t, c);
    }
  }

  // ---- exactly which tickets can move ----

  lemma PendingMoves(w: World, t: nat) returns (more: seq<Event>)
    requires t in w.db.tickets && w.db.tickets[t].status == Pending
    ensures Moved(w, Run(w, more), t)
  {
    hide Run, Step;
    var txn := Reject(t, w.db.tickets[t].requester + 1);
    more := [Event.Database(txn, true)];
    JustOne(w, Event.Database(txn, true));
    TableStep(w, txn);
  }

  lemma ActiveMoves(w: World, t: nat) returns (more: seq<Event>)
    requires t in w.db.tickets && w.db.tickets[t].status == Active
    ensures Moved(w, Run(w, more), t)
  {
    hide Run, Step;
    more := [StartRevoke(t, true)];
    JustOne(w, StartRevoke(t, true));
    BeginStep(w, StartRevoke(t, true));
  }

  lemma FinalStays(now: int, srcPeerIPs: seq<string>, events: seq<Event>, more: seq<Event>, t: nat)
    requires
      var w := Reached(now, srcPeerIPs, events);
      t in w.db.tickets && Rank(At(w.db.tickets[t].status)) == 5
    ensures !Moved(Reached(now, srcPeerIPs, events), Run(Reached(now, srcPeerIPs, events), more), t)
  {
    hide Run, Reached;
    D.RunSplit(Start(now, srcPeerIPs), events, more);
    assert (events + more)[..|events|] == events;
    FromStart(now, srcPeerIPs, events);
    FromStart(now, srcPeerIPs, events + more);
    StatusRises(now, srcPeerIPs, events + more, |events|, t);
  }

  lemma FromStart(now: int, srcPeerIPs: seq<string>, events: seq<Event>)
    ensures Reached(now, srcPeerIPs, events) == Run(Start(now, srcPeerIPs), events)
  {
    hide Run;
  }

  /**
   * Exactly which tickets can still move, in every reachable state: a pending or an active one
   * always can; an approved or a revoking one can if and only if a call of its own is still in
   * progress, since nothing ever starts one for it again; any other never can.
   */
  lemma CanMoveIff(now: int, srcPeerIPs: seq<string>, events: seq<Event>, t: nat)
    requires t in Reached(now, srcPeerIPs, events).db.tickets
    ensures
      var w := Reached(now, srcPeerIPs, events);
      var status := w.db.tickets[t].status;
      (exists more {:trigger Run(w, more)} :: Moved(w, Run(w, more), t)) <==>
        || status == Pending || status == Active
        || (status == Approved && exists c :: c in w.calls && Applies(w.calls[c], t))
        || (status == Revoking && exists c :: c in w.calls && Revokes(w.calls[c], t))
  {
    hide Run, Inv, Moved, Applies, Revokes;
    var w := Reached(now, srcPeerIPs, events);
    RunKeeps(now, srcPeerIPs, events);
    var status := w.db.tickets[t].status;
    if status == Pending {
      var more := PendingMoves(w, t);
    } else if status == Active {
      var more := ActiveMoves(w, t);
    } else if c :| c in w.calls && Own(w.calls[c], t, status) {
      var more := OwnMoves(w, t, c);
    } else {
      forall more ensures !Moved(w, Run(w, more), t) {
        if status == Approved || status == Revoking {
          RunStuck(w, more, t);
          NotMoved(w, Run(w, more), t);
        } else {
          FinalStays(now, srcPeerIPs, events, more, t);
        }
      }
    }
  }

  lemma NotMoved(w: World, w': World, t: nat)
    requires StaysStuck(w, w', t)
    ensures !Moved(w, w', t)
  {
    hide Stuck;
  }
}
