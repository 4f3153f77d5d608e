/** The steps of engine calls that read or write the tables keep the world's invariant. */
module WorldCalls {
  import opened Wrappers
  import opened RuleIds
  import opened Store
  import opened Forwarding
  import opened Links
  import opened Worlds
  import opened WorldFrames
  import opened WorldSteps

  // ---- Apply and reapply ----

  lemma DropKeeps(w: World, c: nat)
    requires Inv(w)
    ensures Inv(Drop(w, c))
  {
    hide Inv;
    LossKeeps(w, Abandon(c));
  }

  /** The commands computed from a row agree with the grant of its ticket. */
  lemma PushesOk(w: World, t: nat, row: Ticket, goal: Goal)
    requires Snapshot(w, t, row) && t in w.past.grants && !goal.ToRevoke?
    ensures TodoOk(w, w.past.grants[t].agent, goal,
              Pushes(w, RuleId(t), BuildTargets(Listed(w.db.assets, row.frozen), row.ports), Some(w.past.grants[t].expires)))
  {
    hide BuildTargets, Listed, RuleId, TicketOf;
    TicketOfRuleId(t);
    var targets := BuildTargets(Listed(w.db.assets, row.frozen), row.ports);
    assert targets == TargetsOf(w.db, w.db.tickets[t]);
    forall i | 0 <= i < |targets| ensures Aimed(w.db, t, OnWire(targets[i])) {
      assert targets[i] in TargetsOf(w.db, w.db.tickets[t]);
    }
  }

  lemma ChoiceKeeps(w: World, c: nat, good: bool)
    requires Inv(w) && c in w.calls && w.calls[c].ApplyRow?
    ensures Inv(AdvanceApply(w, c, good))
  {
    hide Inv, GrantOk;
    CallHere(w, c);
    var ApplyRow(t, row) := w.calls[c];
    if good && PrimaryOf(w.db, row.project).Some? {
      var w' := AdvanceApply(w, c, good);
      assert Recorded(w, w', c, t);
      assert CallOk(w', c, w'.calls[c]);
      hide CallOk, Recorded;
      RecordedKeeps(w, w', c, t);
    } else {
      DropKeeps(w, c);
    }
  }

  lemma NewGrantOk(w: World, w': World, c: nat, t: nat, row: Ticket, agent: int, g: Grant)
    requires Inv(w) && CallOk(w, c, ApplyAgent(t, row, agent))
    requires w'.db == w.db && w'.now == w.now && w'.past == w.past.(grants := w.past.grants[t := g])
    requires g == Grant(agent, BuildTargets(Listed(w.db.assets, row.frozen), row.ports), w.now, w.now + row.duration)
    ensures GrantOk(w', t)
  {
    hide Inv, TablesInv, BuildTargets, Listed;
    TablesHere(w);
    DurationBounded(w.db, t);
    FirstTargetIsOwn(w.db, t);
  }

  lemma GrantingKeeps(w: World, c: nat, good: bool)
    requires Inv(w) && c in w.calls && w.calls[c].ApplyAgent?
    ensures Inv(AdvanceApply(w, c, good))
  {
    hide Inv, GrantOk, BuildTargets, Listed, RuleId, TodoOk, Pushes;
    CallHere(w, c);
    var ApplyAgent(t, row, agent) := w.calls[c];
    if good {
      var w' := AdvanceApply(w, c, good);
      NewGrantOk(w, w', c, t, row, agent, w'.past.grants[t]);
      PushesOk(w', t, row, w'.calls[c].goal);
      assert Pushes(w', RuleId(t), w'.past.grants[t].targets, Some(w'.past.grants[t].expires)) == w'.calls[c].todo by {
        PushesSame(w, w', RuleId(t), w'.past.grants[t].targets, Some(w'.past.grants[t].expires));
      }
      assert Recorded(w, w', c, t);
      assert CallOk(w', c, w'.calls[c]);
      hide CallOk, Recorded;
      RecordedKeeps(w, w', c, t);
    } else {
      DropKeeps(w, c);
    }
  }

  lemma PushesSame(w: World, w': World, rule: string, targets: seq<Target>, expires: Option<int>)
    requires w'.srcPeerIPs == w.srcPeerIPs
    ensures Pushes(w', rule, targets, expires) == Pushes(w, rule, targets, expires)
  {
  }

  /** A binding names the rule of its ticket and the agent of its grant. */
  lemma BindingHere(w: World, t: nat)
    requires Inv(w) && t in w.db.bindings
    ensures t in w.db.tickets && t in w.past.grants
    ensures w.db.bindings[t].ruleId == RuleId(t) && w.db.bindings[t].agent == w.past.grants[t].agent
  {
    TablesHere(w);
    HistoryHere(w);
    RuleOfBinding(w.db, t);
    BoundIsEnforced(w.db, t);
    hide Inv, TablesInv, Audited, GrantOk, RuleId;
    assert RowOk(w, t);
  }

  lemma BoundIsEnforced(db: Db, t: nat)
    requires TablesInv(db) && t in db.tickets
    ensures t in db.bindings <==> Enforced(db.tickets[t].status)
  {
    hide ApprovalInv, RuleId;
    assert TicketInv(db, t);
  }

  lemma AdvanceApplyKeeps(w: World, c: nat, good: bool)
    requires Inv(w) && c in w.calls
    requires var call := w.calls[c]; call.ApplyAt? || call.ApplyRow? || call.ApplyAgent? || call.ReapplyAt? || call.ReapplyBound?
    ensures Inv(AdvanceApply(w, c, good))
  {
    hide Inv, BuildTargets, Listed, RuleId, TodoOk, Pushes;
    CallHere(w, c);
    match w.calls[c] {
      case ApplyAt(t) =>
        if good && t in w.db.tickets && w.db.tickets[t].status == Approved {
          PutKeeps(w, c, ApplyRow(t, w.db.tickets[t]));
        } else {
          DropKeeps(w, c);
        }
      case ApplyRow(_, _) => ChoiceKeeps(w, c, good);
      case ApplyAgent(_, _, _) => GrantingKeeps(w, c, good);
      case ReapplyAt(t, row) =>
        if good && t in w.db.bindings {
          BindingHere(w, t);
          PutKeeps(w, c, ReapplyBound(t, row, w.db.bindings[t]));
        } else {
          DropKeeps(w, c);
        }
      case ReapplyBound(t, row, b) =>
        if good {
          PushesOk(w, t, row, ToReapply(t));
          var todo := Pushes(w, b.ruleId, BuildTargets(Listed(w.db.assets, row.frozen), row.ports), row.expires);
          PutKeeps(w, c, Connecting(ToReapply(t), b.agent, todo));
        } else {
          DropKeeps(w, c);
        }
    }
  }

  // ---- Revoke ----

  lemma AdvanceRevokeKeeps(w: World, c: nat, good: bool)
    requires Inv(w) && c in w.calls && w.calls[c].RevokeAt?
    ensures Inv(AdvanceRevoke(w, c, good))
  {
    hide Inv, GrantOk, RuleId, TicketOf, ReceiptOk;
    CallHere(w, c);
    var t := w.calls[c].ticket;
    var w' := AdvanceRevoke(w, c, good);
    if good && t in w.db.bindings {
      BindingHere(w, t);
      TicketOfRuleId(t);
      assert CmdOk(w', w.db.bindings[t].agent, Revoke(RuleId(t)));
    }
    assert CallOk(w', c, w'.calls[c]);
    assert Recorded(w, w', c, t);
    hide CallOk, Recorded;
    RecordedKeeps(w, w', c, t);
  }

  // ---- transactions ----

  /** One transaction ran, and with it at most call `c` changed and the history of the row it wrote. */
  ghost predicate Wrote(w: World, w': World, c: nat, txn: Txn, commits: bool) {
    && w' == w.(db := w'.db, calls := w'.calls, nextCall := w'.nextCall, past := w'.past)
    && w'.db == After(w.db, txn, commits) && w.nextCall <= w'.nextCall
    && w'.past == w.past.(starts := w'.past.starts, owner := w'.past.owner, revoker := w'.past.revoker,
                          began := w'.past.began, closing := w'.past.closing)
    && Sub(w.past.owner, w'.past.owner) && Sub(w.past.revoker, w'.past.revoker) && Sub(w.past.began, w'.past.began)
    && w.past.starts <= w'.past.starts
    && (forall k :: k != Subject(w.db, txn) ==> (k in w'.past.began <==> k in w.past.began))
    && (forall k :: k != Subject(w.db, txn) && k in w'.past.starts ==> k in w.past.starts)
    && Sub(w.past.closing, w'.past.closing)
    && (forall k :: k != Subject(w.db, txn) && k in w'.past.closing ==> k in w.past.closing)
    && (forall k :: k in w'.calls && k != c ==> k in w.calls && w'.calls[k] == w.calls[k])
  }

  lemma WroteExtends(w: World, w': World, c: nat, txn: Txn, commits: bool)
    requires Inv(w) && Wrote(w, w', c, txn, commits)
    ensures Extends(w, w') && TablesInv(w'.db) && Audited(w'.db)
    ensures forall k :: Still(w, w', k)
  {
    TablesHere(w);
    TxnKeeps(w.db, txn, commits);
    hide Inv, TablesInv, Audited, Evolves, After;
    assert Extends(w, w');
    hide Extends;
    forall k ensures Still(w, w', k) {
    }
  }

  lemma WriteKeeps(w: World, w': World, c: nat, txn: Txn, commits: bool)
    requires Inv(w) && Wrote(w, w', c, txn, commits)
    requires Extends(w, w') && TablesInv(w'.db) && Audited(w'.db) && (forall k :: Still(w, w', k))
    requires Bookkeeping(w')
    requires Subject(w.db, txn) in w'.db.tickets ==> RowOk(w', Subject(w.db, txn))
    requires c in w'.calls ==> CallOk(w', c, w'.calls[c])
    ensures Inv(w')
  {
    hide Inv, TablesInv, Audited, Extends, RowOk, GrantOk, CallOk, Still, Bookkeeping, LinkOk, LinkInv;
    HistoryHere(w);
    var t := Subject(w.db, txn);
    forall k | k in w'.db.tickets && k != t ensures k in w.db.tickets && w'.db.tickets[k] == w.db.tickets[k] {
      OtherRows(w.db, txn, commits, k);
    }
    hide After, Subject;
    RecordKept(w, w', t);
    hide HistoryInv;
    CallMoveKeeps(w, w', c);
  }

  /** A call ended with its transaction; only the receipt it closed on is recorded. */
  lemma EndKeeps(w: World, w': World, c: nat, txn: Txn, commits: bool)
    requires Inv(w) && c in w.calls && Wrote(w, w', c, txn, commits) && c !in w'.calls
    requires w'.past == w.past.(closing := w'.past.closing) && !txn.Submit?
    requires forall k :: k in w'.past.closing ==> k in w.past.closing || k in w.db.tickets
    requires Extends(w, w') && TablesInv(w'.db) && Audited(w'.db) && (forall k :: Still(w, w', k))
    requires Subject(w.db, txn) in w.db.tickets ==> RowOk(w', Subject(w.db, txn))
    requires After(w.db, txn, commits).tickets.Keys == w.db.tickets.Keys
    ensures Inv(w')
  {
    hide Inv, TablesInv, Audited, RowOk, GrantOk, CallOk, Still, LinkOk, LinkInv, After, Subject, Evolves;
    HistoryHere(w);
    BookkeepingHere(w);
    hide HistoryInv;
    var t := Subject(w.db, txn);
    assert t in w'.db.tickets ==> t in w.db.tickets by {
      assert t in w'.db.tickets <==> t in w'.db.tickets.Keys;
    }
    EndBookkeeping(w, w');
    hide Extends, Bookkeeping;
    WriteKeeps(w, w', c, txn, commits);
  }

  lemma EndBookkeeping(w: World, w': World)
    requires Bookkeeping(w) && w'.past == w.past.(closing := w'.past.closing) && w'.nextCmd == w.nextCmd
    requires w'.db.tickets.Keys == w.db.tickets.Keys
    requires forall t :: t in w'.past.closing ==> t in w.db.tickets
    ensures Bookkeeping(w')
  {
    assert forall t :: t in w.db.tickets ==> t in w'.db.tickets.Keys;
  }

  /** The row a finished call wrote is as its history says. */
  lemma EndRowOk(w: World, c: nat, good: bool)
    requires Inv(w) && c in w.calls && (w.calls[c].Succeeded? || w.calls[c].Failed?) && !w.calls[c].goal.ToReapply?
    requires Extends(w, AdvanceEnd(w, c, good))
    requires w.calls[c].goal.ticket in w.db.tickets
    ensures RowOk(AdvanceEnd(w, c, good), w.calls[c].goal.ticket)
  {
    hide Inv, Extends, RowOk, HistoryInv, CallOk;
    var t := w.calls[c].goal.ticket;
    var w' := AdvanceEnd(w, c, good);
    CallHere(w, c);
    HistoryHere(w);
    RowHere(w, t);
    if w'.db.tickets[t] == w.db.tickets[t] {
      EndSame(w, c, good);
      RowKept(w, w', t);
    } else if w.calls[c].goal.ToApply? {
      AppliedRowOk(w, c, good);
    } else {
      RevokedRowOk(w, c, good);
    }
  }

  lemma EndSame(w: World, c: nat, good: bool)
    requires c in w.calls && (w.calls[c].Succeeded? || w.calls[c].Failed?) && !w.calls[c].goal.ToReapply?
    requires w.calls[c].goal.ticket in w.db.tickets
    requires var t := w.calls[c].goal.ticket; AdvanceEnd(w, c, good).db.tickets[t] == w.db.tickets[t]
    ensures AdvanceEnd(w, c, good).past == w.past
  {
  }

  lemma AppliedRowOk(w: World, c: nat, good: bool)
    requires c in w.calls && (w.calls[c].Succeeded? || w.calls[c].Failed?) && w.calls[c].goal.ToApply?
    requires w.calls[c].goal.ticket in w.db.tickets && RowOk(w, w.calls[c].goal.ticket)
    requires CallOk(w, c, w.calls[c])
    requires var t := w.calls[c].goal.ticket; AdvanceEnd(w, c, good).db.tickets[t] != w.db.tickets[t]
    ensures RowOk(AdvanceEnd(w, c, good), w.calls[c].goal.ticket)
  {
    hide ReceiptOk, RuleId;
  }

  lemma RevokedRowOk(w: World, c: nat, good: bool)
    requires c in w.calls && (w.calls[c].Succeeded? || w.calls[c].Failed?) && w.calls[c].goal.ToRevoke?
    requires w.calls[c].goal.ticket in w.db.tickets && RowOk(w, w.calls[c].goal.ticket)
    requires CallOk(w, c, w.calls[c]) && Extends(w, AdvanceEnd(w, c, good))
    requires var t := w.calls[c].goal.ticket; AdvanceEnd(w, c, good).db.tickets[t] != w.db.tickets[t]
    ensures RowOk(AdvanceEnd(w, c, good), w.calls[c].goal.ticket)
  {
    hide ReceiptOk, RuleId, Extends;
    var t := w.calls[c].goal.ticket;
    if w.calls[c].Succeeded? && w.past.looked[t] {
      ReceiptKept(w, AdvanceEnd(w, c, good), t, w.calls[c].receipt.value);
    }
  }

  lemma EndKeys(db: Db, txn: Txn, commits: bool)
    requires !txn.Submit? && !OfCatalog(txn)
    ensures After(db, txn, commits).tickets.Keys == db.tickets.Keys
  {
    hide Listed;
    var db' := After(db, txn, commits);
    if db' != db {
      var t := Subject(db, txn);
      assert db'.tickets == db.tickets[t := db'.tickets[t]];
    }
  }

  /** The transaction that ends a call. */
  function EndTxn(call: Call): Txn
    requires (call.Succeeded? || call.Failed?) && !call.goal.ToReapply?
  {
    match call
    case Succeeded(ToApply(t, agent, expires), _) => Activate(t, agent, expires)
    case Succeeded(ToRevoke(t), _) => FinishRevoke(t)
    case Failed(ToApply(t, _, _)) => FailApply(t)
    case Failed(ToRevoke(t)) => DeferRevoke(t)
  }

  lemma AdvanceEndKeeps(w: World, c: nat, good: bool)
    requires Inv(w) && c in w.calls && (w.calls[c].Succeeded? || w.calls[c].Failed?)
    ensures Inv(AdvanceEnd(w, c, good))
  {
    hide Inv, Extends, Still, RowOk, TablesInv, Audited, Wrote, After, Subject, AdvanceEnd, EndTxn;
    var call := w.calls[c];
    if call.goal.ToReapply? {
      ReapplyEnds(w, c, good);
      DropKeeps(w, c);
    } else {
      var txn := EndTxn(call);
      var w' := AdvanceEnd(w, c, good);
      NotYetClosed(w, call.goal.ticket);
      EndWrote(w, c, good);
      EndKeys(w.db, txn, good);
      WroteExtends(w, w', c, txn, good);
      if call.goal.ticket in w.db.tickets {
        EndRowOk(w, c, good);
      }
      EndKeeps(w, w', c, txn, good);
    }
  }

  lemma ReapplyEnds(w: World, c: nat, good: bool)
    requires c in w.calls && (w.calls[c].Succeeded? || w.calls[c].Failed?) && w.calls[c].goal.ToReapply?
    ensures AdvanceEnd(w, c, good) == Drop(w, c)
  {
  }

  lemma NotYetClosed(w: World, t: nat)
    requires Inv(w)
    ensures t in w.db.tickets && w.db.tickets[t].status == Revoking ==> t !in w.past.closing
  {
    hide Inv, RowOk, HistoryInv;
    HistoryHere(w);
    if t in w.db.tickets {
      RowHere(w, t);
      if t in w.past.closing {
        ClosingIsClosed(w, t);
      }
    }
  }

  lemma ClosingIsClosed(w: World, t: nat)
    requires t in w.db.tickets && RowOk(w, t) && t in w.past.closing
    ensures w.db.tickets[t].status == Closed
  {
    hide ReceiptOk;
  }

  /** The transaction at the end of a call is recorded as a write of its ticket. */
  ghost predicate EndRecorded(w: World, w': World, c: nat, good: bool)
    requires c in w.calls && (w.calls[c].Succeeded? || w.calls[c].Failed?) && !w.calls[c].goal.ToReapply?
  {
    var txn := EndTxn(w.calls[c]);
    && Wrote(w, w', c, txn, good) && c !in w'.calls
    && w'.past == w.past.(closing := w'.past.closing)
    && (forall k :: k in w'.past.closing ==> k in w.past.closing || k in w.db.tickets)
    && Subject(w.db, txn) == w.calls[c].goal.ticket && !txn.Submit? && !OfCatalog(txn)
  }

  lemma EndWrote(w: World, c: nat, good: bool)
    requires c in w.calls && (w.calls[c].Succeeded? || w.calls[c].Failed?) && !w.calls[c].goal.ToReapply?
    requires var t := w.calls[c].goal.ticket; t in w.db.tickets && w.db.tickets[t].status == Revoking ==> t !in w.past.closing
    ensures EndRecorded(w, AdvanceEnd(w, c, good), c, good)
  {
    hide EndRecorded, AdvanceEnd;
    if w.calls[c].goal.ToRevoke? && w.calls[c].Succeeded? {
      ClosingWrote(w, c, good);
    } else {
      OtherEndWrote(w, c, good);
    }
  }

  lemma OtherEndWrote(w: World, c: nat, good: bool)
    requires c in w.calls && (w.calls[c].Succeeded? || w.calls[c].Failed?) && !w.calls[c].goal.ToReapply?
    requires !(w.calls[c].goal.ToRevoke? && w.calls[c].Succeeded?)
    ensures EndRecorded(w, AdvanceEnd(w, c, good), c, good)
  {
    hide After, Exec;
  }

  lemma ClosingWrote(w: World, c: nat, good: bool)
    requires c in w.calls && w.calls[c].Succeeded? && w.calls[c].goal.ToRevoke?
    requires var t := w.calls[c].goal.ticket; t in w.db.tickets && w.db.tickets[t].status == Revoking ==> t !in w.past.closing
    ensures EndRecorded(w, AdvanceEnd(w, c, good), c, good)
  {
    hide After, Exec;
    FinishedFrom(w.db, w.calls[c].goal.ticket);
  }

  lemma FinishedFrom(db: Db, t: nat)
    ensures Exec(db, FinishRevoke(t)).Success? ==> t in db.tickets && db.tickets[t].status == Revoking
  {
  }

  // ---- the steps that begin a call, and transactions on their own ----

  lemma ApprovedWrote(w: World, t: nat, approver: int)
    requires Exec(w.db, Approve(t, approver)).Success? && Bookkeeping(w) && RowOk(w, t)
    ensures Wrote(w, BeginCall(w, StartApprove(t, approver, true)), w.nextCall, Approve(t, approver), true)
  {
    hide Listed, ReceiptOk;
  }

  lemma ApprovedCall(w: World, t: nat, approver: int)
    requires Exec(w.db, Approve(t, approver)).Success? && Bookkeeping(w) && RowOk(w, t)
    ensures CallOk(BeginCall(w, StartApprove(t, approver, true)), w.nextCall, ApplyAt(t))
  {
    hide Listed, ReceiptOk;
  }

  lemma ApprovedRecord(w: World, t: nat, approver: int)
    requires Exec(w.db, Approve(t, approver)).Success? && Bookkeeping(w) && RowOk(w, t)
    ensures var w' := BeginCall(w, StartApprove(t, approver, true));
      && Wrote(w, w', w.nextCall, Approve(t, approver), true)
      && RowOk(w', t) && CallOk(w', w.nextCall, ApplyAt(t))
  {
    hide Listed, ReceiptOk, Wrote, CallOk;
    ApprovedWrote(w, t, approver);
    ApprovedCall(w, t, approver);
  }

  lemma ApprovedBooks(w: World, t: nat, approver: int)
    requires Exec(w.db, Approve(t, approver)).Success? && Bookkeeping(w) && RowOk(w, t)
    ensures Bookkeeping(BeginCall(w, StartApprove(t, approver, true)))
  {
    hide Listed, ReceiptOk;
    EndKeys(w.db, Approve(t, approver), true);
    assert forall k :: k in w.db.tickets <==> k in After(w.db, Approve(t, approver), true).tickets.Keys;
  }

  lemma StartApproveKeeps(w: World, t: nat, approver: int, commits: bool)
    requires Inv(w)
    ensures Inv(BeginCall(w, StartApprove(t, approver, commits)))
  {
    var e := StartApprove(t, approver, commits);
    hide Inv, Extends, Still, TablesInv, Audited, Listed, RowOk, Wrote, Bookkeeping, CallOk, HistoryInv;
    if commits && Exec(w.db, Approve(t, approver)).Success? {
      var w' := BeginCall(w, e);
      HistoryHere(w);
      RowHere(w, t);
      BookkeepingHere(w);
      ApprovedRecord(w, t, approver);
      ApprovedBooks(w, t, approver);
      WroteExtends(w, w', w.nextCall, Approve(t, approver), commits);
      WriteKeeps(w, w', w.nextCall, Approve(t, approver), commits);
    } else {
      assert BeginCall(w, e) == w;
    }
  }

  lemma RevokingWrote(w: World, t: nat)
    requires Exec(w.db, BeginRevoke(t)).Success? && Bookkeeping(w) && RowOk(w, t)
    ensures Wrote(w, BeginCall(w, StartRevoke(t, true)), w.nextCall, BeginRevoke(t), true)
  {
    hide ReceiptOk;
  }

  lemma RevokingRecord(w: World, t: nat)
    requires Exec(w.db, BeginRevoke(t)).Success? && Bookkeeping(w) && RowOk(w, t)
    ensures var w' := BeginCall(w, StartRevoke(t, true));
      && Wrote(w, w', w.nextCall, BeginRevoke(t), true)
      && RowOk(w', t) && CallOk(w', w.nextCall, RevokeAt(t))
  {
    hide ReceiptOk, Wrote, CallOk;
    RevokingWrote(w, t);
    RevokingCall(w, t);
  }

  lemma RevokingCall(w: World, t: nat)
    requires Exec(w.db, BeginRevoke(t)).Success? && Bookkeeping(w) && RowOk(w, t)
    ensures CallOk(BeginCall(w, StartRevoke(t, true)), w.nextCall, RevokeAt(t))
  {
    hide ReceiptOk;
  }

  lemma RevokingBooks(w: World, t: nat)
    requires Exec(w.db, BeginRevoke(t)).Success? && Bookkeeping(w) && RowOk(w, t)
    ensures Bookkeeping(BeginCall(w, StartRevoke(t, true)))
  {
    hide ReceiptOk;
    EndKeys(w.db, BeginRevoke(t), true);
    assert forall k :: k in w.db.tickets <==> k in After(w.db, BeginRevoke(t), true).tickets.Keys;
  }

  lemma StartRevokeKeeps(w: World, t: nat, commits: bool)
    requires Inv(w)
    ensures Inv(BeginCall(w, StartRevoke(t, commits)))
  {
    var e := StartRevoke(t, commits);
    hide Inv, Extends, Still, TablesInv, Audited, RowOk, Wrote, Bookkeeping, CallOk, HistoryInv;
    if commits && Exec(w.db, BeginRevoke(t)).Success? {
      var w' := BeginCall(w, e);
      HistoryHere(w);
      RowHere(w, t);
      BookkeepingHere(w);
      RevokingRecord(w, t);
      RevokingBooks(w, t);
      WroteExtends(w, w', w.nextCall, BeginRevoke(t), commits);
      WriteKeeps(w, w', w.nextCall, BeginRevoke(t), commits);
    } else {
      assert BeginCall(w, e) == w;
    }
  }

  lemma ReapplyRecord(w: World, t: nat)
    requires t in w.db.tickets && LiveAt(w.db.tickets[t], w.now) && RowOk(w, t)
    ensures CallOk(BeginCall(w, StartReapply(t)), w.nextCall, ReapplyAt(t, w.db.tickets[t]))
  {
    hide ReceiptOk;
  }

  lemma SpawnExtends(w: World, call: Call)
    ensures Extends(w, Spawn(w, call)) && forall k :: Still(w, Spawn(w, call), k)
  {
    EvolvesReflexive(w.db);
    hide Evolves;
    forall k ensures Still(w, Spawn(w, call), k) {
    }
  }

  lemma StartReapplyKeeps(w: World, t: nat)
    requires Inv(w)
    ensures Inv(BeginCall(w, StartReapply(t)))
  {
    hide Inv, GrantOk, LinkOk, LinkInv, RowOk, HistoryInv, TablesInv, Audited, Extends, Still, CallOk;
    if t in w.db.tickets && LiveAt(w.db.tickets[t], w.now) {
      var w' := BeginCall(w, StartReapply(t));
      HistoryHere(w);
      RowHere(w, t);
      ReapplyRecord(w, t);
      SpawnExtends(w, ReapplyAt(t, w.db.tickets[t]));
      HistoryHolders(w);
      HistoryKept(w, w');
      TablesHere(w);
      CallMoveKeeps(w, w', w.nextCall);
    }
  }

  lemma DatabaseKeeps(w: World, txn: Txn, commits: bool)
    requires Inv(w) && StandsAlone(txn)
    ensures Inv(w.(db := After(w.db, txn, commits)))
  {
    hide Inv, Extends, Still, Wrote, HistoryInv, Bookkeeping, TablesInv, Audited, RowOk, After, Subject, StandsAlone;
    var w' := w.(db := After(w.db, txn, commits));
    HistoryHere(w);
    BookkeepingHere(w);
    TablesHere(w);
    AloneWrote(w, txn, commits);
    WroteExtends(w, w', w.nextCall, txn, commits);
    AloneRowOk(w, txn, commits);
    AloneBookkeeping(w, w', txn, commits);
    NoSuchCall(w);
    WriteKeeps(w, w', w.nextCall, txn, commits);
  }

  lemma AloneWrote(w: World, txn: Txn, commits: bool)
    ensures Wrote(w, w.(db := After(w.db, txn, commits)), w.nextCall, txn, commits)
  {
    hide After, Subject;
  }

  lemma NoSuchCall(w: World)
    requires Inv(w)
    ensures w.nextCall !in w.calls
  {
    hide Inv;
    HistoryHolders(w);
  }

  lemma AloneRowOk(w: World, txn: Txn, commits: bool)
    requires HistoryInv(w) && TablesInv(w.db) && StandsAlone(txn)
    ensures var t := Subject(w.db, txn);
      t in After(w.db, txn, commits).tickets ==> RowOk(w.(db := After(w.db, txn, commits)), t)
  {
    hide Listed, TicketInv, GrantOk, ReceiptOk, Catalogued, Placeable;
    var t := Subject(w.db, txn);
    if t in w.db.tickets {
      assert RowOk(w, t);
    }
  }

  lemma AloneBookkeeping(w: World, w': World, txn: Txn, commits: bool)
    requires Bookkeeping(w) && StandsAlone(txn) && w' == w.(db := After(w.db, txn, commits))
    ensures Bookkeeping(w')
  {
    hide Listed;
    assert forall t :: t in w.db.tickets ==> t in w'.db.tickets;
  }

  /** Every step of the system keeps the invariant. */
  lemma StepKeeps(w: World, e: Event)
    requires Inv(w)
    ensures Inv(Step(w, e))
  {
    hide Inv, AgentStep, BeginCall, AdvanceApply, AdvanceRevoke, AdvanceGateway, AdvanceEnd, Route, After, Drop;
    match e {
      case Database(txn, commits) => if StandsAlone(txn) { DatabaseKeeps(w, txn, commits); }
      case StartApprove(t, approver, commits) => StartApproveKeeps(w, t, approver, commits);
      case StartRevoke(t, commits) => StartRevokeKeeps(w, t, commits);
      case StartReapply(t) => StartReapplyKeeps(w, t);
      case Advance(c, good) => if c in w.calls { AdvanceKeeps(w, c, good); }
      case RouteAck(link) => if link < |w.links| && w.links[link].replies != [] { RouteKeepsWorld(w, link); }
      case Abandon(_) | ServerCrash | ControlReturns(_) | Tick(_) => LossKeeps(w, e);
      case _ => AgentStepKeeps(w, e);
    }
  }

  lemma AdvanceKeeps(w: World, c: nat, good: bool)
    requires Inv(w) && c in w.calls
    ensures Inv(AdvanceCall(w, c, good))
  {
    hide Inv, AdvanceApply, AdvanceRevoke, AdvanceGateway, AdvanceEnd;
    match w.calls[c] {
      case ApplyAt(_) | ApplyRow(_, _) | ApplyAgent(_, _, _) | ReapplyAt(_, _) | ReapplyBound(_, _, _) => AdvanceApplyKeeps(w, c, good);
      case RevokeAt(_) => AdvanceRevokeKeeps(w, c, good);
      case Succeeded(_, _) | Failed(_) => AdvanceEndKeeps(w, c, good);
      case Connecting(_, _, _) => ConnectingKeeps(w, c, good);
      case Sending(_, _, _, _) => IssueKeeps(w, c, good);
      case Enqueuing(_, _, _, _) => EnqueueingKeeps(w, c, good);
      case Awaiting(_, _, _, _) => AwaitingKeeps(w, c, good);
    }
  }

  /** Every state of every run satisfies the invariant. */
  lemma {:induction false} RunKeeps(now: int, srcPeerIPs: seq<string>, events: seq<Event>)
    ensures Inv(Run(Start(now, srcPeerIPs), events))
  {
    if events != [] {
      hide Inv;
      RunKeeps(now, srcPeerIPs, events[..|events| - 1]);
      StepKeeps(Run(Start(now, srcPeerIPs), events[..|events| - 1]), events[|events| - 1]);
    }
  }
}
