/** What stays true of a world when the rest of it only moves on. */
module WorldFrames {
  import opened Wrappers
  import opened RuleIds
  import opened Store
  import opened Forwarding
  import opened Links
  import opened Worlds

  ghost predicate Sub<K, V>(m: map<K, V>, m': map<K, V>) {
    forall k :: k in m ==> k in m' && m'[k] == m[k]
  }

  ghost predicate LinkExtends(l: Link, l': Link) {
    l'.agent == l.agent && l.sent <= l'.sent && l.done <= l'.done
  }

  ghost predicate PastExtends(h: History, h': History) {
    && Sub(h.owner, h'.owner) && Sub(h.chosen, h'.chosen) && Sub(h.grants, h'.grants) && Sub(h.revoker, h'.revoker)
    && Sub(h.began, h'.began) && Sub(h.looked, h'.looked) && Sub(h.holder, h'.holder)
    && Sub(h.closing, h'.closing) && h.starts <= h'.starts
  }

  /** Nothing recorded is lost or rewritten. */
  ghost predicate Extends(w: World, w': World) {
    && Evolves(w.db, w'.db) && w'.srcPeerIPs == w.srcPeerIPs
    && w.now <= w'.now && w.nextCall <= w'.nextCall && w.nextCmd <= w'.nextCmd
    && PastExtends(w.past, w'.past)
    && |w.links| <= |w'.links| && forall i :: 0 <= i < |w.links| ==> LinkExtends(w.links[i], w'.links[i])
  }

  lemma EvolvesReflexive(db: Db)
    ensures Evolves(db, db)
  {
  }

  lemma AimedKept(db: Db, db': Db, t: nat, target: Target)
    requires Evolves(db, db') && Aimed(db, t, target) && WasApproved(db.tickets[t].status)
    ensures Aimed(db', t, target)
  {
    TargetsOnlyExtended(db, db', t);
    hide TargetsOf;
    var x :| x in TargetsOf(db, db.tickets[t]) && target == OnWire(x);
    assert x in TargetsOf(db', db'.tickets[t]);
  }

  lemma RowApproved(w: World, t: nat)
    requires HistoryInv(w) && t in w.past.grants
    ensures t in w.db.tickets && WasApproved(w.db.tickets[t].status)
  {
    hide TargetsOf;
    assert GrantOk(w, t);
  }

  lemma CmdKept(w: World, w': World, agent: int, cmd: Command)
    requires HistoryInv(w) && Extends(w, w') && CmdOk(w, agent, cmd)
    ensures CmdOk(w', agent, cmd)
  {
    hide TargetsOf, RuleId, TicketOf, GrantOk, RowOk, Aimed, RowEvolves;
    var t := TicketOf(cmd.rule);
    if cmd.Apply? {
      RowApproved(w, t);
      AimedKept(w.db, w'.db, t, cmd.target);
    }
  }

  lemma EntryKept(w: World, w': World, agent: int, rule: string, e: Entry)
    requires HistoryInv(w) && Extends(w, w') && EntryOk(w, agent, rule, e)
    ensures EntryOk(w', agent, rule, e)
  {
    hide TargetsOf, RuleId, TicketOf, GrantOk, RowOk, Aimed, RowEvolves;
    RowApproved(w, TicketOf(rule));
    AimedKept(w.db, w'.db, TicketOf(rule), e.target);
  }

  lemma ReceiptKept(w: World, w': World, t: nat, r: Receipt)
    requires Extends(w, w') && ReceiptOk(w, t, r)
    ensures ReceiptOk(w', t, r)
  {
    hide Evolves, RuleId;
    var l, l' := w.links[r.link], w'.links[r.link];
    assert LinkExtends(l, l');
    var i :| RevokedAt(l, t, r.id, i);
    assert l'.sent[i] == l.sent[i] && l'.done[i] == l.done[i];
    assert RevokedAt(l', t, r.id, i);
  }

  lemma GrantKept(w: World, w': World, t: nat)
    requires Extends(w, w') && t in w.past.grants && GrantOk(w, t)
    ensures t in w'.past.grants && GrantOk(w', t)
  {
    assert RowEvolves(w.db, w'.db, t);
    TargetsOnlyExtended(w.db, w'.db, t);
    hide TargetsOf;
  }

  lemma SnapshotKept(w: World, w': World, t: nat, row: Ticket)
    requires Evolves(w.db, w'.db) && Snapshot(w, t, row)
    ensures Snapshot(w', t, row)
  {
    assert RowEvolves(w.db, w'.db, t);
  }

  /** A row that is as it was, in a world that moved on elsewhere. */
  lemma RowKept(w: World, w': World, t: nat)
    requires Extends(w, w') && t in w.db.tickets && t in w'.db.tickets && RowOk(w, t)
    requires w'.db.tickets[t] == w.db.tickets[t]
    requires t in w'.past.starts ==> t in w.past.starts
    requires t in w'.past.began <==> t in w.past.began
    requires t in w'.past.closing ==> t in w.past.closing
    ensures RowOk(w', t)
  {
    hide RowEvolves, RuleId, ReceiptOk;
    if w.db.tickets[t].status == Closed && w.past.looked[t] {
      ReceiptKept(w, w', t, w.past.closing[t].value);
    }
  }

  /** Call `c` itself has not moved: nothing was recorded in its name and no command id it holds was enqueued. */
  ghost predicate Still(w: World, w': World, c: nat) {
    && (forall t :: t in w.past.owner && w.past.owner[t] == c ==>
          && (t in w'.past.chosen ==> t in w.past.chosen) && (t in w'.past.grants ==> t in w.past.grants))
    && (forall t :: t in w.past.revoker && w.past.revoker[t] == c ==> (t in w'.past.looked ==> t in w.past.looked))
    && (forall i, j :: 0 <= i < |w'.links| && 0 <= j < |w'.links[i].sent| ==>
          || (i < |w.links| && j < |w.links[i].sent|)
          || (w'.links[i].sent[j].id in w.past.holder && w.past.holder[w'.links[i].sent[j].id] != c))
  }

  lemma TodoKept(w: World, w': World, agent: int, goal: Goal, todo: seq<Command>)
    requires HistoryInv(w) && Extends(w, w') && TodoOk(w, agent, goal, todo)
    ensures TodoOk(w', agent, goal, todo)
  {
    hide RuleId, CmdOk, Evolves, HistoryInv;
    forall i | 0 <= i < |todo| ensures CmdOk(w', agent, todo[i]) {
      CmdKept(w, w', agent, todo[i]);
    }
  }

  lemma OnLinkKept(w: World, w': World, c: nat, goal: Goal, link: nat, todo: seq<Command>)
    requires HistoryInv(w) && Extends(w, w') && OnLink(w, c, goal, link, todo)
    ensures OnLink(w', c, goal, link, todo) && link < |w.links|
  {
    hide RuleId, CmdOk, Evolves, HistoryInv, TodoOk;
    assert LinkExtends(w.links[link], w'.links[link]);
    TodoKept(w, w', w.links[link].agent, goal, todo);
  }

  lemma CallKept(w: World, w': World, c: nat, call: Call)
    requires HistoryInv(w) && Extends(w, w') && CallOk(w, c, call) && Still(w, w', c)
    ensures CallOk(w', c, call)
  {
    hide RuleId, CmdOk, Evolves, HistoryInv, TodoOk, OnLink, ReceiptOk, Snapshot;
    match call {
      case ApplyAt(t) =>
      case ApplyRow(t, row) => SnapshotKept(w, w', t, row);
      case ApplyAgent(t, row, agent) => SnapshotKept(w, w', t, row);
      case ReapplyAt(t, row) => SnapshotKept(w, w', t, row);
      case ReapplyBound(t, row, b) => SnapshotKept(w, w', t, row);
      case RevokeAt(t) =>
      case Connecting(goal, agent, todo) => TodoKept(w, w', agent, goal, todo);
      case Sending(goal, link, todo, last) =>
        OnLinkKept(w, w', c, goal, link, todo);
        if goal.ToRevoke? && todo == [] {
          ReceiptKept(w, w', goal.ticket, Receipt(link, last.value));
        }
      case Enqueuing(goal, link, todo, id) =>
        OnLinkKept(w, w', c, goal, link, todo);
        NotYetSent(w, w', c, id);
      case Awaiting(goal, link, todo, id) =>
        OnLinkKept(w, w', c, goal, link, todo);
        StillSent(w, w', c, goal, link, todo, id);
      case Succeeded(goal, receipt) =>
        if goal.ToRevoke? && w.past.looked[goal.ticket] {
          ReceiptKept(w, w', goal.ticket, receipt.value);
        }
      case Failed(goal) =>
    }
  }

  lemma NotYetSent(w: World, w': World, c: nat, id: nat)
    requires Extends(w, w') && Still(w, w', c) && id in w.past.holder && w.past.holder[id] == c
    requires forall i, j :: 0 <= i < |w.links| && 0 <= j < |w.links[i].sent| ==> w.links[i].sent[j].id != id
    ensures forall i, j :: 0 <= i < |w'.links| && 0 <= j < |w'.links[i].sent| ==> w'.links[i].sent[j].id != id
  {
    hide Evolves, PastExtends;
    forall i, j | 0 <= i < |w'.links| && 0 <= j < |w'.links[i].sent| ensures w'.links[i].sent[j].id != id {
      if i < |w.links| && j < |w.links[i].sent| {
        assert LinkExtends(w.links[i], w'.links[i]);
        assert w'.links[i].sent[j] == w.links[i].sent[j];
      }
    }
  }

  lemma StillSent(w: World, w': World, c: nat, goal: Goal, link: nat, todo: seq<Command>, id: nat)
    requires Extends(w, w') && link < |w.links| && todo != []
    requires exists j :: 0 <= j < |w.links[link].sent| && w.links[link].sent[j] == Message(id, todo[0])
    ensures exists j :: 0 <= j < |w'.links[link].sent| && w'.links[link].sent[j] == Message(id, todo[0])
  {
    hide Evolves, PastExtends;
    var j :| 0 <= j < |w.links[link].sent| && w.links[link].sent[j] == Message(id, todo[0]);
    assert LinkExtends(w.links[link], w'.links[link]);
    assert w'.links[link].sent[j] == Message(id, todo[0]);
  }

  lemma LinkKept(w: World, w': World, l: Link)
    requires HistoryInv(w) && Extends(w, w') && LinkOk(w, l)
    ensures LinkOk(w', l)
  {
    hide LinkInv, CmdOk, HistoryInv, Evolves;
    forall i | 0 <= i < |l.sent| ensures MessageOk(w', l.agent, l.sent[i]) {
      assert MessageOk(w, l.agent, l.sent[i]);
      CmdKept(w, w', l.agent, l.sent[i].cmd);
    }
  }

  /** The stream an agent serves has obeyed nothing more and its acks are the same ones. */
  ghost predicate Unobeyed(l: Link, l': Link) {
    && l'.agent == l.agent && l'.done == l.done && l.sent <= l'.sent
    && forall a :: a in l'.routed || a in l'.replies ==> a in l.routed || a in l.replies
  }

  lemma ProcKept(w: World, w': World, agent: int, p: Proc)
    requires HistoryInv(w) && Extends(w, w') && ProcOk(w, agent, p)
    requires p.session.Some? && p.owes.Some? ==> Unobeyed(w.links[p.session.value], w'.links[p.session.value])
    ensures ProcOk(w', agent, p)
  {
    hide EntryOk, HistoryInv, Evolves;
    forall r | r in p.rules ensures EntryOk(w', agent, r, p.rules[r]) {
      EntryKept(w, w', agent, r, p.rules[r]);
    }
    if p.session.Some? {
      assert LinkExtends(w.links[p.session.value], w'.links[p.session.value]);
    }
  }

  // ---- whole parts of the invariant ----

  /** Every other call stayed as it was; call `c`, if it is still there, is good. */
  lemma CallsKept(w: World, w': World, c: nat)
    requires HistoryInv(w) && Extends(w, w') && CallsInv(w)
    requires forall k :: k in w'.calls && k != c ==> k in w.calls && w'.calls[k] == w.calls[k] && Still(w, w', k)
    requires c in w'.calls ==> CallOk(w', c, w'.calls[c])
    ensures CallsInv(w')
  {
    hide HistoryInv, Extends, CallOk, Still;
    forall k | k in w'.calls ensures CallOk(w', k, w'.calls[k]) {
      if k != c {
        CallKept(w, w', k, w.calls[k]);
      }
    }
  }

  lemma LinksKept(w: World, w': World)
    requires HistoryInv(w) && Extends(w, w') && LinksInv(w)
    requires forall i :: 0 <= i < |w'.links| ==> (i < |w.links| && w'.links[i] == w.links[i]) || LinkOk(w', w'.links[i])
    ensures LinksInv(w')
  {
    hide HistoryInv, Extends, LinkOk;
    forall i | 0 <= i < |w'.links| ensures LinkOk(w', w'.links[i]) {
      if i < |w.links| && w'.links[i] == w.links[i] {
        LinkKept(w, w', w.links[i]);
      }
    }
  }

  ghost predicate ProcSame(w: World, w': World, a: int)
    requires a in w'.procs
  {
    && a in w.procs && w'.procs[a] == w.procs[a]
    && (w.procs[a].session.Some? && w.procs[a].owes.Some? && w.procs[a].session.value < |w.links| <= |w'.links| ==>
          Unobeyed(w.links[w.procs[a].session.value], w'.links[w.procs[a].session.value]))
  }

  lemma ProcsKept(w: World, w': World)
    requires HistoryInv(w) && Extends(w, w') && ProcsInv(w)
    requires forall a :: a in w'.procs ==> ProcSame(w, w', a) || ProcOk(w', a, w'.procs[a])
    requires forall a :: a in w'.current ==>
      (a in w.current && w'.current[a] == w.current[a]) || (w'.current[a] < |w'.links| && w'.links[w'.current[a]].agent == a)
    ensures ProcsInv(w')
  {
    hide HistoryInv, Unobeyed;
    forall a | a in w'.procs ensures ProcOk(w', a, w'.procs[a]) {
      if ProcSame(w, w', a) {
        assert ProcOk(w, a, w.procs[a]);
        ProcKept(w, w', a, w.procs[a]);
      }
    }
    forall a | a in w'.current ensures w'.current[a] < |w'.links| && w'.links[w'.current[a]].agent == a {
      if a in w.current && w'.current[a] == w.current[a] {
        assert LinkExtends(w.links[w.current[a]], w'.links[w.current[a]]);
      }
    }
  }

  /** Only time, streams, processes and calls changed: the recorded history is as good as before. */
  lemma HistoryKept(w: World, w': World)
    requires HistoryInv(w) && Extends(w, w') && w'.db == w.db
    requires w'.past == w.past.(holder := w'.past.holder)
    requires forall id :: id in w'.past.holder ==> id < w'.nextCmd
    ensures HistoryInv(w')
  {
    hide Evolves, GrantOk, RowOk;
    forall t | t in w'.past.grants ensures GrantOk(w', t) {
      GrantKept(w, w', t);
    }
    forall t | t in w'.db.tickets ensures RowOk(w', t) {
      RowKept(w, w', t);
    }
  }
}
