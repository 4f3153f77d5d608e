/** Live web shell sessions, at most one per ticket, and their forced close. */
module Sessions {

  datatype Row = Allocated | Running | Ended(reason: string)

  /** How far opening a session gets: the SSH dial fails, the recorder fails after the row was written, or all works. */
  datatype Dial = NoShell | NoRecorder | Works

  class Session {
    const id: nat
    const ticket: nat
    var closed: bool
    var reason: string

    constructor (id: nat, ticket: nat)
      ensures this.id == id && this.ticket == ticket && !closed
    {
      this.id, this.ticket, closed, reason := id, ticket, false, "";
    }
  }

  class Manager {
    /** Whether the updates that set row k running and closed succeed; their errors are ignored. */
    const marks: nat -> bool
    const ends: nat -> bool
    var sessions: map<nat, Session>
    var rows: map<nat, Row>
    var next: nat
    ghost var known: set<Session>
    ghost var owner: map<nat, Session>

    ghost predicate SessionOk(s: Session)
      reads this, s
    {
      && s.id < next && s.id in rows && s.id in owner && owner[s.id] == s
      && rows[s.id] == (if s.closed && ends(s.id) then Ended(s.reason) else if marks(s.id) then Running else Allocated)
      && (!s.closed ==> s.ticket in sessions && sessions[s.ticket] == s)
    }

    /** The map holds exactly the sessions that are not closed; their rows say so as far as the updates succeeded. */
    ghost predicate Valid()
      reads this, known
    {
      && (forall s {:trigger SessionOk(s)} :: s in known ==> SessionOk(s))
      && (forall t :: t in sessions ==> sessions[t] in known && sessions[t].ticket == t && !sessions[t].closed)
      && (forall k :: k in rows ==> k < next)
    }

    constructor (marks: nat -> bool, ends: nat -> bool)
      ensures Valid() && sessions == map[] && known == {} && this.marks == marks && this.ends == ends
    {
      this.marks, this.ends := marks, ends;
      sessions, rows, next, known, owner := map[], map[], 1, {}, map[];
    }

    /** The existing session of the ticket, or a new one; null when it cannot be known. */
    method OpenForTicket(ticket: nat, frozen: seq<int>, ports: seq<int>, dial: Dial) returns (s: Session?)
      requires Valid()
      modifies this
      ensures Valid() && old(known) <= known && fresh(known - old(known))
      ensures ticket in old(sessions) ==> s == old(sessions)[ticket] && sessions == old(sessions) && rows == old(rows)
      ensures ticket !in old(sessions) ==>
        if frozen == [] || ports == [] || dial != Works then s == null && sessions == old(sessions)
        else s != null && fresh(s) && s.ticket == ticket && s.id == old(next) && !s.closed
             && sessions == old(sessions)[ticket := s]
      ensures ticket !in old(sessions) ==>
        rows == if frozen == [] || ports == [] || dial == NoShell then old(rows)
                else old(rows)[old(next) := if dial == Works && marks(old(next)) then Running else Allocated]
    {
      if ticket in sessions {
        return sessions[ticket];
      }
      if |frozen| == 0 || |ports| == 0 || dial == NoShell {
        return null;
      }
      var id := next;
      next := next + 1;
      rows := rows[id := Allocated];
      forall o | o in known ensures SessionOk(o) && o.id != id { assert old(SessionOk(o)); }
      if dial == NoRecorder {
        return null;
      }
      s := Admit(id, ticket);
    }

    /** A session with a fresh row is marked running, if that update succeeds, and entered in the map. */
    method Admit(id: nat, ticket: nat) returns (s: Session)
      requires id + 1 == next && id in rows && rows[id] == Allocated && ticket !in sessions
      requires forall o {:trigger SessionOk(o)} :: o in known ==> SessionOk(o) && o.id != id
      requires Valid()
      modifies this
      ensures Valid() && fresh(s) && s.ticket == ticket && s.id == id && !s.closed && known == old(known) + {s}
      ensures sessions == old(sessions)[ticket := s]
      ensures rows == if marks(id) then old(rows)[id := Running] else old(rows)
    {
      s := new Session(id, ticket);
      if marks(id) {
        rows := rows[id := Running];
      }
      sessions := sessions[ticket := s];
      known, owner := known + {s}, owner[id := s];
      forall o | o in known ensures SessionOk(o) { assert o == s || old(SessionOk(o)); }
    }

    /** Tears a session down once; later calls change nothing, so the first reason stays. */
    method Close(s: Session, reason: string)
      requires Valid() && s in known
      modifies this, s
      ensures Valid() && known == old(known) && s.closed
      ensures old(s.closed) ==> sessions == old(sessions) && rows == old(rows) && s.reason == old(s.reason)
      ensures !old(s.closed) ==>
        && s.reason == reason && sessions == old(sessions) - {s.ticket}
        && rows == if ends(s.id) then old(rows)[s.id := Ended(reason)] else old(rows)
    {
      if s.closed {
        return;
      }
      assert SessionOk(s);
      s.reason := reason;
      s.closed := true;
      sessions := sessions - {s.ticket};
      if ends(s.id) {
        rows := rows[s.id := Ended(reason)];
      }
      forall o | o in known ensures SessionOk(o) { assert old(SessionOk(o)); }
    }

    /** Afterwards no session of the ticket is open, and no other ticket's session was touched. */
    method ForceCloseByTicket(ticket: nat, reason: string)
      requires Valid()
      modifies this, known
      ensures Valid() && known == old(known)
      ensures sessions == old(sessions) - {ticket}
      ensures ticket !in old(sessions) ==> rows == old(rows)
      ensures ticket in old(sessions) ==>
        var s := old(sessions)[ticket];
        s.closed && s.reason == reason && rows == if ends(s.id) then old(rows)[s.id := Ended(reason)] else old(rows)
      ensures forall s :: s in known && s.ticket == ticket ==> s.closed
      ensures forall s :: s in known && s.ticket != ticket ==> unchanged(s)
    {
      if ticket in sessions {
        Close(sessions[ticket], reason);
      }
      forall s | s in known && s.ticket == ticket ensures s.closed { assert SessionOk(s); }
    }
  }
}
