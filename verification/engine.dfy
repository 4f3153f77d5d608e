/** The policy engine: its tables, its cache of forwarder addresses, and the calls that move tickets on. */
module Engines {
  import opened Wrappers
  import opened RuleIds
  import opened Store
  import opened Forwarding
  import opened Gateways
  import opened Sessions
  import opened EngineSpec

  class Engine {
    const gw: Controller
    const closer: Manager
    var db: Db
    var forwards: map<nat, string>
    var txs: nat
    ghost var grants: map<nat, Grant>
    ghost var stale: set<int>

    ghost predicate Valid()
      reads this, closer, closer.known
    {
      closer.Valid()
    }

    ghost function Abs(): Sys
      reads this, gw, closer
    {
      Sys(gw.Abs(), db, forwards, txs, closer.sessions.Keys, grants, stale)
    }

    constructor (gw: Controller, closer: Manager)
      requires closer.Valid()
      ensures Valid() && this.gw == gw && this.closer == closer
      ensures Abs() == Sys(gw.Abs(), EmptyDb(), map[], 0, closer.sessions.Keys, map[], {})
    {
      this.gw, this.closer := gw, closer;
      db, forwards, txs, grants, stale := EmptyDb(), map[], 0, map[], {};
    }

    /** A guarded status change with its audit row, in one transaction that may fail. */
    method Transition(txn: Txn) returns (outcome: Outcome)
      modifies this
      ensures (Abs(), outcome) == Transact(old(Abs()), gw.env, txn)
    {
      var commits := gw.env.commits(txs);
      txs := txs + 1;
      if !commits {
        return Some(Database);
      }
      var r := Exec(db, txn);
      if r.Failure? {
        return Some(r.error);
      }
      db := r.value;
      return None;
    }

    method Submit(input: SubmitInput) returns (outcome: Outcome)
      modifies this
      ensures (Abs(), outcome) == Transact(old(Abs()), gw.env, Txn.Submit(input))
      ensures outcome.None? <==>
        && input.reason != "" && 60 <= input.duration <= 86400 && input.assets != [] && input.ports != []
        && input.project in old(db).projects && gw.env.commits(old(txs))
      ensures outcome.None? ==>
        var id := old(db).next;
        && db.tickets == old(db).tickets[id := Ticket(input.requester, None, input.project, input.assets, [], input.ports,
                                                      input.duration, Pending, None)]
        && db == old(db).(tickets := db.tickets, next := id + 1, audit := old(db).audit + [AuditRow(id, TicketSubmit)])
      ensures outcome.Some? ==> db == old(db)
      ensures forwards == old(forwards) && txs == old(txs) + 1
    {
      outcome := Transition(Txn.Submit(input));
    }

    method Approve(id: nat, approver: int) returns (outcome: Outcome)
      modifies this, gw
      ensures (Abs(), outcome) == ApproveCall(old(Abs()), gw.env, id, approver)
    {
      outcome := Transition(Txn.Approve(id, approver));
      if outcome.None? {
        outcome := Apply(id);
      }
    }

    method Reject(id: nat, approver: int) returns (outcome: Outcome)
      modifies this
      ensures (Abs(), outcome) == Transact(old(Abs()), gw.env, Txn.Reject(id, approver))
      ensures outcome.None? <==>
        && id in old(db).tickets && old(db).tickets[id].status == Pending && old(db).tickets[id].requester != approver
        && gw.env.commits(old(txs))
      ensures outcome.None? ==>
        db == old(db).(tickets := old(db).tickets[id := old(db).tickets[id].(status := Rejected)],
                       audit := old(db).audit + [AuditRow(id, TicketReject)])
      ensures outcome.Some? ==> db == old(db)
      ensures forwards == old(forwards) && txs == old(txs) + 1
    {
      outcome := Transition(Txn.Reject(id, approver));
    }

    method Apply(id: nat) returns (outcome: Outcome)
      modifies this, gw
      ensures (Abs(), outcome) == ApplyCall(old(Abs()), gw.env, id)
    {
      if id !in db.tickets {
        return Some(NotFound);
      }
      var t := db.tickets[id];
      if t.status != Approved {
        return Some(Conflict);
      }
      var agent := PrimaryOf(db, t.project);
      if agent.None? {
        return Some(Validation);
      }
      var targets := TargetsOf(db, t);
      var expires := gw.now + t.duration;
      grants := grants[id := Grant(agent.value, targets, gw.now, expires)];
      var forward := gw.ApplyRule(agent.value, RuleId(id), targets, Some(expires), closer.sessions.Keys);
      if forward.None? {
        var _ := Transition(FailApply(id));
        return Some(Gateway);
      }
      forwards := forwards[id := forward.value];
      outcome := Transition(Activate(id, agent.value, expires));
    }

    method Revoke(id: nat, reason: string) returns (outcome: Outcome)
      requires Valid()
      modifies this, gw, closer, closer.known
      ensures Valid() && closer.known == old(closer.known)
      ensures (Abs(), outcome) == RevokeCall(old(Abs()), gw.env, id)
    {
      outcome := Transition(BeginRevoke(id));
      if outcome.Some? {
        return;
      }
      closer.ForceCloseByTicket(id, "ticket " + reason);
      if id in db.bindings {
        var answer := gw.RevokeRule(db.bindings[id].agent, db.bindings[id].ruleId, closer.sessions.Keys);
        if answer.None? {
          var _ := Transition(DeferRevoke(id));
          return Some(Gateway);
        }
      }
      forwards := forwards - {id};
      outcome := Transition(FinishRevoke(id));
    }

    method ExpireDue() returns (n: nat)
      requires Valid()
      modifies this, gw, closer, closer.known
      ensures Valid() && closer.known == old(closer.known)
      ensures (Abs(), n) == ExpireDueCall(old(Abs()), gw.env)
    {
      var due := Ids(db, gw.now, true, db.next);
      n := 0;
      var i := 0;
      while i < |due|
        invariant 0 <= i <= |due| && Valid() && closer.known == old(closer.known)
        invariant RevokeEach(Abs(), gw.env, due[i..]).0 == ExpireDueCall(old(Abs()), gw.env).0
        invariant n + RevokeEach(Abs(), gw.env, due[i..]).1 == ExpireDueCall(old(Abs()), gw.env).1
      {
        assert due[i..][0] == due[i] && due[i..][1..] == due[i + 1..];
        var outcome := Revoke(due[i], "expired");
        if outcome.None? {
          n := n + 1;
        }
        i := i + 1;
      }
    }

    method RebuildForwards() returns (n: nat)
      modifies this, gw
      ensures (Abs(), n) == RebuildCall(old(Abs()), gw.env)
    {
      var active := Ids(db, gw.now, false, db.next);
      IdsListed(db, gw.now, false, db.next);
      n := 0;
      var i := 0;
      while i < |active|
        invariant 0 <= i <= |active| && db == old(db)
        invariant RebuildEach(Abs(), gw.env, active[i..]).0 == RebuildCall(old(Abs()), gw.env).0
        invariant n + RebuildEach(Abs(), gw.env, active[i..]).1 == RebuildCall(old(Abs()), gw.env).1
      {
        assert active[i..][0] == active[i] && active[i..][1..] == active[i + 1..];
        if active[i] !in forwards {
          var forward := Reapply(active[i]);
          if forward.Some? {
            forwards := forwards[active[i] := forward.value];
            n := n + 1;
          }
        }
        i := i + 1;
      }
    }

    method Reapply(id: nat) returns (forward: Option<string>)
      requires id in db.tickets
      modifies gw
      ensures (Abs(), forward) == EngineSpec.Reapply(old(Abs()), gw.env, id)
    {
      if id !in db.bindings {
        return None;
      }
      var t, b := db.tickets[id], db.bindings[id];
      forward := gw.ApplyRule(b.agent, b.ruleId, TargetsOf(db, t), t.expires, closer.sessions.Keys);
    }

    method OnAgentReconnect(agent: int)
      modifies this, gw
      ensures Abs() == ReconnectCall(old(Abs()), gw.env, agent)
    {
      var active := Ids(db, gw.now, false, db.next);
      stale := stale - {agent};
      var cleared := 0;
      var i := 0;
      while i < |active|
        invariant 0 <= i <= |active|
        invariant db == old(db) && txs == old(txs) && grants == old(grants) && stale == old(stale) - {agent}
        invariant gw.Abs() == old(gw.Abs())
        invariant forwards == old(forwards) - BoundTo(db, agent, active[..i])
        invariant cleared == 0 <==> BoundTo(db, agent, active[..i]) == {}
        invariant cleared >= 0
      {
        var id := active[i];
        assert active[..i + 1] == active[..i] + [id];
        if id in db.bindings && db.bindings[id].agent == agent {
          assert BoundTo(db, agent, active[..i + 1]) == BoundTo(db, agent, active[..i]) + {id};
          assert id in BoundTo(db, agent, active[..i + 1]);
          forwards := forwards - {id};
          cleared := cleared + 1;
        } else {
          assert BoundTo(db, agent, active[..i + 1]) == BoundTo(db, agent, active[..i]);
        }
        i := i + 1;
      }
      assert active[..i] == active;
      if cleared == 0 {
        assert forwards == old(forwards) - BoundTo(db, agent, active);
        return;
      }
      assert forwards == old(forwards) - BoundTo(db, agent, active);
      var _ := RebuildForwards();
    }

    /** The scheduler's pass: expire what is due, then rebuild what is unknown. */
    method SchedulerPass()
      requires Valid()
      modifies this, gw, closer, closer.known
      ensures Valid() && closer.known == old(closer.known)
      ensures Abs() == RebuildCall(ExpireDueCall(old(Abs()), gw.env).0, gw.env).0
    {
      var _ := ExpireDue();
      var _ := RebuildForwards();
    }
  }
}
