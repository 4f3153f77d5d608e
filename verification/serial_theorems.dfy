/** What holds in every serial run. */
module SerialTheorems {
  import opened Wrappers
  import opened RuleIds
  import opened Store
  import opened Forwarding
  import opened Gateways
  import opened EngineSpec
  import opened SerialRuns
  import opened SerialProofs

  // ---- the cache of forwarder addresses ----

  /**
   * Cache coherence: in every serial run, an active unexpired ticket with a cached address
   * has a binding, and unless the bound agent restarted and has not reconnected since, the
   * address is that of the listener that agent now runs for the ticket.
   */
  lemma CacheIsCoherent(now: int, env: Env, events: seq<Event>, id: nat)
    requires PortsNamed(env)
    requires var s := Run(now, env, events); id in s.db.tickets && LiveAt(s.db.tickets[id], s.net.now) && id in s.forwards
    ensures
      var s := Run(now, env, events);
      && id in s.db.bindings
      && var agent := s.db.bindings[id].agent;
         agent !in s.stale ==>
           && agent in s.net.peers && RuleId(id) in s.net.peers[agent].rules
           && s.net.peers[agent].rules[RuleId(id)].addr == s.forwards[id] != ""
           && TargetsOf(s.db, s.db.tickets[id]) != []
           && s.net.peers[agent].rules[RuleId(id)].target == OnWire(TargetsOf(s.db, s.db.tickets[id])[0])
  {
    hide TablesInv, Audited, TargetsOf, RuleId;
    var s := Run(now, env, events);
    RunKeeps(now, env, events);
    assert RowOk(s, id) && CacheOk(s, id) && GrantOk(s, id);
    var agent := s.db.bindings[id].agent;
    if agent !in s.stale {
      EntryOfTicket(s, env, agent, id);
    }
  }

  // ---- applying ----

  /** The project's primary agent that may receive rules. */
  ghost predicate HasPrimary(db: Db, project: int, agent: int) {
    project in db.primaries && db.primaries[project] == Primary(agent, true)
  }

  /**
   * How one Apply of an approved ticket ends, on the tables and the environment alone. Without
   * an approved primary agent nothing changes. With one, the ticket ends active if and only if
   * the agent is connected and accepts and answers every target and the transaction commits;
   * it ends apply_failed if and only if it does not and the transaction commits. An active
   * ticket has the binding and the expiry of this very Apply, and the address that came back
   * is cached whenever the agent answered.
   */
  ghost predicate Applied(s: Sys, s': Sys, env: Env, txs: nat, id: nat, t: Ticket, targets: seq<Target>, outcome: Outcome) {
    && id in s'.db.tickets && (forall k :: k != id ==> SameTicket(s, s', k)) && s'.sessions == s.sessions
    && var status := s'.db.tickets[id].status;
       && (status == Approved || status == Active || status == ApplyFailed)
       && (outcome.None? <==> status == Active)
       && ((forall agent :: !HasPrimary(s.db, t.project, agent)) ==>
             outcome == Some(Validation) && status == Approved && s'.net == s.net && s'.forwards == s.forwards)
       && (forall agent :: HasPrimary(s.db, t.project, agent) ==>
             var works := PushWorks(s.net, env, agent, RuleId(id), targets);
             && (status == Active <==> works && env.commits(txs))
             && (status == ApplyFailed <==> !works && env.commits(txs))
             && (status == Approved <==> !env.commits(txs))
             && outcome == (if !works then Some(Gateway) else if env.commits(txs) then None else Some(Database))
             && (works ==> id in s'.forwards)
             && (!works ==> s'.forwards == s.forwards)
             && Push(s.net, env, agent, RuleId(id), targets, Some(s.net.now + t.duration), s.sessions)
                == (s'.net, if works then Some(s'.forwards[id]) else None)
             && (status == Active ==>
                   && id in s'.db.bindings && s'.db.bindings[id].agent == agent && s'.db.bindings[id].ruleId == RuleId(id)
                   && s'.db.tickets[id].expires == Some(s.net.now + t.duration)))
  }

  /** One Apply of an approved ticket. */
  lemma ApplyOutcome(s: Sys, env: Env, id: nat)
    requires id in s.db.tickets && s.db.tickets[id].status == Approved
    ensures
      var (s', outcome) := ApplyCall(s, env, id);
      Applied(s, s', env, s.txs, id, s.db.tickets[id], TargetsOf(s.db, s.db.tickets[id]), outcome)
  {
    hide Push, PushWorks, TargetsOf, RuleId, Transact, Applied;
    var t := s.db.tickets[id];
    if PrimaryOf(s.db, t.project).Some? {
      var agent := PrimaryOf(s.db, t.project).value;
      var targets, expires := TargetsOf(s.db, t), s.net.now + t.duration;
      var s1 := s.(grants := s.grants[id := Grant(agent, targets, s.net.now, expires)]);
      PushExactly(s.net, env, agent, RuleId(id), targets, Some(expires), s.sessions);
      var (net, forward) := Push(s.net, env, agent, RuleId(id), targets, Some(expires), s.sessions);
      if forward.None? {
        FailApplyMoves(s1.(net := net), env, id);
        FailedApplied(s, s1.(net := net), env, id, agent);
      } else {
        var s2 := s1.(net := net, forwards := s.forwards[id := forward.value]);
        ActivateMoves(s2, env, id, agent, expires);
        ActiveApplied(s, s2, env, id, agent, forward.value);
      }
    } else {
      NothingApplied(s, env, id);
    }
  }

  lemma NothingApplied(s: Sys, env: Env, id: nat)
    requires id in s.db.tickets && s.db.tickets[id].status == Approved && PrimaryOf(s.db, s.db.tickets[id].project).None?
    ensures Applied(s, s, env, s.txs, id, s.db.tickets[id], TargetsOf(s.db, s.db.tickets[id]), Some(Validation))
  {
    hide Push, PushWorks, TargetsOf, RuleId;
  }

  lemma FailedApplied(s: Sys, s1: Sys, env: Env, id: nat, agent: int)
    requires id in s.db.tickets && s.db.tickets[id].status == Approved && PrimaryOf(s.db, s.db.tickets[id].project) == Some(agent)
    requires s1.db == s.db && s1.forwards == s.forwards && s1.sessions == s.sessions && s1.txs == s.txs
    requires
      var targets, expires := TargetsOf(s.db, s.db.tickets[id]), s.net.now + s.db.tickets[id].duration;
      && !PushWorks(s.net, env, agent, RuleId(id), targets)
      && Push(s.net, env, agent, RuleId(id), targets, Some(expires), s.sessions) == (s1.net, None)
    requires var (s', outcome) := Transact(s1, env, FailApply(id)); Moved(s1, s', env, id, ApplyFailed, outcome)
    ensures Applied(s, Transact(s1, env, FailApply(id)).0, env, s.txs, id, s.db.tickets[id], TargetsOf(s.db, s.db.tickets[id]), Some(Gateway))
  {
    hide Push, PushWorks, TargetsOf, RuleId, Transact;
    var s' := Transact(s1, env, FailApply(id)).0;
    assert HasPrimary(s.db, s.db.tickets[id].project, agent);
    forall k | k != id ensures SameTicket(s, s', k) {
    }
  }

  lemma ActiveApplied(s: Sys, s2: Sys, env: Env, id: nat, agent: int, addr: string)
    requires id in s.db.tickets && s.db.tickets[id].status == Approved && PrimaryOf(s.db, s.db.tickets[id].project) == Some(agent)
    requires s2.db == s.db && s2.forwards == s.forwards[id := addr] && s2.sessions == s.sessions && s2.txs == s.txs
    requires
      var targets, expires := TargetsOf(s.db, s.db.tickets[id]), s.net.now + s.db.tickets[id].duration;
      && PushWorks(s.net, env, agent, RuleId(id), targets)
      && Push(s.net, env, agent, RuleId(id), targets, Some(expires), s.sessions) == (s2.net, Some(addr))
    ensures
      var (s', outcome) := Transact(s2, env, Activate(id, agent, s.net.now + s.db.tickets[id].duration));
      Applied(s, s', env, s.txs, id, s.db.tickets[id], TargetsOf(s.db, s.db.tickets[id]), outcome)
  {
    hide Push, PushWorks, TargetsOf, RuleId, Transact;
    var expires := s.net.now + s.db.tickets[id].duration;
    ActivateMoves(s2, env, id, agent, expires);
    var (s', outcome) := Transact(s2, env, Activate(id, agent, expires));
    assert HasPrimary(s.db, s.db.tickets[id].project, agent);
    forall k | k != id ensures SameTicket(s, s', k) {
    }
  }

  /** Apply answers for a ticket that is missing or not approved, and changes nothing. */
  lemma ApplyRefused(s: Sys, env: Env, id: nat)
    requires id !in s.db.tickets || s.db.tickets[id].status != Approved
    ensures ApplyCall(s, env, id) == (s, Some(if id in s.db.tickets then Conflict else NotFound))
  {
  }

  /** A pending ticket that this approver may approve now. */
  ghost predicate Approvable(db: Db, id: nat, approver: int) {
    && id in db.tickets
    && var t := db.tickets[id];
       && t.status == Pending && t.requester != approver && t.selector != []
       && Listed(db.assets, t.selector) != [] && AllOwn(db.assets, t.selector, t.project)
  }

  /**
   * One Approve: without an approvable ticket, or when its first transaction fails, nothing
   * changes at all; otherwise the ticket is approved by this approver with its assets frozen,
   * and then ends as one Apply leaves it, of the targets that are listed now.
   */
  lemma ApproveOutcome(s: Sys, env: Env, id: nat, approver: int)
    ensures
      var (s', outcome) := ApproveCall(s, env, id, approver);
      if !(Approvable(s.db, id, approver) && env.commits(s.txs))
      then
        && s' == s.(txs := s.txs + 1)
        && outcome == Some(if !env.commits(s.txs) then Database
                           else if id !in s.db.tickets then NotFound
                           else if s.db.tickets[id].status != Pending then Conflict
                           else if s.db.tickets[id].requester == approver then SelfApprove
                           else Validation)
      else
        var t := s.db.tickets[id];
        && Applied(s, s', env, s.txs + 1, id, t, BuildTargets(Listed(s.db.assets, t.selector), t.ports), outcome)
        && var t' := s'.db.tickets[id];
           && t'.approver == Some(approver) && t'.frozen == t.selector && t'.requester == t.requester && t'.project == t.project
  {
    ApprovalMoves(s, env, id, approver);
    hide Transact, ApplyCall, Approvable, Applied;
    var (s1, approved) := Transact(s, env, Approve(id, approver));
    if approved.None? {
      ApplyOutcome(s1, env, id);
      ApplyKeepsApproval(s1, env, id);
      var (s', outcome) := ApplyCall(s1, env, id);
      var t := s.db.tickets[id];
      FrozenTargets(s, s1, id);
      AppliedAfter(s, s1, s', env, id, t, s1.db.tickets[id], BuildTargets(Listed(s.db.assets, t.selector), t.ports), outcome);
    }
  }

  lemma FrozenTargets(s: Sys, s1: Sys, id: nat)
    requires id in s.db.tickets && id in s1.db.tickets && s1.db.assets == s.db.assets
    requires s1.db.tickets[id].frozen == s.db.tickets[id].selector && s1.db.tickets[id].ports == s.db.tickets[id].ports
    ensures TargetsOf(s1.db, s1.db.tickets[id]) == BuildTargets(Listed(s.db.assets, s.db.tickets[id].selector), s.db.tickets[id].ports)
  {
  }

  lemma AppliedAfter(s: Sys, s1: Sys, s': Sys, env: Env, id: nat, t: Ticket, t1: Ticket, targets: seq<Target>, outcome: Outcome)
    requires Applied(s1, s', env, s1.txs, id, t1, targets, outcome)
    requires s1.txs == s.txs + 1 && s1.net == s.net && s1.forwards == s.forwards && s1.sessions == s.sessions
    requires s1.db.primaries == s.db.primaries && s1.db.bindings == s.db.bindings
    requires t1.project == t.project && t1.duration == t.duration
    requires id in s.db.tickets && s1.db.tickets == s.db.tickets[id := t1]
    ensures Applied(s, s', env, s.txs + 1, id, t, targets, outcome)
  {
    hide Push, PushWorks, RuleId;
    forall k | k != id ensures SameTicket(s, s', k) {
      assert SameTicket(s1, s', k);
    }
    forall agent ensures HasPrimary(s.db, t.project, agent) == HasPrimary(s1.db, t1.project, agent) {
    }
  }

  lemma ApprovalMoves(s: Sys, env: Env, id: nat, approver: int)
    ensures
      var (s', outcome) := Transact(s, env, Approve(id, approver));
      && (outcome.None? <==> Approvable(s.db, id, approver) && env.commits(s.txs))
      && (outcome.Some? ==> s' == s.(txs := s.txs + 1))
      && (outcome.Some? ==>
            outcome.value == if !env.commits(s.txs) then Database
                             else if id !in s.db.tickets then NotFound
                             else if s.db.tickets[id].status != Pending then Conflict
                             else if s.db.tickets[id].requester == approver then SelfApprove
                             else Validation)
      && (outcome.None? ==>
            && id in s.db.tickets
            && s'.db.tickets == s.db.tickets[id := s.db.tickets[id].(
                 approver := Some(approver), frozen := s.db.tickets[id].selector, status := Approved)]
            && s'.db.bindings == s.db.bindings && s'.db.primaries == s.db.primaries && s'.db.assets == s.db.assets
            && s'.forwards == s.forwards && s'.net == s.net && s'.sessions == s.sessions && s'.txs == s.txs + 1)
  {
    hide Listed;
    if id in s.db.tickets {
      var t := s.db.tickets[id];
      var assets := Listed(s.db.assets, t.selector);
      assert AllOwn(s.db.assets, t.selector, t.project) <==> !exists i :: 0 <= i < |assets| && assets[i].project != t.project;
    }
  }

  lemma ApplyKeepsApproval(s: Sys, env: Env, id: nat)
    requires id in s.db.tickets && s.db.tickets[id].status == Approved
    ensures
      var s' := ApplyCall(s, env, id).0;
      && id in s'.db.tickets && s'.db.assets == s.db.assets
      && var t, t' := s.db.tickets[id], s'.db.tickets[id];
         && t'.approver == t.approver && t'.frozen == t.frozen && t'.requester == t.requester && t'.project == t.project
         && t'.ports == t.ports
  {
    hide Push, TargetsOf, RuleId, Transact;
    var t := s.db.tickets[id];
    if PrimaryOf(s.db, t.project).Some? {
      var agent := PrimaryOf(s.db, t.project).value;
      var targets, expires := TargetsOf(s.db, t), s.net.now + t.duration;
      var s1 := s.(grants := s.grants[id := Grant(agent, targets, s.net.now, expires)]);
      var (net, forward) := Push(s.net, env, agent, RuleId(id), targets, Some(expires), s.sessions);
      if forward.None? {
        FailApplyMoves(s1.(net := net), env, id);
      } else {
        ActivateMoves(s1.(net := net, forwards := s.forwards[id := forward.value]), env, id, agent, expires);
      }
    }
  }

  /** What one status change on a ticket in the right status does: nothing else, and exactly when it commits. */
  ghost predicate Moved(s: Sys, s': Sys, env: Env, id: nat, to: Status, outcome: Outcome) {
    && outcome == (if env.commits(s.txs) then None else Some(Database)) && s'.txs == s.txs + 1
    && id in s.db.tickets && s'.db.next == s.db.next && s'.db.bindings == s.db.bindings
    && s'.db.assets == s.db.assets && s'.db.primaries == s.db.primaries
    && s'.db.tickets == (if outcome.None? then s.db.tickets[id := s.db.tickets[id].(status := to)] else s.db.tickets)
    && s'.forwards == s.forwards && s'.net == s.net && s'.sessions == s.sessions
  }

  lemma FailApplyMoves(s: Sys, env: Env, id: nat)
    requires id in s.db.tickets && s.db.tickets[id].status == Approved
    ensures var (s', outcome) := Transact(s, env, FailApply(id)); Moved(s, s', env, id, ApplyFailed, outcome)
  {
  }

  lemma ActivateMoves(s: Sys, env: Env, id: nat, agent: int, expires: int)
    requires id in s.db.tickets && s.db.tickets[id].status == Approved
    ensures
      var (s', outcome) := Transact(s, env, Activate(id, agent, expires));
      && outcome == (if env.commits(s.txs) then None else Some(Database))
      && s'.forwards == s.forwards && s'.sessions == s.sessions && s'.net == s.net && s'.db.assets == s.db.assets
      && (outcome.Some? ==> s'.db == s.db)
      && (outcome.None? ==>
            && s'.db.tickets == s.db.tickets[id := s.db.tickets[id].(status := Active, expires := Some(expires))]
            && id in s'.db.bindings && s'.db.bindings == s.db.bindings[id := s'.db.bindings[id]]
            && s'.db.bindings[id].agent == agent && s'.db.bindings[id].ruleId == RuleId(id))
  {
    hide RuleId;
  }

  ghost predicate SameTicket(s: Sys, s': Sys, k: nat) {
    && (k in s'.db.tickets <==> k in s.db.tickets) && (k in s.db.tickets ==> s'.db.tickets[k] == s.db.tickets[k])
    && (k in s'.db.bindings <==> k in s.db.bindings) && (k in s.db.bindings ==> s'.db.bindings[k] == s.db.bindings[k])
    && (k in s'.forwards <==> k in s.forwards) && (k in s.forwards ==> s'.forwards[k] == s.forwards[k])
  }

  // ---- access windows ----

  /**
   * Every live entry belongs to exactly one ticket and closes at the expiry that ticket's
   * Apply fixed, the ticket's 60 to 86400 s after it began; it admits exactly the configured
   * source addresses, and relays to the first target of that Apply, its port cut to 32 bits,
   * which is still the first target today and an asset of the ticket's own project.
   */
  lemma WindowsAndTargetsAreFixed(now: int, env: Env, events: seq<Event>, agent: int, rule: string) returns (id: nat, asset: Asset)
    requires PortsNamed(env)
    requires var s := Run(now, env, events); agent in s.net.peers && rule in s.net.peers[agent].rules
    ensures rule == RuleId(id) && forall k: nat {:trigger RuleId(k)} :: rule == RuleId(k) ==> k == id
    ensures
      var s := Run(now, env, events);
      var e := s.net.peers[agent].rules[rule];
      && id in s.grants && id in s.db.tickets && s.grants[id].agent == agent
      && e.deadline == Some(s.grants[id].expires) && s.net.now < s.grants[id].expires
      && (forall h :: h in e.allow <==> h != "" && h in env.srcPeerIPs)
      && var t, g := s.db.tickets[id], s.grants[id];
         && g.start <= s.net.now && g.expires == g.start + t.duration && 60 <= t.duration <= 86400
         && t.approver.Some? && t.approver.value != t.requester
         && asset in s.db.assets && asset.id in t.frozen && asset.project == t.project && t.ports != []
         && g.targets != [] && g.targets[0] == Target(asset.ip, t.ports[0])
         && TargetsOf(s.db, t) != [] && TargetsOf(s.db, t)[0] == g.targets[0]
         && e.target == Target(asset.ip, t.ports[0] % 0x1_0000_0000)
  {
    hide TablesInv, Audited, TargetsOf, RuleId, Coherent, Tidy;
    var s := Run(now, env, events);
    RunKeeps(now, env, events);
    assert EntryOk(s, env, agent, rule);
    id :| rule == RuleId(id) && Granted(s, env, agent, s.net.peers[agent].rules[rule], id);
    assert GrantOk(s, id);
    asset := GrantedRow(s.db, id);
    SourcesAdmitted(env);
    forall k: nat {:trigger RuleId(k)} | rule == RuleId(k) ensures k == id {
      RuleIdInjective(k, id);
    }
  }

  /** What the row of an approved ticket says, and the asset of its first target. */
  lemma GrantedRow(db: Db, id: nat) returns (asset: Asset)
    requires TablesInv(db) && id in db.tickets && WasApproved(db.tickets[id].status)
    ensures
      var t := db.tickets[id];
      && 60 <= t.duration <= 86400 && t.approver.Some? && t.approver.value != t.requester
      && asset in db.assets && asset.id in t.frozen && asset.project == t.project && t.ports != []
      && TargetsOf(db, t) != [] && TargetsOf(db, t)[0] == Target(asset.ip, t.ports[0])
  {
    hide TablesInv, TargetsOf;
    FirstTargetIsOwn(db, id);
    ApproverDiffers(db, id);
    DurationBounded(db, id);
    var t := db.tickets[id];
    asset :| asset in db.assets && asset.id in t.frozen && asset.project == t.project
             && TargetsOf(db, t)[0] == Target(asset.ip, t.ports[0]);
  }

  lemma SourcesAdmitted(env: Env)
    ensures forall h :: h in Allowlist(env.Sources()) <==> h != "" && h in env.srcPeerIPs
  {
  }

  lemma ApproverDiffers(db: Db, id: nat)
    requires TablesInv(db) && id in db.tickets && WasApproved(db.tickets[id].status)
    ensures db.tickets[id].approver.Some? && db.tickets[id].approver.value != db.tickets[id].requester
  {
    hide Listed;
    assert TicketInv(db, id) && ApprovalInv(db, id);
  }

  ghost predicate GrantsExtend(s: Sys, s': Sys) {
    forall id :: id in s.grants ==> id in s'.grants && s'.grants[id] == s.grants[id]
  }

  lemma {:induction false} RevokeEachGrants(s: Sys, env: Env, ids: seq<nat>)
    ensures RevokeEach(s, env, ids).0.grants == s.grants
    decreases |ids|
  {
    if ids != [] {
      RevokeEachGrants(RevokeCall(s, env, ids[0]).0, env, ids[1..]);
    }
  }

  lemma {:induction false} RebuildEachGrants(s: Sys, env: Env, ids: seq<nat>)
    requires forall i :: 0 <= i < |ids| ==> ids[i] in s.db.tickets
    ensures RebuildEach(s, env, ids).0.grants == s.grants && RebuildEach(s, env, ids).0.stale == s.stale
    decreases |ids|
  {
    if ids != [] {
      RebuildEachGrants(RebuildOne(s, env, ids[0]).0, env, ids[1..]);
    }
  }

  /** Calls and events other than an approval leave the grants as they are. */
  lemma OtherStepGrants(s: Sys, env: Env, e: Event)
    requires !e.OnApprove?
    ensures Step(s, env, e).grants == s.grants
  {
    hide Exec, Push, Pull, Obey;
    match e {
      case OnExpireDue => RevokeEachGrants(s, env, Ids(s.db, s.net.now, true, s.db.next));
      case OnRebuild =>
        IdsListed(s.db, s.net.now, false, s.db.next);
        RebuildEachGrants(s, env, Ids(s.db, s.net.now, false, s.db.next));
      case OnReconnect(agent) =>
        IdsListed(s.db, s.net.now, false, s.db.next);
        var ids := Ids(s.db, s.net.now, false, s.db.next);
        RebuildEachGrants(s.(stale := s.stale - {agent}, forwards := s.forwards - BoundTo(s.db, agent, ids)), env, ids);
      case _ =>
    }
  }

  lemma ApproveGrants(s: Sys, env: Env, id: nat, approver: int)
    requires Inv(s, env)
    ensures GrantsExtend(s, ApproveCall(s, env, id, approver).0)
  {
    hide Inv, TargetsOf, RuleId, Exec, Push;
    if Transact(s, env, Approve(id, approver)).1.None? {
      PendingNotGranted(s, env, id, approver);
    }
  }

  lemma StepGrants(s: Sys, env: Env, e: Event)
    requires Inv(s, env)
    ensures GrantsExtend(s, Step(s, env, e))
  {
    hide Inv, ApproveCall;
    if e.OnApprove? {
      ApproveGrants(s, env, e.id, e.approver);
    } else {
      OtherStepGrants(s, env, e);
      hide Step;
    }
  }

  /** No later event moves a grant: not a rebuild, not a reconnect, not a restart. */
  lemma {:induction false} GrantsAreFixed(now: int, env: Env, events: seq<Event>, k: nat, id: nat)
    requires PortsNamed(env) && k <= |events|
    requires id in Run(now, env, events[..k]).grants
    ensures id in Run(now, env, events).grants
    ensures Run(now, env, events).grants[id] == Run(now, env, events[..k]).grants[id]
  {
    if k == |events| {
      assert events[..k] == events;
    } else {
      var shorter := events[..|events| - 1];
      assert shorter[..k] == events[..k];
      GrantsAreFixed(now, env, shorter, k, id);
      RunKeeps(now, env, shorter);
      StepGrants(Run(now, env, shorter), env, events[|events| - 1]);
    }
  }

  // ---- revoking ----

  /** No revoke command is ever sent while a web shell session of its ticket is open. */
  lemma SessionsClosedBeforeRevoke(now: int, env: Env, events: seq<Event>, i: nat, id: nat)
    requires PortsNamed(env) && i < |Run(now, env, events).net.sent|
    requires Run(now, env, events).net.sent[i].cmd == Revoke(RuleId(id))
    ensures id !in Run(now, env, events).net.sent[i].sessions
  {
    hide TablesInv, Audited, RuleId;
    RunKeeps(now, env, events);
    assert SentOk(Run(now, env, events), i);
  }

}
