/**
 * The tables the policy engine writes and the transactions it runs on them.
 *
 * Every transition locks one ticket row, checks its status, updates rows and appends
 * one audit row, all in one transaction: here a function from tables to tables that
 * either does all of it or fails and changes nothing.
 */
module Store {
  import opened Wrappers
  import opened RuleIds

  datatype Status = Pending | Approved | Active | Revoking | Closed | Rejected | ApplyFailed | RevokePending

  datatype Action =
    | TicketSubmit | TicketApprove | TicketReject | TicketRevoke
    | PolicyApply | PolicyApplyFailed | PolicyRevoke | PolicyRevokePending

  datatype Error = NotFound | Conflict | SelfApprove | Validation | Database | Gateway

  datatype Ticket = Ticket(
    requester: int, approver: Option<int>, project: int, selector: seq<int>, frozen: seq<int>,
    ports: seq<int>, duration: int, status: Status, expires: Option<int>)

  datatype Binding = Binding(agent: int, ruleId: string, attempts: nat)

  datatype Asset = Asset(id: int, project: int, ip: string)

  /** The row of a project's primary agent; the schema allows one per project. */
  datatype Primary = Primary(agent: int, approved: bool)

  datatype AuditRow = AuditRow(ticket: nat, action: Action)

  /** `assets` is in id order. `seen` is history only: how many asset rows there were at approval. */
  datatype Db = Db(
    projects: set<int>, next: nat, tickets: map<nat, Ticket>, bindings: map<nat, Binding>,
    assets: seq<Asset>, primaries: map<int, Primary>, audit: seq<AuditRow>, seen: map<nat, nat>)

  datatype SubmitInput = SubmitInput(
    requester: int, project: int, assets: seq<int>, ports: seq<int>, reason: string, duration: int)

  function EmptyDb(): Db {
    Db({}, 1, map[], map[], [], map[], [], map[])
  }

  // ---- queries ----

  /** ListAssetsByIDs: the asset rows whose id is listed, in id order. */
  function Listed(assets: seq<Asset>, ids: seq<int>): seq<Asset> {
    if assets == [] then []
    else
      var a := assets[|assets| - 1];
      Listed(assets[..|assets| - 1], ids) + if a.id in ids then [a] else []
  }

  function PrimaryOf(db: Db, project: int): Option<int> {
    if project in db.primaries && db.primaries[project].approved
    then Some(db.primaries[project].agent) else None
  }

  predicate DueAt(t: Ticket, now: int) {
    t.status == Active && t.expires.Some? && t.expires.value <= now
  }

  predicate LiveAt(t: Ticket, now: int) {
    t.status == Active && (t.expires.None? || t.expires.value > now)
  }

  /** An active ticket is due from the second of its expiry on and live before; another ticket is neither. */
  lemma DueOrLive(t: Ticket, now: int)
    ensures t.status == Active ==> DueAt(t, now) != LiveAt(t, now)
    ensures t.status != Active ==> !DueAt(t, now) && !LiveAt(t, now)
    ensures t.status == Active && t.expires.Some? ==> (DueAt(t, now) <==> now >= t.expires.value)
    ensures t.expires.None? ==> !DueAt(t, now)
  {
  }

  /** ListExpiredActiveTickets (due) and ListActiveTickets (not due): ids below `below`, ascending. */
  function Ids(db: Db, now: int, due: bool, below: nat): (ids: seq<nat>) {
    if below == 0 then []
    else
      var id := below - 1;
      Ids(db, now, due, id) +
      if id in db.tickets && (if due then DueAt(db.tickets[id], now) else LiveAt(db.tickets[id], now))
      then [id] else []
  }

  // ---- transactions ----

  /** What the schema asks of a new asset row: an address, unique in its project. */
  predicate Placeable(assets: seq<Asset>, a: Asset) {
    a.ip != "" && forall i :: 0 <= i < |assets| ==> assets[i].project != a.project || assets[i].ip != a.ip
  }

  /** Lock the row and check that the ticket is in the expected status. */
  function Guarded(db: Db, id: nat, from: Status): Result<Ticket, Error> {
    if id !in db.tickets then Failure(NotFound)
    else if db.tickets[id].status != from then Failure(Conflict)
    else Success(db.tickets[id])
  }

  /** Write the row and its audit entry. */
  function Commit(db: Db, id: nat, row: Ticket, action: Action): Db {
    db.(tickets := db.tickets[id := row], audit := db.audit + [AuditRow(id, action)])
  }

  datatype Txn =
    | Submit(input: SubmitInput)
    | Approve(id: nat, approver: int)
    | Reject(id: nat, approver: int)
    | Activate(id: nat, agent: int, expires: int)
    | FailApply(id: nat)
    | BeginRevoke(id: nat)
    | FinishRevoke(id: nat)
    | DeferRevoke(id: nat)
    | AddProject(project: int)
    | AddAsset(asset: Asset)
    | AddPrimary(project: int, agent: int)
    | Enroll(project: int, approved: bool)

  /** Changes to projects, assets and agents, which no ticket is the subject of. */
  predicate OfCatalog(txn: Txn) {
    txn.AddProject? || txn.AddAsset? || txn.AddPrimary? || txn.Enroll?
  }

  function SubmitTxn(db: Db, i: SubmitInput): Result<Db, Error> {
    if i.reason == "" || i.duration < 60 || i.duration > 86400 || i.assets == [] || i.ports == [] || i.project !in db.projects
    then Failure(Validation)
    else
      var row := Ticket(i.requester, None, i.project, i.assets, [], i.ports, i.duration, Pending, None);
      Success(Commit(db, db.next, row, TicketSubmit).(next := db.next + 1))
  }

  function ApproveTxn(db: Db, id: nat, approver: int): Result<Db, Error> {
    var t :- Guarded(db, id, Pending);
    if t.requester == approver then Failure(SelfApprove)
    else if t.selector == [] then Failure(Validation)
    else
      var assets := Listed(db.assets, t.selector);
      if assets == [] || exists i :: 0 <= i < |assets| && assets[i].project != t.project then Failure(Validation)
      else
        var row := t.(approver := Some(approver), frozen := t.selector, status := Approved);
        Success(Commit(db, id, row, TicketApprove).(seen := db.seen[id := |db.assets|]))
  }

  function RejectTxn(db: Db, id: nat, approver: int): Result<Db, Error> {
    var t :- Guarded(db, id, Pending);
    if t.requester == approver then Failure(SelfApprove)
    else Success(Commit(db, id, t.(status := Rejected), TicketReject))
  }

  /** UpsertBinding, SetBindingApplied and SetTicketActive in one transaction. */
  function ActivateTxn(db: Db, id: nat, agent: int, expires: int): Result<Db, Error> {
    var t :- Guarded(db, id, Approved);
    var before := if id in db.bindings then db.bindings[id].attempts else 0;
    var db' := Commit(db, id, t.(status := Active, expires := Some(expires)), PolicyApply);
    Success(db'.(bindings := db.bindings[id := Binding(agent, RuleId(id), before + 1)]))
  }

  function MoveTxn(db: Db, id: nat, from: Status, to: Status, action: Action): Result<Db, Error> {
    var t :- Guarded(db, id, from);
    Success(Commit(db, id, t.(status := to), action))
  }

  function Exec(db: Db, txn: Txn): Result<Db, Error> {
    match txn
    case Submit(input) => SubmitTxn(db, input)
    case Approve(id, approver) => ApproveTxn(db, id, approver)
    case Reject(id, approver) => RejectTxn(db, id, approver)
    case Activate(id, agent, expires) => ActivateTxn(db, id, agent, expires)
    case FailApply(id) => MoveTxn(db, id, Approved, ApplyFailed, PolicyApplyFailed)
    case BeginRevoke(id) => MoveTxn(db, id, Active, Revoking, TicketRevoke)
    case FinishRevoke(id) => MoveTxn(db, id, Revoking, Closed, PolicyRevoke)
    case DeferRevoke(id) => MoveTxn(db, id, Revoking, RevokePending, PolicyRevokePending)
    case AddProject(p) => Success(db.(projects := db.projects + {p}))
    case AddAsset(a) =>
      if (|db.assets| > 0 && db.assets[|db.assets| - 1].id >= a.id) || !Placeable(db.assets, a) then Failure(Validation)
      else Success(db.(assets := db.assets + [a]))
    case AddPrimary(p, agent) =>
      if p in db.primaries || exists q :: q in db.primaries && db.primaries[q].agent == agent then Failure(Validation)
      else Success(db.(primaries := db.primaries[p := Primary(agent, false)]))
    case Enroll(p, approved) =>
      if p !in db.primaries then Failure(NotFound)
      else Success(db.(primaries := db.primaries[p := db.primaries[p].(approved := approved)]))
  }

  /** A transaction that may fail at any point: it either commits or leaves the tables alone. */
  function After(db: Db, txn: Txn, commits: bool): Db {
    if !commits then db
    else match Exec(db, txn)
      case Success(db') => db'
      case Failure(_) => db
  }

  // ---- the audit log as the record of the state machine ----

  datatype Replayed = Absent | At(status: Status) | Illegal

  /** The documented state machine, one audited action at a time. */
  function Next(r: Replayed, a: Action): Replayed {
    match (r, a)
    case (Absent, TicketSubmit) => At(Pending)
    case (At(Pending), TicketApprove) => At(Approved)
    case (At(Pending), TicketReject) => At(Rejected)
    case (At(Approved), PolicyApply) => At(Active)
    case (At(Approved), PolicyApplyFailed) => At(ApplyFailed)
    case (At(Active), TicketRevoke) => At(Revoking)
    case (At(Revoking), PolicyRevoke) => At(Closed)
    case (At(Revoking), PolicyRevokePending) => At(RevokePending)
    case _ => Illegal
  }

  function Replay(log: seq<AuditRow>, id: nat): Replayed {
    if log == [] then Absent
    else
      var row := log[|log| - 1];
      var r := Replay(log[..|log| - 1], id);
      if row.ticket == id then Next(r, row.action) else r
  }

  function Entries(log: seq<AuditRow>, id: nat): nat {
    if log == [] then 0
    else Entries(log[..|log| - 1], id) + if log[|log| - 1].ticket == id then 1 else 0
  }

  function Rank(r: Replayed): nat {
    match r
    case Absent => 0
    case At(Pending) => 1
    case At(Approved) => 2
    case At(Active) => 3
    case At(Revoking) => 4
    case At(_) => 5
    case Illegal => 6
  }

  function StatusOf(db: Db, id: nat): Replayed {
    if id in db.tickets then At(db.tickets[id].status) else Absent
  }

  ghost predicate Audited(db: Db) {
    forall id: nat :: Replay(db.audit, id) == StatusOf(db, id)
  }

  lemma ReplayAppend(log: seq<AuditRow>, row: AuditRow, id: nat)
    ensures Replay(log + [row], id) == if row.ticket == id then Next(Replay(log, id), row.action) else Replay(log, id)
  {
    assert (log + [row])[..|log|] == log;
  }

  /** A longer log never un-does an illegal step, and every entry raises the rank. */
  lemma {:induction false} RankRises(log: seq<AuditRow>, k: nat, id: nat)
    requires k <= |log|
    requires Replay(log, id) != Illegal
    ensures Replay(log[..k], id) != Illegal
    ensures Rank(Replay(log[..k], id)) + Entries(log, id) - Entries(log[..k], id) <= Rank(Replay(log, id))
    ensures Entries(log[..k], id) <= Entries(log, id)
  {
    if k == |log| {
      assert log[..k] == log;
    } else {
      var shorter := log[..|log| - 1];
      assert shorter[..k] == log[..k];
      RankRises(shorter, k, id);
    }
  }

  /** Any status a ticket had before one of its audit entries is of strictly lower rank. */
  lemma StatusNeverReentered(log: seq<AuditRow>, j: nat, k: nat, id: nat)
    requires j < k <= |log| && log[k - 1].ticket == id
    requires Replay(log, id) != Illegal
    ensures Rank(Replay(log[..j], id)) < Rank(Replay(log[..k], id))
    ensures Replay(log[..j], id) != Replay(log[..k], id)
  {
    RankRises(log, k, id);
    assert log[..k][..j] == log[..j];
    RankRises(log[..k], k - 1, id);
    assert log[..k][..k - 1] == log[..k - 1];
    RankRises(log[..k - 1], j, id);
    assert log[..k - 1][..j] == log[..j];
  }

  lemma AtMostFiveEntries(log: seq<AuditRow>, id: nat)
    requires Replay(log, id) != Illegal
    ensures Entries(log, id) <= 5
  {
    RankRises(log, 0, id);
    assert log[..0] == [];
  }

  // ---- what every committed transaction keeps ----

  ghost predicate InIdOrder(assets: seq<Asset>) {
    forall i, j :: 0 <= i < j < |assets| ==> assets[i].id < assets[j].id
  }

  /** Every row could be added to the rows before it, in id order. */
  ghost predicate Catalogued(assets: seq<Asset>) {
    InIdOrder(assets) && forall i :: 0 <= i < |assets| ==> Placeable(assets[..i], assets[i])
  }

  /** An address no asset has. */
  function Unused(assets: seq<Asset>): (ip: string)
    ensures ip != "" && forall i :: 0 <= i < |assets| ==> |assets[i].ip| < |ip|
  {
    if assets == [] then "1" else Unused(assets[..|assets| - 1]) + assets[|assets| - 1].ip
  }

  lemma CataloguedAppend(assets: seq<Asset>, a: Asset)
    ensures Catalogued(assets + [a]) <==>
      Catalogued(assets) && Placeable(assets, a) && (assets != [] ==> assets[|assets| - 1].id < a.id)
  {
    var more := assets + [a];
    assert forall i :: 0 <= i <= |assets| ==> more[..i] == assets[..i];
    assert assets[..|assets|] == assets;
    if Catalogued(more) {
      assert Placeable(more[..|assets|], more[|assets|]);
      forall i | 0 <= i < |assets| ensures Placeable(assets[..i], assets[i]) {
        assert Placeable(more[..i], more[i]);
      }
    }
  }

  predicate Enforced(s: Status) {
    s == Active || s == Revoking || s == Closed || s == RevokePending
  }

  predicate WasApproved(s: Status) {
    s != Pending && s != Rejected
  }

  /** The approval facts of a ticket: someone else approved it, for assets of its own project. */
  ghost predicate ApprovalInv(db: Db, id: nat)
    requires id in db.tickets
  {
    var t := db.tickets[id];
    && t.approver.Some? && t.approver.value != t.requester && t.frozen == t.selector
    && id in db.seen && db.seen[id] <= |db.assets|
    && var then_ := Listed(db.assets[..db.seen[id]], t.frozen);
       && then_ != []
       && forall i :: 0 <= i < |then_| ==> then_[i].project == t.project
  }

  ghost predicate TicketInv(db: Db, id: nat)
    requires id in db.tickets
  {
    var t := db.tickets[id];
    && 60 <= t.duration <= 86400 && t.ports != []
    && (WasApproved(t.status) ==> ApprovalInv(db, id))
    && (Enforced(t.status) <==> id in db.bindings)
    && (Enforced(t.status) ==> db.bindings[id].ruleId == RuleId(id) && db.bindings[id].attempts == 1)
    && (Enforced(t.status) <==> t.expires.Some?)
  }

  ghost predicate TablesInv(db: Db) {
    && (forall id :: id in db.tickets ==> id < db.next && TicketInv(db, id))
    && (forall id :: id in db.bindings ==> id in db.tickets)
    && (forall id :: id in db.seen ==> id in db.tickets && WasApproved(db.tickets[id].status))
    && Catalogued(db.assets)
    && (forall p, q :: p in db.primaries && q in db.primaries && db.primaries[p].agent == db.primaries[q].agent ==> p == q)
  }

  /** What may happen to the tables over time: rows are added, and approval, binding and expiry are written once. */
  ghost predicate Evolves(db: Db, db': Db) {
    && db.next <= db'.next
    && db.assets <= db'.assets
    && (forall id :: id in db.tickets ==> id in db'.tickets && RowEvolves(db, db', id))
    && (forall id :: id in db.bindings ==> id in db'.bindings && db'.bindings[id] == db.bindings[id])
    && (forall id :: id in db.seen ==> id in db'.seen && db'.seen[id] == db.seen[id])
  }

  ghost predicate RowEvolves(db: Db, db': Db, id: nat)
    requires id in db.tickets && id in db'.tickets
  {
    var t, t' := db.tickets[id], db'.tickets[id];
    && t'.requester == t.requester && t'.project == t.project && t'.ports == t.ports && t'.duration == t.duration
    && (t.status == t'.status || Rank(At(t.status)) < Rank(At(t'.status)))
    && (WasApproved(t.status) ==>
          WasApproved(t'.status) && t'.frozen == t.frozen && t'.approver == t.approver)
    && (t.expires.Some? ==> t'.expires == t.expires)
  }

  lemma EvolvesTransitively(a: Db, b: Db, c: Db)
    requires Evolves(a, b) && Evolves(b, c)
    ensures Evolves(a, c)
  {
    forall id | id in a.tickets
      ensures id in c.tickets && RowEvolves(a, c, id)
    {
      assert RowEvolves(a, b, id) && RowEvolves(b, c, id);
    }
  }

  lemma AuditKept(db: Db, db': Db, row: AuditRow)
    requires Audited(db)
    requires db'.audit == db.audit + [row]
    requires forall k :: k != row.ticket ==> StatusOf(db', k) == StatusOf(db, k)
    requires StatusOf(db', row.ticket) == Next(StatusOf(db, row.ticket), row.action)
    ensures Audited(db')
  {
    forall k: nat ensures Replay(db'.audit, k) == StatusOf(db', k) {
      ReplayAppend(db.audit, row, k);
    }
  }

  /** The audited action of a transaction on a ticket. */
  function ActionOf(txn: Txn): Action
    requires !OfCatalog(txn)
  {
    match txn
    case Submit(_) => TicketSubmit
    case Approve(_, _) => TicketApprove
    case Reject(_, _) => TicketReject
    case Activate(_, _, _) => PolicyApply
    case FailApply(_) => PolicyApplyFailed
    case BeginRevoke(_) => TicketRevoke
    case FinishRevoke(_) => PolicyRevoke
    case DeferRevoke(_) => PolicyRevokePending
  }

  /** A committed transaction on a ticket writes its row, makes one legal move and audits that move. */
  lemma ExecMoves(db: Db, txn: Txn)
    requires Exec(db, txn).Success? && !OfCatalog(txn) && db.next !in db.tickets
    ensures
      var db', id := Exec(db, txn).value, Subject(db, txn);
      && id in db'.tickets && db'.tickets == db.tickets[id := db'.tickets[id]]
      && db'.audit == db.audit + [AuditRow(id, ActionOf(txn))]
      && StatusOf(db', id) == Next(StatusOf(db, id), ActionOf(txn)) != Illegal
  {
    hide Listed;
  }

  /** A committed transaction appends exactly one audit entry, of the status change it made; a catalog change none. */
  lemma ExecAudits(db: Db, txn: Txn)
    requires Audited(db) && Exec(db, txn).Success?
    requires db.next !in db.tickets
    ensures Audited(Exec(db, txn).value)
    ensures
      var db', id := Exec(db, txn).value, Subject(db, txn);
      if OfCatalog(txn) then db'.audit == db.audit
      else
        && db'.audit == db.audit + [AuditRow(id, ActionOf(txn))]
        && StatusOf(db', id) == Next(StatusOf(db, id), ActionOf(txn)) != Illegal
  {
    hide Audited, Exec, Next, ActionOf;
    if OfCatalog(txn) {
      CatalogAudits(db, txn);
    } else {
      ExecMoves(db, txn);
      AuditKept(db, Exec(db, txn).value, AuditRow(Subject(db, txn), ActionOf(txn)));
    }
  }

  lemma CatalogAudits(db: Db, txn: Txn)
    requires Audited(db) && Exec(db, txn).Success? && OfCatalog(txn)
    ensures Audited(Exec(db, txn).value) && Exec(db, txn).value.audit == db.audit
  {
    hide Audited;
    NothingAudited(db, Exec(db, txn).value);
  }

  lemma NothingAudited(db: Db, db': Db)
    requires Audited(db) && db'.audit == db.audit && db'.tickets == db.tickets
    ensures Audited(db')
  {
    assert forall k :: StatusOf(db', k) == StatusOf(db, k);
  }

  lemma OtherRowKept(db: Db, db': Db, k: nat)
    requires k in db.tickets && k in db'.tickets && db'.tickets[k] == db.tickets[k]
    requires TicketInv(db, k)
    requires db.assets <= db'.assets
    requires k in db.bindings <==> k in db'.bindings
    requires k in db.bindings ==> db.bindings[k] == db'.bindings[k]
    requires k in db.seen ==> k in db'.seen && db'.seen[k] == db.seen[k]
    ensures TicketInv(db', k) && RowEvolves(db, db', k)
  {
    hide Listed;
    if WasApproved(db.tickets[k].status) {
      assert ApprovalInv(db, k);
      assert db'.assets[..db.seen[k]] == db.assets[..db.seen[k]];
    }
  }

  ghost predicate Kept(db: Db, r: Result<Db, Error>) {
    r.Success? ==> TablesInv(r.value) && Evolves(db, r.value)
  }

  /** Tables in which one ticket row was rewritten are as good as that row. */
  lemma RowRewritten(db: Db, db': Db, id: nat)
    requires TablesInv(db)
    requires id in db'.tickets && db'.tickets == db.tickets[id := db'.tickets[id]]
    requires db'.assets == db.assets && db'.primaries == db.primaries
    requires db'.bindings == db.bindings || (id !in db.bindings && id in db'.bindings && db'.bindings == db.bindings[id := db'.bindings[id]])
    requires db'.seen == db.seen || (id !in db.seen && id in db'.seen && db'.seen == db.seen[id := db'.seen[id]])
    requires db.next <= db'.next && id < db'.next
    requires TicketInv(db', id)
    requires id in db'.seen ==> WasApproved(db'.tickets[id].status)
    requires id in db.tickets ==> RowEvolves(db, db', id)
    ensures TablesInv(db') && Evolves(db, db')
  {
    hide Listed, ApprovalInv, TicketInv, RowEvolves;
    forall k | k in db.tickets && k != id
      ensures TicketInv(db', k) && RowEvolves(db, db', k)
    {
      OtherRowKept(db, db', k);
    }
  }

  lemma SubmitKeeps(db: Db, i: SubmitInput)
    requires TablesInv(db)
    ensures Kept(db, SubmitTxn(db, i))
  {
    if SubmitTxn(db, i).Success? {
      assert db.next !in db.tickets && db.next !in db.bindings && db.next !in db.seen;
      RowRewritten(db, SubmitTxn(db, i).value, db.next);
    }
  }

  lemma ApproveKeeps(db: Db, id: nat, approver: int)
    requires TablesInv(db)
    ensures Kept(db, ApproveTxn(db, id, approver))
  {
    hide Listed;
    if ApproveTxn(db, id, approver).Success? {
      var db' := ApproveTxn(db, id, approver).value;
      assert TicketInv(db, id);
      assert id !in db.seen;
      assert db.assets[..|db.assets|] == db.assets;
      assert ApprovalInv(db', id);
      RowRewritten(db, db', id);
    }
  }

  lemma ActivateKeeps(db: Db, id: nat, agent: int, expires: int)
    requires TablesInv(db)
    ensures Kept(db, ActivateTxn(db, id, agent, expires))
  {
    hide Listed;
    if ActivateTxn(db, id, agent, expires).Success? {
      var db' := ActivateTxn(db, id, agent, expires).value;
      assert TicketInv(db, id) && ApprovalInv(db, id);
      assert ApprovalInv(db', id);
      RowRewritten(db, db', id);
    }
  }

  /** Transactions that only move a ticket on and keep what its new status needs. */
  lemma MoveKeeps(db: Db, id: nat, from: Status, to: Status, action: Action)
    requires TablesInv(db)
    requires Rank(At(from)) < Rank(At(to))
    requires Enforced(from) == Enforced(to) && (WasApproved(to) <==> WasApproved(from))
    ensures Kept(db, MoveTxn(db, id, from, to, action))
  {
    var r := MoveTxn(db, id, from, to, action);
    if r.Success? {
      assert TicketInv(db, id);
      if WasApproved(from) {
        assert ApprovalInv(db, id) && ApprovalInv(r.value, id);
      }
      RowRewritten(db, r.value, id);
    }
  }

  lemma RejectKeeps(db: Db, id: nat, approver: int)
    requires TablesInv(db)
    ensures Kept(db, RejectTxn(db, id, approver))
  {
    if RejectTxn(db, id, approver).Success? {
      MoveKeeps(db, id, Pending, Rejected, TicketReject);
    }
  }

  lemma CatalogRows(db: Db, txn: Txn, k: nat)
    requires TablesInv(db) && OfCatalog(txn) && Exec(db, txn).Success? && k in db.tickets
    ensures var db' := Exec(db, txn).value; k in db'.tickets && TicketInv(db', k) && RowEvolves(db, db', k)
  {
    hide ApprovalInv;
    OtherRowKept(db, Exec(db, txn).value, k);
  }

  lemma CatalogAssets(db: Db, txn: Txn)
    requires Catalogued(db.assets) && OfCatalog(txn) && Exec(db, txn).Success?
    ensures var db' := Exec(db, txn).value; Catalogued(db'.assets) && db.assets <= db'.assets
  {
    hide Catalogued;
    if txn.AddAsset? {
      CataloguedAppend(db.assets, txn.asset);
    }
  }

  lemma CatalogKeeps(db: Db, txn: Txn)
    requires TablesInv(db) && OfCatalog(txn)
    ensures Kept(db, Exec(db, txn))
  {
    hide TicketInv, RowEvolves, Catalogued, Placeable;
    if Exec(db, txn).Success? {
      var db' := Exec(db, txn).value;
      CatalogAssets(db, txn);
      forall k | k in db.tickets ensures k in db'.tickets && TicketInv(db', k) && RowEvolves(db, db', k) {
        CatalogRows(db, txn, k);
      }
    }
  }

  lemma ExecKeeps(db: Db, txn: Txn)
    requires TablesInv(db)
    ensures Kept(db, Exec(db, txn))
  {
    match txn {
      case Submit(i) => SubmitKeeps(db, i);
      case Approve(id, approver) => ApproveKeeps(db, id, approver);
      case Reject(id, approver) => RejectKeeps(db, id, approver);
      case Activate(id, agent, expires) => ActivateKeeps(db, id, agent, expires);
      case FailApply(id) => MoveKeeps(db, id, Approved, ApplyFailed, PolicyApplyFailed);
      case BeginRevoke(id) => MoveKeeps(db, id, Active, Revoking, TicketRevoke);
      case FinishRevoke(id) => MoveKeeps(db, id, Revoking, Closed, PolicyRevoke);
      case DeferRevoke(id) => MoveKeeps(db, id, Revoking, RevokePending, PolicyRevokePending);
      case AddProject(_) | AddAsset(_) | AddPrimary(_, _) | Enroll(_, _) => CatalogKeeps(db, txn);
    }
  }

  /**
   * Whatever the transaction, and whether it commits or fails, the tables keep their
   * invariants, the stored status is the replay of the audit log, and rows only evolve.
   */
  lemma TxnKeeps(db: Db, txn: Txn, commits: bool)
    requires TablesInv(db) && Audited(db)
    ensures var db' := After(db, txn, commits); TablesInv(db') && Audited(db') && Evolves(db, db')
  {
    if commits && Exec(db, txn).Success? {
      assert db.next !in db.tickets;
      ExecKeeps(db, txn);
      ExecAudits(db, txn);
    }
  }

  lemma DurationBounded(db: Db, id: nat)
    requires TablesInv(db) && id in db.tickets
    ensures 60 <= db.tickets[id].duration <= 86400
  {
    assert TicketInv(db, id);
  }

  lemma RuleOfBinding(db: Db, id: nat)
    requires TablesInv(db) && id in db.bindings
    ensures id in db.tickets && db.bindings[id].ruleId == RuleId(id)
  {
    assert TicketInv(db, id);
  }

  /** The row a transaction writes, if it writes one. */
  function Subject(db: Db, txn: Txn): nat {
    match txn
    case Approve(id, _) => id
    case Reject(id, _) => id
    case Activate(id, _, _) => id
    case FailApply(id) => id
    case BeginRevoke(id) => id
    case FinishRevoke(id) => id
    case DeferRevoke(id) => id
    case _ => db.next
  }

  lemma OtherRows(db: Db, txn: Txn, commits: bool, k: nat)
    requires k in After(db, txn, commits).tickets && k != Subject(db, txn)
    ensures k in db.tickets && After(db, txn, commits).tickets[k] == db.tickets[k]
  {
  }

  // ---- targets ----

  datatype Target = Target(ip: string, port: int)

  function PortTargets(a: Asset, ports: seq<int>): seq<Target> {
    seq(|ports|, i requires 0 <= i < |ports| => Target(a.ip, ports[i]))
  }

  /** Frozen assets times ticket ports, assets outermost. */
  function BuildTargets(assets: seq<Asset>, ports: seq<int>): seq<Target> {
    if assets == [] then []
    else BuildTargets(assets[..|assets| - 1], ports) + PortTargets(assets[|assets| - 1], ports)
  }

  /** The targets the engine sends for a ticket, computed from the tables as they are now. */
  function TargetsOf(db: Db, t: Ticket): seq<Target> {
    BuildTargets(Listed(db.assets, t.frozen), t.ports)
  }

  lemma {:induction false} ListedGrows(assets: seq<Asset>, more: seq<Asset>, ids: seq<int>)
    requires assets <= more
    ensures Listed(assets, ids) <= Listed(more, ids)
  {
    if assets != more {
      ListedGrows(assets, more[..|more| - 1], ids);
    }
  }

  lemma {:induction false} TargetsGrow(assets: seq<Asset>, more: seq<Asset>, ports: seq<int>)
    requires assets <= more
    ensures BuildTargets(assets, ports) <= BuildTargets(more, ports)
  {
    if assets != more {
      TargetsGrow(assets, more[..|more| - 1], ports);
    }
  }

  /** The target list computed at any later time has the earlier one as a prefix. */
  lemma TargetsOnlyExtended(db: Db, db': Db, id: nat)
    requires Evolves(db, db') && id in db.tickets && WasApproved(db.tickets[id].status)
    ensures id in db'.tickets && TargetsOf(db, db.tickets[id]) <= TargetsOf(db', db'.tickets[id])
  {
    assert RowEvolves(db, db', id);
    ListedGrows(db.assets, db'.assets, db.tickets[id].frozen);
    TargetsGrow(Listed(db.assets, db.tickets[id].frozen), Listed(db'.assets, db.tickets[id].frozen), db.tickets[id].ports);
  }

  /** Every listed row is a table row with a listed id, and the other way round. */
  lemma {:induction false} ListedExactly(assets: seq<Asset>, ids: seq<int>, a: Asset)
    ensures a in Listed(assets, ids) <==> a in assets && a.id in ids
  {
    if assets != [] {
      ListedExactly(assets[..|assets| - 1], ids, a);
    }
  }

  /** Every target pairs the address of one of the assets with one of the ports. */
  lemma {:induction false} TargetsExactly(assets: seq<Asset>, ports: seq<int>, t: Target)
    ensures t in BuildTargets(assets, ports) <==> t.port in ports && exists a :: a in assets && a.ip == t.ip
  {
    if assets != [] {
      var last := assets[|assets| - 1];
      TargetsExactly(assets[..|assets| - 1], ports, t);
      assert t in PortTargets(last, ports) <==> t.port in ports && t.ip == last.ip by {
        var ps := PortTargets(last, ports);
        if t.port in ports && t.ip == last.ip {
          var i :| 0 <= i < |ports| && ports[i] == t.port;
          assert ps[i] == t;
        }
      }
      assert forall a :: a in assets <==> a in assets[..|assets| - 1] || a == last;
      if t.port in ports && t.ip == last.ip {
        assert last in assets;
      }
    }
  }

  lemma {:induction false} TargetCount(assets: seq<Asset>, ports: seq<int>)
    ensures |BuildTargets(assets, ports)| == |assets| * |ports|
  {
    if assets != [] {
      TargetCount(assets[..|assets| - 1], ports);
      assert |assets| * |ports| == (|assets| - 1) * |ports| + |ports|;
    }
  }

  /** The targets are all ports of the first asset in order, then all ports of the second, and so on, each pair once. */
  lemma {:induction false} TargetAt(assets: seq<Asset>, ports: seq<int>, i: nat, j: nat)
    requires i < |assets| && j < |ports|
    ensures |BuildTargets(assets, ports)| == |assets| * |ports| > i * |ports| + j
    ensures BuildTargets(assets, ports)[i * |ports| + j] == Target(assets[i].ip, ports[j])
  {
    var n := |assets| - 1;
    TargetCount(assets, ports);
    TargetCount(assets[..n], ports);
    assert (n + 1) * |ports| == n * |ports| + |ports|;
    if i < n {
      TargetAt(assets[..n], ports, i, j);
    }
  }

  /** The listed rows come in id order, each once. */
  lemma {:induction false} ListedInOrder(assets: seq<Asset>, ids: seq<int>)
    requires InIdOrder(assets)
    ensures InIdOrder(Listed(assets, ids))
  {
    if assets != [] {
      var before, last := assets[..|assets| - 1], assets[|assets| - 1];
      ListedInOrder(before, ids);
      forall a | a in Listed(before, ids) ensures a.id < last.id {
        ListedExactly(before, ids, a);
      }
    }
  }

  /** An approved ticket has a first target, and it is an asset of its own project. */
  lemma FirstTargetIsOwn(db: Db, id: nat)
    requires TablesInv(db) && id in db.tickets && WasApproved(db.tickets[id].status)
    ensures var t := db.tickets[id];
      TargetsOf(db, t) != [] && t.ports != [] &&
      exists a :: a in db.assets && a.id in t.frozen && a.project == t.project && TargetsOf(db, t)[0] == Target(a.ip, t.ports[0])
  {
    var t := db.tickets[id];
    assert TicketInv(db, id) && ApprovalInv(db, id);
    var then_ := Listed(db.assets[..db.seen[id]], t.frozen);
    var now_ := Listed(db.assets, t.frozen);
    ListedGrows(db.assets[..db.seen[id]], db.assets, t.frozen);
    assert now_[0] == then_[0];
    ListedExactly(db.assets, t.frozen, now_[0]);
    TargetsGrow(now_[..1], now_, t.ports);
    assert BuildTargets(now_[..1], t.ports) == BuildTargets(now_[..0], t.ports) + PortTargets(now_[0], t.ports) by {
      assert now_[..1][..0] == now_[..0];
    }
    assert BuildTargets(now_[..1], t.ports)[0] == Target(now_[0].ip, t.ports[0]);
  }

  /** All listed assets are of the project. */
  ghost predicate AllOwn(assets: seq<Asset>, ids: seq<int>, project: int) {
    forall a :: a in Listed(assets, ids) ==> a.project == project
  }

  // ---- listings ----

  lemma {:induction false} IdsExactly(db: Db, now: int, due: bool, below: nat, id: nat)
    ensures id in Ids(db, now, due, below) <==>
      id < below && id in db.tickets && (if due then DueAt(db.tickets[id], now) else LiveAt(db.tickets[id], now))
  {
    if below > 0 {
      IdsExactly(db, now, due, below - 1, id);
    }
  }

  lemma {:induction false} IdsAscend(db: Db, now: int, due: bool, below: nat)
    ensures forall i, j :: 0 <= i < j < |Ids(db, now, due, below)| ==> Ids(db, now, due, below)[i] < Ids(db, now, due, below)[j]
    ensures forall i :: 0 <= i < |Ids(db, now, due, below)| ==> Ids(db, now, due, below)[i] < below
  {
    if below > 0 {
      IdsAscend(db, now, due, below - 1);
    }
  }
}
