/**
 * The whole system with every interleaving: each transaction, read, enqueue, delivery,
 * answer, timeout, timer and crash is a step of its own, and any number of engine calls
 * are in progress at once.
 */
module Worlds {
  import opened Wrappers
  import opened RuleIds
  import opened Store
  import opened Forwarding
  import opened Links

  datatype Goal = ToApply(ticket: nat, agent: int, expires: int) | ToReapply(ticket: nat) | ToRevoke(ticket: nat)

  /** An engine call in progress, by what it has done so far; `todo` are the commands it still has to get acked. */
  datatype Call =
    | ApplyAt(ticket: nat)
    | ApplyRow(ticket: nat, row: Ticket)
    | ApplyAgent(ticket: nat, row: Ticket, agent: int)
    | ReapplyAt(ticket: nat, row: Ticket)
    | ReapplyBound(ticket: nat, row: Ticket, binding: Binding)
    | RevokeAt(ticket: nat)
    | Connecting(goal: Goal, agent: int, todo: seq<Command>)
    | Sending(goal: Goal, link: nat, todo: seq<Command>, last: Option<nat>)
    | Enqueuing(goal: Goal, link: nat, todo: seq<Command>, id: nat)
    | Awaiting(goal: Goal, link: nat, todo: seq<Command>, id: nat)
    | Succeeded(goal: Goal, receipt: Option<Receipt>)
    | Failed(goal: Goal)

  /** Where to find an acked command: its stream and its id. */
  datatype Receipt = Receipt(link: nat, id: nat)

  /** An agent process: its forwarder, the stream it serves, the ack it is about to send, and timers that have gone off. */
  datatype Proc = Proc(rules: Rules, session: Option<nat>, owes: Option<Done>, firing: set<string>)

  datatype Choice = Choice(project: int, row: Primary)

  /**
   * History only. `starts` lists the tickets whose Apply began, `owner` and `revoker` the call
   * that runs a ticket's Apply or Revoke, `chosen` and `grants` what its Apply chose and fixed,
   * `began` the next command id when it entered revoking, `looked` whether its revoke found the
   * binding row, `closing` the receipt it was closed on, `holder` the call that made a command id.
   */
  datatype History = History(
    starts: seq<nat>, owner: map<nat, nat>, chosen: map<nat, Choice>, grants: map<nat, Grant>,
    revoker: map<nat, nat>, began: map<nat, nat>, looked: map<nat, bool>, closing: map<nat, Option<Receipt>>,
    holder: map<nat, nat>)

  /** `current` is the controller's connection per agent; `links` keeps every connection object ever made. */
  datatype World = World(
    now: int, srcPeerIPs: seq<string>, db: Db, calls: map<nat, Call>, nextCall: nat, nextCmd: nat,
    links: seq<Link>, current: map<int, nat>, procs: map<int, Proc>, past: History)

  function Start(now: int, srcPeerIPs: seq<string>): World {
    World(now, srcPeerIPs, EmptyDb(), map[], 0, 0, [], map[], map[],
          History([], map[], map[], map[], map[], map[], map[], map[], map[]))
  }

  datatype Event =
    | Database(txn: Txn, commits: bool)                      // submit, reject, and catalog changes
    | StartApprove(ticket: nat, approver: int, commits: bool)
    | StartRevoke(ticket: nat, commits: bool)
    | StartReapply(ticket: nat)
    | Advance(call: nat, good: bool)
    | Abandon(call: nat)
    | ServerCrash
    | OpenStream(agent: int)
    | ControlReturns(link: nat)
    | StreamBreaks(agent: int)
    | AgentRestart(agent: int)
    | Receive(agent: int, works: bool, port: string)
    | Reply(agent: int, delivered: bool)
    | RouteAck(link: nat)
    | TimerGoesOff(agent: int, rule: string)
    | TimerRuns(agent: int, rule: string)
    | Tick(seconds: nat)

  function Sources(w: World): seq<string> {
    if w.srcPeerIPs == [] then [""] else w.srcPeerIPs
  }

  function ProcOf(w: World, agent: int): Proc {
    if agent in w.procs then w.procs[agent] else Proc(map[], None, None, {})
  }

  function Spawn(w: World, call: Call): World {
    w.(calls := w.calls[w.nextCall := call], nextCall := w.nextCall + 1)
  }

  function Put(w: World, c: nat, call: Call): World {
    w.(calls := w.calls[c := call])
  }

  function Drop(w: World, c: nat): World {
    w.(calls := w.calls - {c})
  }

  function WithLink(w: World, i: nat, l: Link): World
    requires i < |w.links|
  {
    w.(links := w.links[i := l])
  }

  function WithProc(w: World, agent: int, p: Proc): World {
    w.(procs := w.procs[agent := p])
  }

  function Pushes(w: World, rule: string, targets: seq<Target>, expires: Option<int>): seq<Command> {
    seq(|targets|, i requires 0 <= i < |targets| => Apply(rule, Sources(w), OnWire(targets[i]), expires))
  }

  // ---- engine calls ----

  function AdvanceApply(w: World, c: nat, good: bool): World
    requires c in w.calls
  {
    match w.calls[c]
    case ApplyAt(t) =>
      if good && t in w.db.tickets && w.db.tickets[t].status == Approved then Put(w, c, ApplyRow(t, w.db.tickets[t]))
      else Drop(w, c)
    case ApplyRow(t, row) =>
      if good && PrimaryOf(w.db, row.project).Some? then
        var choice := Choice(row.project, w.db.primaries[row.project]);
        Put(w, c, ApplyAgent(t, row, choice.row.agent)).(past := w.past.(chosen := w.past.chosen[t := choice]))
      else Drop(w, c)
    case ApplyAgent(t, row, agent) =>
      if !good then Drop(w, c)
      else
        var targets := BuildTargets(Listed(w.db.assets, row.frozen), row.ports);
        var expires := w.now + row.duration;
        var grant := Grant(agent, targets, w.now, expires);
        Put(w, c, Connecting(ToApply(t, agent, expires), agent, Pushes(w, RuleId(t), targets, Some(expires))))
          .(past := w.past.(grants := w.past.grants[t := grant]))
    case ReapplyAt(t, row) =>
      if good && t in w.db.bindings then Put(w, c, ReapplyBound(t, row, w.db.bindings[t])) else Drop(w, c)
    case ReapplyBound(t, row, b) =>
      if !good then Drop(w, c)
      else
        var targets := BuildTargets(Listed(w.db.assets, row.frozen), row.ports);
        Put(w, c, Connecting(ToReapply(t), b.agent, Pushes(w, b.ruleId, targets, row.expires)))
    case _ => w
  }

  /** When the binding row cannot be read, for whatever reason, the revoke goes on without the gateway. */
  function AdvanceRevoke(w: World, c: nat, good: bool): World
    requires c in w.calls
  {
    match w.calls[c]
    case RevokeAt(t) =>
      if good && t in w.db.bindings then
        var b := w.db.bindings[t];
        Put(w, c, Connecting(ToRevoke(t), b.agent, [Revoke(b.ruleId)]))
          .(past := w.past.(looked := w.past.looked[t := true]))
      else
        Put(w, c, Succeeded(ToRevoke(t), None)).(past := w.past.(looked := w.past.looked[t := false]))
    case _ => w
  }

  /** ApplyRule's loop and RevokeRule: register a waiter, enqueue, wait for the ack or time out. */
  function AdvanceGateway(w: World, c: nat, good: bool): World
    requires c in w.calls
  {
    match w.calls[c]
    case Connecting(goal, agent, todo) =>
      if agent in w.current && w.current[agent] < |w.links| then Put(w, c, Sending(goal, w.current[agent], todo, None))
      else Put(w, c, Failed(goal))
    case Sending(goal, link, todo, last) =>
      if link >= |w.links| then w
      else if todo == [] then
        Put(w, c, Succeeded(goal, if last.Some? then Some(Receipt(link, last.value)) else None))
      else
        var id := w.nextCmd;
        Put(WithLink(w, link, Register(w.links[link], id)), c, Enqueuing(goal, link, todo, id))
          .(nextCmd := id + 1, past := w.past.(holder := w.past.holder[id := c]))
    case Enqueuing(goal, link, todo, id) =>
      if link >= |w.links| || todo == [] then w
      else if good then
        Put(WithLink(w, link, Enqueue(w.links[link], Message(id, todo[0]))), c, Awaiting(goal, link, todo, id))
      else Put(WithLink(w, link, Clear(w.links[link], id)), c, Failed(goal))
    case Awaiting(goal, link, todo, id) =>
      if link >= |w.links| || todo == [] then w
      else if !good then Put(WithLink(w, link, Clear(w.links[link], id)), c, Failed(goal))
      else
        var slots := w.links[link].slots;
        if id !in slots || slots[id].None? then w
        else
          var w1 := WithLink(w, link, Clear(w.links[link], id));
          if slots[id].value.answer.Some? then Put(w1, c, Sending(goal, link, todo[1..], Some(id)))
          else Put(w1, c, Failed(goal))
    case _ => w
  }

  /** The transaction that ends a call; it may fail, and then nothing is written. */
  function AdvanceEnd(w: World, c: nat, good: bool): World
    requires c in w.calls
  {
    match w.calls[c]
    case Succeeded(ToApply(t, agent, expires), _) => Drop(w, c).(db := After(w.db, Activate(t, agent, expires), good))
    case Succeeded(ToReapply(_), _) => Drop(w, c)
    case Succeeded(ToRevoke(t), receipt) =>
      var w1 := Drop(w, c).(db := After(w.db, FinishRevoke(t), good));
      if good && Exec(w.db, FinishRevoke(t)).Success? then
        w1.(past := w.past.(closing := w.past.closing[t := receipt]))
      else w1
    case Failed(ToApply(t, _, _)) => Drop(w, c).(db := After(w.db, FailApply(t), good))
    case Failed(ToReapply(_)) => Drop(w, c)
    case Failed(ToRevoke(t)) => Drop(w, c).(db := After(w.db, DeferRevoke(t), good))
    case _ => w
  }

  function AdvanceCall(w: World, c: nat, good: bool): World
    requires c in w.calls
  {
    match w.calls[c]
    case ApplyAt(_) | ApplyRow(_, _) | ApplyAgent(_, _, _) | ReapplyAt(_, _) | ReapplyBound(_, _, _) => AdvanceApply(w, c, good)
    case RevokeAt(_) => AdvanceRevoke(w, c, good)
    case Succeeded(_, _) | Failed(_) => AdvanceEnd(w, c, good)
    case _ => AdvanceGateway(w, c, good)
  }

  // ---- the agent ----

  function AgentStep(w: World, e: Event): World
    requires e.OpenStream? || e.StreamBreaks? || e.AgentRestart? || e.Receive? || e.Reply? || e.TimerGoesOff? || e.TimerRuns?
  {
    var p := ProcOf(w, e.agent);
    match e
    case OpenStream(agent) =>
      if p.session.Some? then w
      else
        WithProc(w, agent, p.(session := Some(|w.links|), owes := None))
          .(links := w.links + [NewLink(agent)], current := w.current[agent := |w.links|])
    case StreamBreaks(agent) => WithProc(w, agent, p.(session := None, owes := None))
    case AgentRestart(agent) => WithProc(w, agent, Proc(map[], None, None, {}))
    case Receive(agent, works, port) =>
      if p.session.None? || p.owes.Some? || p.session.value >= |w.links| || w.links[p.session.value].queue == [] then w
      else
        var l := w.links[p.session.value];
        var (rules, answer) := Obey(p.rules, l.queue[0].cmd, w.now, works, port);
        WithProc(WithLink(w, p.session.value, Obeyed(l, answer)), agent,
                 p.(rules := rules, owes := Some(Done(l.queue[0].id, answer))))
    case Reply(agent, delivered) =>
      if p.session.None? || p.owes.None? || p.session.value >= |w.links| then w
      else
        var w1 := WithProc(w, agent, p.(owes := None));
        var ack := Ack(p.owes.value.id, p.owes.value.answer, p.rules.Keys);
        if delivered then WithLink(w1, p.session.value, Replied(w.links[p.session.value], ack)) else w1
    case TimerGoesOff(agent, rule) =>
      if rule in p.rules && p.rules[rule].deadline.Some? && p.rules[rule].deadline.value <= w.now
      then WithProc(w, agent, p.(firing := p.firing + {rule})) else w
    case TimerRuns(agent, rule) =>
      if rule in p.firing then WithProc(w, agent, p.(rules := p.rules - {rule}, firing := p.firing - {rule})) else w
  }

  function BeginCall(w: World, e: Event): World
    requires e.StartApprove? || e.StartRevoke? || e.StartReapply?
  {
    match e
    case StartApprove(t, approver, commits) =>
      var w1 := w.(db := After(w.db, Approve(t, approver), commits));
      if commits && Exec(w.db, Approve(t, approver)).Success? then
        Spawn(w1, ApplyAt(t)).(past := w.past.(starts := w.past.starts + [t], owner := w.past.owner[t := w.nextCall]))
      else w1
    case StartRevoke(t, commits) =>
      var w1 := w.(db := After(w.db, BeginRevoke(t), commits));
      if commits && Exec(w.db, BeginRevoke(t)).Success? then
        Spawn(w1, RevokeAt(t))
          .(past := w.past.(revoker := w.past.revoker[t := w.nextCall], began := w.past.began[t := w.nextCmd]))
      else w1
    case StartReapply(t) =>
      if t in w.db.tickets && LiveAt(w.db.tickets[t], w.now) then Spawn(w, ReapplyAt(t, w.db.tickets[t])) else w
  }

  /** Transactions that are not part of a longer call. */
  predicate StandsAlone(txn: Txn) {
    txn.Submit? || txn.Reject? || txn.AddProject? || txn.AddAsset? || txn.AddPrimary? || txn.Enroll?
  }

  function Step(w: World, e: Event): World {
    match e
    case Database(txn, commits) => if StandsAlone(txn) then w.(db := After(w.db, txn, commits)) else w
    case StartApprove(_, _, _) => BeginCall(w, e)
    case StartRevoke(_, _) => BeginCall(w, e)
    case StartReapply(_) => BeginCall(w, e)
    case Advance(c, good) => if c in w.calls then AdvanceCall(w, c, good) else w
    case Abandon(c) => Drop(w, c)
    case ServerCrash => w.(calls := map[], current := map[])
    case ControlReturns(link) =>
      if link < |w.links| then w.(current := w.current - {w.links[link].agent}) else w
    case RouteAck(link) =>
      if link < |w.links| && w.links[link].replies != [] then WithLink(w, link, Route(w.links[link])) else w
    case Tick(seconds) => w.(now := w.now + seconds)
    case _ => AgentStep(w, e)
  }

  function Run(w: World, events: seq<Event>): World {
    if events == [] then w else Step(Run(w, events[..|events| - 1]), events[|events| - 1])
  }

  // ---- the invariant ----

  ghost predicate Aimed(db: Db, t: nat, target: Target) {
    t in db.tickets && exists x :: x in TargetsOf(db, db.tickets[t]) && target == OnWire(x)
  }

  /** Every command belongs to a granted ticket and goes to the agent of its grant. */
  ghost predicate CmdOk(w: World, agent: int, cmd: Command) {
    var t := TicketOf(cmd.rule);
    && cmd.rule == RuleId(t) && t in w.past.grants && w.past.grants[t].agent == agent
    && (cmd.Apply? ==>
          cmd.srcs == Sources(w) && cmd.expires == Some(w.past.grants[t].expires) && Aimed(w.db, t, cmd.target))
    && (cmd.Revoke? ==> t in w.past.looked && w.past.looked[t])
  }

  ghost predicate EntryOk(w: World, agent: int, rule: string, e: Entry) {
    var t := TicketOf(rule);
    && rule == RuleId(t) && t in w.past.grants && w.past.grants[t].agent == agent
    && Aimed(w.db, t, e.target) && e.allow == Allowlist(Sources(w)) && e.made <= w.now
    && e.deadline == if e.made < w.past.grants[t].expires then Some(w.past.grants[t].expires) else None
  }

  /** The receipt is for a revoke of the ticket's rule, made after it entered revoking and obeyed without error by its agent. */
  ghost predicate ReceiptOk(w: World, t: nat, r: Receipt) {
    && t in w.past.grants && t in w.past.began && w.past.began[t] <= r.id && r.link < |w.links|
    && var l := w.links[r.link];
       l.agent == w.past.grants[t].agent && exists i :: RevokedAt(l, t, r.id, i)
  }

  ghost predicate RevokedAt(l: Link, t: nat, id: nat, i: int) {
    && 0 <= i < |l.done| && i < |l.sent| && l.sent[i] == Message(id, Revoke(RuleId(t)))
    && l.done[i].id == id && l.done[i].answer.Some?
  }

  ghost predicate GrantOk(w: World, t: nat)
    requires t in w.past.grants
  {
    var g := w.past.grants[t];
    && t in w.db.tickets && WasApproved(w.db.tickets[t].status)
    && g.start <= w.now && g.expires == g.start + w.db.tickets[t].duration && 60 <= g.expires - g.start <= 86400
    && g.targets != [] && g.targets <= TargetsOf(w.db, w.db.tickets[t])
    && t in w.past.chosen && w.past.chosen[t].row == Primary(g.agent, true)
    && w.past.chosen[t].project == w.db.tickets[t].project
  }

  ghost predicate RowOk(w: World, t: nat)
    requires t in w.db.tickets
  {
    var status := w.db.tickets[t].status;
    && (Enforced(status) ==>
          && t in w.past.grants && w.db.tickets[t].expires == Some(w.past.grants[t].expires)
          && t in w.db.bindings && w.db.bindings[t].agent == w.past.grants[t].agent)
    && (t in w.past.starts ==> WasApproved(status))
    && (t in w.past.began <==> Enforced(status) && status != Active)
    && (status == Closed ==>
          && t in w.past.looked && t in w.past.closing
          && if w.past.looked[t] then w.past.closing[t].Some? && ReceiptOk(w, t, w.past.closing[t].value)
             else w.past.closing[t].None?)
    && (t in w.past.closing ==> status == Closed)
  }

  ghost predicate Bookkeeping(w: World) {
    && (forall t :: t in w.past.starts ==> t in w.db.tickets)
    && (forall t :: t in w.past.began || t in w.past.closing ==> t in w.db.tickets)
    && (forall i, j :: 0 <= i < j < |w.past.starts| ==> w.past.starts[i] != w.past.starts[j])
    && (forall t :: t in w.past.chosen || t in w.past.grants || t in w.past.owner ==> t in w.past.starts)
    && (forall t :: t in w.past.looked || t in w.past.revoker ==> t in w.past.began)
    && (forall t :: t in w.past.began ==> w.past.began[t] <= w.nextCmd)
    && (forall id :: id in w.past.holder ==> id < w.nextCmd)
  }

  ghost predicate HistoryInv(w: World) {
    && (forall t :: t in w.past.grants ==> GrantOk(w, t))
    && (forall t :: t in w.db.tickets ==> RowOk(w, t))
    && Bookkeeping(w)
  }

  ghost predicate MessageOk(w: World, agent: int, m: Message) {
    m.id < w.nextCmd && m.id in w.past.holder && CmdOk(w, agent, m.cmd)
  }

  ghost predicate LinkOk(w: World, l: Link) {
    LinkInv(l) && forall i :: 0 <= i < |l.sent| ==> MessageOk(w, l.agent, l.sent[i])
  }

  ghost predicate LinksInv(w: World) {
    forall i :: 0 <= i < |w.links| ==> LinkOk(w, w.links[i])
  }

  ghost predicate ProcOk(w: World, agent: int, p: Proc) {
    && (forall r :: r in p.rules ==> EntryOk(w, agent, r, p.rules[r]))
    && (p.session.Some? ==> p.session.value < |w.links| && w.links[p.session.value].agent == agent)
    && (p.owes.Some? ==>
          p.session.Some? && Owed(w.links[p.session.value], p.owes.value.id, p.owes.value.answer, p.rules.Keys))
  }

  ghost predicate ProcsInv(w: World) {
    && (forall a :: a in w.procs ==> ProcOk(w, a, w.procs[a]))
    && (forall a :: a in w.current ==> w.current[a] < |w.links| && w.links[w.current[a]].agent == a)
  }

  /** A row read earlier agrees with the table on what never changes once the ticket is approved. */
  ghost predicate Snapshot(w: World, t: nat, row: Ticket) {
    && t in w.db.tickets && WasApproved(w.db.tickets[t].status)
    && row.frozen == w.db.tickets[t].frozen && row.ports == w.db.tickets[t].ports
    && row.project == w.db.tickets[t].project && row.duration == w.db.tickets[t].duration
  }

  ghost predicate GoalOk(w: World, c: nat, goal: Goal) {
    match goal
    case ToApply(t, agent, expires) =>
      t in w.past.grants && w.past.grants[t].agent == agent && w.past.grants[t].expires == expires
    case ToReapply(_) => true
    case ToRevoke(t) => t in w.past.looked && t in w.past.revoker && w.past.revoker[t] == c
  }

  ghost predicate TodoOk(w: World, agent: int, goal: Goal, todo: seq<Command>) {
    && (forall i :: 0 <= i < |todo| ==> CmdOk(w, agent, todo[i]))
    && (goal.ToRevoke? ==> |todo| <= 1 && forall i :: 0 <= i < |todo| ==> todo[i] == Revoke(RuleId(goal.ticket)))
  }

  ghost predicate OnLink(w: World, c: nat, goal: Goal, link: nat, todo: seq<Command>) {
    && GoalOk(w, c, goal) && link < |w.links| && TodoOk(w, w.links[link].agent, goal, todo)
    && (goal.ToRevoke? ==> w.past.looked[goal.ticket] && goal.ticket in w.past.began && goal.ticket in w.past.grants)
  }

  ghost predicate Holds(w: World, c: nat, goal: Goal, id: nat) {
    && id < w.nextCmd && id in w.past.holder && w.past.holder[id] == c
    && (goal.ToRevoke? ==> goal.ticket in w.past.began && w.past.began[goal.ticket] <= id)
  }

  ghost predicate CallOk(w: World, c: nat, call: Call) {
    c < w.nextCall &&
    match call
    case ApplyAt(t) => t in w.past.owner && w.past.owner[t] == c && t !in w.past.chosen && t !in w.past.grants
    case ApplyRow(t, row) =>
      && t in w.past.owner && w.past.owner[t] == c && t !in w.past.chosen && t !in w.past.grants && Snapshot(w, t, row)
    case ApplyAgent(t, row, agent) =>
      && t in w.past.owner && w.past.owner[t] == c && t !in w.past.grants && Snapshot(w, t, row)
      && t in w.past.chosen && w.past.chosen[t] == Choice(row.project, Primary(agent, true))
    case ReapplyAt(t, row) =>
      && Snapshot(w, t, row) && t in w.past.grants && row.expires == Some(w.past.grants[t].expires)
    case ReapplyBound(t, row, b) =>
      && Snapshot(w, t, row) && t in w.past.grants && row.expires == Some(w.past.grants[t].expires)
      && b.ruleId == RuleId(t) && b.agent == w.past.grants[t].agent
    case RevokeAt(t) =>
      && t in w.past.revoker && w.past.revoker[t] == c && t in w.past.began && t !in w.past.looked && t in w.past.grants
    case Connecting(goal, agent, todo) =>
      && GoalOk(w, c, goal) && TodoOk(w, agent, goal, todo)
      && (goal.ToRevoke? ==> todo != [] && w.past.looked[goal.ticket] && goal.ticket in w.past.began && goal.ticket in w.past.grants)
    case Sending(goal, link, todo, last) =>
      && OnLink(w, c, goal, link, todo)
      && (goal.ToRevoke? && todo == [] ==> last.Some? && ReceiptOk(w, goal.ticket, Receipt(link, last.value)))
    case Enqueuing(goal, link, todo, id) =>
      && OnLink(w, c, goal, link, todo) && todo != [] && Holds(w, c, goal, id)
      && forall i, j :: 0 <= i < |w.links| && 0 <= j < |w.links[i].sent| ==> w.links[i].sent[j].id != id
    case Awaiting(goal, link, todo, id) =>
      && OnLink(w, c, goal, link, todo) && todo != [] && Holds(w, c, goal, id)
      && exists j :: 0 <= j < |w.links[link].sent| && w.links[link].sent[j] == Message(id, todo[0])
    case Succeeded(goal, receipt) =>
      && GoalOk(w, c, goal)
      && (goal.ToRevoke? ==>
            if w.past.looked[goal.ticket] then receipt.Some? && ReceiptOk(w, goal.ticket, receipt.value) else receipt.None?)
    case Failed(goal) => GoalOk(w, c, goal)
  }

  ghost predicate CallsInv(w: World) {
    forall c :: c in w.calls ==> CallOk(w, c, w.calls[c])
  }

  ghost predicate Inv(w: World) {
    TablesInv(w.db) && Audited(w.db) && HistoryInv(w) && LinksInv(w) && ProcsInv(w) && CallsInv(w)
  }
}
