/**
 * One control stream between server and agent: commands go down in order, each is obeyed
 * once and answered once, and the receive loop routes every answer to the caller waiting
 * for that command id, if it still waits.
 */
module Links {
  import opened Wrappers
  import opened Forwarding

  datatype Message = Message(id: nat, cmd: Command)

  /** An ack; `live` is history only: the rules enforced when it was sent. */
  datatype Ack = Ack(id: nat, answer: Option<string>, live: set<string>)

  datatype Done = Done(id: nat, answer: Option<string>)

  /**
   * `queue` holds the commands enqueued and not yet received by the agent, `replies` the acks
   * not yet received by the server, `slots` the waiting callers' one-place channels.
   * History only: `sent`, all commands ever enqueued; `done`, the outcomes of those obeyed;
   * `routed`, the acks the receive loop has taken.
   */
  datatype Link = Link(
    agent: int, queue: seq<Message>, replies: seq<Ack>, slots: map<nat, Option<Ack>>,
    sent: seq<Message>, done: seq<Done>, routed: seq<Ack>)

  function NewLink(agent: int): Link {
    Link(agent, [], [], map[], [], [], [])
  }

  /** waitAck */
  function Register(l: Link, id: nat): Link {
    l.(slots := l.slots[id := None])
  }

  /** clearAck */
  function Clear(l: Link, id: nat): Link {
    l.(slots := l.slots - {id})
  }

  function Enqueue(l: Link, m: Message): Link {
    l.(queue := l.queue + [m], sent := l.sent + [m])
  }

  /** The agent has received the next command and obeyed it with this answer. */
  function Obeyed(l: Link, answer: Option<string>): Link
    requires l.queue != []
  {
    l.(queue := l.queue[1..], done := l.done + [Done(l.queue[0].id, answer)])
  }

  function Replied(l: Link, a: Ack): Link {
    l.(replies := l.replies + [a])
  }

  /** The receive loop: the channel of the waiting caller is written only when it is empty. */
  function Route(l: Link): Link
    requires l.replies != []
  {
    var a := l.replies[0];
    var l1 := l.(replies := l.replies[1..], routed := l.routed + [a]);
    if a.id in l.slots then l1.(slots := l.slots[a.id := Some(a)]) else l1
  }

  // ---- invariant ----

  ghost predicate Distinct(acks: seq<Ack>) {
    forall i, j :: 0 <= i < j < |acks| ==> acks[i].id != acks[j].id
  }

  /** The ack is the answer to a command that was obeyed; for a revoke the rule was gone when it was sent. */
  ghost predicate AnswersAt(l: Link, a: Ack, i: int) {
    && 0 <= i < |l.done| && i < |l.sent|
    && l.done[i] == Done(a.id, a.answer)
    && (l.sent[i].cmd.Revoke? ==> l.sent[i].cmd.rule !in a.live)
  }

  ghost predicate Answers(l: Link, a: Ack) {
    exists i :: AnswersAt(l, a, i)
  }

  /** Commands are obeyed in the order they were enqueued, each at most once. */
  ghost predicate InOrder(l: Link) {
    && |l.done| <= |l.sent| && l.queue == l.sent[|l.done|..]
    && (forall i :: 0 <= i < |l.done| ==> l.done[i].id == l.sent[i].id)
    && (forall i, j :: 0 <= i < j < |l.sent| ==> l.sent[i].id != l.sent[j].id)
  }

  ghost predicate LinkInv(l: Link) {
    && InOrder(l)
    && Distinct(l.routed + l.replies)
    && (forall a :: a in l.routed || a in l.replies ==> Answers(l, a))
    && (forall id :: id in l.slots && l.slots[id].Some? ==> l.slots[id].value.id == id && l.slots[id].value in l.routed)
  }

  /** An ack about to be sent: it answers the last command obeyed, and nobody answered that before. */
  ghost predicate Owed(l: Link, id: nat, answer: Option<string>, rules: set<string>) {
    && |l.done| > 0 && |l.done| <= |l.sent| && l.done[|l.done| - 1] == Done(id, answer)
    && (forall a :: a in l.routed || a in l.replies ==> a.id != id)
    && (l.sent[|l.done| - 1].cmd.Revoke? ==> l.sent[|l.done| - 1].cmd.rule !in rules)
  }

  lemma AnswersSame(l: Link, l': Link, a: Ack)
    requires l.done <= l'.done && l.sent <= l'.sent && Answers(l, a)
    ensures Answers(l', a)
  {
    var i :| AnswersAt(l, a, i);
    assert AnswersAt(l', a, i);
  }

  /** The acks are as good in a link that has only gone further. */
  lemma AcksKept(l: Link, l': Link)
    requires l.done <= l'.done && l.sent <= l'.sent
    requires l'.routed == l.routed && l'.replies == l.replies
    requires forall a :: a in l.routed || a in l.replies ==> Answers(l, a)
    ensures forall a :: a in l'.routed || a in l'.replies ==> Answers(l', a)
  {
    forall a | a in l'.routed || a in l'.replies ensures Answers(l', a) {
      AnswersSame(l, l', a);
    }
  }

  lemma RegisterKeeps(l: Link, id: nat)
    requires LinkInv(l)
    ensures LinkInv(Register(l, id)) && LinkInv(Clear(l, id))
  {
    AcksKept(l, Register(l, id));
    AcksKept(l, Clear(l, id));
  }

  lemma EnqueueKeeps(l: Link, m: Message)
    requires LinkInv(l) && forall i :: 0 <= i < |l.sent| ==> l.sent[i].id != m.id
    ensures LinkInv(Enqueue(l, m))
  {
    hide Answers;
    AcksKept(l, Enqueue(l, m));
  }

  lemma ObeyedKeeps(l: Link, answer: Option<string>)
    requires LinkInv(l) && l.queue != []
    ensures LinkInv(Obeyed(l, answer))
    ensures forall a :: a in l.routed || a in l.replies ==> a.id != l.queue[0].id
  {
    assert l.queue[0] == l.sent[|l.done|];
    AcksKept(l, Obeyed(l, answer));
    forall a | a in l.routed || a in l.replies ensures a.id != l.queue[0].id {
      var i :| AnswersAt(l, a, i);
      assert l.sent[i].id != l.sent[|l.done|].id;
    }
  }

  /** Sending the ack that is owed keeps the invariant. */
  lemma RepliedKeeps(l: Link, a: Ack)
    requires LinkInv(l) && Owed(l, a.id, a.answer, a.live)
    ensures LinkInv(Replied(l, a))
  {
    var l' := Replied(l, a);
    assert AnswersAt(l, a, |l.done| - 1);
    forall b | b in l'.routed || b in l'.replies ensures Answers(l', b) {
      assert b == a || b in l.routed || b in l.replies;
      AnswersSame(l, l', b);
    }
    assert l'.routed + l'.replies == (l.routed + l.replies) + [a];
    assert forall i :: 0 <= i < |l.routed + l.replies| ==>
      (l.routed + l.replies)[i] in l.routed || (l.routed + l.replies)[i] in l.replies;
  }

  /** The channel the receive loop writes to is never full, so the loop never blocks on it. */
  lemma RouteFindsRoom(l: Link)
    requires LinkInv(l) && l.replies != [] && l.replies[0].id in l.slots
    ensures l.slots[l.replies[0].id].None?
  {
    var all := l.routed + l.replies;
    forall i | 0 <= i < |l.routed| ensures l.routed[i].id != l.replies[0].id {
      assert all[i] == l.routed[i] && all[|l.routed|] == l.replies[0];
    }
  }

  lemma RouteKeeps(l: Link)
    requires LinkInv(l) && l.replies != []
    ensures LinkInv(Route(l))
  {
    var l' := Route(l);
    assert l'.routed + l'.replies == l.routed + l.replies;
    forall a | a in l'.routed || a in l'.replies ensures Answers(l', a) {
      assert a in l.routed || a in l.replies;
      AnswersSame(l, l', a);
    }
  }

  /**
   * The channel of a waiting caller holds only the ack of the caller's own command; the
   * agent obeyed that command exactly once, with that answer, after every command enqueued
   * before it; and if it was a revoke, the rule was gone when the ack was sent.
   */
  lemma AckMeansObeyedOnce(l: Link, id: nat) returns (at: nat)
    requires LinkInv(l) && id in l.slots && l.slots[id].Some?
    ensures at < |l.done| <= |l.sent| && l.sent[at].id == id && l.slots[id].value.id == id
    ensures l.done[at] == Done(id, l.slots[id].value.answer)
    ensures forall i :: 0 <= i < |l.sent| && l.sent[i].id == id ==> i == at
    ensures forall i :: 0 <= i < |l.done| && l.done[i].id == id ==> i == at
    ensures forall i :: 0 <= i <= at ==> l.done[i].id == l.sent[i].id
    ensures l.sent[at].cmd.Revoke? ==> l.sent[at].cmd.rule !in l.slots[id].value.live
  {
    var a := l.slots[id].value;
    assert Answers(l, a);
    at :| AnswersAt(l, a, at);
  }

  // ---- what one step of the agent owes ----

  lemma ObeyedOwes(l: Link, answer: Option<string>, after: Rules)
    requires LinkInv(l) && l.queue != []
    requires l.queue[0].cmd.Revoke? ==> l.queue[0].cmd.rule !in after
    ensures Owed(Obeyed(l, answer), l.queue[0].id, answer, after.Keys)
  {
    ObeyedKeeps(l, answer);
    assert l.queue[0] == l.sent[|l.done|];
  }

  lemma OwedKept(l: Link, l': Link, id: nat, answer: Option<string>, rules: set<string>, rules': set<string>)
    requires Owed(l, id, answer, rules) && rules' <= rules
    requires l'.done == l.done && l.sent <= l'.sent
    requires forall a :: a in l'.routed || a in l'.replies ==> a in l.routed || a in l.replies
    ensures Owed(l', id, answer, rules')
  {
  }
}
