/** What the line gate guarantees in every run, and exactly when its line is the remote one. */
module LineGateTheorems {
  import opened Wrappers
  import opened Filters
  import opened LineGates

  // ---- confirm tokens ----

  function Held(b: bool): nat {
    if b then 1 else 0
  }

  function Count<T(==)>(s: seq<T>, x: T): nat {
    if s == [] then 0 else Count(s[..|s| - 1], x) + Held(s[|s| - 1] == x)
  }

  lemma CountAppend<T>(s: seq<T>, y: T, x: T)
    ensures Count(s + [y], x) == Count(s, x) + Held(y == x)
  {
    assert (s + [y])[..|s|] == s;
  }

  function Settled(g: Gate, t: nat, fate: Fate): nat {
    Count(g.ledger, Settlement(t, fate))
  }

  /** How many filter events were recorded for a token. */
  function NotesFor(notes: seq<Note>, t: nat): nat {
    if notes == [] then 0
    else NotesFor(notes[..|notes| - 1], t) + Held(notes[|notes| - 1].token == Some(t))
  }

  /**
   * Token t was issued and settled once unless it is the pending one; it wrote one Enter if
   * it was confirmed and one clear if it timed out, as soon as those writes were made, and
   * one matching event was recorded with each.
   */
  ghost predicate TokenOk(g: Gate, t: nat) {
    && (t >= |g.issued| ==>
          g.pending != Some(t) && g.confirming != Some(t) && t !in g.armed && t !in g.injecting)
    && Settled(g, t, WasConfirmed) + Settled(g, t, WasTimedOut) + Settled(g, t, WasSuperseded)
       == Held(t < |g.issued| && g.pending != Some(t))
    && (g.pending == Some(t) ==> t in g.armed)
    && Count(g.out, Enter(Some(t))) + Held(g.confirming == Some(t)) == Settled(g, t, WasConfirmed)
    && Count(g.out, Clear(Some(t))) + Held(t in g.injecting) == Settled(g, t, WasTimedOut)
    && NotesFor(g.notes, t) == Count(g.out, Enter(Some(t))) + Count(g.out, Clear(Some(t)))
    && Count(g.notes, Note(Confirmed, Some(t), [])) == Count(g.out, Enter(Some(t)))
    && (t < |g.issued| ==> Count(g.notes, Note(TimedOut, Some(t), g.issued[t])) == Count(g.out, Clear(Some(t))))
  }

  ghost predicate TokensOk(g: Gate) {
    forall t: nat :: TokenOk(g, t)
  }

  lemma NotesAppend(notes: seq<Note>, n: Note, t: nat)
    ensures NotesFor(notes + [n], t) == NotesFor(notes, t) + Held(n.token == Some(t))
  {
    assert (notes + [n])[..|notes|] == notes;
  }

  /** Only writes and events without a token were added, so tokens stand as before. */
  lemma UntokenedOk(g: Gate, g': Gate, t: nat)
    requires TokenOk(g, t)
    requires g' == g.(lineBuf := g'.lineBuf, typed := g'.typed, out := g'.out, notes := g'.notes)
    requires g'.out == g.out || exists w :: g'.out == g.out + [w] && !(w.Enter? && w.token.Some?) && !(w.Clear? && w.token.Some?)
    requires g'.notes == g.notes || exists n :: g'.notes == g.notes + [n] && n.token.None?
    ensures TokenOk(g', t)
  {
    hide Count, NotesFor;
    if g'.out != g.out {
      var w :| g'.out == g.out + [w] && !(w.Enter? && w.token.Some?) && !(w.Clear? && w.token.Some?);
      CountAppend(g.out, w, Enter(Some(t)));
      CountAppend(g.out, w, Clear(Some(t)));
    }
    if g'.notes != g.notes {
      var n :| g'.notes == g.notes + [n] && n.token.None?;
      NotesAppend(g.notes, n, t);
      CountAppend(g.notes, n, Note(Confirmed, Some(t), []));
      if t < |g.issued| {
        CountAppend(g.notes, n, Note(TimedOut, Some(t), g.issued[t]));
      }
    }
  }

  lemma IssueOk(g: Gate, line: Line, t: nat)
    requires TokensOk(g)
    ensures TokenOk(Issue(g, line), t)
  {
    hide NotesFor;
    assert TokenOk(g, t);
    if g.pending.Some? {
      var u := g.pending.value;
      assert TokenOk(g, u);
      CountAppend(g.ledger, Settlement(u, WasSuperseded), Settlement(t, WasConfirmed));
      CountAppend(g.ledger, Settlement(u, WasSuperseded), Settlement(t, WasTimedOut));
      CountAppend(g.ledger, Settlement(u, WasSuperseded), Settlement(t, WasSuperseded));
    }
    if t == |g.issued| {
      NoneFor(g.notes, t, line);
    }
    hide Count;
  }

  lemma {:induction false} NoneFor(notes: seq<Note>, t: nat, line: Line)
    requires NotesFor(notes, t) == 0
    ensures Count(notes, Note(TimedOut, Some(t), line)) == 0
  {
    if notes != [] {
      NoneFor(notes[..|notes| - 1], t, line);
    }
  }

  /** The pending token is settled by its frame or its timer. */
  lemma SettleOk(g: Gate, g': Gate, u: nat, fate: Fate, t: nat)
    requires TokensOk(g) && g.pending == Some(u) && fate != WasSuperseded
    requires g'.ledger == g.ledger + [Settlement(u, fate)] && g'.pending.None?
    requires g'.out == g.out && g'.notes == g.notes && g'.issued == g.issued
    requires if fate == WasConfirmed then g.confirming.None? && g'.confirming == Some(u) && g'.injecting == g.injecting && g'.armed == g.armed
             else g'.confirming == g.confirming && g'.injecting == g.injecting + {u} && g'.armed == g.armed - {u}
    ensures TokenOk(g', t)
  {
    hide NotesFor;
    assert TokenOk(g, t) && TokenOk(g, u);
    CountAppend(g.ledger, Settlement(u, fate), Settlement(t, WasConfirmed));
    CountAppend(g.ledger, Settlement(u, fate), Settlement(t, WasTimedOut));
    CountAppend(g.ledger, Settlement(u, fate), Settlement(t, WasSuperseded));
    hide Count;
  }

  /** What one more write and its event change in the counts of token t. */
  lemma WriteCounts(g: Gate, w: Write, n: Note, t: nat)
    ensures Count(g.out + [w], Enter(Some(t))) == Count(g.out, Enter(Some(t))) + Held(w == Enter(Some(t)))
    ensures Count(g.out + [w], Clear(Some(t))) == Count(g.out, Clear(Some(t))) + Held(w == Clear(Some(t)))
    ensures NotesFor(g.notes + [n], t) == NotesFor(g.notes, t) + Held(n.token == Some(t))
    ensures Count(g.notes + [n], Note(Confirmed, Some(t), [])) ==
      Count(g.notes, Note(Confirmed, Some(t), [])) + Held(n == Note(Confirmed, Some(t), []))
    ensures t < |g.issued| ==>
      Count(g.notes + [n], Note(TimedOut, Some(t), g.issued[t])) ==
      Count(g.notes, Note(TimedOut, Some(t), g.issued[t])) + Held(n == Note(TimedOut, Some(t), g.issued[t]))
  {
    hide Count, NotesFor;
    CountAppend(g.out, w, Enter(Some(t)));
    CountAppend(g.out, w, Clear(Some(t)));
    NotesAppend(g.notes, n, t);
    CountAppend(g.notes, n, Note(Confirmed, Some(t), []));
    if t < |g.issued| {
      CountAppend(g.notes, n, Note(TimedOut, Some(t), g.issued[t]));
    }
  }

  /** The Enter of the token being confirmed is written and recorded. */
  lemma ConfirmWriteOk(rules: seq<Rule>, g: Gate, t: nat)
    requires TokenOk(g, t) && g.confirming.Some?
    ensures TokenOk(Step(rules, g, ConfirmWrites), t)
  {
    hide Count, NotesFor;
    WriteCounts(g, Enter(g.confirming), Note(Confirmed, g.confirming, []), t);
  }

  /** The clearing ^U of a timed-out token is written and recorded. */
  lemma TimerWriteOk(rules: seq<Rule>, g: Gate, u: nat, t: nat)
    requires TokenOk(g, t) && u in g.injecting && u < |g.issued|
    ensures TokenOk(Step(rules, g, TimerWrites(u)), t)
  {
    hide Count, NotesFor;
    WriteCounts(g, Clear(Some(u)), Note(TimedOut, Some(u), g.issued[u]), t);
  }

  lemma PressOk(rules: seq<Rule>, g: Gate, b: Byte, t: nat)
    requires TokensOk(g)
    ensures TokenOk(Press(rules, g, b), t)
  {
    hide Decide, Count, NotesFor;
    assert TokenOk(g, t);
    var g' := Press(rules, g, b);
    if (b == CR || b == LF) && g'.issued != g.issued {
      var g1 := g.(typed := g.typed + [b], lineBuf := []);
      forall u: nat ensures TokenOk(g1, u) {
        assert TokenOk(g, u);
      }
      hide TokenOk;
      IssueOk(g1, g.lineBuf, t);
    } else {
      hide TokenOk;
      UntokenedOk(g, g', t);
    }
  }

  lemma StepTokens(rules: seq<Rule>, g: Gate, e: Event)
    requires TokensOk(g)
    ensures TokensOk(Step(rules, g, e))
  {
    hide Count, NotesFor, Press;
    var g' := Step(rules, g, e);
    forall t: nat ensures TokenOk(g', t) {
      assert TokenOk(g, t);
      if g' != g {
        match e {
          case Key(b) => PressOk(rules, g, b, t);
          case Token(u) => SettleOk(g, g', u.value, WasConfirmed, t);
          case ConfirmWrites => ConfirmWriteOk(rules, g, t);
          case TimerFires(u) => if g.pending == Some(u) { SettleOk(g, g', u, WasTimedOut, t); }
          case TimerWrites(u) => TimerWriteOk(rules, g, u, t);
        }
      }
    }
  }

  lemma {:induction false} RunTokens(rules: seq<Rule>, events: seq<Event>)
    ensures TokensOk(Run(rules, events))
  {
    if events != [] {
      hide Step, TokenOk;
      RunTokens(rules, events[..|events| - 1]);
      StepTokens(rules, Run(rules, events[..|events| - 1]), events[|events| - 1]);
    }
  }

  /**
   * Every issued token, under every interleaving of keys, frames and timers: it is settled
   * at most once, by the time its timer has fired; it causes one Enter exactly if it was
   * confirmed and one clear exactly if it timed out (once that write is made), never both,
   * and exactly as many recorded events as writes, of the matching kind.
   */
  lemma TokensAreSettledOnce(rules: seq<Rule>, events: seq<Event>, t: nat)
    requires t < |Run(rules, events).issued|
    ensures
      var g := Run(rules, events);
      var confirmed, timedOut, superseded := Settled(g, t, WasConfirmed), Settled(g, t, WasTimedOut), Settled(g, t, WasSuperseded);
      && confirmed + timedOut + superseded <= 1
      && (confirmed + timedOut + superseded == 0 <==> g.pending == Some(t))
      && (t !in g.armed ==> confirmed + timedOut + superseded == 1)
      && Count(g.out, Enter(Some(t))) == confirmed - Held(g.confirming == Some(t))
      && Count(g.out, Clear(Some(t))) == timedOut - Held(t in g.injecting)
      && NotesFor(g.notes, t) == Count(g.out, Enter(Some(t))) + Count(g.out, Clear(Some(t)))
      && Count(g.notes, Note(Confirmed, Some(t), [])) == Count(g.out, Enter(Some(t)))
      && Count(g.notes, Note(TimedOut, Some(t), g.issued[t])) == Count(g.out, Clear(Some(t)))
  {
    RunTokens(rules, events);
    hide Run;
    assert TokenOk(Run(rules, events), t);
  }

  // ---- accounting ----

  predicate IsEnter(b: Byte) {
    b == CR || b == LF
  }

  /** The line after one more key, as a line editor would have it. */
  function Edit(line: Line, b: Byte): Line {
    if b == INTR || b == KILL then []
    else if b == DEL || b == BS then (if line == [] then [] else line[..|line| - 1])
    else if b < 0x20 then line
    else line + [b]
  }

  /** The lines ended by an Enter among the keys typed, and what was typed after the last one. */
  function Lines(typed: seq<Byte>): seq<Line> {
    if typed == [] then []
    else
      var before := typed[..|typed| - 1];
      if IsEnter(typed[|typed| - 1]) then Lines(before) + [Rest(before)] else Lines(before)
  }

  function Rest(typed: seq<Byte>): Line {
    if typed == [] || IsEnter(typed[|typed| - 1]) then [] else Edit(Rest(typed[..|typed| - 1]), typed[|typed| - 1])
  }

  function WithoutEnters(typed: seq<Byte>): seq<Byte> {
    if typed == [] then []
    else WithoutEnters(typed[..|typed| - 1]) + if IsEnter(typed[|typed| - 1]) then [] else [typed[|typed| - 1]]
  }

  function KeysOf(out: seq<Write>): seq<Byte> {
    if out == [] then []
    else KeysOf(out[..|out| - 1]) + if out[|out| - 1].Typed? then [out[|out| - 1].key] else []
  }

  function Enters(out: seq<Write>): nat {
    if out == [] then 0 else Enters(out[..|out| - 1]) + Held(out[|out| - 1].Enter?)
  }

  function Clears(out: seq<Write>): nat {
    if out == [] then 0 else Clears(out[..|out| - 1]) + Held(out[|out| - 1].Clear?)
  }

  function Fated(ledger: seq<Settlement>, fate: Fate): nat {
    if ledger == [] then 0 else Fated(ledger[..|ledger| - 1], fate) + Held(ledger[|ledger| - 1].fate == fate)
  }

  datatype Ruling = Passed | PassedWithWarning | Questioned | Stopped

  function RulingOf(rules: seq<Rule>, line: Line): Ruling {
    match Decide(rules, line)
    case Hit(Block, _, _) => Stopped
    case Hit(Confirm, _, _) => Questioned
    case Hit(Warn, _, _) => PassedWithWarning
    case _ => Passed
  }

  function Tally(rules: seq<Rule>, lines: seq<Line>, r: Ruling): nat {
    if lines == [] then 0 else Tally(rules, lines[..|lines| - 1], r) + Held(RulingOf(rules, lines[|lines| - 1]) == r)
  }

  /** The lines that need confirmation, in order: token k belongs to the k-th. */
  function Asked(rules: seq<Rule>, lines: seq<Line>): seq<Line> {
    if lines == [] then []
    else
      var last := lines[|lines| - 1];
      Asked(rules, lines[..|lines| - 1]) + if RulingOf(rules, last) == Questioned then [last] else []
  }

  ghost predicate AccountOk(rules: seq<Rule>, g: Gate) {
    var lines := Lines(g.typed);
    && g.lineBuf == Rest(g.typed)
    && g.issued == Asked(rules, lines)
    && Enters(g.out) + Held(g.confirming.Some?)
       == Tally(rules, lines, Passed) + Tally(rules, lines, PassedWithWarning) + Fated(g.ledger, WasConfirmed)
    && Clears(g.out) + |g.injecting| == Tally(rules, lines, Stopped) + Fated(g.ledger, WasTimedOut)
    && |g.notes| + Tally(rules, lines, Passed) == Enters(g.out) + Clears(g.out)
    && KeysOf(g.out) == WithoutEnters(g.typed)
    && (forall i :: 0 <= i < |g.out| ==> Sent(g.out[i]) != LF)
  }

  lemma OutAppend(out: seq<Write>, w: Write)
    ensures Enters(out + [w]) == Enters(out) + Held(w.Enter?)
    ensures Clears(out + [w]) == Clears(out) + Held(w.Clear?)
    ensures KeysOf(out + [w]) == if w.Typed? then KeysOf(out) + [w.key] else KeysOf(out)
  {
    assert (out + [w])[..|out|] == out;
  }

  lemma LedgerAppend(ledger: seq<Settlement>, s: Settlement, fate: Fate)
    ensures Fated(ledger + [s], fate) == Fated(ledger, fate) + Held(s.fate == fate)
  {
    assert (ledger + [s])[..|ledger|] == ledger;
  }

  lemma TypedAppend(typed: seq<Byte>, b: Byte)
    ensures Lines(typed + [b]) == if IsEnter(b) then Lines(typed) + [Rest(typed)] else Lines(typed)
    ensures Rest(typed + [b]) == if IsEnter(b) then [] else Edit(Rest(typed), b)
    ensures WithoutEnters(typed + [b]) == if IsEnter(b) then WithoutEnters(typed) else WithoutEnters(typed) + [b]
  {
    assert (typed + [b])[..|typed|] == typed;
  }

  lemma LinesAppend(rules: seq<Rule>, lines: seq<Line>, line: Line, r: Ruling)
    ensures Tally(rules, lines + [line], r) == Tally(rules, lines, r) + Held(RulingOf(rules, line) == r)
    ensures Asked(rules, lines + [line]) == if RulingOf(rules, line) == Questioned then Asked(rules, lines) + [line] else Asked(rules, lines)
  {
    assert (lines + [line])[..|lines|] == lines;
  }

  lemma RulingWrites(rules: seq<Rule>, line: Line)
    ensures
      var d := Decide(rules, line);
      RulingOf(rules, line) == if d.Hit? && d.severity.Block? then Stopped
                               else if d.Hit? && d.severity.Confirm? then Questioned
                               else if d.Hit? && d.severity.Warn? then PassedWithWarning else Passed
  {
    hide Decide;
  }

  /** The ruling on a line, by the severities of the rules that match it. */
  lemma RulingExactly(rules: seq<Rule>, line: Line)
    ensures
      var block, confirm, warn := Matched(rules, line, Block), Matched(rules, line, Confirm), Matched(rules, line, Warn);
      && (RulingOf(rules, line) == Stopped <==> block)
      && (RulingOf(rules, line) == Questioned <==> !block && confirm)
      && (RulingOf(rules, line) == PassedWithWarning <==> !block && !confirm && warn)
      && (RulingOf(rules, line) == Passed <==> !block && !confirm && !warn)
  {
    StrictestSeverityDecides(rules, line);
    RulingWrites(rules, line);
    hide RulingOf, Decide, Matched;
  }

  lemma EnterAccount(rules: seq<Rule>, g: Gate, b: Byte)
    requires AccountOk(rules, g) && IsEnter(b)
    ensures AccountOk(rules, Press(rules, g, b))
  {
    hide Decide, Lines, Rest, WithoutEnters, Tally, Asked, Enters, Clears, KeysOf, Fated, RulingOf;
    RulingWrites(rules, g.lineBuf);
    TypedAppend(g.typed, b);
    var lines := Lines(g.typed);
    LinesAppend(rules, lines, g.lineBuf, Passed);
    LinesAppend(rules, lines, g.lineBuf, PassedWithWarning);
    LinesAppend(rules, lines, g.lineBuf, Stopped);
    OutAppend(g.out, Enter(None));
    OutAppend(g.out, Clear(None));
    if g.pending.Some? {
      LedgerAppend(g.ledger, Settlement(g.pending.value, WasSuperseded), WasConfirmed);
      LedgerAppend(g.ledger, Settlement(g.pending.value, WasSuperseded), WasTimedOut);
    }
  }

  lemma KeyAccount(rules: seq<Rule>, g: Gate, b: Byte)
    requires AccountOk(rules, g) && !IsEnter(b)
    ensures AccountOk(rules, Press(rules, g, b))
  {
    hide Decide, Judge, Lines, Rest, WithoutEnters, Tally, Asked, Enters, Clears, KeysOf, Fated;
    TypedAppend(g.typed, b);
    OutAppend(g.out, Typed(b));
    assert Press(rules, g, b).lineBuf == Edit(g.lineBuf, b);
  }

  lemma FireAccount(rules: seq<Rule>, g: Gate, t: nat)
    requires AccountOk(rules, g) && TokensOk(g)
    ensures AccountOk(rules, Step(rules, g, TimerFires(t)))
  {
    hide Press, Lines, Rest, WithoutEnters, Tally, Asked, Enters, Clears, KeysOf, Fated, Count, NotesFor;
    assert TokenOk(g, t);
    LedgerAppend(g.ledger, Settlement(t, WasTimedOut), WasConfirmed);
    LedgerAppend(g.ledger, Settlement(t, WasTimedOut), WasTimedOut);
  }

  lemma StepAccount(rules: seq<Rule>, g: Gate, e: Event)
    requires AccountOk(rules, g) && TokensOk(g)
    ensures AccountOk(rules, Step(rules, g, e))
  {
    hide Decide, Press, Lines, Rest, WithoutEnters, Tally, Asked, Enters, Clears, KeysOf, Fated, RulingOf, TokensOk;
    match e {
      case Key(b) =>
        if IsEnter(b) {
          EnterAccount(rules, g, b);
        } else {
          KeyAccount(rules, g, b);
        }
      case Token(t) =>
        if t.Some? {
          LedgerAppend(g.ledger, Settlement(t.value, WasConfirmed), WasConfirmed);
          LedgerAppend(g.ledger, Settlement(t.value, WasConfirmed), WasTimedOut);
        }
      case ConfirmWrites => OutAppend(g.out, Enter(g.confirming));
      case TimerFires(t) => FireAccount(rules, g, t);
      case TimerWrites(t) => OutAppend(g.out, Clear(Some(t)));
    }
  }

  lemma {:induction false} RunAccount(rules: seq<Rule>, events: seq<Event>)
    ensures AccountOk(rules, Run(rules, events))
  {
    if events != [] {
      hide Step, AccountOk, TokensOk;
      RunAccount(rules, events[..|events| - 1]);
      RunTokens(rules, events[..|events| - 1]);
      StepAccount(rules, Run(rules, events[..|events| - 1]), events[|events| - 1]);
    }
  }

  /**
   * Every key is accounted for, whatever the interleaving: once the writes in progress are
   * made, the Enters sent are the passed, the warned and the confirmed lines, the clears are
   * the blocked lines and the timed-out tokens, the recorded events are all of these but the
   * passed lines; everything else sent is the typed keys without their Enters, in order; and
   * no line feed is ever sent.
   */
  lemma EveryKeyIsAccountedFor(rules: seq<Rule>, events: seq<Event>)
    ensures
      var g := Run(rules, events);
      var lines := Lines(g.typed);
      var passed, warned, stopped := Tally(rules, lines, Passed), Tally(rules, lines, PassedWithWarning), Tally(rules, lines, Stopped);
      var confirmed, timedOut := Fated(g.ledger, WasConfirmed), Fated(g.ledger, WasTimedOut);
      && Enters(g.out) == passed + warned + confirmed - Held(g.confirming.Some?)
      && Clears(g.out) == stopped + timedOut - |g.injecting|
      && |g.notes| == stopped + warned + confirmed + timedOut - Held(g.confirming.Some?) - |g.injecting|
      && KeysOf(g.out) == WithoutEnters(g.typed)
      && g.lineBuf == Rest(g.typed) && g.issued == Asked(rules, lines)
      && forall i :: 0 <= i < |g.out| ==> Sent(g.out[i]) != LF
  {
    hide Run;
    RunAccount(rules, events);
  }

  // ---- the recorded events ----

  /** The events recorded without a token, in order. */
  function Untokened(notes: seq<Note>): seq<Note> {
    if notes == [] then []
    else
      var last := notes[|notes| - 1];
      Untokened(notes[..|notes| - 1]) + if last.token.None? then [last] else []
  }

  /** What the blocked and the warned lines should be recorded as, in order. */
  function Judged(rules: seq<Rule>, lines: seq<Line>): seq<Note> {
    if lines == [] then []
    else
      var line := lines[|lines| - 1];
      Judged(rules, lines[..|lines| - 1]) +
      match RulingOf(rules, line)
      case Stopped => [Note(Blocked, None, line)]
      case PassedWithWarning => [Note(Warned, None, line)]
      case _ => []
  }

  /** Every event with a token is a confirmation, recorded without its line, or the timeout of that token's line. */
  ghost predicate EventOk(g: Gate, n: Note) {
    n.token.Some? ==>
      || (n.outcome == Confirmed && n.line == [])
      || (n.outcome == TimedOut && n.token.value < |g.issued| && n.line == g.issued[n.token.value])
  }

  ghost predicate EventsOk(rules: seq<Rule>, g: Gate) {
    && Untokened(g.notes) == Judged(rules, Lines(g.typed))
    && forall i :: 0 <= i < |g.notes| ==> EventOk(g, g.notes[i])
  }

  lemma UntokenedAppend(notes: seq<Note>, n: Note)
    ensures Untokened(notes + [n]) == if n.token.None? then Untokened(notes) + [n] else Untokened(notes)
  {
    assert (notes + [n])[..|notes|] == notes;
  }

  lemma JudgedAppend(rules: seq<Rule>, lines: seq<Line>, line: Line)
    ensures Judged(rules, lines + [line]) ==
      if RulingOf(rules, line) == Stopped then Judged(rules, lines) + [Note(Blocked, None, line)]
      else if RulingOf(rules, line) == PassedWithWarning then Judged(rules, lines) + [Note(Warned, None, line)]
      else Judged(rules, lines)
  {
    assert (lines + [line])[..|lines|] == lines;
  }

  lemma KeyEvents(rules: seq<Rule>, g: Gate, b: Byte)
    requires EventsOk(rules, g) && AccountOk(rules, g)
    ensures EventsOk(rules, Press(rules, g, b))
  {
    hide Decide, Lines, Rest, Untokened, Judged, RulingOf, Tally, Asked, Enters, Clears, KeysOf, Fated, WithoutEnters;
    RulingWrites(rules, g.lineBuf);
    TypedAppend(g.typed, b);
    JudgedAppend(rules, Lines(g.typed), g.lineBuf);
    UntokenedAppend(g.notes, Note(Blocked, None, g.lineBuf));
    UntokenedAppend(g.notes, Note(Warned, None, g.lineBuf));
  }

  lemma StepEvents(rules: seq<Rule>, g: Gate, e: Event)
    requires EventsOk(rules, g) && AccountOk(rules, g)
    ensures EventsOk(rules, Step(rules, g, e))
  {
    hide Decide, Press, Lines, Untokened, Judged, AccountOk;
    match e {
      case Key(b) => KeyEvents(rules, g, b);
      case ConfirmWrites => UntokenedAppend(g.notes, Note(Confirmed, g.confirming, []));
      case TimerWrites(t) => if t < |g.issued| { UntokenedAppend(g.notes, Note(TimedOut, Some(t), g.issued[t])); }
      case _ =>
    }
  }

  /**
   * In every run the events recorded without a token are, in order, one for each blocked
   * line and one for each line let through with a warning, each with its line; every other
   * event is a confirmation without a line or the timeout of a token, with that token's line.
   */
  lemma {:induction false} EventsAreTheJudgedLines(rules: seq<Rule>, events: seq<Event>)
    ensures EventsOk(rules, Run(rules, events))
  {
    if events != [] {
      hide Step, EventsOk, AccountOk;
      EventsAreTheJudgedLines(rules, events[..|events| - 1]);
      RunAccount(rules, events[..|events| - 1]);
      StepEvents(rules, Run(rules, events[..|events| - 1]), events[|events| - 1]);
    }
  }
}
