/**
 * The gate's line against the line the remote terminal is editing, in canonical mode as
 * sections 11.1.6 and 11.1.9 of the POSIX.1-2017 Base Definitions describe it.
 */
module RemoteLines {
  import opened Wrappers
  import opened Filters
  import opened LineGates
  import opened LineGateTheorems

  /** The line being edited and the lines handed to the shell so far. */
  datatype Tty = Tty(line: Line, executed: seq<Line>)

  /** ERASE takes one character off, KILL and INTR discard the line, CR (mapped to NL) or NL ends it. */
  function Feed(erase: Byte, tty: Tty, b: Byte): Tty {
    if b == CR || b == LF then Tty([], tty.executed + [tty.line])
    else if b == KILL || b == INTR then tty.(line := [])
    else if b == erase then tty.(line := if |tty.line| == 0 then [] else tty.line[..|tty.line| - 1])
    else tty.(line := tty.line + [b])
  }

  const BLANK := Tty([], [])

  /** The terminal after these writes, from where it was when the connection began. */
  function Shown(erase: Byte, start: Tty, out: seq<Write>): Tty {
    if out == [] then start else Feed(erase, Shown(erase, start, out[..|out| - 1]), Sent(out[|out| - 1]))
  }

  predicate Printable(b: Byte) {
    b >= 0x20 && b != DEL
  }

  /** Printable keys, the terminal's erase key, ^C, ^U and Enter. */
  predicate Plain(erase: Byte, b: Byte) {
    Printable(b) || b == erase || b == INTR || b == KILL || IsEnter(b)
  }

  /** No token is pending and no write is in progress. */
  predicate Idle(g: Gate) {
    g.pending.None? && g.confirming.None? && g.injecting == {}
  }

  /** Keys come only while the gate is idle. */
  ghost predicate Quiet(rules: seq<Rule>, erase: Byte, events: seq<Event>) {
    events != [] ==>
      var before, last := events[..|events| - 1], events[|events| - 1];
      && Quiet(rules, erase, before)
      && (last.Key? ==> Idle(Run(rules, before)) && Plain(erase, last.b))
  }

  /** The typed lines whose Enter was let through: those that passed, those warned about, and those whose token came back. */
  function LetThrough(rules: seq<Rule>, lines: seq<Line>, out: seq<Write>): seq<Line> {
    if lines == [] then []
    else
      var before, line := lines[..|lines| - 1], lines[|lines| - 1];
      var earlier := LetThrough(rules, before, out);
      match RulingOf(rules, line)
      case Stopped => earlier
      case Questioned => if Enter(Some(|Asked(rules, before)|)) in out then earlier + [line] else earlier
      case _ => earlier + [line]
  }

  /** Token t is the one at stake: pending, being confirmed, or being cleared. */
  predicate AtStake(g: Gate, t: nat) {
    || (g.pending == Some(t) && g.confirming.None? && g.injecting == {})
    || (g.pending.None? && g.confirming == Some(t) && g.injecting == {})
    || (g.pending.None? && g.confirming.None? && g.injecting == {t})
  }

  ghost predicate Mirrored(rules: seq<Rule>, erase: Byte, start: Tty, g: Gate) {
    var tty, lines := Shown(erase, start, g.out), Lines(g.typed);
    && tty.executed == start.executed + LetThrough(rules, lines, g.out)
    && if Idle(g) then tty.line == g.lineBuf
       else
         && |g.issued| > 0 && AtStake(g, |g.issued| - 1) && g.lineBuf == []
         && lines != [] && RulingOf(rules, lines[|lines| - 1]) == Questioned && tty.line == lines[|lines| - 1]
  }

  lemma ShownAppend(erase: Byte, start: Tty, out: seq<Write>, w: Write)
    ensures Shown(erase, start, out + [w]) == Feed(erase, Shown(erase, start, out), Sent(w))
  {
    assert (out + [w])[..|out|] == out;
  }

  lemma ThroughAppend(rules: seq<Rule>, lines: seq<Line>, line: Line, out: seq<Write>)
    ensures LetThrough(rules, lines + [line], out) ==
      match RulingOf(rules, line)
      case Stopped => LetThrough(rules, lines, out)
      case Questioned =>
        if Enter(Some(|Asked(rules, lines)|)) in out then LetThrough(rules, lines, out) + [line] else LetThrough(rules, lines, out)
      case _ => LetThrough(rules, lines, out) + [line]
  {
    assert (lines + [line])[..|lines|] == lines;
  }

  /** Only Enters of this many tokens matter. */
  lemma {:induction false} ThroughSame(rules: seq<Rule>, lines: seq<Line>, out: seq<Write>, w: Write)
    requires w.Enter? && w.token.Some? ==> w.token.value >= |Asked(rules, lines)|
    ensures LetThrough(rules, lines, out + [w]) == LetThrough(rules, lines, out)
  {
    if lines != [] {
      ThroughSame(rules, lines[..|lines| - 1], out, w);
    }
  }

  lemma {:induction false} NotWritten(out: seq<Write>, w: Write)
    ensures Count(out, w) == 0 <==> w !in out
  {
    if out != [] {
      NotWritten(out[..|out| - 1], w);
      assert w in out <==> w in out[..|out| - 1] || w == out[|out| - 1];
    }
  }

  lemma EnterMirrored(rules: seq<Rule>, erase: Byte, start: Tty, g: Gate, b: Byte)
    requires Mirrored(rules, erase, start, g) && AccountOk(rules, g) && TokensOk(g) && Idle(g) && IsEnter(b)
    ensures Mirrored(rules, erase, start, Press(rules, g, b))
  {
    hide Decide, Lines, Rest, LetThrough, Shown, Asked, RulingOf, WithoutEnters, KeysOf, Tally, Fated, Enters, Clears;
    RulingWrites(rules, g.lineBuf);
    TypedAppend(g.typed, b);
    var lines := Lines(g.typed);
    ShownAppend(erase, start, g.out, Enter(None));
    ShownAppend(erase, start, g.out, Clear(None));
    ThroughSame(rules, lines, g.out, Enter(None));
    ThroughSame(rules, lines, g.out, Clear(None));
    ThroughAppend(rules, lines, g.lineBuf, Press(rules, g, b).out);
    assert TokenOk(g, |g.issued|);
    NotWritten(g.out, Enter(Some(|g.issued|)));
  }

  lemma KeyMirrored(rules: seq<Rule>, erase: Byte, start: Tty, g: Gate, b: Byte)
    requires Mirrored(rules, erase, start, g) && Idle(g) && Plain(erase, b) && !IsEnter(b) && (erase == DEL || erase == BS)
    ensures Mirrored(rules, erase, start, Press(rules, g, b))
  {
    hide Decide, Lines, Rest, LetThrough, Shown, Asked, RulingOf, WithoutEnters;
    TypedAppend(g.typed, b);
    ShownAppend(erase, start, g.out, Typed(b));
    ThroughSame(rules, Lines(g.typed), g.out, Typed(b));
  }

  /** A token being confirmed has not written its Enter. */
  lemma NotYetWritten(g: Gate, t: nat)
    requires TokensOk(g) && g.confirming == Some(t)
    ensures Enter(Some(t)) !in g.out
  {
    hide Count, NotesFor;
    assert TokenOk(g, t);
    NotWritten(g.out, Enter(Some(t)));
  }

  /** The line of the last token runs once its Enter is written. */
  lemma ConfirmedThrough(rules: seq<Rule>, before: seq<Line>, line: Line, out: seq<Write>, t: nat)
    requires RulingOf(rules, line) == Questioned && t == |Asked(rules, before)| && Enter(Some(t)) !in out
    ensures LetThrough(rules, before + [line], out + [Enter(Some(t))]) == LetThrough(rules, before + [line], out) + [line]
  {
    hide LetThrough, Asked, RulingOf;
    ThroughAppend(rules, before, line, out);
    ThroughAppend(rules, before, line, out + [Enter(Some(t))]);
    ThroughSame(rules, before, out, Enter(Some(t)));
  }

  lemma ConfirmedMirrored(rules: seq<Rule>, erase: Byte, start: Tty, g: Gate)
    requires Mirrored(rules, erase, start, g) && AccountOk(rules, g) && TokensOk(g) && g.confirming.Some?
    ensures Mirrored(rules, erase, start, Step(rules, g, ConfirmWrites))
  {
    hide Decide, Lines, Rest, LetThrough, Shown, Asked, RulingOf, WithoutEnters, KeysOf, Tally, Fated, Enters, Clears, TokensOk;
    var t := |g.issued| - 1;
    var lines := Lines(g.typed);
    var before, line := lines[..|lines| - 1], lines[|lines| - 1];
    assert lines == before + [line];
    LinesAppend(rules, before, line, Questioned);
    NotYetWritten(g, t);
    ShownAppend(erase, start, g.out, Enter(Some(t)));
    ConfirmedThrough(rules, before, line, g.out, t);
  }

  lemma ClearedMirrored(rules: seq<Rule>, erase: Byte, start: Tty, g: Gate, t: nat)
    requires Mirrored(rules, erase, start, g) && t in g.injecting
    ensures Mirrored(rules, erase, start, Step(rules, g, TimerWrites(t)))
  {
    hide Decide, Lines, LetThrough, Shown, RulingOf;
    ShownAppend(erase, start, g.out, Clear(Some(t)));
    ThroughSame(rules, Lines(g.typed), g.out, Clear(Some(t)));
  }

  lemma StepMirrored(rules: seq<Rule>, erase: Byte, start: Tty, g: Gate, e: Event)
    requires Mirrored(rules, erase, start, g) && AccountOk(rules, g) && TokensOk(g) && (erase == DEL || erase == BS)
    requires e.Key? ==> Idle(g) && Plain(erase, e.b)
    ensures Mirrored(rules, erase, start, Step(rules, g, e))
  {
    hide Lines, LetThrough, Shown, RulingOf, Press, AccountOk, TokensOk;
    match e {
      case Key(b) => if IsEnter(b) { EnterMirrored(rules, erase, start, g, b); } else { KeyMirrored(rules, erase, start, g, b); }
      case ConfirmWrites => if g.confirming.Some? { ConfirmedMirrored(rules, erase, start, g); }
      case TimerWrites(t) => if t in g.injecting { ClearedMirrored(rules, erase, start, g, t); }
      case Token(_) =>
      case TimerFires(t) =>
    }
  }

  lemma {:induction false} RunMirrored(rules: seq<Rule>, erase: Byte, start: Tty, events: seq<Event>)
    requires Quiet(rules, erase, events) && (erase == DEL || erase == BS) && start.line == []
    ensures Mirrored(rules, erase, start, Run(rules, events))
  {
    if events != [] {
      hide Step, Mirrored;
      var before := events[..|events| - 1];
      RunMirrored(rules, erase, start, before);
      RunAccount(rules, before);
      RunTokens(rules, before);
      StepMirrored(rules, erase, start, Run(rules, before), events[|events| - 1]);
    }
  }

  /** A line the remote side may run: it passed, was warned about, or is the line of a token that came back. */
  ghost predicate Allowed(rules: seq<Rule>, g: Gate, line: Line) {
    || RulingOf(rules, line) == Passed || RulingOf(rules, line) == PassedWithWarning
    || exists t :: 0 <= t < |g.issued| && g.issued[t] == line && Settled(g, t, WasConfirmed) == 1
  }

  lemma {:induction false} ThroughIsAllowed(rules: seq<Rule>, lines: seq<Line>, g: Gate, i: nat)
    requires TokensOk(g) && Asked(rules, lines) <= g.issued && i < |LetThrough(rules, lines, g.out)|
    ensures Allowed(rules, g, LetThrough(rules, lines, g.out)[i])
  {
    hide Decide, RulingOf, TokenOk;
    var before, line := lines[..|lines| - 1], lines[|lines| - 1];
    assert lines == before + [line];
    LinesAppend(rules, before, line, Passed);
    if i < |LetThrough(rules, before, g.out)| {
      ThroughIsAllowed(rules, before, g, i);
    } else if RulingOf(rules, line) == Questioned {
      var t := |Asked(rules, before)|;
      assert g.issued[t] == line;
      WrittenIsConfirmed(g, t);
    }
  }

  lemma WrittenIsConfirmed(g: Gate, t: nat)
    requires TokensOk(g) && Enter(Some(t)) in g.out
    ensures Settled(g, t, WasConfirmed) == 1
  {
    NotWritten(g.out, Enter(Some(t)));
    hide Count, NotesFor;
    assert TokenOk(g, t);
  }

  /**
   * The gate refines the remote editor: when keys come only while it is idle, its line is the
   * remote line whenever it is idle; the remote side has run exactly the typed lines that
   * passed, were warned about or were confirmed, in the order typed; and so no line it ran
   * was one that is blocked or still in question.
   */
  lemma GateRefinesRemote(rules: seq<Rule>, erase: Byte, start: Tty, events: seq<Event>)
    requires Quiet(rules, erase, events) && (erase == DEL || erase == BS) && start.line == []
    ensures
      var g := Run(rules, events);
      var tty := Shown(erase, start, g.out);
      && (Idle(g) ==> tty.line == g.lineBuf)
      && tty.executed == start.executed + LetThrough(rules, Lines(g.typed), g.out)
      && forall i :: |start.executed| <= i < |tty.executed| ==> Allowed(rules, g, tty.executed[i])
  {
    hide Run, Quiet, Allowed, TokensOk;
    var g := Run(rules, events);
    RunMirrored(rules, erase, start, events);
    RunAccount(rules, events);
    RunTokens(rules, events);
    var executed := Shown(erase, start, g.out).executed;
    forall i | |start.executed| <= i < |executed| ensures Allowed(rules, g, executed[i]) {
      ThroughIsAllowed(rules, Lines(g.typed), g, i - |start.executed|);
    }
  }

  /**
   * With quiet keys, no line the remote side ran matches a blocking rule, and one that
   * matches a rule asking for confirmation is the line of a token whose Enter was released.
   */
  lemma NoBlockedLineRuns(rules: seq<Rule>, erase: Byte, start: Tty, events: seq<Event>, i: nat)
    requires Quiet(rules, erase, events) && (erase == DEL || erase == BS) && start.line == []
    requires |start.executed| <= i < |Shown(erase, start, Run(rules, events).out).executed|
    ensures
      var g := Run(rules, events);
      var line := Shown(erase, start, g.out).executed[i];
      && !Matched(rules, line, Block)
      && (Matched(rules, line, Confirm) ==>
            exists t :: 0 <= t < |g.issued| && g.issued[t] == line && Settled(g, t, WasConfirmed) == 1)
  {
    hide Run, Quiet, Matched, RulingOf, Settled, Shown;
    var g := Run(rules, events);
    GateRefinesRemote(rules, erase, start, events);
    var line := Shown(erase, start, g.out).executed[i];
    RulingExactly(rules, line);
    if t :| 0 <= t < |g.issued| && g.issued[t] == line {
      IssuedIsQuestioned(rules, events, t);
    }
    assert Allowed(rules, g, line);
  }

  /** Every line a token was issued for needs confirmation. */
  lemma IssuedIsQuestioned(rules: seq<Rule>, events: seq<Event>, t: nat)
    requires t < |Run(rules, events).issued|
    ensures RulingOf(rules, Run(rules, events).issued[t]) == Questioned
  {
    hide Run, Lines, Asked, RulingOf;
    RunAccount(rules, events);
    AskedIsQuestioned(rules, Lines(Run(rules, events).typed), t);
  }

  lemma {:induction false} AskedIsQuestioned(rules: seq<Rule>, lines: seq<Line>, t: nat)
    requires t < |Asked(rules, lines)|
    ensures RulingOf(rules, Asked(rules, lines)[t]) == Questioned
  {
    hide RulingOf;
    var before := lines[..|lines| - 1];
    if t < |Asked(rules, before)| {
      AskedIsQuestioned(rules, before, t);
    }
  }

  function Keys(bs: seq<Byte>): seq<Event> {
    seq(|bs|, i requires 0 <= i < |bs| => Key(bs[i]))
  }

  predicate PlainKeys(erase: Byte, ks: seq<Byte>) {
    forall i :: 0 <= i < |ks| ==> Plain(erase, ks[i])
  }

  // ---- keys typed while a token is at stake ----

  /**
   * What stands on the remote line before the line the gate knows of, after these keys, if
   * `l` stood there before them and the gate began with nothing. The gate knows of what the
   * keys make by themselves since the last Enter, which is Rest(ks). A questioned line stays.
   */
  function Left(rules: seq<Rule>, l: Line, ks: seq<Byte>): Line {
    if ks == [] then l
    else
      var before, b := ks[..|ks| - 1], ks[|ks| - 1];
      var left := Left(rules, l, before);
      if IsEnter(b) then (if RulingOf(rules, Rest(before)) == Questioned then left + Rest(before) else [])
      else if b == INTR || b == KILL then []
      else if (b == DEL || b == BS) && Rest(before) == [] && left != [] then left[..|left| - 1]
      else left
  }

  /** The lines the remote side runs during these keys: at each Enter that passes, what is left and what the gate judged. */
  function RanDuring(rules: seq<Rule>, l: Line, ks: seq<Byte>): seq<Line> {
    if ks == [] then []
    else
      var before, b := ks[..|ks| - 1], ks[|ks| - 1];
      var ran := RanDuring(rules, l, before);
      var ruling := RulingOf(rules, Rest(before));
      if IsEnter(b) && (ruling == Passed || ruling == PassedWithWarning) then ran + [Left(rules, l, before) + Rest(before)] else ran
  }

  /** The questioned lines among those ended during these keys. */
  function AskedDuring(rules: seq<Rule>, ks: seq<Byte>): seq<Line> {
    Asked(rules, Lines(ks))
  }

  lemma LeftAppend(rules: seq<Rule>, l: Line, ks: seq<Byte>, b: Byte)
    ensures
      var left := Left(rules, l, ks);
      Left(rules, l, ks + [b]) ==
        if IsEnter(b) then (if RulingOf(rules, Rest(ks)) == Questioned then left + Rest(ks) else [])
        else if b == INTR || b == KILL then []
        else if (b == DEL || b == BS) && Rest(ks) == [] && left != [] then left[..|left| - 1]
        else left
    ensures
      var ruling := RulingOf(rules, Rest(ks));
      RanDuring(rules, l, ks + [b]) ==
        if IsEnter(b) && (ruling == Passed || ruling == PassedWithWarning)
        then RanDuring(rules, l, ks) + [Left(rules, l, ks) + Rest(ks)] else RanDuring(rules, l, ks)
  {
    assert (ks + [b])[..|ks|] == ks;
  }

  lemma NoneAskedBefore(rules: seq<Rule>, ks: seq<Byte>, b: Byte)
    requires AskedDuring(rules, ks + [b]) == []
    ensures AskedDuring(rules, ks) == [] && !(IsEnter(b) && RulingOf(rules, Rest(ks)) == Questioned)
  {
    hide Lines, Rest, Asked, RulingOf;
    TypedAppend(ks, b);
    LinesAppend(rules, Lines(ks), Rest(ks), Passed);
  }

  /** If none of the keys' lines is questioned, what is left is a beginning of what stood there. */
  lemma {:induction false} LeftIsPrefix(rules: seq<Rule>, l: Line, ks: seq<Byte>)
    requires AskedDuring(rules, ks) == []
    ensures Left(rules, l, ks) <= l
  {
    if ks != [] {
      hide AskedDuring, RulingOf, Rest;
      var before, b := ks[..|ks| - 1], ks[|ks| - 1];
      assert ks == before + [b];
      NoneAskedBefore(rules, before, b);
      LeftIsPrefix(rules, l, before);
    }
  }

  /** How gate and terminal stand after these keys, from a gate with nothing typed and a terminal showing `base`. */
  ghost predicate SinceAsked(rules: seq<Rule>, erase: Byte, start: Tty, base: Tty, g: Gate, ks: seq<Byte>) {
    && g.confirming.None? && g.lineBuf == Rest(ks)
    && Shown(erase, start, g.out) ==
         Tty(Left(rules, base.line, ks) + Rest(ks), base.executed + RanDuring(rules, base.line, ks))
  }

  /** One plain key on what is left and what the gate knows of. */
  lemma FeedSplit(erase: Byte, left: Line, own: Line, executed: seq<Line>, b: Byte)
    requires Plain(erase, b) && !IsEnter(b) && (erase == DEL || erase == BS)
    ensures
      var left' :=
        if b == INTR || b == KILL then []
        else if (b == DEL || b == BS) && own == [] && left != [] then left[..|left| - 1]
        else left;
      Feed(erase, Tty(left + own, executed), b) == Tty(left' + Edit(own, b), executed)
  {
    if own != [] {
      assert (left + own)[..|left + own| - 1] == left + own[..|own| - 1];
    }
  }

  lemma PlainTyped(rules: seq<Rule>, erase: Byte, start: Tty, base: Tty, g: Gate, ks: seq<Byte>, b: Byte)
    requires SinceAsked(rules, erase, start, base, g, ks) && Plain(erase, b) && !IsEnter(b) && (erase == DEL || erase == BS)
    ensures SinceAsked(rules, erase, start, base, Step(rules, g, Key(b)), ks + [b])
  {
    hide Shown, Left, RanDuring, Rest, Lines, RulingOf, Press, Feed, Plain, Edit;
    ShownAppend(erase, start, g.out, Typed(b));
    PlainPress(rules, erase, g, b);
    TypedAppend(ks, b);
    LeftAppend(rules, base.line, ks, b);
    FeedSplit(erase, Left(rules, base.line, ks), Rest(ks), base.executed + RanDuring(rules, base.line, ks), b);
  }

  lemma PlainPress(rules: seq<Rule>, erase: Byte, g: Gate, b: Byte)
    requires !IsEnter(b)
    ensures
      var g' := Press(rules, g, b);
      g' == g.(lineBuf := Edit(g.lineBuf, b), out := g.out + [Typed(b)], typed := g.typed + [b])
  {
    hide Decide;
  }

  lemma EnterPress(rules: seq<Rule>, g: Gate, b: Byte)
    requires IsEnter(b)
    ensures
      var g', ruling := Press(rules, g, b), RulingOf(rules, g.lineBuf);
      && g'.lineBuf == [] && g'.confirming == g.confirming
      && g'.out == if ruling == Questioned then g.out else g.out + [if ruling == Stopped then Clear(None) else Enter(None)]
  {
    hide Decide, RulingOf;
    RulingWrites(rules, g.lineBuf);
  }

  lemma EnterTyped(rules: seq<Rule>, erase: Byte, start: Tty, base: Tty, g: Gate, ks: seq<Byte>, b: Byte)
    requires SinceAsked(rules, erase, start, base, g, ks) && IsEnter(b)
    ensures SinceAsked(rules, erase, start, base, Step(rules, g, Key(b)), ks + [b])
  {
    hide Press, Shown, Left, RanDuring, Rest, Lines, RulingOf;
    EnterPress(rules, g, b);
    ShownAppend(erase, start, g.out, Enter(None));
    ShownAppend(erase, start, g.out, Clear(None));
    TypedAppend(ks, b);
    LeftAppend(rules, base.line, ks, b);
  }

  /** What one key does to the tokens: a questioned line gets the next one, which is then the pending one. */
  lemma KeyAsks(rules: seq<Rule>, g: Gate, ks: seq<Byte>, b: Byte)
    requires g.confirming.None? && g.lineBuf == Rest(ks)
    ensures
      var g' := Step(rules, g, Key(b));
      var asked := IsEnter(b) && RulingOf(rules, Rest(ks)) == Questioned;
      && g'.issued == (if asked then g.issued + [Rest(ks)] else g.issued)
      && g'.pending == (if asked then Some(|g.issued|) else g.pending)
      && g'.armed == (if asked then g.armed + {|g.issued|} else g.armed)
      && g'.injecting == g.injecting
      && AskedDuring(rules, ks + [b]) == if asked then AskedDuring(rules, ks) + [Rest(ks)] else AskedDuring(rules, ks)
  {
    hide Decide, Rest, Lines, RulingOf, Asked;
    RulingWrites(rules, Rest(ks));
    TypedAppend(ks, b);
    LinesAppend(rules, Lines(ks), Rest(ks), Passed);
  }

  lemma RunOne(rules: seq<Rule>, before: seq<Event>, e: Event)
    ensures Run(rules, before + [e]) == Step(rules, Run(rules, before), e)
  {
    assert (before + [e])[..|before|] == before;
  }

  /** From `g` after the keys `ks` to `g'` after `ks'`: the pending token is the last one given out in between, if there is one. */
  ghost predicate Onwards(rules: seq<Rule>, g: Gate, g': Gate, ks: seq<Byte>, ks': seq<Byte>) {
    && g'.injecting == g.injecting && g.armed <= g'.armed && g.issued <= g'.issued
    && AskedDuring(rules, ks) <= AskedDuring(rules, ks')
    && if AskedDuring(rules, ks') == AskedDuring(rules, ks) then g'.pending == g.pending && g'.issued == g.issued
       else |g'.issued| > |g.issued| && g'.pending == Some(|g'.issued| - 1) && |g'.issued| - 1 in g'.armed
  }

  lemma OnwardsTwice(rules: seq<Rule>, g: Gate, g1: Gate, g2: Gate, ks: seq<Byte>, ks1: seq<Byte>, ks2: seq<Byte>)
    requires Onwards(rules, g, g1, ks, ks1) && Onwards(rules, g1, g2, ks1, ks2)
    ensures Onwards(rules, g, g2, ks, ks2)
  {
    hide AskedDuring;
  }

  lemma OneKey(rules: seq<Rule>, erase: Byte, start: Tty, base: Tty, g: Gate, ks: seq<Byte>, b: Byte)
    requires SinceAsked(rules, erase, start, base, g, ks)
    requires Plain(erase, b) && (erase == DEL || erase == BS)
    ensures SinceAsked(rules, erase, start, base, Step(rules, g, Key(b)), ks + [b])
    ensures Onwards(rules, g, Step(rules, g, Key(b)), ks, ks + [b])
  {
    hide Step, SinceAsked, AskedDuring, Rest, RulingOf;
    if IsEnter(b) {
      EnterTyped(rules, erase, start, base, g, ks, b);
    } else {
      PlainTyped(rules, erase, start, base, g, ks, b);
    }
    TypedHere(rules, erase, start, base, g, ks);
    KeyAsks(rules, g, ks, b);
  }

  /** More keys, after some already typed. */
  lemma {:induction false} MoreKeys(rules: seq<Rule>, erase: Byte, start: Tty, base: Tty, events: seq<Event>, ks: seq<Byte>, more: seq<Byte>)
    requires SinceAsked(rules, erase, start, base, Run(rules, events), ks)
    requires PlainKeys(erase, more) && (erase == DEL || erase == BS)
    ensures SinceAsked(rules, erase, start, base, Run(rules, events + Keys(more)), ks + more)
    ensures Onwards(rules, Run(rules, events), Run(rules, events + Keys(more)), ks, ks + more)
  {
    hide Step, SinceAsked, Run, AskedDuring, Plain;
    if more == [] {
      assert events + Keys(more) == events && ks + more == ks;
    } else {
      hide Onwards;
      var n := |more| - 1;
      MoreKeys(rules, erase, start, base, events, ks, more[..n]);
      var before, typed, b := events + Keys(more[..n]), ks + more[..n], more[n];
      assert events + Keys(more) == before + [Key(b)] && ks + more == typed + [b];
      RunOne(rules, before, Key(b));
      OneKey(rules, erase, start, base, Run(rules, before), typed, b);
      OnwardsTwice(rules, Run(rules, events), Run(rules, before), Run(rules, events + Keys(more)), ks, typed, ks + more);
    }
  }

  lemma TypedHere(rules: seq<Rule>, erase: Byte, start: Tty, base: Tty, g: Gate, ks: seq<Byte>)
    requires SinceAsked(rules, erase, start, base, g, ks)
    ensures g.confirming.None? && g.lineBuf == Rest(ks)
    ensures Shown(erase, start, g.out) ==
      Tty(Left(rules, base.line, ks) + Rest(ks), base.executed + RanDuring(rules, base.line, ks))
  {
  }

  /** The line in question is the one at stake, and the remote side still shows it. */
  lemma PendingLine(rules: seq<Rule>, erase: Byte, start: Tty, g: Gate)
    requires Mirrored(rules, erase, start, g) && AccountOk(rules, g) && g.pending.Some?
    ensures g.pending == Some(|g.issued| - 1) && g.confirming.None? && g.injecting == {} && g.lineBuf == []
    ensures Shown(erase, start, g.out).line == g.issued[|g.issued| - 1]
  {
    hide Decide, Shown, LetThrough, RulingOf, Rest;
    var lines := Lines(g.typed);
    var before, line := lines[..|lines| - 1], lines[|lines| - 1];
    assert lines == before + [line];
    LinesAppend(rules, before, line, Questioned);
  }

  /** A connection that began on an empty remote line, was quiet so far, and has a token pending. */
  ghost predicate Asking(rules: seq<Rule>, erase: Byte, start: Tty, events: seq<Event>) {
    Quiet(rules, erase, events) && (erase == DEL || erase == BS) && start.line == [] && Run(rules, events).pending.Some?
  }

  function Question(rules: seq<Rule>, events: seq<Event>): Line {
    var g := Run(rules, events);
    if g.pending.Some? && g.pending.value < |g.issued| then g.issued[g.pending.value] else []
  }

  /**
   * Keys of any kind typed while the token is pending. The remote line shows what is left of
   * the line in question (and of lines questioned since) followed by what the gate knows of;
   * every Enter that passes runs both; the pending token is still the same one unless one of
   * these Enters was questioned, and is then the last of those.
   */
  lemma TypingWhilePending(rules: seq<Rule>, erase: Byte, start: Tty, events: seq<Event>, ks: seq<Byte>)
    requires Asking(rules, erase, start, events) && PlainKeys(erase, ks)
    ensures
      var g, g' := Run(rules, events), Run(rules, events + Keys(ks));
      var l, e := Question(rules, events), Shown(erase, start, g.out).executed;
      && g'.lineBuf == Rest(ks) && g'.confirming.None? && g'.injecting == {}
      && Shown(erase, start, g'.out) == Tty(Left(rules, l, ks) + Rest(ks), e + RanDuring(rules, l, ks))
      && g'.pending.Some? && g'.pending.value in g'.armed && g'.pending.value < |g'.issued|
      && (AskedDuring(rules, ks) == [] ==>
            g'.pending == g.pending && g'.issued == g.issued && Left(rules, l, ks) <= l)
      && (AskedDuring(rules, ks) != [] ==> g'.pending == Some(|g'.issued| - 1) && g'.pending.value >= |g.issued|)
      && SinceAsked(rules, erase, start, Tty(l, e), g', ks)
  {
    hide Run, Quiet, Shown, AccountOk, TokensOk, Mirrored, SinceAsked, Rest, Left, RanDuring, AskedDuring;
    var g := Run(rules, events);
    RunMirrored(rules, erase, start, events);
    RunAccount(rules, events);
    RunTokens(rules, events);
    PendingLine(rules, erase, start, g);
    PendingIsArmed(g);
    var base := Tty(Question(rules, events), Shown(erase, start, g.out).executed);
    NothingTyped(rules, erase, start, base, g);
    MoreKeys(rules, erase, start, base, events, [], ks);
    assert [] + ks == ks;
    TypedHere(rules, erase, start, base, Run(rules, events + Keys(ks)), ks);
    if AskedDuring(rules, ks) == [] {
      LeftIsPrefix(rules, base.line, ks);
    }
  }

  lemma NothingTyped(rules: seq<Rule>, erase: Byte, start: Tty, base: Tty, g: Gate)
    requires g.confirming.None? && g.lineBuf == [] && Shown(erase, start, g.out) == base
    ensures SinceAsked(rules, erase, start, base, g, []) && AskedDuring(rules, []) == []
  {
    hide Shown;
    assert base.executed + [] == base.executed && base.line + [] == base.line;
  }

  lemma PendingIsArmed(g: Gate)
    requires TokensOk(g) && g.pending.Some?
    ensures g.pending.value in g.armed
  {
    hide Count, NotesFor;
    assert TokenOk(g, g.pending.value);
  }

  /**
   * Once the pending token has timed out and its ^U is written, the remote line is empty,
   * whatever was typed before its timer fired or between that and the ^U, Enters among it or
   * not. The gate still has what those keys make since their last Enter, so the two lines
   * agree if and only if that is nothing.
   */
  lemma AfterTimeout(rules: seq<Rule>, erase: Byte, start: Tty, events: seq<Event>, ks: seq<Byte>, more: seq<Byte>)
    requires Asking(rules, erase, start, events) && PlainKeys(erase, ks) && PlainKeys(erase, more)
    ensures Run(rules, events + Keys(ks)).pending.Some?
    ensures
      var t := Run(rules, events + Keys(ks)).pending.value;
      var g' := Run(rules, events + Keys(ks) + [TimerFires(t)] + Keys(more) + [TimerWrites(t)]);
      var tty' := Shown(erase, start, g'.out);
      var l := Question(rules, events);
      && g'.confirming.None? && g'.injecting == {} && g'.lineBuf == Rest(ks + more)
      && tty' == Tty([], Shown(erase, start, Run(rules, events).out).executed + RanDuring(rules, l, ks + more))
      && (tty'.line == g'.lineBuf <==> Rest(ks + more) == [])
      && (g'.pending.None? <==> AskedDuring(rules, ks + more) == AskedDuring(rules, ks))
  {
    hide Run, Quiet, Shown, Rest, Left, RanDuring, AskedDuring, SinceAsked;
    TypingWhilePending(rules, erase, start, events, ks);
    var base := Tty(Question(rules, events), Shown(erase, start, Run(rules, events).out).executed);
    var t := Run(rules, events + Keys(ks)).pending.value;
    var fired := events + Keys(ks) + [TimerFires(t)];
    RunOne(rules, events + Keys(ks), TimerFires(t));
    FiredTyped(rules, erase, start, base, Run(rules, events + Keys(ks)), ks, t);
    MoreKeys(rules, erase, start, base, fired, ks, more);
    var g1 := Run(rules, fired + Keys(more));
    TypedHere(rules, erase, start, base, g1, ks + more);
    RunOne(rules, fired + Keys(more), TimerWrites(t));
    ShownAppend(erase, start, g1.out, Clear(Some(t)));
  }

  lemma FiredTyped(rules: seq<Rule>, erase: Byte, start: Tty, base: Tty, g: Gate, ks: seq<Byte>, t: nat)
    requires SinceAsked(rules, erase, start, base, g, ks)
    ensures SinceAsked(rules, erase, start, base, Step(rules, g, TimerFires(t)), ks)
  {
    hide Shown, Rest, Left, RanDuring;
  }

  /**
   * Once the pending token has come back and its Enter is written, the remote side has run
   * what was left followed by what was typed since the last Enter; the remote line is then
   * empty, and the two lines agree if and only if the keys since the last Enter make nothing.
   * If no Enter in between was questioned, the token is that of the line in question, and the
   * line run is that line if and only if the keys put back exactly what they took away.
   */
  lemma AfterConfirmation(rules: seq<Rule>, erase: Byte, start: Tty, events: seq<Event>, ks: seq<Byte>)
    requires Asking(rules, erase, start, events) && PlainKeys(erase, ks)
    ensures
      var g1 := Run(rules, events + Keys(ks));
      var g' := Run(rules, events + Keys(ks) + [Token(g1.pending)] + [ConfirmWrites]);
      var tty' := Shown(erase, start, g'.out);
      var l := Question(rules, events);
      var ran := Left(rules, l, ks) + Rest(ks);
      && Idle(g') && g'.lineBuf == Rest(ks)
      && tty' == Tty([], Shown(erase, start, Run(rules, events).out).executed + RanDuring(rules, l, ks) + [ran])
      && (tty'.line == g'.lineBuf <==> Rest(ks) == [])
      && (AskedDuring(rules, ks) == [] ==>
            && g1.pending == Run(rules, events).pending && Left(rules, l, ks) <= l
            && (ran == l <==> Rest(ks) == l[|Left(rules, l, ks)|..]))
  {
    hide Run, Quiet, Shown, Rest, Left, RanDuring, AskedDuring, SinceAsked;
    var l := Question(rules, events);
    TypingWhilePending(rules, erase, start, events, ks);
    var g1 := Run(rules, events + Keys(ks));
    RunOne(rules, events + Keys(ks), Token(g1.pending));
    RunOne(rules, events + Keys(ks) + [Token(g1.pending)], ConfirmWrites);
    ShownAppend(erase, start, g1.out, Enter(g1.pending));
    if Left(rules, l, ks) <= l {
      PutBack(l, |Left(rules, l, ks)|, Rest(ks));
    }
  }

  lemma PutBack(l: Line, k: nat, own: Line)
    requires k <= |l|
    ensures l[..k] + own == l <==> own == l[k..]
  {
    assert l == l[..k] + l[k..];
    if l[..k] + own == l {
      assert (l[..k] + own)[k..] == own;
    }
  }

  /**
   * Any Enter typed while a token is pending, the first or a later one, whose line the gate
   * lets through: the remote side runs what is left before it, so it runs the judged line if
   * and only if nothing is left.
   */
  lemma AfterEnter(rules: seq<Rule>, erase: Byte, start: Tty, events: seq<Event>, ks: seq<Byte>)
    requires Asking(rules, erase, start, events) && PlainKeys(erase, ks)
    requires RulingOf(rules, Rest(ks)) == Passed || RulingOf(rules, Rest(ks)) == PassedWithWarning
    ensures
      var l := Question(rules, events);
      var before := Shown(erase, start, Run(rules, events + Keys(ks)).out);
      var after := Shown(erase, start, Run(rules, events + Keys(ks) + [Key(CR)]).out);
      var ran := Left(rules, l, ks) + Rest(ks);
      && after == Tty([], before.executed + [ran])
      && (ran == Rest(ks) <==> Left(rules, l, ks) == [])
  {
    hide Run, Quiet, Shown, Rest, Left, RanDuring, AskedDuring, SinceAsked, Decide;
    var l := Question(rules, events);
    TypingWhilePending(rules, erase, start, events, ks);
    RulingWrites(rules, Rest(ks));
    RunOne(rules, events + Keys(ks), Key(CR));
    ShownAppend(erase, start, Run(rules, events + Keys(ks)).out, Enter(None));
    assert |Left(rules, l, ks) + Rest(ks)| == |Left(rules, l, ks)| + |Rest(ks)|;
  }

  // ---- one session, several connections ----

  /** The terminal after these connections, one at a time: each has a gate of its own, the remote line stays. */
  function AfterConnections(rules: seq<Rule>, erase: Byte, connections: seq<seq<Event>>): Tty {
    if connections == [] then BLANK
    else
      var before, last := connections[..|connections| - 1], connections[|connections| - 1];
      Shown(erase, AfterConnections(rules, erase, before), Run(rules, last).out)
  }

  function ThroughAll(rules: seq<Rule>, connections: seq<seq<Event>>): seq<Line> {
    if connections == [] then []
    else
      var g := Run(rules, connections[|connections| - 1]);
      ThroughAll(rules, connections[..|connections| - 1]) + LetThrough(rules, Lines(g.typed), g.out)
  }

  /** The connection was quiet and left with nothing typed and no token at stake. */
  ghost predicate LeftClean(rules: seq<Rule>, erase: Byte, events: seq<Event>) {
    Quiet(rules, erase, events) && Idle(Run(rules, events)) && Run(rules, events).lineBuf == []
  }

  lemma {:induction false} CleanSession(rules: seq<Rule>, erase: Byte, connections: seq<seq<Event>>)
    requires erase == DEL || erase == BS
    requires forall i :: 0 <= i < |connections| ==> LeftClean(rules, erase, connections[i])
    ensures AfterConnections(rules, erase, connections) == Tty([], ThroughAll(rules, connections))
  {
    if connections != [] {
      hide Quiet, Run, Idle, LetThrough, Shown;
      var before, last := connections[..|connections| - 1], connections[|connections| - 1];
      CleanSession(rules, erase, before);
      assert LeftClean(rules, erase, last);
      GateRefinesRemote(rules, erase, AfterConnections(rules, erase, before), last);
    }
  }

  /**
   * The refinement over a whole session: if every earlier connection left clean, then while
   * the last one is quiet and idle its line is the remote line, and the remote side has run
   * exactly the lines let through, connection after connection.
   */
  lemma SessionRefinesRemote(rules: seq<Rule>, erase: Byte, earlier: seq<seq<Event>>, last: seq<Event>)
    requires (erase == DEL || erase == BS) && Quiet(rules, erase, last)
    requires forall i :: 0 <= i < |earlier| ==> LeftClean(rules, erase, earlier[i])
    ensures
      var tty, g := AfterConnections(rules, erase, earlier + [last]), Run(rules, last);
      && (Idle(g) ==> tty.line == g.lineBuf)
      && tty.executed == ThroughAll(rules, earlier + [last])
  {
    hide Quiet, Run, Idle, LetThrough, Shown;
    CleanSession(rules, erase, earlier);
    assert (earlier + [last])[..|earlier|] == earlier;
    GateRefinesRemote(rules, erase, AfterConnections(rules, erase, earlier), last);
  }

  /**
   * Exactly when a connection refines the remote editor: every quiet run of it has the remote
   * line whenever it is idle if and only if the remote line is empty when it begins.
   */
  lemma EmptyStartIsNeeded(rules: seq<Rule>, erase: Byte, start: Tty)
    requires erase == DEL || erase == BS
    ensures
      (forall events {:trigger Run(rules, events)} :: Quiet(rules, erase, events) && Idle(Run(rules, events)) ==>
        Shown(erase, start, Run(rules, events).out).line == Run(rules, events).lineBuf)
      <==> start.line == []
  {
    var none: seq<Event> := [];
    assert Quiet(rules, erase, none) && Run(rules, none) == Fresh();
    assert Shown(erase, start, []) == start;
    if start.line == [] {
      forall events {:trigger Run(rules, events)} | Quiet(rules, erase, events) && Idle(Run(rules, events))
        ensures Shown(erase, start, Run(rules, events).out).line == Run(rules, events).lineBuf
      {
        GateRefinesRemote(rules, erase, start, events);
      }
    } else {
      assert Idle(Run(rules, none)) && Run(rules, none).out == [];
      assert Shown(erase, start, Run(rules, none).out).line != Run(rules, none).lineBuf;
    }
  }

  /** A line left behind is run unjudged by the first Enter of the next connection, if the empty line passes. */
  lemma LineLeftBehindRuns(rules: seq<Rule>, erase: Byte, start: Tty)
    requires RulingOf(rules, []) == Passed
    ensures Shown(erase, start, Run(rules, [Key(CR)]).out).executed == start.executed + [start.line]
  {
    hide Decide, Shown;
    RulingWrites(rules, []);
    StartsFresh(rules);
    RunOne(rules, [], Key(CR));
    assert [] + [Key(CR)] == [Key(CR)];
    assert Run(rules, [Key(CR)]).out == [] + [Enter(None)];
    ShownAppend(erase, start, [], Enter(None));
    NothingShown(erase, start);
  }

  lemma NothingShown(erase: Byte, start: Tty)
    ensures Shown(erase, start, []) == start
  {
  }

  const A: Byte := 0x61
  const B: Byte := 0x62

  /** Lines reading "a" need confirmation and lines reading "ab" are blocked. */
  function SampleRules(): seq<Rule> {
    [Rule("a", (line: Line) => line == [A], Confirm, ""), Rule("ab", (line: Line) => line == [A, B], Block, "")]
  }

  lemma DecideTwo(first: Rule, second: Rule, line: Line)
    requires !(first.re(line) && second.re(line))
    ensures Decide([first, second], line) ==
      if first.re(line) && Rank(first.severity) > 0 then Verdict(first)
      else if second.re(line) && Rank(second.severity) > 0 then Verdict(second) else Pass
  {
    assert [first, second][..1] == [first];
    assert [first][..0] == [];
    assert Decide([], line) == Pass;
  }

  lemma SampleDecides()
    ensures RulingOf(SampleRules(), [A]) == Questioned && RulingOf(SampleRules(), [B]) == Passed
    ensures RulingOf(SampleRules(), [A, B]) == Stopped
  {
    var rules := SampleRules();
    assert [B][0] != [A][0];
    DecideTwo(rules[0], rules[1], [A]);
    DecideTwo(rules[0], rules[1], [B]);
    DecideTwo(rules[0], rules[1], [A, B]);
  }

  /** The keys a, Enter, b, Enter, and what the gate has done with them. */
  lemma SampleRun()
    ensures var g := Run(SampleRules(), [Key(A), Key(CR), Key(B), Key(CR)]);
      g.out == [Typed(A), Typed(B), Enter(None)] && g.issued == [[A]] && g.ledger == []
  {
    var rules := SampleRules();
    SampleDecides();
    hide SampleRules, Decide, Run;
    var e1, e2, e3 := [Key(A)], [Key(A), Key(CR)], [Key(A), Key(CR), Key(B)];
    StartsFresh(rules);
    assert e1 == [] + [Key(A)] && e2 == e1 + [Key(CR)] && e3 == e2 + [Key(B)];
    RunOne(rules, [], Key(A));
    var g1 := Fresh().(lineBuf := [A], out := [Typed(A)], typed := [A]);
    assert Run(rules, e1) == g1;
    RunOne(rules, e1, Key(CR));
    var g2 := Run(rules, e2);
    assert g2.lineBuf == [] && g2.out == [Typed(A)] && g2.issued == [[A]] && g2.ledger == [] && g2.confirming.None?;
    RunOne(rules, e2, Key(B));
    var g3 := Run(rules, e3);
    assert g3.lineBuf == [B] && g3.out == [Typed(A), Typed(B)] && g3.issued == [[A]] && g3.ledger == [] && g3.confirming.None?;
    RunOne(rules, e3, Key(CR));
    assert e3 + [Key(CR)] == [Key(A), Key(CR), Key(B), Key(CR)];
  }

  lemma SampleShown(out: seq<Write>)
    requires out == [Typed(A), Typed(B), Enter(None)]
    ensures Shown(DEL, BLANK, out).executed == [[A, B]]
  {
    var one, two := [Typed(A)], [Typed(A), Typed(B)];
    assert out == two + [Enter(None)] && two == one + [Typed(B)] && one == [] + [Typed(A)];
    ShownAppend(DEL, BLANK, [], Typed(A));
    assert Shown(DEL, BLANK, one).line == [A];
    ShownAppend(DEL, BLANK, one, Typed(B));
    assert Shown(DEL, BLANK, two).line == [A, B] && Shown(DEL, BLANK, two).executed == [];
    ShownAppend(DEL, BLANK, two, Enter(None));
  }

  lemma StartsFresh(rules: seq<Rule>)
    ensures Run(rules, []) == Fresh()
  {
  }

  /** A blocked line is run when keys come while a token is pending: a, Enter, b, Enter. */
  lemma QuietIsNeeded()
    ensures
      var g := Run(SampleRules(), [Key(A), Key(CR), Key(B), Key(CR)]);
      Shown(DEL, BLANK, g.out).executed == [[A, B]] && !Allowed(SampleRules(), g, [A, B]) && RulingOf(SampleRules(), [A, B]) == Stopped
  {
    hide Run, Shown, SampleRules;
    SampleDecides();
    SampleRun();
    SampleShown(Run(SampleRules(), [Key(A), Key(CR), Key(B), Key(CR)]).out);
  }

  /**
   * A token kept back releases a line it was never asked for: a, Enter, Enter, a, b, and then
   * the token. The second Enter ran "a" unconfirmed, and the token runs "ab", a blocked line.
   */
  lemma StaleTokenReleasesAnotherLine()
    ensures
      var asked := [Key(A), Key(CR)];
      var g := Run(SampleRules(), asked);
      var g' := Run(SampleRules(), asked + Keys([CR, A, B]) + [Token(g.pending)] + [ConfirmWrites]);
      && g.pending.Some? && Shown(DEL, BLANK, g'.out).executed == [[A], [A, B]] && g'.lineBuf == [A, B]
      && RulingOf(SampleRules(), [A]) == Questioned && RulingOf(SampleRules(), [A, B]) == Stopped
  {
    hide SampleRules, Run, Shown, Left, RanDuring, Rest, Lines;
    SampleDecides();
    EmptyPasses();
    SampleAsked();
    SampleKeys();
    SampleNoneAsked();
    AfterConfirmation(SampleRules(), DEL, BLANK, [Key(A), Key(CR)], [CR, A, B]);
    TypingWhilePending(SampleRules(), DEL, BLANK, [Key(A), Key(CR)], [CR, A, B]);
    assert [] + [[A]] + [[A, B]] == [[A], [A, B]] && [] + [A, B] == [A, B];
  }

  lemma EmptyPasses()
    ensures RulingOf(SampleRules(), []) == Passed
  {
    var rules := SampleRules();
    var none: Line := [];
    assert !rules[0].re(none) && !rules[1].re(none);
    DecideTwo(rules[0], rules[1], none);
  }

  lemma SampleAsked()
    ensures Asking(SampleRules(), DEL, BLANK, [Key(A), Key(CR)])
    ensures Question(SampleRules(), [Key(A), Key(CR)]) == [A]
    ensures Shown(DEL, BLANK, Run(SampleRules(), [Key(A), Key(CR)]).out).executed == []
  {
    var rules := SampleRules();
    SampleDecides();
    hide SampleRules, Decide, Run;
    StartsFresh(rules);
    RunOne(rules, [], Key(A));
    assert [] + [Key(A)] == [Key(A)] && [Key(A)] + [Key(CR)] == [Key(A), Key(CR)];
    var g1 := Fresh().(lineBuf := [A], out := [Typed(A)], typed := [A]);
    assert Run(rules, [Key(A)]) == g1;
    RunOne(rules, [Key(A)], Key(CR));
    var g2 := Run(rules, [Key(A), Key(CR)]);
    assert g2.out == [Typed(A)] && g2.issued == [[A]] && g2.pending == Some(0);
    ShownAppend(DEL, BLANK, [], Typed(A));
    assert [] + [Typed(A)] == [Typed(A)];
    assert [Key(A), Key(CR)][..1] == [Key(A)] && [Key(A)][..0] == [];
    assert Quiet(rules, DEL, []);
    assert Quiet(rules, DEL, [Key(A)]);
  }

  /** What the keys Enter, a, b make and run when "a" stands before them. */
  lemma SampleKeys()
    ensures Rest([CR, A, B]) == [A, B] && Left(SampleRules(), [A], [CR, A, B]) == []
    ensures RanDuring(SampleRules(), [A], [CR, A, B]) == [[A]]
  {
    var rules := SampleRules();
    EmptyPasses();
    hide SampleRules, RulingOf, Rest, Lines, WithoutEnters, Left, RanDuring;
    NoKeys(rules, [A]);
    SampleTyped();
    LeftAppend(rules, [A], [], CR);
    LeftAppend(rules, [A], [CR], A);
    LeftAppend(rules, [A], [CR, A], B);
    assert [A] + [] == [A] && [] + [[A]] == [[A]];
  }

  lemma NoKeys(rules: seq<Rule>, l: Line)
    ensures Rest([]) == [] && Lines([]) == [] && Left(rules, l, []) == l && RanDuring(rules, l, []) == [] && Asked(rules, []) == []
  {
  }

  lemma SampleTyped()
    ensures [CR] == [] + [CR] && [CR, A] == [CR] + [A] && [CR, A, B] == [CR, A] + [B]
    ensures Rest([CR]) == [] && Rest([CR, A]) == [A] && Rest([CR, A, B]) == [A, B]
    ensures Lines([CR, A, B]) == [[]]
  {
    hide Rest, Lines, WithoutEnters;
    NoKeys([], []);
    assert [CR] == [] + [CR] && [CR, A] == [CR] + [A] && [CR, A, B] == [CR, A] + [B];
    TypedAppend([], CR);
    TypedAppend([CR], A);
    TypedAppend([CR, A], B);
  }

  lemma SampleNoneAsked()
    ensures AskedDuring(SampleRules(), [CR, A, B]) == []
  {
    var rules := SampleRules();
    hide SampleRules, RulingOf, Lines, Asked;
    EmptyPasses();
    NoKeys(rules, []);
    SampleTyped();
    var lines: seq<Line> := [[]];
    assert lines == [] + lines;
    LinesAppend(rules, [], [], Passed);
  }
}
