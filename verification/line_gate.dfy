/**
 * The web shell's line gate: it rebuilds the typed line, judges it at every Enter, and lets
 * the Enter through, clears the remote line, or holds the Enter until a token comes back.
 */
module LineGates {
  import opened Wrappers
  import opened Filters

  const CR: Byte := 0x0d
  const LF: Byte := 0x0a
  const DEL: Byte := 0x7f
  const BS: Byte := 0x08
  const INTR: Byte := 0x03
  const KILL: Byte := 0x15

  /** What was written to the remote side: a key as typed, an Enter, or a clearing ^U, the last two with the token that caused them. */
  datatype Write = Typed(key: Byte) | Enter(token: Option<nat>) | Clear(token: Option<nat>)

  function Sent(w: Write): Byte {
    match w
    case Typed(key) => key
    case Enter(_) => CR
    case Clear(_) => KILL
  }

  datatype Outcome = Blocked | Warned | Confirmed | TimedOut

  /** A recorded filter event. A confirmation is recorded without its line. */
  datatype Note = Note(outcome: Outcome, token: Option<nat>, line: Line)

  datatype Fate = WasConfirmed | WasTimedOut | WasSuperseded

  datatype Settlement = Settlement(token: nat, fate: Fate)

  /**
   * `confirming` is a token just accepted whose Enter the read loop has not yet written;
   * `armed` are the tokens whose timer has not fired, `injecting` those whose timer has
   * taken them and has not yet written its ^U. Tokens are numbered; `issued` has their
   * lines. History only: `ledger`, how tokens were settled, and `typed`, the keys read.
   */
  datatype Gate = Gate(
    lineBuf: Line, pending: Option<nat>, confirming: Option<nat>, armed: set<nat>, injecting: set<nat>,
    out: seq<Write>, notes: seq<Note>, issued: seq<Line>, ledger: seq<Settlement>, typed: seq<Byte>)

  function Fresh(): Gate {
    Gate([], None, None, {}, {}, [], [], [], [], [])
  }

  datatype Event = Key(b: Byte) | Token(t: Option<nat>) | ConfirmWrites | TimerFires(token: nat) | TimerWrites(token: nat)

  /** A line that needs confirmation: its token replaces any token still pending. */
  function Issue(g: Gate, line: Line): Gate {
    var t := |g.issued|;
    g.(pending := Some(t), armed := g.armed + {t}, issued := g.issued + [line],
       ledger := if g.pending.Some? then g.ledger + [Settlement(g.pending.value, WasSuperseded)] else g.ledger)
  }

  function Judge(rules: seq<Rule>, g: Gate, line: Line): Gate {
    match Decide(rules, line)
    case Hit(Block, _, _) => g.(out := g.out + [Clear(None)], notes := g.notes + [Note(Blocked, None, line)])
    case Hit(Confirm, _, _) => Issue(g, line)
    case Hit(Warn, _, _) => g.(out := g.out + [Enter(None)], notes := g.notes + [Note(Warned, None, line)])
    case _ => g.(out := g.out + [Enter(None)])
  }

  /** One key of a stdin frame. */
  function Press(rules: seq<Rule>, g: Gate, b: Byte): Gate {
    var g1 := g.(typed := g.typed + [b]);
    if b == CR || b == LF then Judge(rules, g1.(lineBuf := []), g.lineBuf)
    else
      var buffer :=
        if b == DEL || b == BS then (if |g.lineBuf| > 0 then g.lineBuf[..|g.lineBuf| - 1] else [])
        else if b == INTR || b == KILL then []
        else if b >= 0x20 then g.lineBuf + [b]
        else g.lineBuf;
      g1.(lineBuf := buffer, out := g.out + [Typed(b)])
  }

  /** The read loop takes no key and no frame while it is about to write a confirmed Enter; timers run at any moment. */
  function Step(rules: seq<Rule>, g: Gate, e: Event): Gate {
    match e
    case Key(b) => if g.confirming.Some? then g else Press(rules, g, b)
    case Token(t) =>
      if g.confirming.None? && t.Some? && t == g.pending
      then g.(pending := None, confirming := t, ledger := g.ledger + [Settlement(t.value, WasConfirmed)])
      else g
    case ConfirmWrites =>
      if g.confirming.Some?
      then g.(confirming := None, out := g.out + [Enter(g.confirming)], notes := g.notes + [Note(Confirmed, g.confirming, [])])
      else g
    case TimerFires(t) =>
      if t !in g.armed then g
      else if g.pending == Some(t)
      then g.(armed := g.armed - {t}, pending := None, injecting := g.injecting + {t},
              ledger := g.ledger + [Settlement(t, WasTimedOut)])
      else g.(armed := g.armed - {t})
    case TimerWrites(t) =>
      if t in g.injecting && t < |g.issued|
      then g.(injecting := g.injecting - {t}, out := g.out + [Clear(Some(t))],
              notes := g.notes + [Note(TimedOut, Some(t), g.issued[t])])
      else g
  }

  function Run(rules: seq<Rule>, events: seq<Event>): Gate {
    if events == [] then Fresh() else Step(rules, Run(rules, events[..|events| - 1]), events[|events| - 1])
  }

  // ---- the loop itself ----

  function PressAll(rules: seq<Rule>, g: Gate, raw: seq<Byte>): Gate {
    if raw == [] then g else Press(rules, PressAll(rules, g, raw[..|raw| - 1]), raw[|raw| - 1])
  }

  /** How the typed bytes are split into frames makes no difference. */
  lemma {:induction false} FramingIsIrrelevant(rules: seq<Rule>, g: Gate, first: seq<Byte>, second: seq<Byte>)
    ensures PressAll(rules, g, first + second) == PressAll(rules, PressAll(rules, g, first), second)
  {
    if second == [] {
      assert first + second == first;
    } else {
      assert (first + second)[..|first + second| - 1] == first + second[..|second| - 1];
      FramingIsIrrelevant(rules, g, first, second[..|second| - 1]);
    }
  }

  class Terminal {
    const rules: seq<Rule>
    var lineBuf: Line
    var pending: Option<nat>
    var armed: set<nat>
    var out: seq<Write>
    var notes: seq<Note>
    var issued: seq<Line>
    ghost var confirming: Option<nat>
    ghost var injecting: set<nat>
    ghost var ledger: seq<Settlement>
    ghost var typed: seq<Byte>

    ghost function Abs(): Gate
      reads this
    {
      Gate(lineBuf, pending, confirming, armed, injecting, out, notes, issued, ledger, typed)
    }

    constructor (rules: seq<Rule>)
      ensures this.rules == rules && Abs() == Fresh()
    {
      this.rules := rules;
      lineBuf, pending, armed, out, notes, issued := [], None, {}, [], [], [];
      confirming, injecting, ledger, typed := None, {}, [], [];
    }

    /** A stdin frame, byte by byte. */
    method Stdin(raw: seq<Byte>)
      modifies this
      ensures Abs() == PressAll(rules, old(Abs()), raw)
    {
      for i := 0 to |raw|
        invariant Abs() == PressAll(rules, old(Abs()), raw[..i])
      {
        assert raw[..i + 1][..i] == raw[..i];
        ReadKey(raw[i]);
      }
      assert raw[..|raw|] == raw;
    }

    method ReadKey(b: Byte)
      modifies this
      ensures Abs() == Press(rules, old(Abs()), b)
    {
      typed := typed + [b];
      if b == CR || b == LF {
        var line := lineBuf;
        lineBuf := [];
        match Decide(rules, line) {
          case Hit(Block, _, _) =>
            out := out + [Clear(None)];
            notes := notes + [Note(Blocked, None, line)];
          case Hit(Confirm, _, _) =>
            ledger := if pending.Some? then ledger + [Settlement(pending.value, WasSuperseded)] else ledger;
            var t := |issued|;
            pending := Some(t);
            issued := issued + [line];
            armed := armed + {t};
          case Hit(Warn, _, _) =>
            out := out + [Enter(None)];
            notes := notes + [Note(Warned, None, line)];
          case _ =>
            out := out + [Enter(None)];
        }
      } else if b == DEL || b == BS {
        if |lineBuf| > 0 {
          lineBuf := lineBuf[..|lineBuf| - 1];
        }
        out := out + [Typed(b)];
      } else if b == INTR || b == KILL {
        lineBuf := [];
        out := out + [Typed(b)];
      } else {
        if b >= 0x20 {
          lineBuf := lineBuf + [b];
        }
        out := out + [Typed(b)];
      }
    }

    /** A confirm_token frame; None stands for the empty token. */
    method ConfirmToken(t: Option<nat>)
      requires confirming.None?
      modifies this
      ensures Abs() == Step(rules, Step(rules, old(Abs()), Token(t)), ConfirmWrites)
    {
      var matches := t.Some? && t == pending;
      if matches {
        pending := None;
        ledger := ledger + [Settlement(t.value, WasConfirmed)];
        out := out + [Enter(t)];
        notes := notes + [Note(Confirmed, t, [])];
      }
    }

    /** The ten-second timer of a token, run once. */
    method Expire(t: nat)
      requires t in armed && t < |issued|
      modifies this
      ensures Abs() == if old(pending) == Some(t) then Step(rules, Step(rules, old(Abs()), TimerFires(t)), TimerWrites(t))
                       else Step(rules, old(Abs()), TimerFires(t))
    {
      armed := armed - {t};
      var expired := pending == Some(t);
      if expired {
        pending := None;
        ledger := ledger + [Settlement(t, WasTimedOut)];
        out := out + [Clear(Some(t))];
        notes := notes + [Note(TimedOut, Some(t), issued[t])];
        injecting := injecting - {t};
      }
    }
  }
}
