/** The command filter: the strictest rule matching a line decides what its Enter may do. */
module Filters {
  newtype Byte = b: int | 0 <= b < 256

  type Line = seq<Byte>

  /** Any other severity text ranks below a warning and never decides. */
  datatype Severity = Warn | Confirm | Block | Other(text: string)

  /** `re` stands for the compiled pattern: which lines it matches. */
  datatype Rule = Rule(id: string, re: Line -> bool, severity: Severity, message: string)

  datatype Decision = Pass | Hit(severity: Severity, ruleId: string, message: string)

  datatype Source = Web | Api

  function Rank(s: Severity): nat {
    match s
    case Warn => 1
    case Confirm => 2
    case Block => 3
    case Other(_) => 0
  }

  function Strength(d: Decision): nat {
    if d.Hit? then Rank(d.severity) else 0
  }

  function Verdict(r: Rule): Decision {
    Hit(r.severity, r.id, r.message)
  }

  /** The decision after all rules have been tried in order. */
  function Decide(rules: seq<Rule>, line: Line): Decision {
    if rules == [] then Pass
    else
      var r := rules[|rules| - 1];
      var d := Decide(rules[..|rules| - 1], line);
      if r.re(line) && Rank(r.severity) > Strength(d) then Verdict(r) else d
  }

  class Ruleset {
    const base: seq<Rule>
    const ai: seq<Rule>

    constructor (base: seq<Rule>, ai: seq<Rule>)
      ensures this.base == base && this.ai == ai
    {
      this.base, this.ai := base, ai;
    }

    method Match(line: Line, source: Source) returns (d: Decision)
      ensures d == Decide(if source == Api then base + ai else base, line)
    {
      d := Pass;
      d := Eval(base, [], line, d);
      assert [] + base == base;
      if source == Api {
        d := Eval(ai, base, line, d);
      }
    }

    static method Eval(rules: seq<Rule>, before: seq<Rule>, line: Line, d: Decision) returns (d': Decision)
      requires d == Decide(before, line)
      ensures d' == Decide(before + rules, line)
    {
      d' := d;
      assert before + rules[..0] == before;
      for i := 0 to |rules|
        invariant d' == Decide(before + rules[..i], line)
      {
        var r := rules[i];
        assert (before + rules[..i + 1])[..|before| + i] == before + rules[..i];
        if r.re(line) && Rank(r.severity) > Strength(d') {
          d' := Verdict(r);
        }
      }
      assert rules[..|rules|] == rules;
    }
  }

  /** Rule i matches the line, outranks every matching rule before it and is outranked by none after it. */
  ghost predicate FirstStrictest(rules: seq<Rule>, line: Line, i: int) {
    && 0 <= i < |rules| && rules[i].re(line) && Rank(rules[i].severity) > 0
    && (forall j :: 0 <= j < i && rules[j].re(line) ==> Rank(rules[j].severity) < Rank(rules[i].severity))
    && (forall j :: i < j < |rules| && rules[j].re(line) ==> Rank(rules[j].severity) <= Rank(rules[i].severity))
  }

  ghost predicate NoneRanked(rules: seq<Rule>, line: Line) {
    forall j :: 0 <= j < |rules| && rules[j].re(line) ==> Rank(rules[j].severity) == 0
  }

  lemma {:induction false} NothingStricter(rules: seq<Rule>, line: Line, j: int)
    requires 0 <= j < |rules| && rules[j].re(line)
    ensures Rank(rules[j].severity) <= Strength(Decide(rules, line))
  {
    if j < |rules| - 1 {
      NothingStricter(rules[..|rules| - 1], line, j);
    }
  }

  lemma {:induction false} SomeRuleDecided(rules: seq<Rule>, line: Line) returns (i: int)
    requires Decide(rules, line) != Pass
    ensures FirstStrictest(rules, line, i) && Decide(rules, line) == Verdict(rules[i])
  {
    var n := |rules| - 1;
    var shorter := rules[..n];
    if Decide(rules, line) == Decide(shorter, line) {
      i := SomeRuleDecided(shorter, line);
      assert forall j :: 0 <= j < n ==> rules[j] == shorter[j];
      NothingStricter(rules, line, i);
    } else {
      i := n;
    }
    forall j | 0 <= j < n && rules[j].re(line) ensures Rank(rules[j].severity) <= Strength(Decide(shorter, line)) {
      NothingStricter(shorter, line, j);
    }
  }

  /** The line passes exactly when no matching rule has a positive rank; otherwise the first of the highest rank decides. */
  lemma DecidesByFirstStrictest(rules: seq<Rule>, line: Line)
    ensures Decide(rules, line) == Pass <==> NoneRanked(rules, line)
    ensures forall i :: FirstStrictest(rules, line, i) ==>
      Decide(rules, line) == Hit(rules[i].severity, rules[i].id, rules[i].message)
    ensures Decide(rules, line) != Pass ==> exists i :: FirstStrictest(rules, line, i)
  {
    forall j | 0 <= j < |rules| && rules[j].re(line) ensures Rank(rules[j].severity) <= Strength(Decide(rules, line)) {
      NothingStricter(rules, line, j);
    }
    if Decide(rules, line) != Pass {
      var i := SomeRuleDecided(rules, line);
      assert forall k :: FirstStrictest(rules, line, k) ==> k == i;
    }
  }

  /** Some rule of this severity matches the line. */
  ghost predicate Matched(rules: seq<Rule>, line: Line, severity: Severity) {
    exists i :: 0 <= i < |rules| && rules[i].re(line) && rules[i].severity == severity
  }

  /** The severity of the decision, by which severities match at all: a block beats a confirmation, and that a warning. */
  lemma StrictestSeverityDecides(rules: seq<Rule>, line: Line)
    ensures
      var d := Decide(rules, line);
      && (Matched(rules, line, Block) <==> d.Hit? && d.severity == Block)
      && (!Matched(rules, line, Block) && Matched(rules, line, Confirm) <==> d.Hit? && d.severity == Confirm)
      && (!Matched(rules, line, Block) && !Matched(rules, line, Confirm) && Matched(rules, line, Warn)
          <==> d.Hit? && d.severity == Warn)
      && (!Matched(rules, line, Block) && !Matched(rules, line, Confirm) && !Matched(rules, line, Warn) <==> d == Pass)
  {
    forall j | 0 <= j < |rules| && rules[j].re(line) ensures Rank(rules[j].severity) <= Strength(Decide(rules, line)) {
      NothingStricter(rules, line, j);
    }
    if Decide(rules, line) != Pass {
      var i := SomeRuleDecided(rules, line);
      assert Matched(rules, line, rules[i].severity);
    }
  }

  /** Adding rules at the end never weakens a decision, so the api source is never treated more leniently than the web. */
  lemma {:induction false} MoreRulesNeverWeaker(base: seq<Rule>, ai: seq<Rule>, line: Line)
    ensures Strength(Decide(base, line)) <= Strength(Decide(base + ai, line))
    ensures Strength(Decide(base, line)) == Strength(Decide(base + ai, line)) ==> Decide(base + ai, line) == Decide(base, line)
  {
    if ai == [] {
      assert base + ai == base;
    } else {
      assert (base + ai)[..|base + ai| - 1] == base + ai[..|ai| - 1];
      MoreRulesNeverWeaker(base, ai[..|ai| - 1], line);
    }
  }
}
