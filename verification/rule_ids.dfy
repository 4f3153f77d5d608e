/** The rule id of a ticket: a fixed prefix and the ticket id in decimal. */
module RuleIds {

  const PREFIX := "yusui:tk:"

  function Digit(d: nat): char
    requires d < 10
  {
    "0123456789"[d]
  }

  function Decimal(n: nat): string {
    if n < 10 then [Digit(n)] else Decimal(n / 10) + [Digit(n % 10)]
  }

  function RuleId(ticket: nat): string {
    PREFIX + Decimal(ticket)
  }

  /** The number a string of decimal digits denotes, read independently of Decimal. */
  function Denotes(s: string): int {
    if s == [] then 0 else 10 * Denotes(s[..|s| - 1]) + (s[|s| - 1] as int - '0' as int)
  }

  lemma {:induction false} DecimalRoundTrip(n: nat)
    ensures Denotes(Decimal(n)) == n
  {
    var s := Decimal(n);
    if n < 10 {
      assert s[..|s| - 1] == [];
    } else {
      DecimalRoundTrip(n / 10);
      assert s[..|s| - 1] == Decimal(n / 10);
    }
  }

  /** No two tickets share a rule id. */
  lemma RuleIdInjective(t: nat, u: nat)
    requires RuleId(t) == RuleId(u)
    ensures t == u
  {
    assert Decimal(t) == RuleId(t)[|PREFIX|..];
    assert Decimal(u) == RuleId(u)[|PREFIX|..];
    DecimalRoundTrip(t);
    DecimalRoundTrip(u);
  }

  /** The ticket a rule id names. */
  function TicketOf(rule: string): nat {
    if |rule| >= |PREFIX| && Denotes(rule[|PREFIX|..]) >= 0 then Denotes(rule[|PREFIX|..]) else 0
  }

  lemma TicketOfRuleId(ticket: nat)
    ensures TicketOf(RuleId(ticket)) == ticket
  {
    assert RuleId(ticket)[|PREFIX|..] == Decimal(ticket);
    DecimalRoundTrip(ticket);
  }
}
