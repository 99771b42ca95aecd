/** The text of calls.idempotency_key: distinct (campaign, borrower, attempt) triples never share one. */
module Keys {

  function Digit(d: nat): char
    requires d < 10
  {
    ('0' as int + d) as char
  }

  function Decimal(n: nat): string {
    if n < 10 then [Digit(n)] else Decimal(n / 10) + [Digit(n % 10)]
  }

  function KeyOf(campaign: nat, borrower: nat, attempt: nat): string {
    Decimal(campaign) + ":" + Decimal(borrower) + ":" + Decimal(attempt)
  }

  lemma {:induction false} DecimalHasNoColon(n: nat)
    ensures Decimal(n) != [] && ':' !in Decimal(n)
  {
    if n >= 10 {
      DecimalHasNoColon(n / 10);
    }
  }

  lemma {:induction false} DecimalInjective(m: nat, n: nat)
    requires Decimal(m) == Decimal(n)
    ensures m == n
  {
    DecimalHasNoColon(m / 10);
    DecimalHasNoColon(n / 10);
    var s, t := Decimal(m), Decimal(n);
    assert s[|s| - 1] == Digit(m % 10) && t[|t| - 1] == Digit(n % 10);
    if m >= 10 && n >= 10 {
      assert s[..|s| - 1] == Decimal(m / 10) && t[..|t| - 1] == Decimal(n / 10);
      DecimalInjective(m / 10, n / 10);
    }
  }

  /** Two texts cut at their first colon agree piecewise. */
  lemma SplitAtColon(a: string, b: string, c: string, d: string)
    requires a + ":" + b == c + ":" + d
    requires ':' !in a && ':' !in c
    ensures a == c && b == d
  {
    var s, t := a + ":" + b, c + ":" + d;
    assert s[|a|] == ':' && t[|c|] == ':';
    assert a == s[..|a|] && c == t[..|c|];
    assert b == s[|a| + 1..] && d == t[|c| + 1..];
  }

  lemma KeyInjective(c1: nat, b1: nat, n1: nat, c2: nat, b2: nat, n2: nat)
    requires KeyOf(c1, b1, n1) == KeyOf(c2, b2, n2)
    ensures c1 == c2 && b1 == b2 && n1 == n2
  {
    DecimalHasNoColon(c1); DecimalHasNoColon(c2);
    DecimalHasNoColon(b1); DecimalHasNoColon(b2);
    var r1, r2 := Decimal(b1) + ":" + Decimal(n1), Decimal(b2) + ":" + Decimal(n2);
    assert KeyOf(c1, b1, n1) == Decimal(c1) + ":" + r1;
    assert KeyOf(c2, b2, n2) == Decimal(c2) + ":" + r2;
    SplitAtColon(Decimal(c1), r1, Decimal(c2), r2);
    SplitAtColon(Decimal(b1), Decimal(n1), Decimal(b2), Decimal(n2));
    DecimalInjective(c1, c2);
    DecimalInjective(b1, b2);
    DecimalInjective(n1, n2);
  }

  /** The number a text of digits stands for. */
  function Value(s: string): int {
    if s == "" then 0 else Value(s[..|s| - 1]) * 10 + (s[|s| - 1] as int - '0' as int)
  }

  lemma {:induction false} DecimalReadsBack(n: nat)
    ensures Value(Decimal(n)) == n
  {
    if n < 10 {
      assert Value([Digit(n)][..0]) == 0;
    } else {
      DecimalReadsBack(n / 10);
      assert Decimal(n)[..|Decimal(n)| - 1] == Decimal(n / 10);
    }
  }

  /** The key spells campaign, borrower and attempt, in this order, between colons. */
  lemma KeySpells(campaign: nat, borrower: nat, attempt: nat) returns (a: string, b: string, c: string)
    ensures KeyOf(campaign, borrower, attempt) == a + ":" + b + ":" + c
    ensures Value(a) == campaign && Value(b) == borrower && Value(c) == attempt
    ensures ':' !in a && ':' !in b && ':' !in c
  {
    a, b, c := Decimal(campaign), Decimal(borrower), Decimal(attempt);
    DecimalReadsBack(campaign);
    DecimalReadsBack(borrower);
    DecimalReadsBack(attempt);
    DecimalHasNoColon(campaign);
    DecimalHasNoColon(borrower);
    DecimalHasNoColon(attempt);
  }
}
