/**
 * Activity ids: a function name, a colon and a counter in decimal.  The replay cache is
 * keyed by this text, so replay is only sound because no two calls render alike.
 */
module ActivityIds {

  function Digit(d: nat): (c: char)
    requires d < 10
    ensures '0' <= c <= '9'
  {
    '0' + d as char
  }

  function Decimal(n: nat): (s: string)
    ensures |s| > 0
  {
    if n < 10 then [Digit(n)] else Decimal(n / 10) + [Digit(n % 10)]
  }

  function Render(name: string, n: nat): string {
    name + ":" + Decimal(n)
  }

  lemma {:induction false} DecimalHasNoColon(n: nat)
    ensures forall i :: 0 <= i < |Decimal(n)| ==> Decimal(n)[i] != ':'
  {
    if n >= 10 {
      DecimalHasNoColon(n / 10);
    }
  }

  lemma {:induction false} DecimalInjective(m: nat, n: nat)
    requires Decimal(m) == Decimal(n)
    ensures m == n
    decreases m
  {
    var s := Decimal(m);
    var lm, ln := if m < 10 then m else m % 10, if n < 10 then n else n % 10;
    assert s[|s| - 1] == Digit(lm) == Digit(ln);
    assert lm == ln;
    if m >= 10 && n >= 10 {
      assert Decimal(m / 10) == s[..|s| - 1] == Decimal(n / 10);
      DecimalInjective(m / 10, n / 10);
    }
  }

  /** Two calls with different names or different counters never share an id. */
  lemma RenderInjective(name: string, m: nat, name': string, n: nat)
    requires Render(name, m) == Render(name', n)
    ensures name == name' && m == n
  {
    var s := Render(name, m);
    DecimalHasNoColon(m);
    DecimalHasNoColon(n);
    // The last colon of `s` stands where the name ends, whichever way `s` is read.
    assert s[|name|] == ':' && s[|name'|] == ':';
    assert |name| == |name'|;
    assert name == s[..|name|] == name';
    assert Decimal(m) == s[|name| + 1..] == Decimal(n);
    DecimalInjective(m, n);
  }

  /** A rendered id contains a colon, so it is neither empty nor a word without one. */
  lemma RenderHasColon(name: string, n: nat)
    ensures Render(name, n)[|name|] == ':'
    ensures ':' in Render(name, n)
  {
  }
}
