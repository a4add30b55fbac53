/** Decimal numerals, as `strconv.Itoa` and `%d` print them. Stage identifiers, node names and
    supervisor names are told apart by nothing else. */
module Names {

  const DIGITS: string := "0123456789"

  function Itoa(n: nat): (s: string)
    ensures s != []
    ensures forall i :: 0 <= i < |s| ==> s[i] in DIGITS
  {
    if n < 10 then [DIGITS[n]] else Itoa(n / 10) + [DIGITS[n % 10]]
  }

  function DigitValue(c: char): nat { if '0' <= c <= '9' then (c - '0') as nat else 0 }

  function Atoi(s: string): nat {
    if s == [] then 0 else 10 * Atoi(s[..|s| - 1]) + DigitValue(s[|s| - 1])
  }

  lemma DigitRoundTrip(d: nat)
    requires d < 10
    ensures DigitValue(DIGITS[d]) == d
  {
  }

  /** Numerals read back as the number they were printed from. */
  lemma {:induction false} ItoaRoundTrip(n: nat)
    ensures Atoi(Itoa(n)) == n
  {
    var s := Itoa(n);
    if n < 10 {
      DigitRoundTrip(n);
      assert s[..0] == [];
    } else {
      ItoaRoundTrip(n / 10);
      DigitRoundTrip(n % 10);
      assert s[..|s| - 1] == Itoa(n / 10);
    }
  }

  /** Names made of the same prefix and different numbers differ. */
  lemma NumberedNamesDiffer(prefix: string, a: nat, b: nat)
    ensures prefix + Itoa(a) == prefix + Itoa(b) <==> a == b
  {
    if prefix + Itoa(a) == prefix + Itoa(b) {
      assert Itoa(a) == (prefix + Itoa(a))[|prefix|..];
      assert Itoa(b) == (prefix + Itoa(b))[|prefix|..];
      ItoaRoundTrip(a);
      ItoaRoundTrip(b);
    }
  }
}
