/** Canonical decimal text: what the runtime prints, and all it accepts back. */
module Decimals {
  import opened Wrappers
  import opened U64

  predicate Digit(c: char) { '0' <= c <= '9' }

  /** Nonempty, digits only, no leading zero except in "0" itself. */
  predicate Canonical(s: string) {
    s != "" && (|s| > 1 ==> s[0] != '0') && forall i :: 0 <= i < |s| ==> Digit(s[i])
  }

  function DigitValue(c: char): nat
    requires Digit(c)
  {
    c as int - '0' as int
  }

  function DigitOf(d: nat): (c: char)
    requires d < 10
    ensures Digit(c) && DigitValue(c) == d
  {
    ('0' as int + d) as char
  }

  function Value(s: string): nat
    requires forall i :: 0 <= i < |s| ==> Digit(s[i])
  {
    if s == "" then 0 else 10 * Value(s[..|s| - 1]) + DigitValue(s[|s| - 1])
  }

  function Print(n: nat): string {
    if n < 10 then [DigitOf(n)] else Print(n / 10) + [DigitOf(n % 10)]
  }

  function Parse(s: string): Option<nat> {
    if Canonical(s) then Some(Value(s)) else None
  }

  function ParseU64(s: string): Option<nat> {
    if Canonical(s) && Value(s) <= U64_MAX then Some(Value(s)) else None
  }

  lemma {:induction false} PrintIsCanonical(n: nat)
    ensures Canonical(Print(n)) && Value(Print(n)) == n
    ensures n > 0 ==> Print(n)[0] != '0'
  {
    if n < 10 {
      assert Value([DigitOf(n)]) == 10 * Value([]) + n;
    } else {
      PrintIsCanonical(n / 10);
      assert Print(n)[..|Print(n)| - 1] == Print(n / 10);
    }
  }

  /** The text of a number is that of its tens, if any, followed by its last digit. */
  lemma PrintIsDecimal(tens: nat, d: nat)
    requires d < 10
    ensures Print(10 * tens + d) == (if tens == 0 then "" else Print(tens)) + ["0123456789"[d]]
  {
    var n := 10 * tens + d;
    assert n / 10 == tens && n % 10 == d;
    assert n < 10 <==> tens == 0;
  }

  lemma {:induction false} PositiveValue(s: string)
    requires forall i :: 0 <= i < |s| ==> Digit(s[i])
    requires s != "" && s[0] != '0'
    ensures Value(s) > 0
  {
    if |s| > 1 {
      PositiveValue(s[..|s| - 1]);
    } else {
      assert s == [s[0]];
    }
  }

  /** Each value has one accepted text. */
  lemma {:induction false} CanonicalIsPrinted(s: string)
    requires Canonical(s)
    ensures Print(Value(s)) == s
  {
    hide Print, DigitOf, DigitValue;
    var init, last := s[..|s| - 1], s[|s| - 1];
    assert s == init + [last];
    if |s| == 1 {
      assert Value(init) == 0;
      PrintDigit(last);
    } else {
      PositiveValue(init);
      CanonicalIsPrinted(init);
      PrintAppends(Value(init), last);
    }
  }

  lemma PrintDigit(c: char)
    requires Digit(c)
    ensures Print(DigitValue(c)) == [c]
  {
    assert DigitOf(DigitValue(c)) == c;
  }

  lemma PrintAppends(tens: nat, last: char)
    requires tens > 0 && Digit(last)
    ensures Print(10 * tens + DigitValue(last)) == Print(tens) + [last]
  {
    var n := 10 * tens + DigitValue(last);
    assert n / 10 == tens && n % 10 == DigitValue(last);
    assert DigitOf(DigitValue(last)) == last;
  }

  lemma ParsePrints(n: nat, s: string)
    ensures Parse(Print(n)) == Some(n)
    ensures ParseU64(Print(n)) == if n <= U64_MAX then Some(n) else None
    ensures Parse(s) == Some(n) <==> s == Print(n)
    ensures ParseU64(s) == Some(n) <==> s == Print(n) && n <= U64_MAX
  {
    PrintIsCanonical(n);
    if Canonical(s) {
      CanonicalIsPrinted(s);
    }
  }
}
