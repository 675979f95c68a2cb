/** Decimal numerals: strconv.Atoi on a 64-bit int, and %d printing. */
module Numerals {
  import opened Common

  const INT_MAX: int := 0x7FFF_FFFF_FFFF_FFFF

  predicate IsDigit(c: char) { '0' <= c <= '9' }

  predicate AllDigits(s: string) { forall i :: 0 <= i < |s| ==> IsDigit(s[i]) }

  function DigitValue(c: char): nat
    requires IsDigit(c)
  {
    c as int - '0' as int
  }

  function Value(s: string): nat
    requires AllDigits(s)
  {
    if s == "" then 0 else Value(s[..|s| - 1]) * 10 + DigitValue(s[|s| - 1])
  }

  /** One optional sign, then digits only, and a value that fits. */
  function Atoi(s: string): Option<int> {
    var signed := s != "" && (s[0] == '+' || s[0] == '-');
    var digits := if signed then s[1..] else s;
    if digits == "" || !AllDigits(digits) then None
    else
      var v: int := if signed && s[0] == '-' then -(Value(digits) as int) else Value(digits);
      if -INT_MAX - 1 <= v <= INT_MAX then Some(v) else None
  }

  /** The texts that stand for a number: digits, at least one, behind at most one sign. */
  predicate Numeral(s: string, v: int) {
    || (s != "" && AllDigits(s) && v == Value(s))
    || (|s| > 1 && s[0] == '+' && AllDigits(s[1..]) && v == Value(s[1..]))
    || (|s| > 1 && s[0] == '-' && AllDigits(s[1..]) && v == -(Value(s[1..]) as int))
  }

  /** Exactly the numerals of 64-bit numbers are read, and as those numbers. */
  lemma AtoiReadsNumerals(s: string, v: int)
    ensures Atoi(s) == Some(v) <==> Numeral(s, v) && -0x8000_0000_0000_0000 <= v <= 0x7FFF_FFFF_FFFF_FFFF
  {
    assert s != "" && AllDigits(s) ==> IsDigit(s[0]);
  }

  function DigitChar(d: nat): char
    requires d < 10
  {
    ('0' as int + d) as char
  }

  function Itoa(n: nat): string {
    if n < 10 then [DigitChar(n)] else Itoa(n / 10) + [DigitChar(n % 10)]
  }

  lemma {:induction false} ItoaValue(n: nat)
    ensures Itoa(n) != "" && AllDigits(Itoa(n)) && Value(Itoa(n)) == n
  {
    if n < 10 {
      assert Itoa(n)[..0] == "";
    } else {
      ItoaValue(n / 10);
      var s := Itoa(n);
      assert s[..|s| - 1] == Itoa(n / 10);
    }
  }

  lemma AtoiOfDigits(s: string)
    requires s != "" && AllDigits(s)
    ensures Atoi(s) == if Value(s) <= INT_MAX then Some(Value(s)) else None
  {
    assert IsDigit(s[0]);
  }

  /** Printing and reading back a number is the identity. */
  lemma AtoiInvertsItoa(n: nat)
    requires n <= INT_MAX
    ensures Atoi(Itoa(n)) == Some(n)
  {
    ItoaValue(n);
    assert IsDigit(Itoa(n)[0]);
  }

  /** The first position of a character, or the length when it does not occur. */
  function IndexOf(s: string, c: char): (i: nat)
    ensures i <= |s|
    ensures forall j :: 0 <= j < i ==> s[j] != c
    ensures i < |s| ==> s[i] == c
  {
    if s == "" || s[0] == c then 0 else IndexOf(s[1..], c) + 1
  }

  lemma IndexOfIs(s: string, c: char, i: nat)
    requires i <= |s| && (forall j :: 0 <= j < i ==> s[j] != c) && (i < |s| ==> s[i] == c)
    ensures IndexOf(s, c) == i
  {
    var k := IndexOf(s, c);
    if k < i {
      assert false;
    } else if i < k {
      assert false;
    }
  }
}
