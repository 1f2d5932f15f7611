/** Bounds, and numbers as they are written. */
module Numbers {
  function Min(a: int, b: int): int {
    if a <= b then a else b
  }

  function Max(a: int, b: int): int {
    if a <= b then b else a
  }

  predicate Digit(c: char) { '0' <= c <= '9' }

  predicate Digits(s: string) { forall i :: 0 <= i < |s| ==> Digit(s[i]) }

  function DigitValue(c: char): (n: nat)
    requires Digit(c)
    ensures n < 10
  {
    (c - '0') as nat
  }

  function Num(n: nat): (s: string)
    ensures s != [] && Digits(s)
  {
    if n < 10 then ['0' + n as char] else Num(n / 10) + ['0' + (n % 10) as char]
  }

  function Value(s: string): nat
    requires Digits(s)
  {
    if s == [] then 0 else Value(s[..|s|-1]) * 10 + DigitValue(s[|s|-1])
  }

  lemma {:induction false} ValueOfNum(k: nat)
    ensures Value(Num(k)) == k
  {
    if k >= 10 {
      var s := Num(k);
      assert s[..|s|-1] == Num(k / 10);
      ValueOfNum(k / 10);
    } else {
      assert Num(k)[..0] == [];
    }
  }

  /** More digits make a bigger number. */
  lemma {:induction false} ValueGrows(a: string, b: string)
    requires Digits(a) && Digits(b)
    ensures Digits(a + b)
    ensures Value(a) > 0 && b != [] ==> Value(a + b) > Value(a)
    ensures Value(a + b) >= Value(a)
  {
    if b == [] {
      assert a + b == a;
    } else {
      assert (a + b)[..|a + b|-1] == a + b[..|b|-1];
      ValueGrows(a, b[..|b|-1]);
    }
  }
}
