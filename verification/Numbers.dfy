// The numbers that literals of the functional tree spell
// (compiler-backend/functional/src/tree.rs).
module Numbers {

  // A sign and a magnitude, since zero has both signs.
  datatype Signed = Signed(negative: bool, magnitude: real)

  function Opposite(n: Signed): Signed {
    Signed(!n.negative, n.magnitude)
  }

  predicate IsDigit(c: char) {
    '0' <= c <= '9'
  }

  function DigitValue(c: char): nat {
    if IsDigit(c) then (c - '0') as nat else 0
  }

  // The part before and the part after the first of the given marks.
  function Before(s: string, marks: set<char>): string {
    if s == [] || s[0] in marks then [] else [s[0]] + Before(s[1..], marks)
  }

  function After(s: string, marks: set<char>): string {
    if s == [] then [] else if s[0] in marks then s[1..] else After(s[1..], marks)
  }

  // Digits from left to right; what is no digit, such as an underscore, only separates them.
  function Whole(s: string): nat {
    if s == [] then 0
    else
      var last, front := s[|s| - 1], s[..|s| - 1];
      if IsDigit(last) then 10 * Whole(front) + DigitValue(last) else Whole(front)
  }

  // The digits after a decimal point.
  function Fraction(s: string): real {
    if s == [] then 0.0
    else if IsDigit(s[0]) then (DigitValue(s[0]) as real + Fraction(s[1..])) / 10.0
    else Fraction(s[1..])
  }

  function Scaled(x: real, exponent: int): real
    decreases if exponent < 0 then -exponent else exponent
  {
    if exponent == 0 then x
    else if exponent > 0 then Scaled(x * 10.0, exponent - 1)
    else Scaled(x / 10.0, exponent + 1)
  }

  function ExponentOf(s: string): int {
    var sign := if s != [] && s[0] == '-' then -1 else 1;
    sign * Whole(s)
  }

  // The magnitude of digits with an optional fraction and an optional exponent.
  function Magnitude(s: string): real {
    var mantissa := Before(s, {'e', 'E'});
    Scaled(Whole(Before(mantissa, {'.'})) as real + Fraction(After(mantissa, {'.'})), ExponentOf(After(s, {'e', 'E'})))
  }

  // Each leading sign turns the rest to its opposite.
  function NumberOf(digits: string): Signed {
    if digits != [] && digits[0] == '-' then Opposite(NumberOf(digits[1..])) else Signed(false, Magnitude(digits))
  }

  lemma {:induction false} WholeOfBoth(a: string, b: string)
    requires forall i :: 0 <= i < |b| ==> IsDigit(b[i])
    ensures Whole(a + b) == Whole(a) * Power(|b|) + Whole(b)
  {
    if b == [] {
      assert a + b == a;
    } else {
      var front, last := b[..|b| - 1], b[|b| - 1];
      assert (a + b)[..|a + b| - 1] == a + front;
      WholeOfBoth(a, front);
      assert Whole(a) * Power(|front|) * 10 == Whole(a) * Power(|b|);
    }
  }

  function Power(n: nat): nat {
    if n == 0 then 1 else 10 * Power(n - 1)
  }

  lemma Spellings()
    ensures NumberOf("1.5") == Signed(false, 1.5) && NumberOf("-1.5") == Signed(true, 1.5)
    ensures NumberOf("-2e1") == Signed(true, 20.0) && NumberOf("-0") == Signed(true, 0.0)
  {
    assert Whole("1") == 1 && Whole("2") == 2 && Whole("0") == 0;
    assert Fraction("5") == 0.5;
    OneAndAHalf();
    TwentyAndZero();
    assert "-1.5"[1..] == "1.5" && "-2e1"[1..] == "2e1" && "-0"[1..] == "0";
  }

  lemma OneAndAHalf()
    ensures Magnitude("1.5") == 1.5
  {
    var s := "1.5";
    assert s[1..] == ".5" && s[1..][1..] == "5" && s[1..][1..][1..] == "";
    assert Before(".5", {'e', 'E'}) == ".5" by {
      assert Before("5", {'e', 'E'}) == "5";
    }
    assert Before(s, {'e', 'E'}) == s && After(s, {'e', 'E'}) == "";
    assert Before(s, {'.'}) == "1" && After(s, {'.'}) == "5";
    assert Whole("1") == 1 && Fraction("5") == 0.5;
  }

  lemma TwentyAndZero()
    ensures Magnitude("2e1") == 20.0 && Magnitude("0") == 0.0
  {
    var s := "2e1";
    assert s[1..] == "e1" && s[1..][1..] == "1";
    assert Before(s, {'e', 'E'}) == "2" && After(s, {'e', 'E'}) == "1";
    assert Before("2", {'.'}) == "2" && After("2", {'.'}) == "";
    assert Whole("1") == 1 && Whole("2") == 2 && ExponentOf("1") == 1;
    assert Scaled(2.0, 1) == 20.0;
  }
}
