/**
 * Decimal-to-BCD conversion (`dec_to_bin`), shared by the LED-matrix clock and the
 * LED-strip clock: a number becomes one 4-bit group per decimal digit,
 * most significant digit first.
 */
module Bcd {
  /** The value held by a std::bitset<4>. */
  type Nibble = v: int | 0 <= v < 16

  /** 2^i for the four bit indices of a nibble. */
  function Pow2(i: int): nat
    requires 0 <= i < 4
  {
    if i == 0 then 1 else if i == 1 then 2 else if i == 2 then 4 else 8
  }

  /** Bit i of a nibble (bit 0 is the least significant), as bitset's operator[] reads it. */
  predicate Bit(b: Nibble, i: int)
    requires 0 <= i < 4
  {
    (b / Pow2(i)) % 2 == 1
  }

  /** The decimal digits of n, most significant first; no digits at all when n <= 0. */
  function Digits(n: int): (ds: seq<Nibble>)
    ensures forall i :: 0 <= i < |ds| ==> ds[i] <= 9
    ensures n > 0 ==> |ds| > 0 && ds[0] != 0
    decreases n
  {
    if n <= 0 then [] else Digits(n / 10) + [n % 10]
  }

  /** Reads a group sequence back as a number: fold of `acc * 10 + g`, left to right. */
  function Value(ds: seq<Nibble>): int
  {
    if ds == [] then 0 else Value(ds[..|ds| - 1]) * 10 + ds[|ds| - 1]
  }

  /** std::reverse as a function: element i of the result is element |s| - 1 - i of s. */
  function Reversed(s: seq<Nibble>): (r: seq<Nibble>)
    ensures |r| == |s|
    ensures forall i :: 0 <= i < |s| ==> r[i] == s[|s| - 1 - i]
  {
    if s == [] then [] else [s[|s| - 1]] + Reversed(s[..|s| - 1])
  }

  /**
   * `dec_to_bin`: push `n % 10` while dividing n by 10, then reverse the
   * vector. The result is the digit sequence of n.
   */
  method DecToBin(n: int) returns (repr: seq<Nibble>)
    ensures repr == Digits(n)
  {
    var m := n;
    repr := [];
    while m > 0
      invariant Digits(n) == Digits(m) + Reversed(repr)
      decreases m
    {
      repr := repr + [m % 10];
      m := m / 10;
    }
    repr := Reversed(repr);
  }

  /** Reading the groups back gives n for every n >= 0 (0 is the empty sequence). */
  lemma {:induction false} ValueOfDigits(n: int)
    requires n >= 0
    ensures Value(Digits(n)) == n
  {
    if n > 0 {
      ValueOfDigits(n / 10);
      var ds := Digits(n);
      assert ds[..|ds| - 1] == Digits(n / 10);
    }
  }

  /** No groups for n <= 0, one group for 1..9, two for 10..99, three or more above. */
  lemma DigitsLength(n: int)
    ensures |Digits(n)| == 0 <==> n <= 0
    ensures |Digits(n)| == 1 <==> 1 <= n <= 9
    ensures |Digits(n)| == 2 <==> 10 <= n <= 99
  {
    if n >= 100 {
      assert |Digits(n / 100)| >= 1;
      assert |Digits(n / 10)| >= 2;
    } else if n >= 10 {
      assert Digits(n / 10) == [n / 10];
    }
  }

  /** For 10..99 the two groups are the tens digit and the ones digit. */
  lemma TwoDigitGroups(n: int)
    requires 10 <= n <= 99
    ensures Digits(n) == [n / 10, n % 10]
  {
    assert Digits(n / 10) == [n / 10];
  }

  /** For 1..9 the single group is the number itself. */
  lemma OneDigitGroup(n: int)
    requires 1 <= n <= 9
    ensures Digits(n) == [n]
  {
  }

  /** A digit no larger than 2^w - 1 sets no bit at index w or above. */
  lemma HighBitsClear(d: Nibble, w: int)
    requires 0 <= w <= 4
    requires d < Pow2Width(w)
    ensures forall i :: w <= i < 4 ==> !Bit(d, i)
  {
    forall i | w <= i < 4
      ensures !Bit(d, i)
    {
      assert d / Pow2(i) == 0;
    }
  }

  /** 2^w for widths 0..4. */
  function Pow2Width(w: int): nat
    requires 0 <= w <= 4
  {
    if w == 4 then 16 else Pow2(w)
  }
}
