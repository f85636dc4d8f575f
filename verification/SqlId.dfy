/** The 13-character identifier computed from the last 64 bits of a statement's digest. */
module SqlId {

  const ALPHABET := "0123456789abcdfghjkmnpqrstuvwxyz"
  const WORD := 0x1_0000_0000

  /** The position of a character in the alphabet; 32 for a character that is not in it. */
  function Digit(c: char): (d: nat)
    ensures d <= 32
  {
    if '0' <= c <= '9' then (c - '0') as nat
    else if 'a' <= c <= 'd' then 10 + (c - 'a') as nat
    else if 'f' <= c <= 'h' then 14 + (c - 'f') as nat
    else if 'j' <= c <= 'k' then 17 + (c - 'j') as nat
    else if 'm' <= c <= 'n' then 19 + (c - 'm') as nat
    else if 'p' <= c <= 'z' then 21 + (c - 'p') as nat
    else 32
  }

  predicate IsDigit(c: char) {
    Digit(c) < 32
  }

  predicate IsSqlId(id: string) {
    |id| == 13 && (forall i :: 0 <= i < 13 ==> IsDigit(id[i])) && Digit(id[0]) < 16
  }

  /** The number a string of digits stands for, most significant digit first. */
  function Decode(id: string): nat {
    if id == "" then 0 else Decode(id[..|id| - 1]) * 32 + Digit(id[|id| - 1])
  }

  /** The same with the least significant digit first. */
  function DecodeReversed(id: string): nat {
    if id == "" then 0 else DecodeReversed(id[1..]) * 32 + Digit(id[0])
  }

  function Reversed(s: string): (r: string)
    ensures |r| == |s| && forall i :: 0 <= i < |s| ==> r[i] == s[|s| - 1 - i]
  {
    if s == "" then "" else Reversed(s[1..]) + [s[0]]
  }

  function Power(n: nat): (p: nat)
    ensures p >= 1
  {
    if n == 0 then 1 else 32 * Power(n - 1)
  }

  lemma AlphabetDigits(i: nat)
    requires i < 32
    ensures Digit(ALPHABET[i]) == i
  {
  }

  lemma {:induction false} DecodeOfReversed(s: string)
    ensures Decode(Reversed(s)) == DecodeReversed(s)
  {
    if s != "" {
      DecodeOfReversed(s[1..]);
      assert Reversed(s)[..|s| - 1] == Reversed(s[1..]);
    }
  }

  lemma Shift(a: nat, p: nat, d: nat, e: nat)
    ensures (a + p * d) * 32 + e == (a * 32 + e) + (32 * p) * d
  {
    assert (32 * p) * d == 32 * (p * d);
  }

  lemma {:induction false} DecodeAppended(s: string, c: char)
    ensures DecodeReversed(s + [c]) == DecodeReversed(s) + Power(|s|) * Digit(c)
  {
    if s == "" {
      assert [c][1..] == "";
    } else {
      DecodeAppended(s[1..], c);
      assert (s + [c])[1..] == s[1..] + [c];
      Shift(DecodeReversed(s[1..]), Power(|s| - 1), Digit(c), Digit(s[0]));
    }
  }

  lemma SplitOff(value: nat, p: nat)
    ensures value / 32 * (32 * p) + p * (value % 32) == value * p
  {
    var q, r := value / 32, value % 32;
    assert value == q * 32 + r;
    assert (q * 32 + r) * p == (q * 32) * p + r * p;
    assert (q * 32) * p == q * (32 * p);
  }

  /** Taking one more digit off the value, and putting it into the result, loses nothing. */
  lemma DigitMoves(value: nat, result: string, c: char)
    requires Digit(c) == value % 32
    ensures value / 32 * Power(|result| + 1) + DecodeReversed(result + [c])
         == value * Power(|result|) + DecodeReversed(result)
  {
    DecodeAppended(result, c);
    SplitOff(value, Power(|result|));
  }

  lemma Powers()
    ensures WORD * WORD == 16 * Power(12)
  {
    assert Power(4) == 1048576;
    assert Power(8) == 1048576 * 1048576 by { assert Power(6) == 1024 * Power(4); assert Power(8) == 1024 * Power(6); }
    assert Power(12) == 1048576 * 1048576 * 1048576 by {
      assert Power(10) == 1024 * Power(8);
      assert Power(12) == 1024 * Power(10);
    }
  }

  lemma Quotient(value: nat, power: nat, bound: nat)
    ensures value * power < bound * power ==> value < bound
  {
    if value >= bound {
      assert value * power == bound * power + (value - bound) * power;
    }
  }

  /** Thirteen digits are taken off; nothing is left of the value, and the digits give it back. */
  method ComputeOracleSqlId(msb: nat, lsb: nat) returns (id: string)
    requires msb < WORD && lsb < WORD
    ensures IsSqlId(id) && Decode(id) == msb * WORD + lsb
  {
    var sqln: nat := msb * WORD + lsb;
    ghost var value := sqln;
    assert value < WORD * WORD by { assert msb * WORD <= (WORD - 1) * WORD; }
    var result := "";
    for n := 0 to 13
      invariant |result| == n
      invariant sqln * Power(n) + DecodeReversed(result) == value
      invariant forall i :: 0 <= i < n ==> IsDigit(result[i])
      invariant n == 13 ==> Digit(result[12]) < 16
    {
      AlphabetDigits(sqln % 32);
      DigitMoves(sqln, result, ALPHABET[sqln % 32]);
      if n == 12 {
        Powers();
        Quotient(sqln, Power(12), 16);
      }
      result := result + [ALPHABET[sqln % 32]];
      sqln := sqln / 32;
    }
    Drained(sqln, value);
    id := Reversed(result);
    DecodeOfReversed(result);
  }

  lemma Drained(sqln: nat, value: nat)
    requires sqln * Power(13) <= value < WORD * WORD
    ensures sqln == 0
  {
    Powers();
    Quotient(sqln, Power(13), 1);
  }

  lemma {:induction false} DecodeBelow(id: string)
    requires forall i :: 0 <= i < |id| ==> IsDigit(id[i])
    ensures Decode(id) < Power(|id|)
  {
    if id != "" {
      DecodeBelow(id[..|id| - 1]);
      assert IsDigit(id[|id| - 1]);
    }
  }

  lemma SameDigit(a: char, b: char)
    requires IsDigit(a) && Digit(a) == Digit(b)
    ensures a == b
  {
  }

  lemma SameQuotient(x: nat, d: nat, y: nat, e: nat)
    requires x * 32 + d == y * 32 + e && d < 32 && e < 32
    ensures x == y && d == e
  {
  }

  /** Different digits stand for different numbers: the identifier determines the 64 bits, and two
      different values never get the same identifier, nor one value two. */
  lemma {:induction false} DecodeInjective(a: string, b: string)
    requires |a| == |b| && Decode(a) == Decode(b)
    requires forall i :: 0 <= i < |a| ==> IsDigit(a[i]) && IsDigit(b[i])
    ensures a == b
  {
    if a != "" {
      var n := |a| - 1;
      assert IsDigit(a[n]) && IsDigit(b[n]);
      assert a == a[..n] + [a[n]] && b == b[..n] + [b[n]];
      SameQuotient(Decode(a[..n]), Digit(a[n]), Decode(b[..n]), Digit(b[n]));
      SameDigit(a[n], b[n]);
      DecodeInjective(a[..n], b[..n]);
    }
  }

  lemma DecodeLast(front: string, last: char)
    ensures Decode(front + [last]) == Decode(front) * 32 + Digit(last)
  {
    assert (front + [last])[..|front|] == front;
  }

  lemma {:induction false} DecodeFirst(first: char, rest: string)
    ensures Decode([first] + rest) == Power(|rest|) * Digit(first) + Decode(rest)
  {
    if rest == "" {
      assert [first] + rest == [] + [first];
      DecodeLast([], first);
    } else {
      var middle, last := rest[..|rest| - 1], rest[|rest| - 1];
      DecodeFirst(first, middle);
      assert [first] + rest == ([first] + middle) + [last] && rest == middle + [last];
      DecodeLast([first] + middle, last);
      DecodeLast(middle, last);
      Shift(Decode(middle), Power(|middle|), Digit(first), Digit(last));
    }
  }

  /** Every identifier of this form is one of a 64-bit value: the encoding is onto as well. */
  lemma DecodeInRange(id: string)
    requires IsSqlId(id)
    ensures Decode(id) < WORD * WORD
  {
    assert id == [id[0]] + id[1..];
    DecodeFirst(id[0], id[1..]);
    DecodeBelow(id[1..]);
    Powers();
    assert Power(12) * (Digit(id[0]) + 1) <= Power(12) * 16;
  }
}
