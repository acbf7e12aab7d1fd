/**
 * `generate_reference`: the clock in milliseconds written in base 36, most
 * significant digit first, of which the reference keeps the last six digits
 * behind the prefix "LUNA-". The clock reading is the parameter `timestamp`.
 */
module Reference {

  const Base36Digits: string := "0123456789ABCDEFGHIJKLMNOPQRSTUVWXYZ"
  const Prefix: string := "LUNA-"
  /** How many trailing digits the reference keeps (`base36[-6:]`). */
  const Kept: nat := 6

  predicate IsBase36Digit(c: char) {
    '0' <= c <= '9' || 'A' <= c <= 'Z'
  }

  predicate AllBase36(s: string) {
    forall i :: 0 <= i < |s| ==> IsBase36Digit(s[i])
  }

  /** The position of a digit in `Base36Digits`. */
  function DigitValue(c: char): (d: nat)
    requires IsBase36Digit(c)
    ensures d < 36 && Base36Digits[d] == c
  {
    if '0' <= c <= '9' then c as int - '0' as int else c as int - 'A' as int + 10
  }

  lemma DigitAt(d: nat)
    requires d < 36
    ensures IsBase36Digit(Base36Digits[d]) && DigitValue(Base36Digits[d]) == d
  {
  }

  function Pow36(k: nat): (p: nat)
    ensures p >= 1
  {
    if k == 0 then 1 else 36 * Pow36(k - 1)
  }

  /** The digits the loop produces: empty for 0, no leading '0' otherwise. */
  function ToBase36(n: nat): (s: string)
    ensures AllBase36(s)
    ensures s == [] <==> n == 0
    ensures n > 0 ==> s[0] != '0'
  {
    if n == 0 then ""
    else
      DigitAt(n % 36);
      ToBase36(n / 36) + [Base36Digits[n % 36]]
  }

  /** The number a string of base-36 digits stands for. */
  function FromBase36(s: string): nat
    requires AllBase36(s)
  {
    if s == [] then 0 else FromBase36(s[..|s| - 1]) * 36 + DigitValue(s[|s| - 1])
  }

  /** Decoding the digits gives the timestamp back. */
  lemma {:induction false} Base36RoundTrip(n: nat)
    ensures FromBase36(ToBase36(n)) == n
  {
    if n > 0 {
      var s := ToBase36(n);
      assert s[..|s| - 1] == ToBase36(n / 36);
      DigitAt(n % 36);
      Base36RoundTrip(n / 36);
    }
  }

  lemma {:induction false} MulAtLeast(x: int, m: nat)
    requires x >= 1
    ensures x * m >= m
  {
    if x > 1 {
      MulAtLeast(x - 1, m);
      assert x * m == (x - 1) * m + m;
    }
  }

  /** Euclidean division by a positive modulus has a unique quotient and remainder. */
  lemma DivModUnique(n: nat, m: nat, q: nat, r: nat)
    requires m > 0 && r < m && n == q * m + r
    ensures n / m == q && n % m == r
  {
    var q', r' := n / m, n % m;
    assert n == q' * m + r';
    if q' > q {
      MulAtLeast(q' - q, m);
      assert false;
    } else if q' < q {
      MulAtLeast(q - q', m);
      assert false;
    }
  }

  /** Every canonical digit string (no leading '0') is what the loop writes for its value. */
  lemma {:induction false} Base36Canonical(s: string)
    requires AllBase36(s) && (s == [] || s[0] != '0')
    ensures ToBase36(FromBase36(s)) == s
    decreases |s|
  {
    if s != [] {
      var p, c := s[..|s| - 1], s[|s| - 1];
      var v, d := FromBase36(p), DigitValue(c);
      var n := FromBase36(s);
      assert n == v * 36 + d;
      DivModUnique(n, 36, v, d);
      if p == [] {
        assert s == [c];
      } else {
        assert p[0] == s[0];
        Base36Canonical(p);
      }
    }
  }

  /** The loop writes more than k digits exactly when the timestamp is at least 36^k. */
  lemma {:induction false} Base36Length(n: nat, k: nat)
    ensures |ToBase36(n)| > k <==> n >= Pow36(k)
  {
    if k > 0 && n > 0 {
      Base36Length(n / 36, k - 1);
      DivModUnique(n, 36, n / 36, n % 36);
    }
  }

  /** A string of k digits stands for less than 36^k. */
  lemma {:induction false} FromBase36Bound(s: string)
    requires AllBase36(s)
    ensures FromBase36(s) < Pow36(|s|)
  {
    if s != [] {
      FromBase36Bound(s[..|s| - 1]);
    }
  }

  lemma {:induction false} FromBase36Append(a: string, b: string)
    requires AllBase36(a) && AllBase36(b)
    ensures AllBase36(a + b)
    ensures FromBase36(a + b) == FromBase36(a) * Pow36(|b|) + FromBase36(b)
    decreases |b|
  {
    if b != [] {
      var b' := b[..|b| - 1];
      assert (a + b)[..|a + b| - 1] == a + b';
      FromBase36Append(a, b');
      var x, y, d := FromBase36(a), FromBase36(b'), DigitValue(b[|b| - 1]);
      assert FromBase36(b) == y * 36 + d;
      assert FromBase36(a + b) == (x * Pow36(|b'|) + y) * 36 + d;
      assert Pow36(|b|) == Pow36(|b'|) * 36;
      Distribute(x, Pow36(|b'|), y, d);
    } else {
      assert a + b == a;
    }
  }

  lemma Distribute(x: int, p: int, y: int, d: int)
    ensures (x * p + y) * 36 + d == x * (p * 36) + (y * 36 + d)
  {
  }

  /** Two digit strings of the same length with the same value are the same string. */
  lemma {:induction false} FromBase36Injective(a: string, b: string)
    requires AllBase36(a) && AllBase36(b) && |a| == |b|
    requires FromBase36(a) == FromBase36(b)
    ensures a == b
    decreases |a|
  {
    if a != [] {
      var pa, pb := a[..|a| - 1], b[..|b| - 1];
      var n := FromBase36(a);
      DivModUnique(n, 36, FromBase36(pa), DigitValue(a[|a| - 1]));
      DivModUnique(n, 36, FromBase36(pb), DigitValue(b[|b| - 1]));
      FromBase36Injective(pa, pb);
      assert a == pa + [a[|a| - 1]] && b == pb + [b[|b| - 1]];
    }
  }

  /** Python's `s[-k:]`: the last k characters, or all of `s` when it is shorter. */
  function LastN(s: string, k: nat): (r: string)
    ensures |s| <= k ==> r == s
    ensures |s| > k ==> |r| == k && r == s[|s| - k..]
  {
    if |s| <= k then s else s[|s| - k..]
  }

  /** The reference for a clock reading: the prefix, then the last six base-36 digits. */
  function Reference(timestamp: nat): (reference: string)
    ensures |Prefix| <= |reference| <= |Prefix| + Kept
    ensures reference[..|Prefix|] == Prefix
    ensures AllBase36(reference[|Prefix|..])
  {
    var digits := ToBase36(timestamp);
    var reference := Prefix + LastN(digits, Kept);
    assert reference[|Prefix|..] == LastN(digits, Kept);
    reference
  }

  /** `generate_reference`: repeated `divmod` by 36, prepending each remainder's digit. */
  method GenerateReference(timestamp: nat) returns (reference: string)
    ensures reference == Reference(timestamp)
  {
    var t := timestamp;
    var base36 := "";
    while t != 0
      invariant ToBase36(t) + base36 == ToBase36(timestamp)
      decreases t
    {
      var remainder := t % 36;
      assert ToBase36(t) == ToBase36(t / 36) + [Base36Digits[remainder]];
      t := t / 36;
      base36 := [Base36Digits[remainder]] + base36;
    }
    assert base36 == ToBase36(timestamp);
    reference := Prefix + LastN(base36, Kept);
  }

  /** The reference is 11 characters long exactly once the timestamp reaches 36^5. */
  lemma ReferenceLength(timestamp: nat)
    ensures |Reference(timestamp)| == |Prefix| + Kept <==> timestamp >= Pow36(Kept - 1)
  {
    Base36Length(timestamp, Kept - 1);
  }

  /** The six kept digits spell the timestamp modulo 36^6 milliseconds. */
  lemma ReferenceDigitsValue(timestamp: nat)
    ensures FromBase36(Reference(timestamp)[|Prefix|..]) == timestamp % Pow36(Kept)
  {
    var s := ToBase36(timestamp);
    var kept := Reference(timestamp)[|Prefix|..];
    assert kept == LastN(s, Kept);
    Base36RoundTrip(timestamp);
    Base36Length(timestamp, Kept);
    if |s| <= Kept {
      DivModUnique(timestamp, Pow36(Kept), 0, timestamp);
    } else {
      var head := s[..|s| - Kept];
      assert s == head + kept;
      FromBase36Append(head, kept);
      FromBase36Bound(kept);
      DivModUnique(timestamp, Pow36(Kept), FromBase36(head), FromBase36(kept));
    }
  }

  /**
   * Once the timestamp has six or more digits, two references are equal
   * exactly when the timestamps agree modulo 36^6 milliseconds (about 25 days).
   */
  lemma ReferenceCollision(t: nat, u: nat)
    requires t >= Pow36(Kept - 1) && u >= Pow36(Kept - 1)
    ensures Reference(t) == Reference(u) <==> t % Pow36(Kept) == u % Pow36(Kept)
  {
    ReferenceDigitsValue(t);
    ReferenceDigitsValue(u);
    ReferenceLength(t);
    ReferenceLength(u);
    var rt, ru := Reference(t), Reference(u);
    if t % Pow36(Kept) == u % Pow36(Kept) {
      FromBase36Injective(rt[|Prefix|..], ru[|Prefix|..]);
      assert rt == rt[..|Prefix|] + rt[|Prefix|..];
      assert ru == ru[..|Prefix|] + ru[|Prefix|..];
    }
  }
}
