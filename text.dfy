/**
 * String helpers with Python's meaning: `str.split` on one separator
 * character, digit values, and the `hex()`/`str()` renderings of a
 * non-negative integer.
 */
module Text {
  import opened Wrappers

  /** `s.split(sep)`: the pieces between separators, empty pieces included. */
  function Split(s: string, sep: char): (r: seq<string>)
    ensures |r| >= 1
    ensures forall i :: 0 <= i < |r| ==> sep !in r[i]
  {
    if s == [] then [[]]
    else
      var rest := Split(s[1..], sep);
      if s[0] == sep then [[]] + rest
      else [[s[0]] + rest[0]] + rest[1..]
  }

  /** `sep.join(parts)`. */
  function Join(parts: seq<string>, sep: char): string
    requires |parts| >= 1
  {
    if |parts| == 1 then parts[0] else parts[0] + [sep] + Join(parts[1..], sep)
  }

  /** Joining the pieces of a split gives back the string. */
  lemma {:induction false} JoinSplit(s: string, sep: char)
    ensures Join(Split(s, sep), sep) == s
  {
    if s != [] {
      var rest := Split(s[1..], sep);
      JoinSplit(s[1..], sep);
      if s[0] == sep {
        assert Split(s, sep) == [[]] + rest;
        assert Join(Split(s, sep), sep) == [] + [sep] + Join(rest, sep);
      } else {
        var r := Split(s, sep);
        assert r == [[s[0]] + rest[0]] + rest[1..];
        if |rest| == 1 {
          assert Join(r, sep) == [s[0]] + rest[0];
        } else {
          assert r[1..] == rest[1..];
          assert Join(rest, sep) == rest[0] + [sep] + Join(rest[1..], sep);
          assert Join(r, sep) == ([s[0]] + rest[0]) + [sep] + Join(rest[1..], sep);
        }
      }
    }
  }

  /** Splitting a piece free of the separator, followed by the separator, peels that piece off. */
  lemma {:induction false} SplitPrefix(x: string, y: string, sep: char)
    requires sep !in x
    ensures Split(x + [sep] + y, sep) == [x] + Split(y, sep)
  {
    if x == [] {
      assert x + [sep] + y == [sep] + y;
      assert ([sep] + y)[1..] == y;
    } else {
      assert (x + [sep] + y)[1..] == x[1..] + [sep] + y;
      SplitPrefix(x[1..], y, sep);
      assert [x[0]] + x[1..] == x;
    }
  }

  /** Splitting a join of separator-free pieces gives the pieces back. */
  lemma {:induction false} SplitJoin(parts: seq<string>, sep: char)
    requires |parts| >= 1
    requires forall i :: 0 <= i < |parts| ==> sep !in parts[i]
    ensures Split(Join(parts, sep), sep) == parts
    decreases |parts|
  {
    if |parts| == 1 {
      SplitNoSeparator(parts[0], sep);
    } else {
      SplitJoin(parts[1..], sep);
      SplitPrefix(parts[0], Join(parts[1..], sep), sep);
    }
  }

  /** A piece free of the separator splits to itself. */
  lemma {:induction false} SplitNoSeparator(x: string, sep: char)
    requires sep !in x
    ensures Split(x, sep) == [x]
  {
    if x != [] {
      SplitNoSeparator(x[1..], sep);
      assert [x[0]] + x[1..] == x;
    }
  }

  /** The value of a character as a digit in bases up to 36 (`0-9`, then letters of either case). */
  function DigitValue(c: char): (r: Option<nat>)
    ensures r.Some? ==> r.value < 36
    ensures r.Some? <==> ('0' <= c <= '9' || 'a' <= c <= 'z' || 'A' <= c <= 'Z')
  {
    if '0' <= c <= '9' then Some(c as int - '0' as int)
    else if 'a' <= c <= 'z' then Some(c as int - 'a' as int + 10)
    else if 'A' <= c <= 'Z' then Some(c as int - 'A' as int + 10)
    else None
  }

  predicate IsDigitIn(c: char, base: nat) {
    DigitValue(c).Some? && DigitValue(c).value < base
  }

  predicate AllDigits(s: string, base: nat) {
    forall i :: 0 <= i < |s| ==> IsDigitIn(s[i], base)
  }

  /** The number written by the digits `s` in `base`, most significant first. */
  function DigitsValue(s: string, base: nat): nat
    requires AllDigits(s, base)
  {
    if s == [] then 0
    else DigitsValue(s[..|s| - 1], base) * base + DigitValue(s[|s| - 1]).value
  }

  /** The lower-case digit for 0..15, as `hex()` and `str()` write it. */
  function DigitChar(d: nat): (c: char)
    requires d < 16
    ensures DigitValue(c) == Some(d)
  {
    if d < 10 then ('0' as int + d) as char else ('a' as int + d - 10) as char
  }

  /** Euclidean division of n by base: quotient and remainder, and the quotient is smaller. */
  lemma DivMod(n: nat, base: nat)
    requires 2 <= base
    ensures n == n / base * base + n % base && 0 <= n % base < base
    ensures n >= base ==> 1 <= n / base < n
  {
    var q, r := n / base, n % base;
    assert n == q * base + r;
    if n >= base {
      assert q != 0;
      var extra: nat := base - 2;
      assert q * base == 2 * q + q * extra;
    }
  }

  /** The digits of `n` in `base`, without leading zeros ("0" for zero). */
  function NatToDigits(n: nat, base: nat): (s: string)
    requires 2 <= base <= 16
    ensures |s| >= 1
    decreases n
  {
    if n < base then [DigitChar(n)]
    else
      DivMod(n, base);
      NatToDigits(n / base, base) + [DigitChar(n % base)]
  }

  /** Reading the digits back gives the number. */
  lemma {:induction false} NatToDigitsRoundTrip(n: nat, base: nat)
    requires 2 <= base <= 16
    ensures AllDigits(NatToDigits(n, base), base)
    ensures DigitsValue(NatToDigits(n, base), base) == n
    decreases n
  {
    var s := NatToDigits(n, base);
    if n >= base {
      DivMod(n, base);
      var q, r := n / base, n % base;
      NatToDigitsRoundTrip(q, base);
      assert s == NatToDigits(q, base) + [DigitChar(r)];
      assert s[..|s| - 1] == NatToDigits(q, base);
      assert DigitValue(s[|s| - 1]) == Some(r);
      assert DigitsValue(s, base) == q * base + r;
    }
  }

  /** Python's `hex(n)` for n >= 0. */
  function HexString(n: nat): (s: string)
    ensures |s| >= 3 && s[..2] == "0x"
  {
    "0x" + NatToDigits(n, 16)
  }

  /** Python's `str(n)` for n >= 0. */
  function DecimalString(n: nat): (s: string)
    ensures |s| >= 1
  {
    NatToDigits(n, 10)
  }
}
