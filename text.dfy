/** String operations the sources use: `split(':')` and its inverse,
    `includes`/`startsWith`, upper/lower case for the characters that matter,
    and number formatting (`toString(radix)`, `padStart`) with its parser. */
module Text {

  // ---------------------------------------------------------------- split/join

  /** Inverse of Split: the parts glued back with the separator. */
  function Join(parts: seq<string>, sep: char): string
    requires |parts| >= 1
    decreases |parts|
  {
    if |parts| == 1 then parts[0] else parts[0] + [sep] + Join(parts[1..], sep)
  }

  /** JavaScript's `s.split(sep)` for a one-character separator. It always
      yields at least one part, no part holds the separator, and joining the
      parts back gives `s`. */
  function Split(s: string, sep: char): (parts: seq<string>)
    ensures |parts| >= 1
    ensures forall i :: 0 <= i < |parts| ==> sep !in parts[i]
    ensures Join(parts, sep) == s
    decreases |s|
  {
    if |s| == 0 then [""]
    else if s[0] == sep then
      var rest := Split(s[1..], sep);
      assert s == [] + [sep] + Join(rest, sep);
      [""] + rest
    else
      var rest := Split(s[1..], sep);
      var parts := [[s[0]] + rest[0]] + rest[1..];
      assert parts[1..] == rest[1..];
      assert Join(parts, sep) == [s[0]] + Join(rest, sep);
      parts
  }

  /** Splitting a joined list of separator-free parts gives the parts back. */
  lemma {:induction false} SplitJoin(parts: seq<string>, sep: char)
    requires |parts| >= 1
    requires forall i :: 0 <= i < |parts| ==> sep !in parts[i]
    ensures Split(Join(parts, sep), sep) == parts
    decreases |parts|, |parts[0]|
  {
    var s := Join(parts, sep);
    if |parts| == 1 {
      SplitNoSep(parts[0], sep);
    } else if |parts[0]| == 0 {
      assert s == [sep] + Join(parts[1..], sep);
      assert s[1..] == Join(parts[1..], sep);
      SplitJoin(parts[1..], sep);
      assert parts == [""] + parts[1..];
    } else {
      var shorter := [parts[0][1..]] + parts[1..];
      assert shorter[1..] == parts[1..];
      assert s == [parts[0][0]] + Join(shorter, sep);
      assert s[1..] == Join(shorter, sep);
      assert forall i :: 0 <= i < |shorter| ==> sep !in shorter[i] by {
        forall i | 0 <= i < |shorter| ensures sep !in shorter[i] {
          if i == 0 {
            assert forall k :: 0 <= k < |parts[0][1..]| ==> parts[0][1..][k] == parts[0][k + 1];
          }
        }
      }
      SplitJoin(shorter, sep);
      assert s[0] == parts[0][0] != sep;
      assert [s[0]] + shorter[0] == parts[0];
      assert parts == [[s[0]] + shorter[0]] + shorter[1..];
    }
  }

  /** A string without the separator splits into itself alone. */
  lemma {:induction false} SplitNoSep(s: string, sep: char)
    requires sep !in s
    ensures Split(s, sep) == [s]
    decreases |s|
  {
    if |s| > 0 {
      assert s[0] != sep;
      assert sep !in s[1..] by {
        forall k | 0 <= k < |s[1..]| ensures s[1..][k] != sep { assert s[1..][k] == s[k + 1]; }
      }
      SplitNoSep(s[1..], sep);
      assert [s[0]] + s[1..] == s;
    }
  }

  // ---------------------------------------------------------------- search

  /** JavaScript's `s.startsWith(prefix)`. */
  predicate StartsWith(s: string, prefix: string) {
    |prefix| <= |s| && s[..|prefix|] == prefix
  }

  /** JavaScript's `s.includes(part)`: `part` occurs at some position of `s`. */
  predicate Contains(s: string, part: string)
    decreases |s|
  {
    StartsWith(s, part) || (|s| > 0 && Contains(s[1..], part))
  }

  /** A string contains every piece it is built around. */
  lemma {:induction false} ContainsInfix(s: string, part: string, t: string)
    ensures Contains(s + part + t, part)
    decreases |s|
  {
    if |s| == 0 {
      assert s + part + t == part + t;
      assert (part + t)[..|part|] == part;
    } else {
      assert (s + part + t)[1..] == s[1..] + part + t;
      ContainsInfix(s[1..], part, t);
    }
  }

  // ---------------------------------------------------------------- case

  /** The characters whose JavaScript `toUpperCase()` is a single ASCII
      character: a-z, dotless i (U+0131) and long s (U+017F). Every other
      character is left alone, which agrees with JavaScript whenever the result
      is compared with an ASCII word. */
  function UpperChar(c: char): (u: char)
    ensures 'a' <= c <= 'z' ==> u as int == c as int - 32
    ensures !('a' <= c <= 'z') && c != '\U{0131}' && c != '\U{017F}' ==> u == c
  {
    if 'a' <= c <= 'z' then (c as int - 32) as char
    else if c == '\U{0131}' then 'I'
    else if c == '\U{017F}' then 'S'
    else c
  }

  /** The characters whose JavaScript `toLowerCase()` is a single ASCII
      character: A-Z and the Kelvin sign (U+212A). */
  function LowerChar(c: char): (l: char)
    ensures 'A' <= c <= 'Z' ==> l as int == c as int + 32
    ensures !('A' <= c <= 'Z') && c != '\U{212A}' ==> l == c
  {
    if 'A' <= c <= 'Z' then (c as int + 32) as char
    else if c == '\U{212A}' then 'k'
    else c
  }

  /** `s.toUpperCase()`, character by character. */
  function ToUpper(s: string): (r: string)
    ensures |r| == |s|
    ensures forall i :: 0 <= i < |s| ==> r[i] == UpperChar(s[i])
  {
    seq(|s|, i requires 0 <= i < |s| => UpperChar(s[i]))
  }

  /** `s.toLowerCase()`, character by character. */
  function ToLower(s: string): (r: string)
    ensures |r| == |s|
    ensures forall i :: 0 <= i < |s| ==> r[i] == LowerChar(s[i])
  {
    seq(|s|, i requires 0 <= i < |s| => LowerChar(s[i]))
  }

  /** Upper-casing twice is upper-casing once. */
  lemma ToUpperIdempotent(s: string)
    ensures ToUpper(ToUpper(s)) == ToUpper(s)
  {
    assert forall i :: 0 <= i < |s| ==> UpperChar(UpperChar(s[i])) == UpperChar(s[i]);
  }

  // ---------------------------------------------------------------- digits

  /** The digit for `d` in the alphabet `0-9A-Z` (the alphabet of `toString(radix)`
      after `toUpperCase()`, and of the fingerprint's description token). */
  function DigitChar(d: nat): (c: char)
    requires d < 36
    ensures d < 10 ==> '0' <= c <= '9'
    ensures d >= 10 ==> 'A' <= c <= 'Z'
  {
    if d < 10 then ('0' as int + d) as char else ('A' as int + d - 10) as char
  }

  /** The value of a digit of `0-9A-Z`, or -1 for any other character. */
  function DigitValue(c: char): (v: int)
    ensures -1 <= v < 36
    ensures v >= 0 ==> DigitChar(v) == c
  {
    if '0' <= c <= '9' then c as int - '0' as int
    else if 'A' <= c <= 'Z' then c as int - 'A' as int + 10
    else -1
  }

  predicate IsDigitOf(c: char, base: nat) {
    0 <= DigitValue(c) < base
  }

  predicate AllDigits(s: string, base: nat) {
    forall i :: 0 <= i < |s| ==> IsDigitOf(s[i], base)
  }

  /** `n.toString(base).toUpperCase()`: the digits of `n`, most significant
      first, with no leading zero. */
  function NatToString(n: nat, base: nat): (s: string)
    requires 2 <= base <= 36
    ensures |s| >= 1 && AllDigits(s, base)
    ensures n >= base ==> s[0] != '0'
    decreases n
  {
    if n < base then [DigitChar(n)]
    else
      DivModBounds(n, base);
      NatToString(n / base, base) + [DigitChar(n % base)]
  }

  lemma DivModBounds(n: nat, b: nat)
    requires 2 <= b && n >= b
    ensures 1 <= n / b < n && n % b < b && n == (n / b) * b + n % b
  {
  }

  /** A character that is no digit does not occur in a string of digits. */
  lemma NonDigitAbsent(s: string, base: nat, c: char)
    requires AllDigits(s, base) && DigitValue(c) < 0
    ensures c !in s
  {
    forall i | 0 <= i < |s|
      ensures s[i] != c
    {
      assert IsDigitOf(s[i], base);
    }
  }

  /** The number a string of digits denotes (the inverse of NatToString). */
  function ParseNat(s: string, base: nat): nat
    requires 2 <= base <= 36
    requires AllDigits(s, base)
    decreases |s|
  {
    if |s| == 0 then 0
    else ParseNat(s[..|s| - 1], base) * base + DigitValue(s[|s| - 1])
  }

  lemma DigitRoundTrip(d: nat)
    requires d < 36
    ensures DigitValue(DigitChar(d)) == d
  {
  }

  /** Formatting a number and parsing it back gives the number. */
  lemma {:induction false} ParseNatToString(n: nat, base: nat)
    requires 2 <= base <= 36
    ensures ParseNat(NatToString(n, base), base) == n
    decreases n
  {
    var s := NatToString(n, base);
    if n < base {
      DigitRoundTrip(n);
      assert s[..0] == [];
    } else {
      DivModBounds(n, base);
      var q, r := n / base, n % base;
      ParseNatToString(q, base);
      DigitRoundTrip(r);
      assert s == NatToString(q, base) + [DigitChar(r)];
      assert s[..|s| - 1] == NatToString(q, base);
      assert ParseNat(s, base) == ParseNat(NatToString(q, base), base) * base + DigitValue(DigitChar(r));
    }
  }

  function Pow(b: nat, k: nat): nat {
    if k == 0 then 1 else b * Pow(b, k - 1)
  }

  /** A number below base^k has at most k digits. */
  lemma {:induction false} NatToStringWidth(n: nat, base: nat, k: nat)
    requires 2 <= base <= 36 && 1 <= k
    requires n < Pow(base, k)
    ensures |NatToString(n, base)| <= k
    decreases n
  {
    if n >= base {
      DivModBounds(n, base);
      if k == 1 {
        assert false;
      } else {
        var p := Pow(base, k - 1);
        assert n < base * p;
        DivBelow(n, base, p);
        NatToStringWidth(n / base, base, k - 1);
        assert NatToString(n, base) == NatToString(n / base, base) + [DigitChar(n % base)];
      }
    }
  }

  lemma DivBelow(n: nat, b: nat, p: nat)
    requires b >= 1 && n < b * p
    ensures n / b < p
  {
  }

  /** `s.padStart(width, c)`. */
  function PadStart(s: string, width: nat, c: char): (r: string)
    ensures |r| == if |s| >= width then |s| else width
    ensures r[|r| - |s|..] == s
    ensures forall i :: 0 <= i < |r| - |s| ==> r[i] == c
  {
    if |s| >= width then s else seq(width - |s|, _ => c) + s
  }

  /** Leading zeros do not change the value of a string of digits. */
  lemma {:induction false} ParseNatLeadingZeros(z: string, s: string, base: nat)
    requires 2 <= base <= 36
    requires forall i :: 0 <= i < |z| ==> z[i] == '0'
    requires AllDigits(s, base)
    ensures AllDigits(z + s, base)
    ensures ParseNat(z + s, base) == ParseNat(s, base)
    decreases |s|
  {
    assert forall i :: 0 <= i < |z| ==> IsDigitOf(z[i], base);
    assert AllDigits(z + s, base) by {
      forall i | 0 <= i < |z + s| ensures IsDigitOf((z + s)[i], base) {
        if i < |z| { assert (z + s)[i] == z[i]; } else { assert (z + s)[i] == s[i - |z|]; }
      }
    }
    if |s| == 0 {
      assert z + s == z;
      ParseNatZeros(z, base);
    } else {
      var t := s[..|s| - 1];
      assert (z + s)[..|z + s| - 1] == z + t;
      ParseNatLeadingZeros(z, t, base);
    }
  }

  lemma {:induction false} ParseNatZeros(z: string, base: nat)
    requires 2 <= base <= 36
    requires forall i :: 0 <= i < |z| ==> z[i] == '0'
    ensures AllDigits(z, base) && ParseNat(z, base) == 0
    decreases |z|
  {
    assert forall i :: 0 <= i < |z| ==> IsDigitOf(z[i], base);
    if |z| > 0 {
      ParseNatZeros(z[..|z| - 1], base);
    }
  }
}
