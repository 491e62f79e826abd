/**
 * Decimal text as the C library writes and reads it: the "%d" conversion
 * that names the per-clip bins ("bin0", "bin1", ...) and atoi(), which
 * turns the third word of every argument triple into a duration.
 */
module Decimal {

  predicate IsDigit(c: char) {
    '0' <= c <= '9'
  }

  /** isspace() in the C locale: ' ', '\t', '\n', '\v', '\f', '\r'. */
  predicate IsSpace(c: char) {
    c == ' ' || 9 <= c as int <= 13
  }

  predicate AllDigits(s: string) {
    forall i :: 0 <= i < |s| ==> IsDigit(s[i])
  }

  function DigitChar(d: nat): (c: char)
    requires d < 10
    ensures IsDigit(c) && c as int - '0' as int == d
  {
    ('0' as int + d) as char
  }

  function DigitValue(c: char): nat
    requires IsDigit(c)
  {
    c as int - '0' as int
  }

  /** The text "%d" prints for a non-negative value: most significant digit first, no leading zeros. */
  function NatToString(n: nat): (s: string)
    ensures |s| > 0 && AllDigits(s)
    ensures n >= 10 ==> s[0] != '0'
    decreases n
  {
    if n < 10 then [DigitChar(n)] else NatToString(n / 10) + [DigitChar(n % 10)]
  }

  /**
   * atoi()'s digit loop: every leading digit multiplies the value so far
   * by ten and adds itself; the first non-digit ends the number.
   */
  function ReadDigits(s: string, acc: nat): nat {
    if s != [] && IsDigit(s[0]) then ReadDigits(s[1..], acc * 10 + DigitValue(s[0])) else acc
  }

  /** `s` without its leading white space. */
  function SkipSpaces(s: string): (r: string)
    ensures |r| <= |s|
    ensures r != [] ==> !IsSpace(r[0])
  {
    if s != [] && IsSpace(s[0]) then SkipSpaces(s[1..]) else s
  }

  /**
   * atoi(): leading white space, an optional sign, then as many digits as
   * follow; anything else ends the number, and no digits at all give 0.
   * C leaves overflow undefined; here the value is unbounded.
   */
  function Atoi(s: string): (n: int)
    ensures var t := SkipSpaces(s);
      !(t != [] && IsDigit(t[0])) && !(|t| > 1 && (t[0] == '-' || t[0] == '+') && IsDigit(t[1])) ==> n == 0
    ensures SkipSpaces(s) != [] && SkipSpaces(s)[0] == '-' ==> n <= 0
    ensures !(SkipSpaces(s) != [] && SkipSpaces(s)[0] == '-') ==> n >= 0
  {
    var t := SkipSpaces(s);
    if t != [] && t[0] == '-' then 0 - ReadDigits(t[1..], 0) as int
    else if t != [] && t[0] == '+' then ReadDigits(t[1..], 0)
    else ReadDigits(t, 0)
  }

  /** One more digit at the end of an all-digit string shifts the value read so far one place left. */
  lemma {:induction false} ReadDigitsSnoc(ds: string, d: char, acc: nat)
    requires AllDigits(ds) && IsDigit(d)
    ensures ReadDigits(ds + [d], acc) == ReadDigits(ds, acc) * 10 + DigitValue(d)
  {
    if ds == [] {
      assert [d][1..] == [];
    } else {
      assert IsDigit(ds[0]);
      assert (ds + [d])[1..] == ds[1..] + [d];
      ReadDigitsSnoc(ds[1..], d, acc * 10 + DigitValue(ds[0]));
    }
  }

  /** The digit loop reads back the value "%d" wrote. */
  lemma {:induction false} ReadDigitsOfNatToString(n: nat)
    ensures ReadDigits(NatToString(n), 0) == n
    decreases n
  {
    if n >= 10 {
      var d := DigitChar(n % 10);
      ReadDigitsOfNatToString(n / 10);
      ReadDigitsSnoc(NatToString(n / 10), d, 0);
    } else {
      assert NatToString(n)[1..] == [];
    }
  }

  /** The digit loop stops at the first character that is not a digit. */
  lemma {:induction false} ReadDigitsStops(ds: string, rest: string, acc: nat)
    requires AllDigits(ds) && (rest == [] || !IsDigit(rest[0]))
    ensures ReadDigits(ds + rest, acc) == ReadDigits(ds, acc)
  {
    if ds == [] {
      assert ds + rest == rest;
    } else {
      assert (ds + rest)[0] == ds[0] && (ds + rest)[1..] == ds[1..] + rest;
      ReadDigitsStops(ds[1..], rest, acc * 10 + DigitValue(ds[0]));
    }
  }

  /** What SkipSpaces keeps is a suffix of its input, and everything it drops is white space. */
  lemma {:induction false} SkipSpacesDropsOnlySpaces(s: string)
    ensures var r := SkipSpaces(s);
      && r == s[|s| - |r|..]
      && forall i :: 0 <= i < |s| - |r| ==> IsSpace(s[i])
  {
    if s != [] && IsSpace(s[0]) {
      SkipSpacesDropsOnlySpaces(s[1..]);
      var r := SkipSpaces(s);
      assert s[1..][|s| - 1 - |r|..] == s[|s| - |r|..];
      forall i | 0 <= i < |s| - |r| ensures IsSpace(s[i]) {
        if i > 0 {
          assert s[i] == s[1..][i - 1];
        }
      }
    }
  }

  /** Leading white space is dropped, up to the first other character. */
  lemma {:induction false} SkipSpacesPrefix(ws: string, t: string)
    requires forall i :: 0 <= i < |ws| ==> IsSpace(ws[i])
    requires t == [] || !IsSpace(t[0])
    ensures SkipSpaces(ws + t) == t
  {
    if ws == [] {
      assert ws + t == t;
    } else {
      assert (ws + t)[1..] == ws[1..] + t;
      SkipSpacesPrefix(ws[1..], t);
    }
  }

  /**
   * atoi() on white space, an optional sign, a run of digits and anything
   * not starting with a digit: the digits' value, negated after '-'; the
   * rest is never read.
   */
  lemma AtoiReads(ws: string, sign: string, ds: string, rest: string)
    requires forall i :: 0 <= i < |ws| ==> IsSpace(ws[i])
    requires sign == [] || sign == "-" || sign == "+"
    requires ds != [] && AllDigits(ds) && (rest == [] || !IsDigit(rest[0]))
    ensures Atoi(ws + sign + ds + rest) == if sign == "-" then 0 - ReadDigits(ds, 0) else ReadDigits(ds, 0)
  {
    var t := sign + ds + rest;
    assert ws + sign + ds + rest == ws + t;
    assert t[0] == if sign == [] then ds[0] else sign[0];
    assert IsDigit(ds[0]);
    SkipSpacesPrefix(ws, t);
    ReadDigitsStops(ds, rest, 0);
    if sign != [] {
      assert t[1..] == ds + rest;
    } else {
      assert t == ds + rest;
    }
  }

  /** atoi() reads back exactly the value "%d" wrote. */
  lemma AtoiOfNatToString(n: nat)
    ensures Atoi(NatToString(n)) == n
  {
    var s := NatToString(n);
    assert IsDigit(s[0]);
    assert SkipSpaces(s) == s;
    ReadDigitsOfNatToString(n);
  }

  /** The name create_bin() gives the bin it builds from counter value `counter`. */
  function BinName(counter: nat): (name: string)
    ensures |name| > 3 && name[..3] == "bin" && AllDigits(name[3..])
  {
    "bin" + NatToString(counter)
  }

  /** Two different counter values never give the same bin name. */
  lemma BinNamesDistinct(i: nat, j: nat)
    requires i != j
    ensures BinName(i) != BinName(j)
  {
    if BinName(i) == BinName(j) {
      assert BinName(i)[3..] == NatToString(i);
      assert BinName(j)[3..] == NatToString(j);
      AtoiOfNatToString(i);
      AtoiOfNatToString(j);
    }
  }
}
