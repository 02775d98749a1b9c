/**
 * The pieces of Go's `strings`, `strconv` and `fmt` packages that the Feedbin
 * clients use on header values, paths and id lists. Go strings are modelled as
 * sequences of Unicode scalar values.
 */
module GoText {

  datatype Option<+T> = None | Some(value: T)

  /** A Go `(value, error)` pair in which exactly one side is meaningful. */
  datatype Result<+T, +E> = Ok(value: T) | Err(error: E)

  const MinInt64: int := -0x8000_0000_0000_0000
  const MaxInt64: int := 0x7fff_ffff_ffff_ffff

  predicate InInt64(v: int) { MinInt64 <= v <= MaxInt64 }

  // ---------------------------------------------------------------------------
  // Characters
  // ---------------------------------------------------------------------------

  predicate IsDigit(c: char) { '0' <= c <= '9' }

  predicate AllDigits(s: string) { forall i :: 0 <= i < |s| ==> IsDigit(s[i]) }

  /** `unicode.IsSpace`; `fmt`'s scanner uses a table with the same code points. */
  predicate IsSpace(c: char)
  {
    ('\t' <= c <= '\r') || c == ' ' || c == '\U{0085}' || c == '\U{00A0}' || c == '\U{1680}'
    || ('\U{2000}' <= c <= '\U{200A}') || c == '\U{2028}' || c == '\U{2029}'
    || c == '\U{202F}' || c == '\U{205F}' || c == '\U{3000}'
  }

  /** Length of the longest prefix of `s` whose characters all satisfy `p`. */
  function LeadingCount(s: string, p: char -> bool): (n: nat)
    ensures n <= |s|
    ensures forall i :: 0 <= i < n ==> p(s[i])
    ensures n < |s| ==> !p(s[n])
  {
    if |s| == 0 || !p(s[0]) then 0 else 1 + LeadingCount(s[1..], p)
  }

  /** Length of the longest suffix of `s` whose characters all satisfy `p`. */
  function TrailingCount(s: string, p: char -> bool): (n: nat)
    ensures n <= |s|
    ensures forall i :: |s| - n <= i < |s| ==> p(s[i])
    ensures n < |s| ==> !p(s[|s| - 1 - n])
  {
    if |s| == 0 || !p(s[|s| - 1]) then 0 else 1 + TrailingCount(s[..|s| - 1], p)
  }

  // ---------------------------------------------------------------------------
  // strings
  // ---------------------------------------------------------------------------

  /** `strings.TrimLeftFunc`. */
  function TrimLeftFunc(s: string, cut: char -> bool): (r: string)
    ensures |r| <= |s| && r == s[|s| - |r|..]
    ensures |r| > 0 ==> !cut(r[0])
    ensures forall i :: 0 <= i < |s| - |r| ==> cut(s[i])
  {
    s[LeadingCount(s, cut)..]
  }

  /** `strings.TrimRightFunc`. */
  function TrimRightFunc(s: string, cut: char -> bool): (r: string)
    ensures r <= s
    ensures |r| > 0 ==> !cut(r[|r| - 1])
    ensures forall i :: |r| <= i < |s| ==> cut(s[i])
  {
    s[..|s| - TrailingCount(s, cut)]
  }

  /** `strings.TrimSpace`: drops leading and trailing white space. */
  function TrimSpace(s: string): (r: string)
    ensures |r| > 0 ==> !IsSpace(r[0]) && !IsSpace(r[|r| - 1])
    ensures exists k :: InfixAt(r, s, k)
  {
    var l := TrimLeftFunc(s, IsSpace);
    var r := TrimRightFunc(l, IsSpace);
    PrefixOfSuffix(s, l, r);
    r
  }

  /** `strings.Trim(s, cutset)`: drops every leading and trailing character of `cutset`. */
  function Trim(s: string, cutset: string): (r: string)
    ensures |r| > 0 ==> r[0] !in cutset && r[|r| - 1] !in cutset
    ensures exists k :: InfixAt(r, s, k)
  {
    var cut := c => c in cutset;
    assert forall c :: cut(c) <==> c in cutset;
    var l := TrimLeftFunc(s, cut);
    var r := TrimRightFunc(l, cut);
    PrefixOfSuffix(s, l, r);
    r
  }

  /** A prefix `r` of a suffix `l` of `s` sits in `s` where `l` starts. */
  lemma PrefixOfSuffix(s: string, l: string, r: string)
    requires |l| <= |s| && l == s[|s| - |l|..] && r <= l
    ensures InfixAt(r, s, |s| - |l|)
  {
    assert s[|s| - |l|..|s| - |l| + |r|] == l[..|r|];
  }

  lemma {:induction false} LeadingCountPrefix(p: string, x: string, f: char -> bool)
    requires forall i :: 0 <= i < |p| ==> f(p[i])
    requires |x| > 0 && !f(x[0])
    ensures LeadingCount(p + x, f) == |p|
  {
    if |p| > 0 {
      assert (p + x)[1..] == p[1..] + x;
      LeadingCountPrefix(p[1..], x, f);
    } else {
      assert p + x == x;
    }
  }

  /** White space before a word that starts and ends with non-space is all `TrimSpace` removes. */
  lemma TrimSpaceAfterSpaces(p: string, x: string)
    requires forall i :: 0 <= i < |p| ==> IsSpace(p[i])
    requires |x| > 0 && !IsSpace(x[0]) && !IsSpace(x[|x| - 1])
    ensures TrimSpace(p + x) == x
  {
    LeadingCountPrefix(p, x, IsSpace);
    assert (p + x)[|p|..] == x;
    assert TrailingCount(x, IsSpace) == 0;
    assert x[..|x|] == x;
  }

  /** `strings.Trim` removes one cut character on each side of a word that starts and ends outside the cutset. */
  lemma TrimEnclosed(l: char, x: string, r: char, cutset: string)
    requires l in cutset && r in cutset
    requires |x| > 0 && x[0] !in cutset && x[|x| - 1] !in cutset
    ensures Trim([l] + x + [r], cutset) == x
  {
    var cut := c => c in cutset;
    var s := [l] + x + [r];
    LeadingCountPrefix([l], x + [r], cut);
    assert s == [l] + (x + [r]);
    var t := s[1..];
    assert t == x + [r];
    assert t[..|t| - 1] == x;
    assert TrailingCount(x, cut) == 0;
    assert TrailingCount(t, cut) == 1;
    assert t[..|t| - 1] == x;
  }

  /** `strings.TrimPrefix`. */
  function TrimPrefix(s: string, prefix: string): (r: string)
    ensures prefix <= s ==> s == prefix + r
    ensures !(prefix <= s) ==> r == s
  {
    if prefix <= s then s[|prefix|..] else s
  }

  /** `strings.TrimSuffix`. */
  function TrimSuffix(s: string, suffix: string): (r: string)
    ensures IsSuffix(suffix, s) ==> s == r + suffix
    ensures !IsSuffix(suffix, s) ==> r == s
  {
    if IsSuffix(suffix, s) then s[..|s| - |suffix|] else s
  }

  predicate IsSuffix(suffix: string, s: string)
  {
    |suffix| <= |s| && s[|s| - |suffix|..] == suffix
  }

  /** `strings.Contains`: `sub` occurs somewhere in `s`. */
  predicate IsInfix(sub: string, s: string)
  {
    exists k | 0 <= k <= |s| - |sub| :: InfixAt(sub, s, k)
  }

  /** `sub` occurs in `s` starting at index `k`. */
  predicate InfixAt(sub: string, s: string, k: int)
  {
    0 <= k <= |s| - |sub| && s[k..k + |sub|] == sub
  }

  /** Number of occurrences of `c` in `s`. */
  function Count(s: string, c: char): nat
  {
    if |s| == 0 then 0 else (if s[0] == c then 1 else 0) + Count(s[1..], c)
  }

  /**
   * `strings.Split(s, sep)` for a one-character separator: the pieces between
   * separators, so the empty string splits into one empty piece.
   */
  function Split(s: string, sep: char): (parts: seq<string>)
    ensures |parts| >= 1
  {
    if |s| == 0 then [""]
    else
      var rest := Split(s[1..], sep);
      if s[0] == sep then [""] + rest else [[s[0]] + rest[0]] + rest[1..]
  }

  /** `strings.Join`. */
  function Join(parts: seq<string>, sep: string): string
  {
    if |parts| == 0 then ""
    else if |parts| == 1 then parts[0]
    else parts[0] + sep + Join(parts[1..], sep)
  }

  /** Splitting yields one piece more than there are separators. */
  lemma {:induction false} SplitLength(s: string, sep: char)
    ensures |Split(s, sep)| == Count(s, sep) + 1
  {
    if |s| > 0 {
      SplitLength(s[1..], sep);
    }
  }

  /** No piece of a split contains the separator. */
  lemma {:induction false} SplitPiecesFree(s: string, sep: char)
    ensures forall i :: 0 <= i < |Split(s, sep)| ==> sep !in Split(s, sep)[i]
  {
    if |s| > 0 {
      SplitPiecesFree(s[1..], sep);
    }
  }

  /** Joining the pieces back with the separator restores the input. */
  lemma {:induction false} JoinSplit(s: string, sep: char)
    ensures Join(Split(s, sep), [sep]) == s
  {
    if |s| > 0 {
      JoinSplit(s[1..], sep);
      var rest := Split(s[1..], sep);
      if s[0] != sep && |rest| > 1 {
        assert [[s[0]] + rest[0]] + rest[1..] == [[s[0]] + rest[0]] + rest[1..];
        assert Join(rest, [sep]) == rest[0] + [sep] + Join(rest[1..], [sep]);
      }
    }
  }

  /** Splitting a string without the separator yields that string alone. */
  lemma {:induction false} SplitWithoutSeparator(s: string, sep: char)
    requires sep !in s
    ensures Split(s, sep) == [s]
  {
    if |s| > 0 {
      SplitWithoutSeparator(s[1..], sep);
      assert [s[0]] + s[1..] == s;
    }
  }

  /** Splitting `a + [sep] + b` with `sep` absent from `a` peels off `a` as the first piece. */
  lemma {:induction false} SplitFirst(a: string, b: string, sep: char)
    requires sep !in a
    ensures Split(a + [sep] + b, sep) == [a] + Split(b, sep)
  {
    if |a| > 0 {
      var s := a + [sep] + b;
      assert s[0] == a[0] && s[1..] == a[1..] + [sep] + b;
      SplitFirst(a[1..], b, sep);
      assert [a[0]] + a[1..] == a;
    } else {
      assert a + [sep] + b == [sep] + b;
    }
  }

  // ---------------------------------------------------------------------------
  // Decimal numbers: strconv.Itoa / FormatInt, strconv.Atoi, fmt.Sscanf("%d")
  // ---------------------------------------------------------------------------

  function DigitValue(c: char): nat
    requires IsDigit(c)
  {
    (c as int) - ('0' as int)
  }

  function DigitChar(d: nat): (c: char)
    requires d < 10
    ensures IsDigit(c) && DigitValue(c) == d
  {
    (('0' as int) + d) as char
  }

  /** The value of a string of decimal digits, most significant first. */
  function DigitsValue(s: string): nat
    requires AllDigits(s)
  {
    if |s| == 0 then 0 else DigitsValue(s[..|s| - 1]) * 10 + DigitValue(s[|s| - 1])
  }

  /** Shortest decimal rendering of a natural number. */
  function NatToDecimal(n: nat): (r: string)
    ensures |r| > 0 && AllDigits(r)
    ensures r[0] == '0' ==> n == 0
  {
    if n < 10 then [DigitChar(n)] else NatToDecimal(n / 10) + [DigitChar(n % 10)]
  }

  /** `strconv.Itoa` / `strconv.FormatInt(n, 10)`. */
  function Itoa(n: int): (r: string)
    ensures |r| > 0
    ensures n < 0 <==> r[0] == '-'
    ensures forall i :: 0 < i < |r| ==> IsDigit(r[i])
  {
    if n < 0 then "-" + NatToDecimal(-n) else NatToDecimal(n)
  }

  /** `strconv.FormatBool`. */
  function FormatBool(b: bool): string
  {
    if b then "true" else "false"
  }

  /**
   * `strconv.Atoi`: an optional sign followed by at least one decimal digit,
   * filling the whole string, whose value fits a 64-bit int.
   */
  function Atoi(s: string): Option<int>
  {
    if |s| == 0 then None
    else
      var signed := s[0] == '+' || s[0] == '-';
      var digits := if signed then s[1..] else s;
      if |digits| == 0 || !AllDigits(digits) then None
      else
        var v: int := if s[0] == '-' then -(DigitsValue(digits) as int) else DigitsValue(digits);
        if InInt64(v) then Some(v) else None
  }

  /**
   * `fmt.Sscanf(s, "%d", &n)`: leading white space is skipped (a newline in it
   * is an error), then an optional sign and the longest run of decimal digits
   * are read; text after the digits is ignored.
   */
  function ScanInt(s: string): Option<int>
  {
    var k := LeadingCount(s, IsSpace);
    if '\n' in s[..k] then None
    else
      var t := s[k..];
      var signed := |t| > 0 && (t[0] == '+' || t[0] == '-');
      var body := if signed then t[1..] else t;
      var run := body[..LeadingCount(body, IsDigit)];
      if |run| == 0 then None
      else
        var v: int := if signed && t[0] == '-' then -(DigitsValue(run) as int) else DigitsValue(run);
        if InInt64(v) then Some(v) else None
  }

  /** The digits of a rendering read back as the rendered number. */
  lemma {:induction false} DigitsValueOfDecimal(n: nat)
    ensures DigitsValue(NatToDecimal(n)) == n
  {
    if n >= 10 {
      DigitsValueOfDecimal(n / 10);
      var r := NatToDecimal(n);
      assert r[..|r| - 1] == NatToDecimal(n / 10);
    }
  }

  /** `strconv.Atoi` inverts `strconv.Itoa` on every 64-bit value. */
  lemma AtoiItoa(n: int)
    requires InInt64(n)
    ensures Atoi(Itoa(n)) == Some(n)
  {
    if n < 0 {
      DigitsValueOfDecimal(-n);
      assert Itoa(n)[1..] == NatToDecimal(-n);
    } else {
      DigitsValueOfDecimal(n);
    }
  }

  /** A string of digits alone is read the same way by `Atoi` and by `Sscanf("%d")`. */
  lemma ScanIntOfDigits(s: string)
    requires |s| > 0 && AllDigits(s)
    ensures ScanInt(s) == Atoi(s)
  {
    assert IsDigit(s[0]) && !IsSpace(s[0]);
    assert LeadingCount(s, IsSpace) == 0;
    assert s[..0] == [] && s[0..] == s;
    assert LeadingCount(s, IsDigit) == |s| by {
      LeadingCountAll(s, IsDigit);
    }
    assert s[..|s|] == s;
  }

  /** `Sscanf("%d")` reads back every 64-bit value `strconv.Itoa` renders. */
  lemma ScanIntItoa(n: int)
    requires InInt64(n)
    ensures ScanInt(Itoa(n)) == Some(n)
  {
    AtoiItoa(n);
    if n >= 0 {
      ScanIntOfDigits(Itoa(n));
    } else {
      var s := Itoa(n);
      var d := NatToDecimal(-n);
      assert s == "-" + d;
      assert LeadingCount(s, IsSpace) == 0;
      assert s[..0] == [] && s[0..] == s;
      assert s[1..] == d;
      LeadingCountAll(d, IsDigit);
      assert d[..|d|] == d;
      DigitsValueOfDecimal(-n);
    }
  }

  lemma {:induction false} LeadingCountAll(s: string, p: char -> bool)
    requires forall i :: 0 <= i < |s| ==> p(s[i])
    ensures LeadingCount(s, p) == |s|
  {
    if |s| > 0 {
      LeadingCountAll(s[1..], p);
    }
  }

  /** `Sscanf("%d")` ignores whatever follows the digits: "12abc" reads as 12. */
  lemma ScanIntIgnoresTrailingText()
    ensures ScanInt("12abc") == Some(12)
  {
    var s := "12abc";
    assert LeadingCount(s, IsSpace) == 0;
    assert LeadingCount(s, IsDigit) == 2 by {
      assert LeadingCount(s[2..], IsDigit) == 0;
      assert s[1..][1..] == s[2..];
    }
    assert s[..2] == "12";
    assert DigitsValue("12") == 12 by {
      assert "12"[..1] == "1";
    }
  }
}
