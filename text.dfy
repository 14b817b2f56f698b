/** The `java.lang.String` and `java.lang.Long` operations the services rely on,
    over `seq<char>`: ASCII case mapping, `trim`, `replace`, `startsWith`,
    `split(",")`, `Collectors.joining`, `Long.toString`, `Long.parseLong` and
    `String.format("%06d")`. */
module Text {
  import opened Common

  // ---------------------------------------------------------------- case

  function LowerChar(c: char): char
  {
    if 'A' <= c <= 'Z' then (c as int - 'A' as int + 'a' as int) as char else c
  }

  function UpperChar(c: char): char
  {
    if 'a' <= c <= 'z' then (c as int - 'a' as int + 'A' as int) as char else c
  }

  /** `toLowerCase()`, restricted to ASCII letters. */
  function Lower(s: string): (r: string)
    ensures |r| == |s|
    ensures forall i :: 0 <= i < |s| ==> r[i] == LowerChar(s[i])
  {
    seq(|s|, i requires 0 <= i < |s| => LowerChar(s[i]))
  }

  /** `toUpperCase()`, restricted to ASCII letters. */
  function Upper(s: string): (r: string)
    ensures |r| == |s|
    ensures forall i :: 0 <= i < |s| ==> r[i] == UpperChar(s[i])
  {
    seq(|s|, i requires 0 <= i < |s| => UpperChar(s[i]))
  }

  // ---------------------------------------------------------------- trim

  /** `String.trim()` removes every leading and trailing character whose code
      is at most U+0020. */
  predicate IsTrimmable(c: char) { c <= ' ' }

  /** The first index at or after `i` whose character is not trimmable, or
      `|s|` if there is none (the first loop of `trim()`). */
  function SkipLeading(s: string, i: nat): (k: nat)
    requires i <= |s|
    ensures i <= k <= |s|
    ensures forall j :: i <= j < k ==> IsTrimmable(s[j])
    ensures k < |s| ==> !IsTrimmable(s[k])
    decreases |s| - i
  {
    if i < |s| && IsTrimmable(s[i]) then SkipLeading(s, i + 1) else i
  }

  /** The end of the kept piece: `hi` moved left over trimmable characters but
      not past `lo` (the second loop of `trim()`). */
  function SkipTrailing(s: string, lo: nat, hi: nat): (k: nat)
    requires lo <= hi <= |s|
    ensures lo <= k <= hi
    ensures forall j :: k <= j < hi ==> IsTrimmable(s[j])
    ensures k > lo ==> !IsTrimmable(s[k - 1])
  {
    if hi > lo && IsTrimmable(s[hi - 1]) then SkipTrailing(s, lo, hi - 1) else hi
  }

  /** How many characters `trim()` cuts from the front. */
  function TrimOffset(s: string): (k: nat)
    ensures k <= |s|
  {
    SkipLeading(s, 0)
  }

  /** `trim()`: the result is the piece of the input that starts at the first
      and ends at the last non-trimmable character; only trimmable characters
      are cut away. */
  function Trim(s: string): (r: string)
    ensures TrimOffset(s) + |r| <= |s| && r == s[TrimOffset(s)..TrimOffset(s) + |r|]
    ensures r != [] ==> !IsTrimmable(r[0]) && !IsTrimmable(r[|r| - 1])
    ensures forall i :: 0 <= i < TrimOffset(s) ==> IsTrimmable(s[i])
    ensures forall i :: TrimOffset(s) + |r| <= i < |s| ==> IsTrimmable(s[i])
  {
    var lo := SkipLeading(s, 0);
    s[lo..SkipTrailing(s, lo, |s|)]
  }

  /** Any cut that keeps a piece with non-trimmable ends, and removes only
      trimmable characters, is the one `trim()` makes. */
  lemma TrimUnique(s: string, lo: nat, hi: nat)
    requires IsTrimCut(s, lo, hi)
    ensures Trim(s) == s[lo..hi]
  {
    var lo' := SkipLeading(s, 0);
    var hi' := SkipTrailing(s, lo', |s|);
    if lo < hi {
      assert lo' == lo;
      assert hi' == hi;
    } else {
      assert forall i :: 0 <= i < |s| ==> IsTrimmable(s[i]);
    }
  }

  /** The cut conditions of `TrimUnique` (the piece `lo..hi` has
      non-trimmable ends and only trimmable characters lie outside it). */
  predicate IsTrimCut(s: string, lo: nat, hi: nat)
  {
    && lo <= hi <= |s|
    && (forall i :: 0 <= i < lo ==> IsTrimmable(s[i]))
    && (forall i :: hi <= i < |s| ==> IsTrimmable(s[i]))
    && (lo < hi ==> !IsTrimmable(s[lo]) && !IsTrimmable(s[hi - 1]))
  }

  lemma ConsCut(c: char, s: string, lo: nat, hi: nat)
    requires IsTrimmable(c) && IsTrimCut(s, lo, hi)
    ensures IsTrimCut([c] + s, lo + 1, hi + 1)
  {
    var t := [c] + s;
    forall i | 0 < i < |t|
      ensures t[i] == s[i - 1]
    {
    }
  }

  /** A blank in front never changes the trimmed string. */
  lemma TrimLeadingBlank(s: string)
    ensures Trim([' '] + s) == Trim(s)
  {
    var lo, r := TrimOffset(s), Trim(s);
    var hi := lo + |r|;
    ConsCut(' ', s, lo, hi);
    TrimUnique([' '] + s, lo + 1, hi + 1);
    ConsSlice(' ', s, lo, hi);
  }

  lemma ConsSlice(c: char, s: string, lo: nat, hi: nat)
    requires lo <= hi <= |s|
    ensures ([c] + s)[lo + 1..hi + 1] == s[lo..hi]
  {
  }

  lemma SnocCut(s: string, c: char, lo: nat, hi: nat)
    requires IsTrimmable(c) && IsTrimCut(s, lo, hi)
    ensures IsTrimCut(s + [c], lo, hi)
  {
    var t := s + [c];
    forall i | 0 <= i < |s|
      ensures t[i] == s[i]
    {
    }
  }

  /** Nor does a blank at the end. */
  lemma TrimTrailingBlank(s: string)
    ensures Trim(s + [' ']) == Trim(s)
  {
    var lo, r := TrimOffset(s), Trim(s);
    var hi := lo + |r|;
    SnocCut(s, ' ', lo, hi);
    TrimUnique(s + [' '], lo, hi);
    assert (s + [' '])[lo..hi] == s[lo..hi];
  }

  // ---------------------------------------------------------------- replace

  /** `s.replace(pat, "")` for a non-empty `pat`: occurrences are removed left
      to right without overlapping. */
  function RemoveAll(s: string, pat: string): (r: string)
    requires pat != []
    ensures |r| <= |s|
    decreases |s|
  {
    if |s| < |pat| then s
    else if s[..|pat|] == pat then RemoveAll(s[|pat|..], pat)
    else [s[0]] + RemoveAll(s[1..], pat)
  }

  // ---------------------------------------------------------------- split / join

  /** Every piece between occurrences of `sep`, empty pieces included. */
  function SplitOn(s: string, sep: char): (r: seq<string>)
    ensures |r| >= 1
    ensures forall i :: 0 <= i < |r| ==> sep !in r[i]
    decreases |s|
  {
    if sep !in s then [s]
    else
      var k := FirstIndex(s, sep);
      [s[..k]] + SplitOn(s[k + 1..], sep)
  }

  function FirstIndex(s: string, c: char): (k: nat)
    requires c in s
    ensures k < |s| && s[k] == c && c !in s[..k]
  {
    if s[0] == c then 0 else 1 + FirstIndex(s[1..], c)
  }

  function DropTrailingEmpty(xs: seq<string>): (r: seq<string>)
    ensures r <= xs
    ensures r != [] ==> r[|r| - 1] != []
  {
    if xs != [] && xs[|xs| - 1] == [] then DropTrailingEmpty(xs[..|xs| - 1]) else xs
  }

  /** `s.split(",")`: no separator gives `[s]`; otherwise the pieces with the
      trailing empty ones removed. */
  function JavaSplit(s: string, sep: char): seq<string>
  {
    if sep !in s then [s] else DropTrailingEmpty(SplitOn(s, sep))
  }

  /** `Collectors.joining(sep)` / `String.join(sep, xs)`. */
  function Join(xs: seq<string>, sep: string): string
  {
    if xs == [] then ""
    else if |xs| == 1 then xs[0]
    else xs[0] + sep + Join(xs[1..], sep)
  }

  /** Splitting a join of separator-free, non-empty pieces gives the pieces
      back. */
  lemma {:induction false} SplitJoin(xs: seq<string>, sep: char)
    requires xs != []
    requires forall i :: 0 <= i < |xs| ==> sep !in xs[i]
    ensures SplitOn(Join(xs, [sep]), sep) == xs
  {
    if |xs| > 1 {
      var rest := Join(xs[1..], [sep]);
      var s := xs[0] + [sep] + rest;
      assert s == Join(xs, [sep]);
      assert sep in s by { assert s[|xs[0]|] == sep; }
      FirstIndexOfJoin(xs[0], sep, rest);
      assert s[..|xs[0]|] == xs[0];
      assert s[|xs[0]| + 1..] == rest;
      SplitJoin(xs[1..], sep);
      assert [xs[0]] + xs[1..] == xs;
    }
  }

  lemma FirstIndexOfJoin(a: string, sep: char, b: string)
    requires sep !in a
    ensures sep in a + [sep] + b && FirstIndex(a + [sep] + b, sep) == |a|
  {
    var s := a + [sep] + b;
    assert s[|a|] == sep;
  }

  lemma {:induction false} JavaSplitJoin(xs: seq<string>, sep: char)
    requires xs != []
    requires forall i :: 0 <= i < |xs| ==> sep !in xs[i] && xs[i] != []
    ensures JavaSplit(Join(xs, [sep]), sep) == xs
  {
    SplitJoin(xs, sep);
    var s := Join(xs, [sep]);
    if sep in s {
      assert DropTrailingEmpty(xs) == xs;
    }
  }

  // ---------------------------------------------------------------- decimal

  predicate IsDigit(c: char) { '0' <= c <= '9' }

  function DigitChar(d: nat): (c: char)
    requires d < 10
    ensures IsDigit(c) && c as int - '0' as int == d
  {
    ('0' as int + d) as char
  }

  function DigitValue(c: char): nat
    requires IsDigit(c)
  {
    c as int - '0' as int
  }

  /** The value of a string of decimal digits, most significant first. */
  function DigitsValue(s: string): nat
    requires forall i :: 0 <= i < |s| ==> IsDigit(s[i])
  {
    if s == [] then 0 else DigitsValue(s[..|s| - 1]) * 10 + DigitValue(s[|s| - 1])
  }

  /** Decimal digits of `n` without leading zeros (`"0"` for zero). */
  function NatToString(n: nat): (s: string)
    ensures s != []
    ensures forall i :: 0 <= i < |s| ==> IsDigit(s[i])
    ensures n > 0 ==> s[0] != '0'
  {
    if n < 10 then [DigitChar(n)] else NatToString(n / 10) + [DigitChar(n % 10)]
  }

  lemma {:induction false} NatToStringValue(n: nat)
    ensures DigitsValue(NatToString(n)) == n
  {
    var s := NatToString(n);
    if n >= 10 {
      NatToStringValue(n / 10);
      assert s[..|s| - 1] == NatToString(n / 10);
    }
  }

  /** Two digit strings without leading zeros that denote the same value are
      equal, so printing is injective. */
  lemma {:induction false} NatToStringInjective(m: nat, n: nat)
    requires NatToString(m) == NatToString(n)
    ensures m == n
  {
    NatToStringValue(m);
    NatToStringValue(n);
  }

  /** `Long.toString(v)`. */
  function LongToString(v: int): (s: string)
    ensures s != [] && ',' !in s
  {
    if v < 0 then "-" + NatToString(-v) else NatToString(v)
  }

  const LongMin: int := -0x8000_0000_0000_0000
  const LongMax: int := 0x7FFF_FFFF_FFFF_FFFF

  predicate AllDigits(s: string) { forall i :: 0 <= i < |s| ==> IsDigit(s[i]) }

  /** `Long.parseLong(s)` for ASCII digits: an optional sign, at least one
      digit, and a value in the range of a Java `long`; anything else throws
      `NumberFormatException`. */
  function ParseLong(s: string): Result<int>
  {
    if s == [] then Err(NumberFormat)
    else
      var neg := s[0] == '-';
      var digits := if s[0] == '-' || s[0] == '+' then s[1..] else s;
      if digits == [] || !AllDigits(digits) then Err(NumberFormat)
      else
        var v := if neg then -(DigitsValue(digits) as int) else DigitsValue(digits);
        if LongMin <= v <= LongMax then Ok(v) else Err(NumberFormat)
  }

  /** Parsing what `Long.toString` printed gives the number back. */
  lemma ParseLongToString(v: int)
    requires LongMin <= v <= LongMax
    ensures ParseLong(LongToString(v)) == Ok(v)
  {
    var s := LongToString(v);
    if v < 0 {
      NatToStringValue(-v);
      assert s[1..] == NatToString(-v);
    } else {
      NatToStringValue(v);
    }
  }

  /** `String.format("%0<width>d", n)` for a non-negative `n`: zeros on the
      left up to `width` characters; longer numbers are not cut. */
  function ZeroPad(n: nat, width: nat): (s: string)
    ensures |s| == if |NatToString(n)| < width then width else |NatToString(n)|
    ensures AllDigits(s) && DigitsValue(s) == n
  {
    var d := NatToString(n);
    NatToStringValue(n);
    if |d| < width then
      var z := seq(width - |d|, _ => '0');
      LeadingZerosValue(z, d);
      z + d
    else d
  }

  lemma {:induction false} LeadingZerosValue(z: string, d: string)
    requires forall i :: 0 <= i < |z| ==> z[i] == '0'
    requires AllDigits(d)
    ensures AllDigits(z + d) && DigitsValue(z + d) == DigitsValue(d)
  {
    if d == [] {
      assert z + d == z;
      ZerosValue(z);
    } else {
      LeadingZerosValue(z, d[..|d| - 1]);
      assert (z + d)[..|z + d| - 1] == z + d[..|d| - 1];
    }
  }

  lemma {:induction false} ZerosValue(z: string)
    requires forall i :: 0 <= i < |z| ==> z[i] == '0'
    ensures AllDigits(z) && DigitsValue(z) == 0
  {
    if z != [] {
      ZerosValue(z[..|z| - 1]);
    }
  }
}
