/**
 * The few pieces of Ruby's string library the gateway relies on, written out:
 * `Kernel#format` with `%<w>d` and `%0<w>d`, `String#=~` with a literal pattern,
 * and `to_s` / `Array#join` on values that may be nil.
 */
module Text {
  import opened Wrappers

  // ---------------------------------------------------------------------------
  // Literal pattern matching (`text =~ /literal/`)

  /** `p` appears in `s` starting at index `i`. */
  predicate OccursAt(s: string, p: string, i: int) {
    0 <= i && i + |p| <= |s| && s[i..i + |p|] == p
  }

  /** Whether the literal `p` occurs somewhere in `s`, scanning left to right. */
  function HasInfix(s: string, p: string): (b: bool)
    ensures b ==> |p| <= |s|
    ensures OccursAt(s, p, 0) ==> b
    decreases |s|
  {
    if |s| < |p| then false
    else if s[..|p|] == p then true
    else HasInfix(s[1..], p)
  }

  /** The left-to-right scan finds a match exactly when there is an occurrence. */
  lemma {:induction false} HasInfixIff(s: string, p: string)
    ensures HasInfix(s, p) <==> exists i :: OccursAt(s, p, i)
    decreases |s|
  {
    if |s| < |p| {
      assert forall i :: !OccursAt(s, p, i);
    } else if s[..|p|] == p {
      assert OccursAt(s, p, 0);
    } else {
      HasInfixIff(s[1..], p);
      forall i | OccursAt(s[1..], p, i)
        ensures OccursAt(s, p, i + 1)
      {
        assert s[1..][i..i + |p|] == s[i + 1..i + 1 + |p|];
      }
      forall i | OccursAt(s, p, i)
        ensures OccursAt(s[1..], p, i - 1)
      {
        assert i != 0;
        assert s[1..][i - 1..i - 1 + |p|] == s[i..i + |p|];
      }
    }
  }

  // ---------------------------------------------------------------------------
  // Decimal rendering and reading back

  predicate IsDigit(c: char) {
    '0' <= c <= '9'
  }

  predicate AllDigits(s: string) {
    forall i :: 0 <= i < |s| ==> IsDigit(s[i])
  }

  function DigitChar(d: int): (c: char)
    requires 0 <= d <= 9
    ensures IsDigit(c) && c as int - '0' as int == d
  {
    ('0' as int + d) as char
  }

  /** The decimal digits of `n`, most significant first, without leading zeros. */
  function Digits(n: nat): (s: string)
    ensures 1 <= |s| && AllDigits(s)
    ensures |s| > 1 ==> s[0] != '0'
    decreases n
  {
    if n < 10 then [DigitChar(n)] else Digits(n / 10) + [DigitChar(n % 10)]
  }

  /** The number a string of decimal digits denotes (leading zeros allowed). */
  function ParseDecimal(s: string): nat
    requires AllDigits(s)
  {
    if s == [] then 0
    else ParseDecimal(s[..|s| - 1]) * 10 + (s[|s| - 1] as int - '0' as int)
  }

  /** Reading the rendered digits back gives the number. */
  lemma {:induction false} DigitsRoundTrip(n: nat)
    ensures ParseDecimal(Digits(n)) == n
    decreases n
  {
    if n >= 10 {
      var s := Digits(n);
      assert s[..|s| - 1] == Digits(n / 10);
      DigitsRoundTrip(n / 10);
    }
  }

  /** `n` has `k` decimal digits when `10^(k-1) <= n < 10^k`. */
  function Pow10(k: nat): (r: nat)
    ensures r >= 1
  {
    if k == 0 then 1 else 10 * Pow10(k - 1)
  }

  lemma {:induction false} DigitsLength(n: nat, k: nat)
    requires 1 <= k
    requires (if k == 1 then 0 else Pow10(k - 1)) <= n < Pow10(k)
    ensures |Digits(n)| == k
    decreases k
  {
    if k > 1 {
      assert n >= 10 by { PowMonotone(1, k - 1); }
      DigitsLength(n / 10, k - 1);
    }
  }

  lemma {:induction false} PowMonotone(i: nat, j: nat)
    requires i <= j
    ensures Pow10(i) <= Pow10(j)
    decreases j - i
  {
    if i < j {
      PowMonotone(i, j - 1);
    }
  }

  // ---------------------------------------------------------------------------
  // Padding and `format("%<w>d")` / `format("%0<w>d")`

  /** `k` copies of `c`. */
  function Repeat(c: char, k: nat): (r: string)
    ensures |r| == k
    ensures forall i :: 0 <= i < k ==> r[i] == c
  {
    if k == 0 then [] else [c] + Repeat(c, k - 1)
  }

  /** `s` right-justified in a field of width `w`, filled on the left with `c`. */
  function PadLeft(s: string, w: nat, c: char): (r: string)
    ensures |r| == if w > |s| then w else |s|
    ensures r[|r| - |s|..] == s
    ensures forall i :: 0 <= i < |r| - |s| ==> r[i] == c
  {
    if w > |s| then Repeat(c, w - |s|) + s else s
  }

  /** An integer in decimal with a leading minus sign when negative. */
  function Signed(n: int): string {
    if n < 0 then "-" + Digits(-n) else Digits(n)
  }

  /** Ruby's `format("%<w>d", n)`: right-justified, blank-filled to width `w`. */
  function FormatWidth(n: int, w: nat): (r: string)
    ensures |r| >= w && |r| >= |Signed(n)|
    ensures |r| == w || |r| == |Signed(n)|
    ensures r[|r| - |Signed(n)|..] == Signed(n)
    ensures forall i :: 0 <= i < |r| - |Signed(n)| ==> r[i] == ' '
  {
    PadLeft(Signed(n), w, ' ')
  }

  /** Ruby's `format("%0<w>d", n)`: the sign first, then zeros up to width `w`, then the digits. */
  function FormatZeroPad(n: int, w: nat): (r: string)
    ensures |r| >= w && |r| >= 1
    ensures n < 0 <==> r[0] == '-'
  {
    if n < 0 then "-" + PadLeft(Digits(-n), if w > 0 then w - 1 else 0, '0')
    else PadLeft(Digits(n), w, '0')
  }

  /**
   * The exact layout of `%0<w>d`: as wide as `w` or the digits need; for a negative
   * number a minus sign, then zeros, then the digits of its magnitude.
   */
  lemma ZeroPadLayout(n: int, w: nat)
    ensures n >= 0 ==> |FormatZeroPad(n, w)| == if w > |Digits(n)| then w else |Digits(n)|
    ensures n < 0 ==> |FormatZeroPad(n, w)| == 1 + if w > 1 + |Digits(-n)| then w - 1 else |Digits(-n)|
    ensures n < 0 ==> FormatZeroPad(n, w)[|FormatZeroPad(n, w)| - |Digits(-n)|..] == Digits(-n)
    ensures n < 0 ==> forall i :: 1 <= i < |FormatZeroPad(n, w)| - |Digits(-n)| ==> FormatZeroPad(n, w)[i] == '0'
  {
    var r := FormatZeroPad(n, w);
    if n < 0 {
      var d := Digits(-n);
      var p := PadLeft(d, if w > 0 then w - 1 else 0, '0');
      assert r == "-" + p;
      assert r[|r| - |d|..] == p[|p| - |d|..];
      forall i | 1 <= i < |r| - |d|
        ensures r[i] == '0'
      {
        assert r[i] == p[i - 1];
      }
    } else {
      assert r == PadLeft(Digits(n), w, '0');
    }
  }

  /** Leading zeros do not change the number a digit string denotes. */
  lemma {:induction false} ParseZeroPrefix(k: nat, s: string)
    requires AllDigits(s)
    ensures AllDigits(Repeat('0', k) + s)
    ensures ParseDecimal(Repeat('0', k) + s) == ParseDecimal(s)
    decreases |s|
  {
    var z := Repeat('0', k);
    if s == [] {
      assert z + s == z;
      ParseZeros(k);
    } else {
      var t := z + s;
      assert t[..|t| - 1] == z + s[..|s| - 1];
      ParseZeroPrefix(k, s[..|s| - 1]);
    }
  }

  lemma {:induction false} ParseZeros(k: nat)
    ensures AllDigits(Repeat('0', k))
    ensures ParseDecimal(Repeat('0', k)) == 0
    decreases k
  {
    if k > 0 {
      var z := Repeat('0', k);
      assert z[..|z| - 1] == Repeat('0', k - 1);
      ParseZeros(k - 1);
    }
  }

  /** A zero-padded non-negative number is all digits, at least `w` long, and reads back as itself. */
  lemma ZeroPadRoundTrip(n: nat, w: nat)
    ensures var s := FormatZeroPad(n, w);
      |s| == (if w > |Digits(n)| then w else |Digits(n)|) && AllDigits(s) && ParseDecimal(s) == n
  {
    var d := Digits(n);
    assert FormatZeroPad(n, w) == PadLeft(d, w, '0');
    DigitsRoundTrip(n);
    if w > |d| {
      ParseZeroPrefix(w - |d|, d);
    }
  }

  // ---------------------------------------------------------------------------
  // nil-tolerant string conversion

  /** Ruby's `to_s` on a string or nil: nil becomes the empty string. */
  function ToS(o: Option<string>): (r: string)
    ensures o.Some? ==> r == o.value
    ensures o.None? ==> r == ""
  {
    o.GetOr("")
  }

  /** Splits at the first blank: the text before it and the text after it, or None without a blank. */
  function SplitAtFirstSpace(s: string): Option<(string, string)> {
    if s == [] then None
    else if s[0] == ' ' then Some(([], s[1..]))
    else match SplitAtFirstSpace(s[1..])
      case None => None
      case Some(parts) => Some(([s[0]] + parts.0, parts.1))
  }

  /** Ruby's `[a, b].join(" ")`: nil elements join as empty strings. */
  function JoinWithSpace(a: Option<string>, b: Option<string>): (r: string)
    ensures |r| == |ToS(a)| + 1 + |ToS(b)|
    ensures r[..|ToS(a)|] == ToS(a) && r[|ToS(a)|] == ' ' && r[|ToS(a)| + 1..] == ToS(b)
  {
    ToS(a) + " " + ToS(b)
  }

  /** When the first part has no blank, the join is undone by splitting at the first blank. */
  lemma {:induction false} JoinSplitRoundTrip(a: string, b: string)
    requires ' ' !in a
    ensures SplitAtFirstSpace(a + " " + b) == Some((a, b))
    decreases |a|
  {
    if a == [] {
      assert a + " " + b == [' '] + b;
    } else {
      assert (a + " " + b)[1..] == a[1..] + " " + b;
      assert a[0] in a;
      JoinSplitRoundTrip(a[1..], b);
      assert [a[0]] + a[1..] == a;
    }
  }
}
