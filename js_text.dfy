/**
  JavaScript string and number behaviour that the application relies on,
  restated over Dafny's `string` (a `seq<char>`), together with the shared
  `Option` type and the model of `Math.random()`.
 */
module JsText {

  datatype Option<+T> = None | Some(value: T)

  // ---------------------------------------------------------------------
  // Characters and case

  predicate IsDigit(c: char) {
    '0' <= c <= '9'
  }

  predicate IsLowerAscii(c: char) {
    'a' <= c <= 'z'
  }

  predicate IsUpperAscii(c: char) {
    'A' <= c <= 'Z'
  }

  /** `String.prototype.toUpperCase` on one character, for the ASCII range. */
  function UpperChar(c: char): (u: char)
    ensures IsLowerAscii(c) ==> IsUpperAscii(u) && u as int == c as int - 32
    ensures !IsLowerAscii(c) ==> u == c
  {
    if IsLowerAscii(c) then (c as int - 32) as char else c
  }

  /** `String.prototype.toUpperCase`: letter by letter, length preserved. */
  function ToUpper(s: string): (u: string)
    ensures |u| == |s|
    ensures forall i :: 0 <= i < |s| ==> u[i] == UpperChar(s[i])
  {
    seq(|s|, i requires 0 <= i < |s| => UpperChar(s[i]))
  }

  /** A string is written in upper case when upper-casing leaves it alone. */
  predicate IsUpper(s: string) {
    forall i :: 0 <= i < |s| ==> !IsLowerAscii(s[i])
  }

  /** Upper-casing twice is upper-casing once. */
  lemma ToUpperIdempotent(s: string)
    ensures IsUpper(ToUpper(s))
    ensures ToUpper(ToUpper(s)) == ToUpper(s)
  {
  }

  /** Upper-casing is the identity exactly on strings without lower-case letters. */
  lemma ToUpperFixesExactlyUpper(s: string)
    ensures ToUpper(s) == s <==> IsUpper(s)
  {
    if ToUpper(s) == s {
      forall i | 0 <= i < |s| ensures !IsLowerAscii(s[i]) {
        assert ToUpper(s)[i] == UpperChar(s[i]);
      }
    }
  }

  // ---------------------------------------------------------------------
  // Substrings

  function Clamp(x: int, n: nat): (r: nat)
    ensures r <= n
    ensures 0 <= x <= n ==> r == x
  {
    if x < 0 then 0 else if x > n then n else x
  }

  /**
    `String.prototype.substring(start, end)`: both indices are clamped to
    [0, |s|] and swapped when start is the larger one.
   */
  function Substring(s: string, start: int, end: int): (r: string)
    ensures start <= end ==> |r| <= end - start
    ensures 0 <= start <= end <= |s| ==> r == s[start..end]
    ensures 0 <= end <= start <= |s| ==> r == s[end..start]
    ensures 0 <= start <= |s| < end ==> r == s[start..]
    ensures start < 0 && 0 <= end <= |s| ==> r == s[..end]
    ensures start < 0 && |s| < end ==> r == s
    ensures (start <= 0 && end <= 0) || (|s| <= start && |s| <= end) ==> r == []
    ensures forall k :: 0 <= k < |r| ==> r[k] in s
  {
    var a, b := Clamp(start, |s|), Clamp(end, |s|);
    if a <= b then s[a..b] else s[b..a]
  }

  /** `substring` treats its two indices alike: swapping them changes nothing. */
  lemma SubstringSymmetric(s: string, start: int, end: int)
    ensures Substring(s, start, end) == Substring(s, end, start)
  {
  }

  /** `String.prototype.startsWith`. */
  predicate StartsWith(s: string, prefix: string) {
    prefix <= s
  }

  /** `s` ends with `suffix`: used to state how a log text ends. */
  predicate EndsWith(s: string, suffix: string) {
    |suffix| <= |s| && s[|s| - |suffix|..] == suffix
  }

  lemma EndsWithSuffix(a: string, x: string)
    ensures EndsWith(a + x, x)
  {
    assert (a + x)[|a|..] == x;
  }

  lemma EndsWithInRight(a: string, b: string, x: string)
    requires EndsWith(b, x)
    ensures EndsWith(a + b, x)
  {
    assert (a + b)[|a + b| - |x|..] == b[|b| - |x|..];
  }

  /** `x` occurs in `s` starting at index `i`. */
  predicate OccursAt(x: string, s: string, i: int) {
    0 <= i <= |s| - |x| && s[i..i + |x|] == x
  }

  /** `String.prototype.includes`. */
  predicate Contains(s: string, x: string) {
    exists i | 0 <= i <= |s| :: OccursAt(x, s, i)
  }

  lemma OccursAfter(x: string, a: string, s: string, i: int)
    requires OccursAt(x, s, i)
    ensures OccursAt(x, a + s, |a| + i)
  {
    assert (a + s)[|a| + i .. |a| + i + |x|] == s[i .. i + |x|];
  }

  lemma OccursBefore(x: string, s: string, b: string, i: int)
    requires OccursAt(x, s, i)
    ensures OccursAt(x, s + b, i)
  {
    assert (s + b)[i .. i + |x|] == s[i .. i + |x|];
  }

  lemma ContainsSuffix(a: string, x: string)
    ensures Contains(a + x, x)
  {
    assert (a + x)[|a|..|a| + |x|] == x;
    assert OccursAt(x, a + x, |a|);
  }

  lemma ContainsPrefix(x: string, b: string)
    ensures Contains(x + b, x)
  {
    assert (x + b)[0..|x|] == x;
    assert OccursAt(x, x + b, 0);
  }

  lemma ContainsInLeft(a: string, b: string, x: string)
    requires Contains(a, x)
    ensures Contains(a + b, x)
  {
    var i :| 0 <= i <= |a| && OccursAt(x, a, i);
    OccursBefore(x, a, b, i);
  }

  lemma ContainsInRight(a: string, b: string, x: string)
    requires Contains(b, x)
    ensures Contains(a + b, x)
  {
    var i :| 0 <= i <= |b| && OccursAt(x, b, i);
    OccursAfter(x, a, b, i);
  }

  /** A JavaScript template literal: its pieces written one after another. */
  function Concat(pieces: seq<string>): string {
    if pieces == [] then [] else pieces[0] + Concat(pieces[1..])
  }

  /** Every piece of a template occurs in the text it produces. */
  lemma {:induction false} PieceOccurs(pieces: seq<string>, k: nat)
    requires k < |pieces|
    ensures Contains(Concat(pieces), pieces[k])
  {
    if k == 0 {
      ContainsPrefix(pieces[0], Concat(pieces[1..]));
    } else {
      PieceOccurs(pieces[1..], k - 1);
      assert pieces[1..][k - 1] == pieces[k];
      var tail := Concat(pieces[1..]);
      var i :| 0 <= i <= |tail| && OccursAt(pieces[k], tail, i);
      OccursAfter(pieces[k], pieces[0], tail, i);
      assert OccursAt(pieces[k], Concat(pieces), |pieces[0]| + i);
    }
  }

  lemma {:induction false} ConcatAppend(a: seq<string>, b: seq<string>)
    ensures Concat(a + b) == Concat(a) + Concat(b)
  {
    if a != [] {
      ConcatAppend(a[1..], b);
      assert (a + b)[1..] == a[1..] + b;
    } else {
      assert a + b == b;
    }
  }

  lemma ConcatCons(x: string, rest: seq<string>)
    ensures Concat([x] + rest) == x + Concat(rest)
  {
    assert ([x] + rest)[1..] == rest;
  }

  /** A property read from an untyped object: missing, `null`, or a string. */
  datatype JsValue = Undefined | Null | Text(text: string)

  /** `${v}` in a template literal. */
  function TemplateText(v: JsValue): string {
    match v
    case Undefined => "undefined"
    case Null => "null"
    case Text(t) => t
  }

  // ---------------------------------------------------------------------
  // Numbers as text

  function DigitChar(d: nat): (c: char)
    requires d < 10
    ensures IsDigit(c)
  {
    ('0' as int + d) as char
  }

  /** The decimal text of a natural number, as `${n}` or `n.toString()` give it. */
  function NatToDecimal(n: nat): (s: string)
    ensures 1 <= |s|
    ensures forall i :: 0 <= i < |s| ==> IsDigit(s[i])
    ensures n >= 10 ==> 2 <= |s|
  {
    if n < 10 then [DigitChar(n)] else NatToDecimal(n / 10) + [DigitChar(n % 10)]
  }

  predicate AllDigits(s: string) {
    forall i :: 0 <= i < |s| ==> IsDigit(s[i])
  }

  /** The number a run of decimal digits denotes, most significant first. */
  function DecimalValue(s: string): nat
    requires AllDigits(s)
  {
    if s == [] then 0 else 10 * DecimalValue(s[..|s| - 1]) + (s[|s| - 1] as int - '0' as int)
  }

  /** Reading back the decimal text of a number gives the number. */
  lemma {:induction false} DecimalRoundTrip(n: nat)
    ensures AllDigits(NatToDecimal(n)) && DecimalValue(NatToDecimal(n)) == n
  {
    var s := NatToDecimal(n);
    if n >= 10 {
      DecimalRoundTrip(n / 10);
      assert s[..|s| - 1] == NatToDecimal(n / 10);
    }
  }

  function Pow10(k: nat): (p: nat)
    ensures p >= 1
  {
    if k == 0 then 1 else 10 * Pow10(k - 1)
  }

  /** A number in [10^(k-1), 10^k) has exactly k decimal digits. */
  lemma {:induction false} DecimalLength(n: nat, k: nat)
    requires 1 <= k
    requires (if k == 1 then 0 else Pow10(k - 1)) <= n < Pow10(k)
    ensures |NatToDecimal(n)| == k
  {
    if k > 1 {
      assert n >= 10 by {
        assert Pow10(k - 1) >= 10 by { Pow10AtLeastTen(k - 1); }
      }
      var q := n / 10;
      assert Pow10(k) == 10 * Pow10(k - 1);
      if k == 2 {
        assert q < Pow10(1);
      } else {
        assert Pow10(k - 1) == 10 * Pow10(k - 2);
        assert Pow10(k - 2) <= q;
      }
      DecimalLength(q, k - 1);
    }
  }

  lemma {:induction false} Pow10AtLeastTen(k: nat)
    requires 1 <= k
    ensures Pow10(k) >= 10
  {
    if k > 1 {
      Pow10AtLeastTen(k - 1);
    }
  }

  // ---------------------------------------------------------------------
  // Math.random()

  /** A draw of `Math.random()`, a number in [0, 1), written as a fraction. */
  datatype Fraction = Fraction(num: nat, den: nat)

  type RandomDraw = f: Fraction | f.num < f.den witness Fraction(0, 1)

  /** `Math.floor(r * k)` for a draw r: always below k. */
  function FloorScaled(r: RandomDraw, k: nat): (n: nat)
    ensures k > 0 ==> n < k
    ensures k == 0 ==> n == 0
  {
    var n := (r.num * k) / r.den;
    if k > 0 then
      MulStrict(r.num, r.den, k);
      QuotientBelow(r.num * k, r.den, k);
      n
    else
      n
  }

  lemma QuotientBelow(a: nat, d: nat, k: nat)
    requires 0 < d && a < d * k
    ensures a / d < k
  {
    var q := a / d;
    assert q * d <= a;
    if q >= k {
      MulMonotone(k, q, d);
    }
  }

  lemma {:induction false} MulStrict(a: nat, b: nat, k: nat)
    requires a < b && 0 < k
    ensures a * k < b * k
  {
    if k > 1 {
      MulStrict(a, b, k - 1);
      assert a * k == a * (k - 1) + a;
      assert b * k == b * (k - 1) + b;
    }
  }

  lemma MulMonotone(k: nat, q: nat, d: nat)
    requires k <= q
    ensures k * d <= q * d
  {
  }
}
