/**
 * The two JavaScript string operations the ad form's validator relies on:
 * `String.prototype.trim` and the `length` property.
 *
 * `trim` removes leading and trailing code points of the ECMAScript
 * WhiteSpace and LineTerminator productions; `length` counts UTF-16 code
 * units, so a code point above U+FFFF counts twice.
 */
module JsString {

  /** ECMAScript WhiteSpace (TAB, VT, FF, ZWNBSP and the Zs category) and LineTerminator (LF, CR, LS, PS). */
  predicate IsWhitespace(c: char)
  {
    var n := c as int;
    n == 0x09 || n == 0x0A || n == 0x0B || n == 0x0C || n == 0x0D || n == 0x20
    || n == 0xA0 || n == 0x1680 || (0x2000 <= n <= 0x200A)
    || n == 0x2028 || n == 0x2029 || n == 0x202F || n == 0x205F
    || n == 0x3000 || n == 0xFEFF
  }

  predicate AllWhitespace(s: string)
  {
    forall i :: 0 <= i < |s| ==> IsWhitespace(s[i])
  }

  /** Neither end of `s` is whitespace (vacuously true of the empty string). */
  predicate Trimmed(s: string)
  {
    s != [] ==> !IsWhitespace(s[0]) && !IsWhitespace(s[|s| - 1])
  }

  /** The first position at or after `k` that does not hold whitespace (`|s|` when there is none). */
  function SkipForward(s: string, k: nat): (a: nat)
    requires k <= |s|
    ensures k <= a <= |s|
    ensures forall i :: k <= i < a ==> IsWhitespace(s[i])
    ensures a < |s| ==> !IsWhitespace(s[a])
    decreases |s| - k
  {
    if k == |s| || !IsWhitespace(s[k]) then k else SkipForward(s, k + 1)
  }

  /** The least position `b` at or before `k` from which `s[b..k]` is all whitespace. */
  function SkipBack(s: string, k: nat): (b: nat)
    requires k <= |s|
    ensures b <= k
    ensures forall i :: b <= i < k ==> IsWhitespace(s[i])
    ensures 0 < b ==> !IsWhitespace(s[b - 1])
  {
    if k == 0 || !IsWhitespace(s[k - 1]) then k else SkipBack(s, k - 1)
  }

  /** `s.trim()`: the part of `s` between its leading and its trailing whitespace. */
  function Trim(s: string): (r: string)
    ensures Trimmed(r)
    ensures |r| <= |s|
  {
    var a := SkipForward(s, 0);
    if a == |s| then [] else s[a..SkipBack(s, |s|)]
  }

  /** `s.length`: the number of UTF-16 code units. */
  function Utf16Length(s: string): (n: nat)
    ensures |s| <= n <= 2 * |s|
  {
    if s == [] then 0
    else (if s[0] as int >= 0x1_0000 then 2 else 1) + Utf16Length(s[1..])
  }

  /** `Trim(s)` is `s[a..b]`, where `s[..a]` and `s[b..]` are all whitespace. */
  lemma TrimBounds(s: string) returns (a: nat, b: nat)
    ensures a <= b <= |s| && Trim(s) == s[a..b]
    ensures forall i :: 0 <= i < a ==> IsWhitespace(s[i])
    ensures forall i :: b <= i < |s| ==> IsWhitespace(s[i])
  {
    a := SkipForward(s, 0);
    if a == |s| {
      b := a;
    } else {
      b := SkipBack(s, |s|);
    }
  }

  /** Every string is its trimmed form with whitespace on both sides. */
  lemma TrimSplit(s: string) returns (lead: string, trail: string)
    ensures s == lead + Trim(s) + trail
    ensures AllWhitespace(lead) && AllWhitespace(trail)
  {
    var a, b := TrimBounds(s);
    lead, trail := s[..a], s[b..];
    assert s == s[..a] + s[a..b] + s[b..];
  }

  lemma Regroup(a: string, b: string, c: string, d: string, e: string)
    ensures a + (b + c + d) + e == (a + b) + c + (d + e)
  {
  }

  lemma AllWhitespaceConcat(a: string, b: string)
    requires AllWhitespace(a) && AllWhitespace(b)
    ensures AllWhitespace(a + b)
  {
  }

  /** Trimming discards exactly the whitespace padding around an already trimmed string. */
  lemma TrimPadded(lead: string, t: string, trail: string)
    requires AllWhitespace(lead) && AllWhitespace(trail) && Trimmed(t)
    ensures Trim(lead + t + trail) == t
  {
    var x := lead + t + trail;
    var m, n := |lead|, |lead| + |t|;
    assert forall i :: 0 <= i < m ==> x[i] == lead[i];
    assert forall i :: n <= i < |x| ==> x[i] == trail[i - n];
    var a := SkipForward(x, 0);
    if t == [] {
      assert a == |x|;
    } else {
      assert x[m] == t[0] && x[n - 1] == t[|t| - 1];
      assert a == m;
      var b := SkipBack(x, |x|);
      assert b == n;
      assert x[m..n] == t;
    }
  }

  /** Extra whitespace around a string never changes what `trim` returns. */
  lemma PaddingDoesNotChangeTrim(w1: string, s: string, w2: string)
    requires AllWhitespace(w1) && AllWhitespace(w2)
    ensures Trim(w1 + s + w2) == Trim(s)
  {
    var lead, trail := TrimSplit(s);
    AllWhitespaceConcat(w1, lead);
    AllWhitespaceConcat(trail, w2);
    var t := Trim(s);
    Regroup(w1, lead, t, trail, w2);
    TrimPadded(w1 + lead, t, trail + w2);
  }

  /** Trimming is idempotent. */
  lemma TrimIdempotent(s: string)
    ensures Trim(Trim(s)) == Trim(s)
  {
  }

  /** A string trims to empty exactly when it is all whitespace (`!s.trim()` in the source). */
  lemma TrimEmptyIff(s: string)
    ensures Trim(s) == [] <==> AllWhitespace(s)
  {
  }
}
