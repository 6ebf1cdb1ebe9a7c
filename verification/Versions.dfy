/** Version texts and their order (comfyctl/catalog.py). */
module Versions {
  import opened Wrappers
  import opened Text

  /** All maximal runs of digits in the text, as numbers. */
  function VersionParts(value: string): seq<nat>
    decreases |value|
  {
    if value == "" then []
    else
      var n := DigitRun(value);
      if n == 0 then VersionParts(value[1..]) else [ValueOf(value[..n])] + VersionParts(value[n..])
  }

  /** `version_parts`: a missing text has no parts. */
  function PartsOf(value: Option<string>): seq<nat> {
    if value.None? then [] else VersionParts(value.value)
  }

  function Padded(parts: seq<nat>, n: nat): (r: seq<nat>)
    requires |parts| <= n
    ensures |r| == n
  {
    parts + seq(n - |parts|, _ => 0)
  }

  /** `a >= b` on tuples of the same length. */
  predicate TupleAtLeast(a: seq<nat>, b: seq<nat>)
    requires |a| == |b|
  {
    a == [] || a[0] > b[0] || (a[0] == b[0] && TupleAtLeast(a[1..], b[1..]))
  }

  function Max(a: nat, b: nat): nat {
    if a < b then b else a
  }

  predicate PartsAtLeast(parts: seq<nat>, minimum: seq<nat>) {
    var n := Max(|parts|, |minimum|);
    TupleAtLeast(Padded(parts, n), Padded(minimum, n))
  }

  /** `version_at_least`. */
  predicate VersionAtLeast(value: Option<string>, minimum: string) {
    var parts, minimumParts := PartsOf(value), VersionParts(minimum);
    parts != [] && minimumParts != [] && PartsAtLeast(parts, minimumParts)
  }

  // ------------------------------------------------- what the comparison means

  /** The part at a position, missing parts being zero. */
  function PartAt(parts: seq<nat>, i: nat): nat {
    if i < |parts| then parts[i] else 0
  }

  /** `a` and `b` first differ at `k`, where `a` is smaller. */
  ghost predicate SmallerAt(a: seq<nat>, b: seq<nat>, k: nat) {
    PartAt(a, k) < PartAt(b, k) && forall j: nat | j < k :: PartAt(a, j) == PartAt(b, j)
  }

  function Tail(parts: seq<nat>): seq<nat> {
    if parts == [] then [] else parts[1..]
  }

  lemma SmallerInTail(a: seq<nat>, b: seq<nat>, k: nat)
    ensures SmallerAt(a, b, k + 1) <==> PartAt(a, 0) == PartAt(b, 0) && SmallerAt(Tail(a), Tail(b), k)
  {
    assert forall i: nat :: PartAt(a, i + 1) == PartAt(Tail(a), i) && PartAt(b, i + 1) == PartAt(Tail(b), i);
    if PartAt(a, 0) == PartAt(b, 0) && SmallerAt(Tail(a), Tail(b), k) {
      forall j: nat | j < k + 1 ensures PartAt(a, j) == PartAt(b, j) {
        if j > 0 { assert PartAt(Tail(a), j - 1) == PartAt(Tail(b), j - 1); }
      }
    }
  }

  lemma PaddedTail(parts: seq<nat>, n: nat)
    requires |parts| <= n && n > 0
    ensures Padded(parts, n)[0] == PartAt(parts, 0)
    ensures Padded(parts, n)[1..] == Padded(Tail(parts), n - 1)
  {}

  lemma {:induction false} TupleAtLeastMeans(a: seq<nat>, b: seq<nat>, n: nat)
    requires |a| <= n && |b| <= n
    ensures TupleAtLeast(Padded(a, n), Padded(b, n)) <==> forall k: nat :: !SmallerAt(a, b, k)
    decreases n
  {
    if n > 0 {
      PaddedTail(a, n);
      PaddedTail(b, n);
      TupleAtLeastMeans(Tail(a), Tail(b), n - 1);
      if TupleAtLeast(Padded(a, n), Padded(b, n)) {
        forall k: nat ensures !SmallerAt(a, b, k) {
          if k > 0 { SmallerInTail(a, b, k - 1); }
        }
      } else if PartAt(a, 0) == PartAt(b, 0) {
        var k: nat :| SmallerAt(Tail(a), Tail(b), k);
        SmallerInTail(a, b, k);
      } else {
        assert SmallerAt(a, b, 0);
      }
    }
  }

  /** At least means: never smaller at the first difference, however many parts each side has. */
  lemma PartsAtLeastMeans(a: seq<nat>, b: seq<nat>)
    ensures PartsAtLeast(a, b) <==> forall k: nat :: !SmallerAt(a, b, k)
  {
    TupleAtLeastMeans(a, b, Max(|a|, |b|));
  }

  /** A version is at least a minimum when both have a number and the version is never the smaller one
      at their first difference. */
  lemma VersionAtLeastMeans(value: Option<string>, minimum: string)
    ensures VersionAtLeast(value, minimum) <==>
      && value.Some? && VersionParts(value.value) != [] && VersionParts(minimum) != []
      && forall k: nat :: !SmallerAt(VersionParts(value.value), VersionParts(minimum), k)
  {
    PartsAtLeastMeans(PartsOf(value), VersionParts(minimum));
  }

  /** Padding further changes nothing. */
  lemma PartsAtLeastPadded(a: seq<nat>, b: seq<nat>, n: nat)
    requires |a| <= n && |b| <= n
    ensures PartsAtLeast(a, b) == TupleAtLeast(Padded(a, n), Padded(b, n))
  {
    TupleAtLeastMeans(a, b, n);
    PartsAtLeastMeans(a, b);
  }

  lemma {:induction false} TupleTotal(a: seq<nat>, b: seq<nat>)
    requires |a| == |b|
    ensures TupleAtLeast(a, b) || TupleAtLeast(b, a)
    decreases |a|
  {
    if a != [] { TupleTotal(a[1..], b[1..]); }
  }

  lemma {:induction false} TupleTransitive(a: seq<nat>, b: seq<nat>, c: seq<nat>)
    requires |a| == |b| == |c| && TupleAtLeast(a, b) && TupleAtLeast(b, c)
    ensures TupleAtLeast(a, c)
    decreases |a|
  {
    if a != [] && a[0] == b[0] == c[0] { TupleTransitive(a[1..], b[1..], c[1..]); }
  }

  predicate HasNumber(value: Option<string>) {
    PartsOf(value) != []
  }

  /** On texts with a number the order is total and reflexive; other texts are above and below nothing. */
  lemma VersionsTotal(a: string, b: string)
    ensures HasNumber(Some(a)) && HasNumber(Some(b)) <==> VersionAtLeast(Some(a), b) || VersionAtLeast(Some(b), a)
    ensures VersionAtLeast(Some(a), a) <==> HasNumber(Some(a))
  {
    var x, y := VersionParts(a), VersionParts(b);
    var n := Max(|x|, |y|);
    PartsAtLeastPadded(x, y, n);
    PartsAtLeastPadded(y, x, n);
    TupleTotal(Padded(x, n), Padded(y, n));
    TupleTotal(Padded(x, |x|), Padded(x, |x|));
  }

  lemma VersionsTransitive(a: Option<string>, b: string, c: string)
    requires VersionAtLeast(a, b) && VersionAtLeast(Some(b), c)
    ensures VersionAtLeast(a, c)
  {
    var x, y, z := PartsOf(a), VersionParts(b), VersionParts(c);
    var n := Max(Max(|x|, |y|), |z|);
    PartsAtLeastPadded(x, y, n);
    PartsAtLeastPadded(y, z, n);
    PartsAtLeastPadded(x, z, n);
    TupleTransitive(Padded(x, n), Padded(y, n), Padded(z, n));
  }

  // ----------------------------------------------------------- dotted versions

  lemma {:induction false} DigitRunOf(digits: string, rest: string)
    requires AllDigits(digits) && (rest == "" || !IsDigit(rest[0]))
    ensures DigitRun(digits + rest) == |digits|
    decreases |digits|
  {
    if digits == "" {
      assert digits + rest == rest;
    } else {
      assert (digits + rest)[0] == digits[0] && (digits + rest)[1..] == digits[1..] + rest;
      assert AllDigits(digits[1..]);
      DigitRunOf(digits[1..], rest);
    }
  }

  lemma PartsAfterOther(c: char, rest: string)
    requires !IsDigit(c)
    ensures VersionParts([c] + rest) == VersionParts(rest)
  {}

  lemma PartsAfterNumber(digits: string, rest: string)
    requires digits != "" && AllDigits(digits) && (rest == "" || !IsDigit(rest[0]))
    ensures VersionParts(digits + rest) == [ValueOf(digits)] + VersionParts(rest)
  {
    DigitRunOf(digits, rest);
    var s, n := digits + rest, |digits|;
    assert s[..n] == digits && s[n..] == rest;
  }

  /** A number put before two texts leaves the difference of their parts. */
  lemma SameNumberBefore(d: string, u: string, v: string, more: seq<nat>)
    requires d != "" && AllDigits(d)
    requires (u == "" || !IsDigit(u[0])) && (v == "" || !IsDigit(v[0]))
    requires VersionParts(v) == VersionParts(u) + more
    ensures VersionParts(d + v) == VersionParts(d + u) + more
  {
    PartsAfterNumber(d, u);
    PartsAfterNumber(d, v);
    Regroup([ValueOf(d)], VersionParts(u), more);
  }

  lemma SameOtherBefore(c: char, u: string, v: string, more: seq<nat>)
    requires !IsDigit(c) && VersionParts(v) == VersionParts(u) + more
    ensures VersionParts([c] + v) == VersionParts([c] + u) + more
  {}

  lemma CutBefore(s: string, n: nat, t: string)
    requires n <= |s|
    ensures s == s[..n] + s[n..] && s + "." + t == s[..n] + (s[n..] + "." + t)
  {}

  /** A dot separates the parts. */
  lemma {:induction false} PartsOfDotted(s: string, t: string)
    ensures VersionParts(s + "." + t) == VersionParts(s) + VersionParts(t)
    decreases |s|
  {
    var n := DigitRun(s);
    if s == "" {
      PartsAfterOther('.', t);
      assert s + "." + t == ['.'] + t;
    } else if n == 0 {
      PartsOfDotted(s[1..], t);
      SameOtherBefore(s[0], s[1..], s[1..] + "." + t, VersionParts(t));
      CutBefore(s, 1, t);
      assert s[..1] == [s[0]];
    } else {
      PartsOfDotted(s[n..], t);
      SameNumberBefore(s[..n], s[n..], s[n..] + "." + t, VersionParts(t));
      CutBefore(s, n, t);
    }
  }

  /** The dotted text of a list of numbers. */
  function Dotted(parts: seq<nat>): string {
    if parts == [] then "" else Decimal(parts[0]) + "." + Dotted(parts[1..])
  }

  /** Reading a dotted text gives back the numbers it was written from. */
  lemma {:induction false} PartsRoundTrip(parts: seq<nat>)
    ensures VersionParts(Dotted(parts)) == parts
  {
    if parts != [] {
      var d := Decimal(parts[0]);
      PartsAfterNumber(d, "");
      assert d + "" == d;
      PartsOfDotted(d, Dotted(parts[1..]));
      PartsRoundTrip(parts[1..]);
    }
  }

  /** So dotted versions compare number by number. */
  lemma DottedAtLeast(a: seq<nat>, b: seq<nat>)
    ensures VersionAtLeast(Some(Dotted(a)), Dotted(b)) <==>
            a != [] && b != [] && forall k: nat :: !SmallerAt(a, b, k)
  {
    PartsRoundTrip(a);
    PartsRoundTrip(b);
    VersionAtLeastMeans(Some(Dotted(a)), Dotted(b));
  }

  /** A trailing zero part does not move a version with a number, on either side of the comparison. */
  lemma TrailingZeroIgnored(a: string, b: string)
    requires HasNumber(Some(a)) && HasNumber(Some(b))
    ensures VersionAtLeast(Some(a + ".0"), b) == VersionAtLeast(Some(a), b)
    ensures VersionAtLeast(Some(a), b + ".0") == VersionAtLeast(Some(a), b)
  {
    PartsOfZero(a);
    PartsOfZero(b);
    ZeroPartIgnored(VersionParts(a), VersionParts(b));
  }

  lemma PartsOfZero(a: string)
    ensures VersionParts(a + ".0") == VersionParts(a) + [0]
  {
    PartsOfDotted(a, "0");
    PartsAfterNumber("0", "");
    assert "0" + "" == "0";
    assert a + ".0" == a + "." + "0";
  }

  lemma ZeroPartIgnored(x: seq<nat>, y: seq<nat>)
    ensures PartsAtLeast(x + [0], y) == PartsAtLeast(x, y) == PartsAtLeast(x, y + [0])
  {
    var n := Max(|x|, |y|) + 1;
    assert Padded(x + [0], n) == Padded(x, n) && Padded(y + [0], n) == Padded(y, n);
    PartsAtLeastPadded(x, y, n);
    PartsAtLeastPadded(x + [0], y, n);
    PartsAtLeastPadded(x, y + [0], n);
  }
}
