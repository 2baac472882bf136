/** Shared vocabulary: optional values, instants and durations, and the byte-wise string order of Go. */
module Basics {

  datatype Option<+T> = None | Some(value: T)

  /** An instant, in nanoseconds. Zero plays the part of Go's zero `time.Time`. */
  type Time = int

  const MILLISECOND: Time := 1_000_000
  const SECOND: Time := 1_000 * MILLISECOND
  const MINUTE: Time := 60 * SECOND

  function Max(a: int, b: int): int {
    if a > b then a else b
  }

  /** Go's `<` on strings: the first differing character decides, and a proper prefix comes first. */
  predicate Less(a: string, b: string)
    decreases |a|
  {
    if b == "" then false
    else if a == "" then true
    else if a[0] != b[0] then a[0] < b[0]
    else Less(a[1..], b[1..])
  }

  lemma {:induction false} LessTotal(a: string, b: string)
    ensures a == b || Less(a, b) || Less(b, a)
    ensures !(Less(a, b) && Less(b, a))
    ensures a == b ==> !Less(a, b)
    decreases |a|
  {
    if a != "" && b != "" && a[0] == b[0] {
      LessTotal(a[1..], b[1..]);
      assert a == [a[0]] + a[1..] && b == [b[0]] + b[1..];
    }
  }

  /** `a` and `b` agree up to `n`, where `a` ends or has the smaller character. */
  predicate DiffersAt(a: string, b: string, n: nat) {
    n <= |a| && n < |b| && a[..n] == b[..n] && (n == |a| || a[n] < b[n])
  }

  lemma AgreeAtFirst(a: string, b: string, n: nat)
    requires n <= |a| && n < |b| && a[..n] == b[..n]
    ensures n > 0 ==> a[0] == b[0]
  {
    if n > 0 {
      assert a[..n][0] == b[..n][0];
    }
  }

  lemma {:induction false} LessIff(a: string, b: string)
    ensures Less(a, b) <==> exists n: nat :: DiffersAt(a, b, n)
    decreases |a|
  {
    if b != "" && a != "" && a[0] == b[0] {
      LessIff(a[1..], b[1..]);
      assert a == [a[0]] + a[1..] && b == [b[0]] + b[1..];
      if n: nat :| DiffersAt(a[1..], b[1..], n) {
        assert a[..n + 1] == [a[0]] + a[1..][..n] && b[..n + 1] == [b[0]] + b[1..][..n];
        assert DiffersAt(a, b, n + 1);
      }
      if n: nat :| DiffersAt(a, b, n) {
        assert n > 0;
        assert a[1..][..n - 1] == a[..n][1..] && b[1..][..n - 1] == b[..n][1..];
        assert DiffersAt(a[1..], b[1..], n - 1);
      }
    } else if b != "" {
      assert a[..0] == b[..0];
      assert Less(a, b) ==> DiffersAt(a, b, 0);
      forall n: nat | DiffersAt(a, b, n) ensures n == 0 || (a != "" && a[0] == b[0]) {
        AgreeAtFirst(a, b, n);
      }
    }
  }

  lemma {:induction false} LessTransitive(a: string, b: string, c: string)
    requires Less(a, b) && Less(b, c)
    ensures Less(a, c)
    decreases |a|
  {
    if a != "" && a[0] == b[0] && b[0] == c[0] {
      LessTransitive(a[1..], b[1..], c[1..]);
    }
  }

  /** The white space `strings.TrimSpace` removes. */
  predicate IsSpace(c: char) {
    || c in {' ', '\t', '\n', '\r', '\U{0b}', '\U{0c}', '\U{85}', '\U{a0}'}
    || c in {'\U{1680}', '\U{2028}', '\U{2029}', '\U{202f}', '\U{205f}', '\U{3000}'}
    || '\U{2000}' <= c <= '\U{200a}'
  }

  /** `strings.TrimSpace(s) == ""` */
  predicate Blank(s: string) {
    forall i :: 0 <= i < |s| ==> IsSpace(s[i])
  }

  /** The elements that satisfy `p`, in order. */
  function Keep<T>(s: seq<T>, p: T -> bool): seq<T> {
    if s == [] then []
    else Keep(s[..|s| - 1], p) + if p(s[|s| - 1]) then [s[|s| - 1]] else []
  }

  lemma {:induction false} KeepMembers<T>(s: seq<T>, p: T -> bool)
    ensures forall x :: x in Keep(s, p) <==> x in s && p(x)
    ensures forall i :: 0 <= i < |Keep(s, p)| ==> Keep(s, p)[i] in s
    ensures |Keep(s, p)| <= |s|
    ensures |Keep(s, p)| == |s| ==> Keep(s, p) == s
  {
    if s != [] {
      KeepMembers(s[..|s| - 1], p);
      assert s == s[..|s| - 1] + [s[|s| - 1]];
    }
  }

  lemma {:induction false} KeepEverything<T>(s: seq<T>, p: T -> bool)
    requires forall x :: x in s ==> p(x)
    ensures Keep(s, p) == s
  {
    if s != [] {
      var front, last := s[..|s| - 1], s[|s| - 1];
      assert s == front + [last];
      assert p(last) by {
        assert last in s;
      }
      forall x | x in front ensures p(x) {
        assert x in s;
      }
      KeepEverything(front, p);
    }
  }

  /** Filtering keeps keys distinct. */
  lemma {:induction false} KeepDistinct<T, K>(s: seq<T>, p: T -> bool, key: T -> K)
    requires forall i, j :: 0 <= i < j < |s| ==> key(s[i]) != key(s[j])
    ensures forall i, j :: 0 <= i < j < |Keep(s, p)| ==> key(Keep(s, p)[i]) != key(Keep(s, p)[j])
  {
    if s != [] {
      var front, last := s[..|s| - 1], s[|s| - 1];
      KeepDistinct(front, p, key);
      KeepMembers(front, p);
      var r := Keep(front, p);
      forall i | 0 <= i < |r| ensures key(r[i]) != key(last) {
        assert r[i] in front;
      }
    }
  }

  /** Filtering keeps what holds of every earlier and later element. */
  lemma {:induction false} KeepPairwise<T>(s: seq<T>, p: T -> bool, related: (T, T) -> bool)
    requires forall i, j :: 0 <= i < j < |s| ==> related(s[i], s[j])
    ensures forall i, j :: 0 <= i < j < |Keep(s, p)| ==> related(Keep(s, p)[i], Keep(s, p)[j])
  {
    if s != [] {
      var front, last := s[..|s| - 1], s[|s| - 1];
      KeepPairwise(front, p, related);
      KeepMembers(front, p);
      var r := Keep(front, p);
      forall i | 0 <= i < |r| ensures related(r[i], last) {
        assert r[i] in front;
      }
    }
  }

  /** No value occurs at two positions. */
  ghost predicate Distinct<T(!new)>(s: seq<T>) {
    forall i, j :: 0 <= i < j < |s| ==> s[i] != s[j]
  }
}
