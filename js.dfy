/** JavaScript value conventions shared by the whole model.

    An optional field of a JavaScript object (one that may be `undefined` or
    `null`) is an `Option`; a string is truthy exactly when it is present and
    non-empty; numbers are integers, and `0` is their only falsy value. */
module Js {

  datatype Option<+T> = None | Some(value: T)

  datatype Result<+T, +E> = Ok(value: T) | Err(error: E)

  /** One entry of `Promise.allSettled`: the value of a fulfilled promise, or a rejection. */
  datatype Settled<+T> = Fulfilled(value: T) | Rejected

  /** `r.status === 'fulfilled' ? r.value : fallback`. */
  function SettledOr<T>(r: Settled<T>, fallback: T): T {
    if r.Fulfilled? then r.value else fallback
  }

  /** `Array.isArray(x) ? x.length : 0`, where a value that is not an array is `None`. */
  function LengthOr0<T>(x: Option<seq<T>>): nat {
    if x.Some? then |x.value| else 0
  }

  /** `!!s` for an optional string. */
  predicate Truthy(s: Option<string>) {
    s.Some? && s.value != ""
  }

  /** `a || b` where `a` is an optional string and `b` a string. */
  function OrElse(a: Option<string>, b: string): string {
    if Truthy(a) then a.value else b
  }

  /** `a || b` where `a` is an optional number: `0` falls through like a missing value. */
  function OrNum(a: Option<int>, b: int): int {
    if a.Some? && a.value != 0 then a.value else b
  }

  /** `a ?? b` where `a` is an optional number: only a missing value falls through. */
  function Coalesce(a: Option<int>, b: int): int {
    if a.Some? then a.value else b
  }

  /** `a || b` as a value: `a` when it is truthy, otherwise `b`. */
  function OrOpt(a: Option<string>, b: Option<string>): Option<string> {
    if Truthy(a) then a else b
  }

  function Min(a: int, b: int): int { if a <= b then a else b }

  /** `s.slice(start, end)` for non-negative arguments: both ends are clamped
      to the length, and an empty range gives the empty array. */
  function Slice<T>(s: seq<T>, start: nat, end: nat): (r: seq<T>)
    ensures |r| == if Min(end, |s|) <= Min(start, |s|) then 0 else Min(end, |s|) - Min(start, |s|)
    ensures forall k :: 0 <= k < |r| ==> r[k] == s[start + k]
  {
    var lo := Min(start, |s|);
    var hi := Min(end, |s|);
    if hi <= lo then [] else s[lo..hi]
  }

  /** `s.slice(-n)` for `n > 0`: the last `n` elements, or all of them when there are fewer. */
  function SliceLast<T>(s: seq<T>, n: nat): (r: seq<T>)
    ensures |r| == Min(n, |s|)
    ensures forall k :: 0 <= k < |r| ==> r[k] == s[|s| - |r| + k]
  {
    if |s| <= n then s else s[|s| - n..]
  }

  /** `a` is `b` with some elements dropped and the rest kept in order, as `b.filter(...)` yields. */
  predicate Subsequence<T(==)>(a: seq<T>, b: seq<T>)
    decreases |b|
  {
    a == [] || (b != [] && ((a[0] == b[0] && Subsequence(a[1..], b[1..])) || Subsequence(a, b[1..])))
  }

  /** `s.filter(keep)`: the elements that pass, in their original order. */
  function Filter<T(==)>(s: seq<T>, keep: T -> bool): (r: seq<T>)
    ensures Subsequence(r, s)
    ensures |r| <= |s|
    ensures forall i :: 0 <= i < |r| ==> r[i] in s && keep(r[i])
    ensures forall i :: 0 <= i < |s| && keep(s[i]) ==> s[i] in r
  {
    if s == [] then []
    else
      var rest := Filter(s[1..], keep);
      if keep(s[0]) then
        assert ([s[0]] + rest)[1..] == rest;
        [s[0]] + rest
      else rest
  }

  /** A filter every element passes returns the sequence itself. */
  lemma {:induction false} FilterKeepsAll<T>(s: seq<T>, keep: T -> bool)
    requires forall i :: 0 <= i < |s| ==> keep(s[i])
    ensures Filter(s, keep) == s
  {
    if s != [] {
      FilterKeepsAll(s[1..], keep);
    }
  }

  /** A prefix is a subsequence. */
  lemma {:induction false} PrefixIsSubsequence<T>(s: seq<T>, n: nat)
    requires n <= |s|
    ensures Subsequence(s[..n], s)
    decreases |s|
  {
    if n > 0 {
      PrefixIsSubsequence(s[1..], n - 1);
      assert s[..n][1..] == s[1..][..n - 1];
    }
  }

  /** A subsequence of a subsequence is a subsequence. */
  lemma {:induction false} SubsequenceTrans<T>(a: seq<T>, b: seq<T>, c: seq<T>)
    requires Subsequence(a, b) && Subsequence(b, c)
    ensures Subsequence(a, c)
    decreases |c|
  {
    if a != [] {
      if b[0] == c[0] && Subsequence(b[1..], c[1..]) {
        if a[0] == b[0] && Subsequence(a[1..], b[1..]) {
          SubsequenceTrans(a[1..], b[1..], c[1..]);
        } else {
          SubsequenceTrans(a, b[1..], c[1..]);
        }
      } else {
        SubsequenceTrans(a, b, c[1..]);
      }
    }
  }
}
