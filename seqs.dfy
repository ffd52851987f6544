/** The array methods the storefront uses on its lists: `find`, `filter` and
    `slice(0, k)`. */
module Seqs {
  import opened Common

  /** Position of the first element satisfying `p` (what `find` stops at). */
  function FirstIndex<T>(s: seq<T>, p: T -> bool): (r: Option<nat>)
    ensures r.Some? ==> r.value < |s| && p(s[r.value]) && forall j :: 0 <= j < r.value ==> !p(s[j])
    ensures r.None? ==> forall j :: 0 <= j < |s| ==> !p(s[j])
  {
    if s == [] then None
    else if p(s[0]) then Some(0)
    else match FirstIndex(s[1..], p)
      case None => None
      case Some(k) => Some(k + 1)
  }

  /** `s.find(p)`: the first element satisfying `p`, or `undefined`. */
  function Find<T>(s: seq<T>, p: T -> bool): (r: Option<T>)
    ensures r.None? <==> forall j :: 0 <= j < |s| ==> !p(s[j])
    ensures r.Some? ==> exists i :: 0 <= i < |s| && s[i] == r.value && p(s[i]) && forall j :: 0 <= j < i ==> !p(s[j])
  {
    match FirstIndex(s, p)
    case None => None
    case Some(i) => Some(s[i])
  }

  /** `s.filter(p)`: the elements satisfying `p`, in their order in `s`. */
  function Filter<T>(s: seq<T>, p: T -> bool): (r: seq<T>)
    ensures |r| <= |s|
    ensures forall i :: 0 <= i < |r| ==> r[i] in s && p(r[i])
    ensures forall i :: 0 <= i < |s| && p(s[i]) ==> s[i] in r
  {
    if s == [] then [] else (if p(s[0]) then [s[0]] else []) + Filter(s[1..], p)
  }

  /** Filtering distributes over concatenation, so it keeps relative order. */
  lemma {:induction false} FilterAppend<T>(a: seq<T>, b: seq<T>, p: T -> bool)
    ensures Filter(a + b, p) == Filter(a, p) + Filter(b, p)
  {
    if a == [] {
      assert a + b == b;
    } else {
      var head := if p(a[0]) then [a[0]] else [];
      assert (a + b)[0] == a[0];
      assert (a + b)[1..] == a[1..] + b;
      FilterAppend(a[1..], b, p);
      calc {
        Filter(a + b, p);
        head + Filter(a[1..] + b, p);
        head + (Filter(a[1..], p) + Filter(b, p));
        (head + Filter(a[1..], p)) + Filter(b, p);
      }
    }
  }

  /** Filtering keeps every copy of a kept value and no copy of a dropped one. */
  lemma {:induction false} FilterCounts<T>(s: seq<T>, p: T -> bool, x: T)
    ensures multiset(Filter(s, p))[x] == if p(x) then multiset(s)[x] else 0
  {
    if s != [] {
      assert s == [s[0]] + s[1..];
      FilterCounts(s[1..], p, x);
    }
  }

  /** A filter that rejects some element returns a shorter list. */
  lemma {:induction false} FilterDropsRejected<T>(s: seq<T>, p: T -> bool, i: nat)
    requires i < |s| && !p(s[i])
    ensures |Filter(s, p)| < |s|
  {
    if i > 0 {
      assert s[1..][i - 1] == s[i];
      FilterDropsRejected(s[1..], p, i - 1);
    }
  }

  /** `idx` lists, in increasing order, the positions of `s` that `r` takes
      its elements from. */
  predicate Embeds<T(==)>(r: seq<T>, s: seq<T>, idx: seq<nat>) {
    |idx| == |r| &&
    (forall k :: 0 <= k < |idx| ==> idx[k] < |s| && r[k] == s[idx[k]]) &&
    (forall k, l :: 0 <= k < l < |idx| ==> idx[k] < idx[l])
  }

  /** Positions into the tail of `s` are positions into `s`, one further on. */
  lemma EmbedsInTail<T>(r: seq<T>, s: seq<T>, idx: seq<nat>) returns (shifted: seq<nat>)
    requires s != [] && Embeds(r, s[1..], idx)
    ensures Embeds(r, s, shifted)
    ensures forall k :: 0 <= k < |shifted| ==> shifted[k] == idx[k] + 1 > 0
  {
    shifted := seq(|idx|, k requires 0 <= k < |idx| => idx[k] + 1);
    forall k | 0 <= k < |shifted|
      ensures shifted[k] < |s| && r[k] == s[shifted[k]]
    {
      assert s[1..][idx[k]] == s[idx[k] + 1];
    }
  }

  /** An embedding that avoids position 0 extends by the head of `s`. */
  lemma EmbedsWithHead<T>(r: seq<T>, s: seq<T>, idx: seq<nat>)
    requires s != [] && Embeds(r, s, idx)
    requires forall k :: 0 <= k < |idx| ==> idx[k] > 0
    ensures Embeds([s[0]] + r, s, [0] + idx)
  {
    var r' := [s[0]] + r;
    var idx' := [0] + idx;
    forall k | 0 <= k < |idx'|
      ensures idx'[k] < |s| && r'[k] == s[idx'[k]]
    {
      if k > 0 {
        assert idx'[k] == idx[k - 1] && r'[k] == r[k - 1];
      }
    }
  }

  /** Filtering keeps the relative order of what it keeps: the result is a
      subsequence of the input. */
  lemma {:induction false} FilterKeepsOrder<T>(s: seq<T>, p: T -> bool)
    ensures exists idx :: Embeds(Filter(s, p), s, idx)
  {
    if s == [] {
      assert Embeds(Filter(s, p), s, []);
    } else {
      FilterKeepsOrder(s[1..], p);
      var tail := Filter(s[1..], p);
      var rest :| Embeds(tail, s[1..], rest);
      var shifted := EmbedsInTail(tail, s, rest);
      if p(s[0]) {
        EmbedsWithHead(tail, s, shifted);
        assert Filter(s, p) == [s[0]] + tail;
        assert Embeds(Filter(s, p), s, [0] + shifted);
      } else {
        assert Embeds(Filter(s, p), s, shifted);
      }
    }
  }

  /** A filter that rejects nothing returns the list unchanged. */
  lemma {:induction false} FilterKeepsAll<T>(s: seq<T>, p: T -> bool)
    requires forall i :: 0 <= i < |s| ==> p(s[i])
    ensures Filter(s, p) == s
  {
    if s != [] {
      FilterKeepsAll(s[1..], p);
    }
  }

  /** `s.slice(0, k)`: the first `k` elements, or all of them when fewer. */
  function Take<T>(s: seq<T>, k: nat): (r: seq<T>)
    ensures |r| == if k < |s| then k else |s|
    ensures forall i :: 0 <= i < |r| ==> r[i] == s[i]
  {
    if k < |s| then s[..k] else s
  }

  /** Taking the first `k` matches skips no match unless `k` of them were
      already taken. */
  lemma TakeFilterSkipsOnlyAtLimit<T>(s: seq<T>, p: T -> bool, k: nat, x: T)
    requires x in s && p(x)
    requires x !in Take(Filter(s, p), k)
    ensures |Take(Filter(s, p), k)| == k
  {
  }

  /** The first `k` elements satisfying `p`, by walking `s` from the front. */
  function FirstMatches<T>(s: seq<T>, p: T -> bool, k: nat): seq<T> {
    if s == [] || k == 0 then []
    else if p(s[0]) then [s[0]] + FirstMatches(s[1..], p, k - 1)
    else FirstMatches(s[1..], p, k)
  }

  /** `filter(p).slice(0, k)` is the walk that stops after `k` matches. */
  lemma {:induction false} TakeFilterIsFirstMatches<T>(s: seq<T>, p: T -> bool, k: nat)
    ensures Take(Filter(s, p), k) == FirstMatches(s, p, k)
  {
    if s != [] && k != 0 {
      var rest := Filter(s[1..], p);
      if p(s[0]) {
        TakeFilterIsFirstMatches(s[1..], p, k - 1);
        assert Filter(s, p) == [s[0]] + rest;
        assert Take([s[0]] + rest, k) == [s[0]] + Take(rest, k - 1);
      } else {
        TakeFilterIsFirstMatches(s[1..], p, k);
        assert Filter(s, p) == rest;
      }
    }
  }

  /** The walk takes its elements from increasing positions `idx` of `s`, and
      every match it leaves out sits after all of them. */
  lemma {:induction false} FirstMatchesInOrder<T>(s: seq<T>, p: T -> bool, k: nat) returns (idx: seq<nat>)
    ensures Embeds(FirstMatches(s, p, k), s, idx)
    ensures forall j :: 0 <= j < |s| && p(s[j]) && s[j] !in FirstMatches(s, p, k) ==>
              forall m :: 0 <= m < |idx| ==> idx[m] < j
  {
    if s == [] || k == 0 {
      idx := [];
    } else {
      var tail := s[1..];
      var k' := if p(s[0]) then k - 1 else k;
      var r' := FirstMatches(tail, p, k');
      var rest := FirstMatchesInOrder(tail, p, k');
      var shifted := EmbedsInTail(r', s, rest);
      if p(s[0]) {
        EmbedsWithHead(r', s, shifted);
        idx := [0] + shifted;
      } else {
        idx := shifted;
      }
      var r := FirstMatches(s, p, k);
      forall j | 0 <= j < |s| && p(s[j]) && s[j] !in r
        ensures forall m :: 0 <= m < |idx| ==> idx[m] < j
      {
        assert j != 0 by {
          assert p(s[0]) ==> r[0] == s[0];
        }
        assert tail[j - 1] == s[j];
        assert s[j] !in r' by {
          assert p(s[0]) ==> r == [s[0]] + r';
        }
        assert forall x :: 0 <= x < |rest| ==> rest[x] < j - 1;
        forall m | 0 <= m < |idx|
          ensures idx[m] < j
        {
          if p(s[0]) && m > 0 {
            assert idx[m] == shifted[m - 1] == rest[m - 1] + 1;
          } else if !p(s[0]) {
            assert idx[m] == rest[m] + 1;
          }
        }
      }
    }
  }

  /** `filter(p).slice(0, k)` takes the first `k` matches in order: its
      elements sit at increasing positions of `s`, and every match it leaves
      out sits after all of them. */
  lemma TakeFilterKeepsOrder<T>(s: seq<T>, p: T -> bool, k: nat)
    ensures exists idx ::
      && Embeds(Take(Filter(s, p), k), s, idx)
      && forall j :: 0 <= j < |s| && p(s[j]) && s[j] !in Take(Filter(s, p), k) ==>
           forall m :: 0 <= m < |idx| ==> idx[m] < j
  {
    TakeFilterIsFirstMatches(s, p, k);
    var idx := FirstMatchesInOrder(s, p, k);
    assert Embeds(Take(Filter(s, p), k), s, idx);
  }
}
