/**
 * Generic sequence facts used by intake (the file filter, the media-type
 * pattern) and by export (the completed-item filter).
 */
module Seqs {

  /** The elements of `s` that satisfy `p`, in their original order (JavaScript's `Array.prototype.filter`). */
  function Filter<T>(p: T -> bool, s: seq<T>): (r: seq<T>)
    ensures |r| <= |s|
  {
    if |s| == 0 then [] else (if p(s[0]) then [s[0]] else []) + Filter(p, s[1..])
  }

  /** `idx` lists strictly increasing positions of `s` holding exactly the elements of `r`. */
  ghost predicate EmbedsAt<T>(r: seq<T>, s: seq<T>, idx: seq<nat>)
  {
    |idx| == |r|
    && (forall k :: 0 <= k < |idx| ==> idx[k] < |s| && s[idx[k]] == r[k])
    && (forall k, l :: 0 <= k < l < |idx| ==> idx[k] < idx[l])
  }

  function ShiftAll(idx: seq<nat>): (r: seq<nat>)
    ensures |r| == |idx| && forall k :: 0 <= k < |idx| ==> r[k] == idx[k] + 1
  {
    seq(|idx|, k requires 0 <= k < |idx| => idx[k] + 1)
  }

  /** An embedding into the tail of `s` shifts to an embedding into `s` itself. */
  lemma ShiftEmbedding<T>(r: seq<T>, s: seq<T>, idx: seq<nat>)
    requires |s| > 0 && EmbedsAt(r, s[1..], idx)
    ensures EmbedsAt(r, s, ShiftAll(idx))
    ensures forall k :: 0 <= k < |idx| ==> ShiftAll(idx)[k] > 0
  {
    forall k | 0 <= k < |idx| ensures s[ShiftAll(idx)[k]] == r[k] {
      assert s[1..][idx[k]] == s[idx[k] + 1];
    }
  }

  /** Prepending a kept head element extends an embedding of the tail. */
  lemma ConsEmbedding<T>(r: seq<T>, s: seq<T>, idx: seq<nat>)
    requires |s| > 0 && EmbedsAt(r, s, idx)
    requires forall k :: 0 <= k < |idx| ==> idx[k] > 0
    ensures EmbedsAt([s[0]] + r, s, [0] + idx)
  {
  }

  /**
   * The filter keeps an order-preserving subsequence of its input, and every
   * position it keeps holds an element satisfying `p`.
   */
  lemma {:induction false} FilterEmbedding<T>(p: T -> bool, s: seq<T>) returns (idx: seq<nat>)
    ensures EmbedsAt(Filter(p, s), s, idx)
    ensures forall k :: 0 <= k < |idx| ==> p(s[idx[k]])
  {
    if |s| == 0 {
      return [];
    }
    var tail := Filter(p, s[1..]);
    var rest := FilterEmbedding(p, s[1..]);
    var shifted := ShiftAll(rest);
    ShiftEmbedding(tail, s, rest);
    assert forall k :: 0 <= k < |shifted| ==> p(s[shifted[k]]) by {
      forall k | 0 <= k < |shifted| ensures p(s[shifted[k]]) {
        assert s[1..][rest[k]] == s[shifted[k]];
      }
    }
    if p(s[0]) {
      assert Filter(p, s) == [s[0]] + tail;
      ConsEmbedding(tail, s, shifted);
      idx := [0] + shifted;
      forall k | 0 < k < |idx| ensures p(s[idx[k]]) {
        assert idx[k] == shifted[k - 1];
      }
    } else {
      assert Filter(p, s) == tail;
      idx := shifted;
    }
  }

  /** An element is kept by the filter iff it occurs in the input and satisfies the predicate. */
  lemma {:induction false} FilterMembership<T>(p: T -> bool, s: seq<T>, x: T)
    ensures x in Filter(p, s) <==> x in s && p(x)
  {
    if |s| > 0 {
      FilterMembership(p, s[1..], x);
      assert s == [s[0]] + s[1..];
    }
  }

  /** The filter keeps every satisfying element as often as it occurs, and no other element. */
  lemma {:induction false} FilterMultiplicity<T>(p: T -> bool, s: seq<T>, x: T)
    ensures multiset(Filter(p, s))[x] == if p(x) then multiset(s)[x] else 0
  {
    if |s| > 0 {
      FilterMultiplicity(p, s[1..], x);
      assert s == [s[0]] + s[1..];
      assert multiset(s) == multiset([s[0]]) + multiset(s[1..]);
    }
  }

  /** Filtering distributes over concatenation. */
  lemma {:induction false} FilterAppend<T>(p: T -> bool, a: seq<T>, b: seq<T>)
    ensures Filter(p, a + b) == Filter(p, a) + Filter(p, b)
  {
    if |a| > 0 {
      FilterAppend(p, a[1..], b);
      assert (a + b)[1..] == a[1..] + b;
    } else {
      assert a + b == b;
    }
  }

  /** `sub` occurs in `s` starting at position `k`. */
  ghost predicate OccursAt<T>(s: seq<T>, sub: seq<T>, k: nat)
  {
    k + |sub| <= |s| && s[k..k + |sub|] == sub
  }

  /** `sub` occurs somewhere in `s`: an unanchored search. */
  function Contains<T(==)>(s: seq<T>, sub: seq<T>): (r: bool)
    ensures r <==> exists k: nat :: OccursAt(s, sub, k)
    decreases |s|
  {
    if |sub| > |s| then
      assert forall k: nat :: !OccursAt(s, sub, k);
      false
    else if s[..|sub|] == sub then
      assert OccursAt(s, sub, 0);
      true
    else
      var r := Contains(s[1..], sub);
      assert !OccursAt(s, sub, 0);
      assert forall k: nat :: OccursAt(s[1..], sub, k) <==> OccursAt(s, sub, k + 1) by {
        forall k: nat ensures OccursAt(s[1..], sub, k) <==> OccursAt(s, sub, k + 1) {
          if k + 1 + |sub| <= |s| {
            assert s[1..][k..k + |sub|] == s[k + 1..k + 1 + |sub|];
          }
        }
      }
      assert r ==> exists k: nat :: OccursAt(s, sub, k) by {
        if r {
          var k: nat :| OccursAt(s[1..], sub, k);
          assert OccursAt(s, sub, k + 1);
        }
      }
      assert (exists k: nat :: OccursAt(s, sub, k)) ==> r by {
        if exists k: nat :: OccursAt(s, sub, k) {
          var k: nat :| OccursAt(s, sub, k);
          assert k != 0;
          assert OccursAt(s[1..], sub, k - 1);
        }
      }
      r
  }
}
