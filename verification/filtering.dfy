/**
 * `Array.prototype.filter` on a snapshot of an array: a new sequence
 * holding, in their original order, the elements the callback accepts.
 * The input is never changed (sequences are values).
 */
module Filtering {

  /** `s.filter(keep)`. */
  function Keep<T>(s: seq<T>, keep: T -> bool): (r: seq<T>)
    ensures |r| <= |s|
    ensures forall x :: x in r ==> x in s && keep(x)
    decreases |s|
  {
    if s == [] then [] else (if keep(s[0]) then [s[0]] else []) + Keep(s[1..], keep)
  }

  /** Positions are strictly increasing: an order-preserving selection. */
  predicate Increasing(idx: seq<nat>) {
    forall j, k :: 0 <= j < k < |idx| ==> idx[j] < idx[k]
  }

  /** Every position moved one to the right. */
  function Shift(idx: seq<nat>): (r: seq<nat>)
    ensures |r| == |idx|
    ensures forall j :: 0 <= j < |idx| ==> r[j] == idx[j] + 1
    ensures Increasing(idx) ==> Increasing(r)
    ensures forall k: nat :: k + 1 in r <==> k in idx
    ensures 0 !in r
  {
    var r := seq(|idx|, j requires 0 <= j < |idx| => idx[j] + 1);
    assert forall k: nat :: k in idx ==> k + 1 in r by {
      forall k: nat | k in idx ensures k + 1 in r {
        var j :| 0 <= j < |idx| && idx[j] == k;
        assert r[j] == k + 1;
      }
    }
    r
  }

  /**
   * `Keep(s, keep)` is exactly the subsequence of `s` at the positions
   * whose element is accepted: `idx` lists those positions in order.
   */
  lemma {:induction false} KeepIndices<T>(s: seq<T>, keep: T -> bool) returns (idx: seq<nat>)
    ensures |idx| == |Keep(s, keep)| && Increasing(idx)
    ensures forall j :: 0 <= j < |idx| ==> idx[j] < |s| && Keep(s, keep)[j] == s[idx[j]]
    ensures forall k :: 0 <= k < |s| ==> (keep(s[k]) <==> k in idx)
    decreases |s|
  {
    if s == [] {
      idx := [];
    } else {
      var rest := KeepIndices(s[1..], keep);
      var shifted := Shift(rest);
      idx := if keep(s[0]) then [0] + shifted else shifted;
      KeepIndicesStep(s, keep, rest, idx);
    }
  }

  /** The inductive step of `KeepIndices`: prepend the head's position, if kept. */
  lemma KeepIndicesStep<T>(s: seq<T>, keep: T -> bool, rest: seq<nat>, idx: seq<nat>)
    requires s != []
    requires |rest| == |Keep(s[1..], keep)| && Increasing(rest)
    requires forall j :: 0 <= j < |rest| ==> rest[j] < |s| - 1 && Keep(s[1..], keep)[j] == s[1..][rest[j]]
    requires forall k :: 0 <= k < |s| - 1 ==> (keep(s[1..][k]) <==> k in rest)
    requires idx == if keep(s[0]) then [0] + Shift(rest) else Shift(rest)
    ensures |idx| == |Keep(s, keep)| && Increasing(idx)
    ensures forall j :: 0 <= j < |idx| ==> idx[j] < |s| && Keep(s, keep)[j] == s[idx[j]]
    ensures forall k :: 0 <= k < |s| ==> (keep(s[k]) <==> k in idx)
  {
    StepOrder(rest, idx, keep(s[0]));
    StepElements(s, keep, rest, idx);
    StepMembers(s, keep, rest, idx);
  }

  /** Prepending position 0 to shifted positions keeps them increasing. */
  lemma StepOrder(rest: seq<nat>, idx: seq<nat>, head: bool)
    requires Increasing(rest)
    requires idx == if head then [0] + Shift(rest) else Shift(rest)
    ensures Increasing(idx)
  {
    if head {
      var shifted := Shift(rest);
      forall j, k | 0 <= j < k < |idx| ensures idx[j] < idx[k] {
        if j > 0 {
          assert idx[j] == shifted[j - 1] && idx[k] == shifted[k - 1];
        } else {
          assert idx[k] == shifted[k - 1];
        }
      }
    }
  }

  /** The selected positions name the filtered elements. */
  lemma StepElements<T>(s: seq<T>, keep: T -> bool, rest: seq<nat>, idx: seq<nat>)
    requires s != []
    requires |rest| == |Keep(s[1..], keep)|
    requires forall j :: 0 <= j < |rest| ==> rest[j] < |s| - 1 && Keep(s[1..], keep)[j] == s[1..][rest[j]]
    requires idx == if keep(s[0]) then [0] + Shift(rest) else Shift(rest)
    ensures |idx| == |Keep(s, keep)|
    ensures forall j :: 0 <= j < |idx| ==> idx[j] < |s| && Keep(s, keep)[j] == s[idx[j]]
  {
    if keep(s[0]) {
      KeptHead(s, keep, rest, idx);
    } else {
      DroppedHead(s, keep, rest, idx);
    }
  }

  /** `StepElements` when the head is kept: position 0, then the shifted tail positions. */
  lemma KeptHead<T>(s: seq<T>, keep: T -> bool, rest: seq<nat>, idx: seq<nat>)
    requires s != [] && keep(s[0])
    requires |rest| == |Keep(s[1..], keep)|
    requires forall j :: 0 <= j < |rest| ==> rest[j] < |s| - 1 && Keep(s[1..], keep)[j] == s[1..][rest[j]]
    requires idx == [0] + Shift(rest)
    ensures |idx| == |Keep(s, keep)|
    ensures forall j :: 0 <= j < |idx| ==> idx[j] < |s| && Keep(s, keep)[j] == s[idx[j]]
  {
    var r := Keep(s, keep);
    var tail := Keep(s[1..], keep);
    assert r == [s[0]] + tail;
    forall j | 0 <= j < |idx| ensures idx[j] < |s| && r[j] == s[idx[j]] {
      if j > 0 {
        var i := rest[j - 1];
        assert idx[j] == i + 1;
        assert r[j] == tail[j - 1] == s[1..][i] == s[i + 1];
      }
    }
  }

  /** `StepElements` when the head is dropped: only the shifted tail positions. */
  lemma DroppedHead<T>(s: seq<T>, keep: T -> bool, rest: seq<nat>, idx: seq<nat>)
    requires s != [] && !keep(s[0])
    requires |rest| == |Keep(s[1..], keep)|
    requires forall j :: 0 <= j < |rest| ==> rest[j] < |s| - 1 && Keep(s[1..], keep)[j] == s[1..][rest[j]]
    requires idx == Shift(rest)
    ensures |idx| == |Keep(s, keep)|
    ensures forall j :: 0 <= j < |idx| ==> idx[j] < |s| && Keep(s, keep)[j] == s[idx[j]]
  {
    var r := Keep(s, keep);
    assert r == Keep(s[1..], keep);
    forall j | 0 <= j < |idx| ensures idx[j] < |s| && r[j] == s[idx[j]] {
      var i := rest[j];
      assert idx[j] == i + 1;
      assert r[j] == s[1..][i] == s[i + 1];
    }
  }

  /** A position is selected exactly when its element is accepted. */
  lemma StepMembers<T>(s: seq<T>, keep: T -> bool, rest: seq<nat>, idx: seq<nat>)
    requires s != []
    requires forall k :: 0 <= k < |s| - 1 ==> (keep(s[1..][k]) <==> k in rest)
    requires idx == if keep(s[0]) then [0] + Shift(rest) else Shift(rest)
    ensures forall k :: 0 <= k < |s| ==> (keep(s[k]) <==> k in idx)
  {
    var shifted := Shift(rest);
    forall k | 0 <= k < |s| ensures keep(s[k]) <==> k in idx {
      if k > 0 {
        assert s[k] == s[1..][k - 1];
        assert k in idx <==> (k - 1) + 1 in shifted;
      }
    }
  }

  /** Every accepted element of `s` survives the filter. */
  lemma {:induction false} KeepComplete<T>(s: seq<T>, keep: T -> bool, x: T)
    requires x in s && keep(x)
    ensures x in Keep(s, keep)
    decreases |s|
  {
    if s[0] != x {
      KeepComplete(s[1..], keep, x);
    }
  }

  /** Filtering distributes over concatenation. */
  lemma {:induction false} KeepAppend<T>(a: seq<T>, b: seq<T>, keep: T -> bool)
    ensures Keep(a + b, keep) == Keep(a, keep) + Keep(b, keep)
    decreases |a|
  {
    if a == [] {
      assert a + b == b;
    } else {
      assert (a + b)[1..] == a[1..] + b;
      KeepAppend(a[1..], b, keep);
    }
  }

  /** When every element is accepted the filter returns the whole input, in order. */
  lemma {:induction false} KeepAll<T>(s: seq<T>, keep: T -> bool)
    requires forall x :: x in s ==> keep(x)
    ensures Keep(s, keep) == s
    decreases |s|
  {
    if s != [] {
      KeepAll(s[1..], keep);
    }
  }

  /** When no element is accepted the filter returns nothing. */
  lemma {:induction false} KeepNone<T>(s: seq<T>, keep: T -> bool)
    requires forall x :: x in s ==> !keep(x)
    ensures Keep(s, keep) == []
    decreases |s|
  {
    if s != [] {
      KeepNone(s[1..], keep);
    }
  }

  /** Two callbacks that agree on every element give the same result. */
  lemma {:induction false} KeepCongruent<T>(s: seq<T>, p: T -> bool, q: T -> bool)
    requires forall x :: x in s ==> p(x) == q(x)
    ensures Keep(s, p) == Keep(s, q)
    decreases |s|
  {
    if s != [] {
      KeepCongruent(s[1..], p, q);
    }
  }

  /** Filtering by `p` and then by `q` is filtering once by their conjunction `pq`. */
  lemma {:induction false} KeepThenKeep<T>(s: seq<T>, p: T -> bool, q: T -> bool, pq: T -> bool)
    requires forall x :: x in s ==> pq(x) == (p(x) && q(x))
    ensures Keep(Keep(s, p), q) == Keep(s, pq)
    decreases |s|
  {
    if s != [] {
      KeepThenKeep(s[1..], p, q, pq);
      var rest := Keep(s[1..], p);
      if p(s[0]) {
        assert Keep(s, p) == [s[0]] + rest;
        assert Keep([s[0]] + rest, q) == (if q(s[0]) then [s[0]] else []) + Keep(rest, q) by {
          assert ([s[0]] + rest)[1..] == rest;
        }
      } else {
        assert Keep(s, p) == rest;
      }
    }
  }

  /**
   * When `a` and `b` split the elements `p` accepts into two disjoint
   * groups, the two filtered results together are as long as the whole.
   */
  lemma {:induction false} KeepSplit<T>(s: seq<T>, p: T -> bool, a: T -> bool, b: T -> bool)
    requires forall x :: x in s ==> (p(x) <==> a(x) || b(x)) && !(a(x) && b(x))
    ensures |Keep(s, p)| == |Keep(s, a)| + |Keep(s, b)|
    decreases |s|
  {
    if s != [] {
      KeepSplit(s[1..], p, a, b);
    }
  }
}
