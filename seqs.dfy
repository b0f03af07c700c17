/** Sequence helpers shared by the pipeline stages. */
module Seqs {

  predicate StrictlyIncreasing(s: seq<int>) {
    forall i, j :: 0 <= i < j < |s| ==> s[i] < s[j]
  }

  lemma Monotone(s: seq<int>, i: nat, j: nat)
    requires StrictlyIncreasing(s) && i <= j < |s|
    ensures s[i] <= s[j]
  {
  }

  predicate AllBelow(idx: seq<nat>, n: nat) {
    forall k :: 0 <= k < |idx| ==> idx[k] < n
  }

  /** `[x for i, x in enumerate(s) if i in idx]`: the elements of `s` whose
      position is listed in `idx`, in the order of `s`. */
  function Select<T>(s: seq<T>, idx: seq<nat>): (r: seq<T>)
    ensures |r| <= |s|
  {
    if |s| == 0 then []
    else Select(s[..|s| - 1], idx) + (if |s| - 1 in idx then [s[|s| - 1]] else [])
  }

  /** Only membership in `idx` matters to `Select`. */
  lemma {:induction false} SelectSameMembers<T>(s: seq<T>, a: seq<nat>, b: seq<nat>)
    requires forall i :: 0 <= i < |s| ==> (i in a <==> i in b)
    ensures Select(s, a) == Select(s, b)
  {
    if |s| > 0 {
      SelectSameMembers(s[..|s| - 1], a, b);
    }
  }

  /** With an increasing list of valid positions, `Select` picks exactly the
      listed elements, one per position, in the listed order. */
  lemma {:induction false} SelectAt<T>(s: seq<T>, idx: seq<nat>)
    requires StrictlyIncreasing(idx)
    requires AllBelow(idx, |s|)
    ensures |Select(s, idx)| == |idx|
    ensures forall k :: 0 <= k < |idx| ==> Select(s, idx)[k] == s[idx[k]]
  {
    assert |idx| > 0 ==> idx[0] < |s|;
    if |s| > 0 {
      var n := |s| - 1;
      var t := s[..n];
      if n in idx {
        var m := |idx| - 1;
        assert idx[m] == n by {
          var p :| 0 <= p < |idx| && idx[p] == n;
          Monotone(idx, p, m);
        }
        var idx0 := idx[..m];
        forall i | 0 <= i < |t|
          ensures i in idx <==> i in idx0
        {
          if i in idx {
            var p :| 0 <= p < |idx| && idx[p] == i;
            assert p != m;
            assert idx0[p] == i;
          }
        }
        SelectSameMembers(t, idx, idx0);
        SelectAt(t, idx0);
      } else {
        forall k | 0 <= k < |idx|
          ensures idx[k] < n
        {
          assert idx[k] != n;
        }
        SelectAt(t, idx);
      }
    }
  }

  function Sum(c: seq<nat>): nat {
    if |c| == 0 then 0 else Sum(c[..|c| - 1]) + c[|c| - 1]
  }

  function Concat<T>(ss: seq<seq<T>>): seq<T> {
    if |ss| == 0 then [] else Concat(ss[..|ss| - 1]) + ss[|ss| - 1]
  }

  /** `[base + i for i in range(n)]`. */
  function IdRange(base: int, n: nat): (r: seq<int>)
    ensures |r| == n
    ensures forall i :: 0 <= i < n ==> r[i] == base + i
  {
    seq(n, i requires 0 <= i < n => base + i)
  }

  lemma IdRangeAppend(base: int, m: nat, n: nat)
    ensures IdRange(base, m) + IdRange(base + m, n) == IdRange(base, m + n)
  {
  }

  /** Element `c` of the second part of a concatenation. */
  lemma ConcatAt<T>(all: seq<T>, prev: seq<T>, cur: seq<T>, pos: nat, c: nat)
    requires all == prev + cur && c < |cur| && pos == |prev| + c
    ensures pos < |all| && all[pos] == cur[c]
  {
  }

  function Min(a: int, b: int): int {
    if a <= b then a else b
  }
}
