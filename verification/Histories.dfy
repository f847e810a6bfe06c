/** Histories of granted requests, as nondecreasing sequences of instants. */
module Histories {

  ghost predicate Ordered(h: seq<real>) {
    forall i, j :: 0 <= i < j < |h| ==> h[i] <= h[j]
  }

  /** The instants strictly after the cut-off, in order. */
  function Later(h: seq<real>, cutoff: real): seq<real> {
    if h == [] then []
    else (if h[0] > cutoff then [h[0]] else []) + Later(h[1..], cutoff)
  }

  lemma {:induction false} LaterAppends(h: seq<real>, t: real, cutoff: real)
    ensures Later(h + [t], cutoff) == Later(h, cutoff) + (if t > cutoff then [t] else [])
  {
    if h == [] {
      assert h + [t] == [t];
    } else {
      assert (h + [t])[1..] == h[1..] + [t];
      LaterAppends(h[1..], t, cutoff);
    }
  }

  /** Dropping early what a later cut-off drops anyway loses nothing. */
  lemma {:induction false} LaterAgain(h: seq<real>, first: real, second: real)
    requires first <= second
    ensures Later(Later(h, first), second) == Later(h, second)
  {
    if h != [] {
      LaterAgain(h[1..], first, second);
      if h[0] > first {
        assert Later(h, first) == [h[0]] + Later(h[1..], first);
        assert Later(h, first)[1..] == Later(h[1..], first);
      } else {
        assert Later(h, first) == Later(h[1..], first);
      }
    }
  }

  /** In an ordered history, the instants after the cut-off are a suffix of it. */
  lemma {:induction false} LaterIsSuffix(h: seq<real>, cutoff: real)
    requires Ordered(h)
    ensures |Later(h, cutoff)| <= |h| && Later(h, cutoff) == h[|h| - |Later(h, cutoff)|..]
    ensures forall i :: 0 <= i < |h| ==> (h[i] > cutoff <==> i >= |h| - |Later(h, cutoff)|)
  {
    if h != [] {
      LaterIsSuffix(h[1..], cutoff);
      if h[0] > cutoff {
        assert |Later(h[1..], cutoff)| == |h| - 1 by {
          if |h| > 1 {
            assert h[1..][0] > cutoff;
          }
        }
        assert Later(h, cutoff) == h;
      }
    }
  }

  function Closed(lo: real, hi: real): real -> bool {
    t => lo <= t <= hi
  }

  function LeftOpen(lo: real, hi: real): real -> bool {
    t => lo < t <= hi
  }

  function RightOpen(lo: real, hi: real): real -> bool {
    t => lo <= t < hi
  }

  /** How many instants of the history satisfy `p`. */
  function CountIf(h: seq<real>, p: real -> bool): nat {
    if h == [] then 0
    else CountIf(h[..|h| - 1], p) + (if p(h[|h| - 1]) then 1 else 0)
  }

  lemma {:induction false} CountFromIndex(h: seq<real>, p: real -> bool, k: nat)
    requires k <= |h| && forall i :: 0 <= i < k ==> !p(h[i])
    ensures CountIf(h, p) <= |h| - k
  {
    if k < |h| {
      CountFromIndex(h[..|h| - 1], p, k);
    } else if h != [] {
      CountFromIndex(h[..|h| - 1], p, k - 1);
    }
  }

  /** If instants satisfying `p` always stand less than `n` places apart, there are at most `n`. */
  lemma {:induction false} CountFits(h: seq<real>, p: real -> bool, n: nat)
    requires forall i, j :: 0 <= i < j < |h| && p(h[i]) && p(h[j]) ==> j - i < n
    requires n > 0
    ensures CountIf(h, p) <= n
  {
    if h != [] {
      if p(h[|h| - 1]) {
        CountFromIndex(h, p, if |h| >= n then |h| - n else 0);
      } else {
        CountFits(h[..|h| - 1], p, n);
      }
    }
  }

  /** If `p` holds of a suffix, at least `n` instants satisfy it exactly if the n-th from the end does. */
  lemma {:induction false} CountReaches(h: seq<real>, p: real -> bool, n: nat)
    requires n > 0 && forall i, j :: 0 <= i <= j < |h| && p(h[i]) ==> p(h[j])
    ensures CountIf(h, p) >= n <==> |h| >= n && p(h[|h| - n])
  {
    if h != [] && p(h[|h| - 1]) {
      if n > 1 {
        CountReaches(h[..|h| - 1], p, n - 1);
      }
    } else {
      CountFromIndex(h, p, |h|);
    }
  }
}
