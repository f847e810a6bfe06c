/** Directed graphs given as finite relations, walks over them, and the facts about
    walks that the breadth-first searches of the system share. */
module Graphs {

  type Relation = set<(string, string)>

  ghost predicate IsWalk(rel: Relation, w: seq<string>) {
    |w| > 0 && forall i :: 0 <= i < |w| - 1 ==> (w[i], w[i + 1]) in rel
  }

  ghost predicate Joins(rel: Relation, w: seq<string>, s: string, t: string) {
    IsWalk(rel, w) && w[0] == s && w[|w| - 1] == t
  }

  ghost predicate Reaches(rel: Relation, s: string, t: string) {
    exists w :: Joins(rel, w, s, t)
  }

  /** A walk of at most `hops` edges leads from `s` to `t`. */
  ghost predicate ReachesWithin(rel: Relation, s: string, t: string, hops: int) {
    exists w :: Joins(rel, w, s, t) && |w| - 1 <= hops
  }

  function Endpoints(rel: Relation): set<string> {
    (set p | p in rel :: p.0) + (set p | p in rel :: p.1)
  }

  lemma WalkExtends(rel: Relation, w: seq<string>, s: string, u: string, v: string)
    requires Joins(rel, w, s, u) && (u, v) in rel
    ensures Joins(rel, w + [v], s, v)
  {
    var w' := w + [v];
    forall i | 0 <= i < |w'| - 1
      ensures (w'[i], w'[i + 1]) in rel
    {
      if i == |w| - 1 {
        assert w'[i] == u;
      }
    }
  }

  lemma ReachesSelf(rel: Relation, s: string)
    ensures Reaches(rel, s, s)
  {
    assert Joins(rel, [s], s, s);
  }

  lemma ReachesStep(rel: Relation, s: string, u: string, v: string)
    requires Reaches(rel, s, u) && (u, v) in rel
    ensures Reaches(rel, s, v)
  {
    var w :| Joins(rel, w, s, u);
    WalkExtends(rel, w, s, u, v);
  }

  /** A set closed under the relation that holds the start of a walk holds its end. */
  lemma {:induction false} ClosedSetHoldsWalk(rel: Relation, closed: set<string>, w: seq<string>)
    requires IsWalk(rel, w) && w[0] in closed
    requires forall p :: p in rel && p.0 in closed ==> p.1 in closed
    ensures w[|w| - 1] in closed
    decreases |w|
  {
    if |w| > 1 {
      assert (w[0], w[1]) in rel;
      ClosedSetHoldsWalk(rel, closed, w[1..]);
    }
  }

  /** What a breadth-first search keeps about the nodes it has expanded: each successor
      has been found, at most one hop further out. */
  ghost predicate Expanded(rel: Relation, level: map<string, nat>, done: set<string>) {
    forall p :: p in rel && p.0 in done && p.0 in level ==> p.1 in level && level[p.1] <= level[p.0] + 1
  }

  /** If every found node below `bound` has been expanded, a walk of at most `bound` hops
      from the root ends in a found node, whose level is at most the walk's length. */
  lemma {:induction false} WalkFollowsLevels(
    rel: Relation, level: map<string, nat>, done: set<string>, bound: nat, w: seq<string>)
    requires Expanded(rel, level, done)
    requires forall v :: v in level && level[v] < bound ==> v in done
    requires IsWalk(rel, w) && |w| - 1 <= bound
    requires w[0] in level && level[w[0]] == 0
    ensures w[|w| - 1] in level && level[w[|w| - 1]] <= |w| - 1
    decreases |w|
  {
    if |w| > 1 {
      var prefix := w[..|w| - 1];
      assert IsWalk(rel, prefix);
      WalkFollowsLevels(rel, level, done, bound, prefix);
      assert (w[|w| - 2], w[|w| - 1]) in rel;
    }
  }

  /** A breadth-first queue: nodes with the hop number at which they were found. */
  datatype Found = Found(node: string, level: nat)

  type Queue = seq<Found>

  ghost function Waiting(q: Queue): set<string> {
    set i | 0 <= i < |q| :: q[i].node
  }

  /** Queued nodes carry their level, in order, spanning at most two consecutive levels. */
  ghost predicate InOrder(q: Queue, level: map<string, nat>) {
    && (forall i :: 0 <= i < |q| ==> q[i].node in level && level[q[i].node] == q[i].level)
    && (forall i, j :: 0 <= i < j < |q| ==> q[i].level <= q[j].level <= q[i].level + 1)
  }

  /** The invariant of a breadth-first search cut off at `depth`: expanded nodes are closed
      up to one hop, and every other found node is waiting or at the cut-off. */
  ghost predicate Frontier(
    rel: Relation, root: string, depth: nat, q: Queue, level: map<string, nat>, done: set<string>)
  {
    && root in level && level[root] == 0 && done <= level.Keys
    && InOrder(q, level)
    && Expanded(rel, level, done)
    && (forall v :: v in level && v !in done && v !in Waiting(q) ==> level[v] >= depth)
    && (q != [] ==> forall v :: v in level ==> level[v] <= q[0].level + 1)
  }

  /** While the node at level `h` is expanded: what is newly found waits at level `h + 1`. */
  ghost predicate Growing(h: nat, rest: Queue, q: Queue, level0: map<string, nat>, level: map<string, nat>) {
    && InOrder(q, level)
    && Waiting(rest) <= Waiting(q)
    && (forall i :: 0 <= i < |q| ==> h <= q[i].level <= h + 1)
    && (forall v :: v in level0 ==> v in level && level[v] == level0[v])
    && (forall v :: v in level && v !in level0 ==> v in Waiting(q))
    && (forall v :: v in level ==> level[v] <= h + 1)
  }

  lemma FrontierStarts(rel: Relation, root: string, depth: nat)
    ensures Frontier(rel, root, depth, [Found(root, 0)], map[root := 0], {})
  {
    assert Found(root, 0) in [Found(root, 0)];
  }

  lemma WaitingPop(q: Queue)
    requires q != []
    ensures Waiting(q) == {q[0].node} + Waiting(q[1..])
  {
    forall i | 0 < i < |q|
      ensures q[i].node in Waiting(q[1..])
    {
      assert q[i] == q[1..][i - 1];
    }
  }

  lemma WaitingPush(q: Queue, e: Found)
    ensures Waiting(q + [e]) == Waiting(q) + {e.node}
  {
    var q' := q + [e];
    assert q'[|q|] == e;
    forall i | 0 <= i < |q|
      ensures q[i].node in Waiting(q')
    {
      assert q'[i] == q[i];
    }
  }

  lemma FrontierHead(
    rel: Relation, root: string, depth: nat, q: Queue, level: map<string, nat>, done: set<string>)
    requires q != [] && Frontier(rel, root, depth, q, level, done)
    ensures q[0].node in level && level[q[0].node] == q[0].level
    ensures Waiting(q) == {q[0].node} + Waiting(q[1..])
    ensures Growing(q[0].level, q[1..], q[1..], level, level)
    ensures q[0].level <= depth ==> forall v :: v in level && level[v] < q[0].level ==> v in done
    ensures q[0].level >= depth ==> Frontier(rel, root, depth, q[1..], level, done)
  {
    hide Expanded;
    WaitingPop(q);
    forall v | v in level && level[v] < q[0].level <= depth
      ensures v in done
    {
      if v in Waiting(q) {
        var i :| 0 <= i < |q| && q[i].node == v;
      }
    }
  }

  lemma InOrderAppended(h: nat, q: Queue, level: map<string, nat>, v: string)
    requires InOrder(q, level) && v !in level && forall i :: 0 <= i < |q| ==> h <= q[i].level <= h + 1
    ensures InOrder(q + [Found(v, h + 1)], level[v := h + 1])
  {
  }

  lemma GrowsByOne(h: nat, rest: Queue, q: Queue, level0: map<string, nat>, level: map<string, nat>, v: string)
    requires Growing(h, rest, q, level0, level) && v !in level
    ensures Growing(h, rest, q + [Found(v, h + 1)], level0, level[v := h + 1])
  {
    InOrderAppended(h, q, level, v);
    WaitingPush(q, Found(v, h + 1));
    hide InOrder, Waiting;
  }

  lemma FrontierAdvances(
    rel: Relation, root: string, depth: nat, before: Queue, q: Queue,
    level0: map<string, nat>, level: map<string, nat>, done: set<string>)
    requires before != [] && Frontier(rel, root, depth, before, level0, done)
    requires Growing(before[0].level, before[1..], q, level0, level)
    requires forall p :: p in rel && p.0 == before[0].node ==> p.1 in level
    ensures Frontier(rel, root, depth, q, level, done + {before[0].node})
  {
    FrontierHead(rel, root, depth, before, level0, done);
    hide InOrder, Waiting;
    var done' := done + {before[0].node};
    forall v | v in level && v !in done' && v !in Waiting(q)
      ensures level[v] >= depth
    {
      assert v in level0 && v !in Waiting(before);
    }
    forall p | p in rel && p.0 in done' && p.0 in level
      ensures p.1 in level && level[p.1] <= level[p.0] + 1
    {
      assert level[p.0] == level0[p.0];
    }
  }

  /** While the target is unfound and all nodes below `bound` are expanded, no walk of at
      most `bound` hops joins the root to it. */
  lemma ShorterWalksMiss(
    rel: Relation, level: map<string, nat>, done: set<string>, bound: nat, root: string, t: string)
    requires Expanded(rel, level, done)
    requires forall v :: v in level && level[v] < bound ==> v in done
    requires root in level && level[root] == 0 && t !in level
    ensures forall w :: Joins(rel, w, root, t) ==> |w| - 1 > bound
  {
    forall w | Joins(rel, w, root, t)
      ensures |w| - 1 > bound
    {
      if |w| - 1 <= bound {
        WalkFollowsLevels(rel, level, done, bound, w);
      }
    }
  }
}
