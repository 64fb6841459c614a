/** Adjacency lists, walks and the distance of a node from a list of seeds. */
module Graphs {
  import opened Sequences

  /** `node_map`: a missing key reads as an empty list, as `operator[]` does. */
  type Graph = map<int, seq<int>>

  function Adj(g: Graph, u: int): seq<int> {
    if u in g then g[u] else []
  }

  /** Every edge stays inside 0..n-1. */
  ghost predicate Bounded(g: Graph, n: nat) {
    forall u, i :: 0 <= i < |Adj(g, u)| ==> 0 <= Adj(g, u)[i] < n
  }

  ghost predicate HasPred(g: Graph, s: iset<int>, x: int) {
    exists u {:trigger u in s} :: u in s && x in Adj(g, u)
  }

  /** The end points of the edges that leave `s`. */
  ghost function Next(g: Graph, s: iset<int>): iset<int> {
    iset x | HasPred(g, s, x)
  }

  ghost function Nodes(s: seq<int>): iset<int> {
    iset x | x in s
  }

  /** The end points of the walks of exactly k edges from `s`. */
  ghost function Ends(g: Graph, s: int, k: nat): iset<int> {
    if k == 0 then iset{s} else Next(g, Ends(g, s, k - 1))
  }

  /** The nodes at most k edges away from a set. */
  ghost function Ball(g: Graph, s: iset<int>, k: nat): iset<int> {
    if k == 0 then s else Ball(g, s, k - 1) + Next(g, Ball(g, s, k - 1))
  }

  /** A walk, written out node by node. */
  ghost predicate IsWalk(g: Graph, p: seq<int>) {
    p != [] && forall i :: 0 <= i < |p| - 1 ==> p[i + 1] in Adj(g, p[i])
  }

  ghost predicate WalkOf(g: Graph, p: seq<int>, s: int, v: int, k: nat) {
    IsWalk(g, p) && |p| == k + 1 && p[0] == s && p[k] == v
  }

  /** v is k edges away from its nearest seed. */
  ghost predicate AtDistance(g: Graph, seeds: seq<int>, v: int, k: nat) {
    (exists j :: 0 <= j < |seeds| && v in Ends(g, seeds[j], k)) &&
    forall j, i :: 0 <= j < |seeds| && 0 <= i < k ==> v !in Ends(g, seeds[j], i)
  }

  ghost predicate Reachable(g: Graph, seeds: seq<int>, v: int) {
    exists k: nat :: v in Ball(g, Nodes(seeds), k)
  }

  lemma {:induction false} EndsHaveWalk(g: Graph, s: int, v: int, k: nat) returns (p: seq<int>)
    requires v in Ends(g, s, k)
    ensures WalkOf(g, p, s, v, k)
    decreases k
  {
    if k == 0 {
      p := [s];
    } else {
      assert HasPred(g, Ends(g, s, k - 1), v);
      var u :| u in Ends(g, s, k - 1) && v in Adj(g, u);
      var q := EndsHaveWalk(g, s, u, k - 1);
      p := q + [v];
    }
  }

  lemma {:induction false} WalkEnds(g: Graph, p: seq<int>, s: int, v: int, k: nat)
    requires WalkOf(g, p, s, v, k)
    ensures v in Ends(g, s, k)
    decreases k
  {
    if k > 0 {
      var u := p[k - 1];
      assert p[k - 1 + 1] in Adj(g, u);
      assert WalkOf(g, p[..k], s, u, k - 1) by {
        forall i | 0 <= i < |p[..k]| - 1 ensures p[..k][i + 1] in Adj(g, p[..k][i]) {
          assert p[i + 1] in Adj(g, p[i]);
        }
      }
      WalkEnds(g, p[..k], s, u, k - 1);
      assert HasPred(g, Ends(g, s, k - 1), v);
    }
  }

  /** `Ends` is the set of nodes that some written-out walk ends in. */
  lemma {:induction false} EndsAreWalks(g: Graph, s: int, v: int, k: nat)
    ensures v in Ends(g, s, k) <==> exists p :: WalkOf(g, p, s, v, k)
  {
    if v in Ends(g, s, k) {
      var p := EndsHaveWalk(g, s, v, k);
    }
    if p :| WalkOf(g, p, s, v, k) {
      WalkEnds(g, p, s, v, k);
    }
  }

  lemma {:induction false} BallMonotone(g: Graph, s: iset<int>, j: nat, k: nat, v: int)
    requires j <= k && v in Ball(g, s, j)
    ensures v in Ball(g, s, k)
    decreases k
  {
    if j < k {
      BallMonotone(g, s, j, k - 1, v);
    }
  }

  lemma {:induction false} EndsInBall(g: Graph, seeds: seq<int>, j: nat, k: nat, v: int)
    requires j < |seeds| && v in Ends(g, seeds[j], k)
    ensures v in Ball(g, Nodes(seeds), k)
    decreases k
  {
    if k > 0 {
      assert HasPred(g, Ends(g, seeds[j], k - 1), v);
      var u :| u in Ends(g, seeds[j], k - 1) && v in Adj(g, u);
      EndsInBall(g, seeds, j, k - 1, u);
    }
  }

  lemma {:induction false} BallHasEnds(g: Graph, seeds: seq<int>, v: int, k: nat) returns (j: nat, i: nat)
    requires v in Ball(g, Nodes(seeds), k)
    ensures j < |seeds| && i <= k && v in Ends(g, seeds[j], i)
    decreases k
  {
    if k == 0 {
      j :| 0 <= j < |seeds| && seeds[j] == v;
      i := 0;
    } else if v in Ball(g, Nodes(seeds), k - 1) {
      j, i := BallHasEnds(g, seeds, v, k - 1);
    } else {
      assert HasPred(g, Ball(g, Nodes(seeds), k - 1), v);
      var u :| u in Ball(g, Nodes(seeds), k - 1) && v in Adj(g, u);
      j, i := BallHasEnds(g, seeds, u, k - 1);
      EndsGrow(g, seeds[j], i, u, v);
      i := i + 1;
    }
  }

  lemma {:induction false} EndsGrow(g: Graph, s: int, k: nat, u: int, v: int)
    requires u in Ends(g, s, k) && v in Adj(g, u)
    ensures v in Ends(g, s, k + 1)
  {
    assert HasPred(g, Ends(g, s, k), v);
  }

  lemma {:induction false} EndsPred(g: Graph, s: int, k: nat, v: int) returns (u: int)
    requires v in Ends(g, s, k + 1)
    ensures u in Ends(g, s, k) && v in Adj(g, u)
  {
    assert HasPred(g, Ends(g, s, k), v);
    u :| u in Ends(g, s, k) && v in Adj(g, u);
  }

  lemma {:induction false} BallGrow(g: Graph, s: iset<int>, k: nat, u: int, v: int)
    requires u in Ball(g, s, k) && v in Adj(g, u)
    ensures v in Ball(g, s, k + 1)
  {
    assert HasPred(g, Ball(g, s, k), v);
  }

  lemma {:induction false} BallStep(g: Graph, s: iset<int>, k: nat, v: int)
    ensures v in Ball(g, s, k + 1) <==> v in Ball(g, s, k) || HasPred(g, Ball(g, s, k), v)
  {
  }

  lemma {:induction false} HasPredUnion(g: Graph, a: iset<int>, b: iset<int>, v: int)
    ensures HasPred(g, a + b, v) <==> HasPred(g, a, v) || HasPred(g, b, v)
  {
    if HasPred(g, a, v) {
      var u :| u in a && v in Adj(g, u);
      assert u in a + b;
    }
    if HasPred(g, b, v) {
      var u :| u in b && v in Adj(g, u);
      assert u in a + b;
    }
  }

  lemma {:induction false} HasPredOne(g: Graph, u: int, v: int)
    ensures HasPred(g, iset{u}, v) <==> v in Adj(g, u)
  {
    assert u in iset{u};
  }

  /** The distance, said with written-out walks: one has k edges, none has fewer. */
  lemma {:induction false} DistanceByWalks(g: Graph, seeds: seq<int>, v: int, k: nat)
    ensures AtDistance(g, seeds, v, k) <==>
            (exists j, p :: 0 <= j < |seeds| && WalkOf(g, p, seeds[j], v, k)) &&
            (forall j, p, i: nat :: 0 <= j < |seeds| && WalkOf(g, p, seeds[j], v, i) ==> i >= k)
  {
    hide Ends, WalkOf;
    forall j, i: nat | 0 <= j < |seeds|
      ensures v in Ends(g, seeds[j], i) <==> exists p :: WalkOf(g, p, seeds[j], v, i)
    {
      EndsAreWalks(g, seeds[j], v, i);
    }
    if AtDistance(g, seeds, v, k) {
      var j :| 0 <= j < |seeds| && v in Ends(g, seeds[j], k);
      var q :| WalkOf(g, q, seeds[j], v, k);
      forall j, p, i: nat | 0 <= j < |seeds| && WalkOf(g, p, seeds[j], v, i) ensures i >= k {
        EndsAreWalks(g, seeds[j], v, i);
      }
    } else if j, p :| 0 <= j < |seeds| && WalkOf(g, p, seeds[j], v, k) {
      assert v in Ends(g, seeds[j], k);
      var j', i :| 0 <= j' < |seeds| && 0 <= i < k && v in Ends(g, seeds[j'], i);
      var q :| WalkOf(g, q, seeds[j'], v, i);
    }
  }

  /** The distance is the radius at which the ball first holds the node. */
  lemma {:induction false} DistanceIsShell(g: Graph, seeds: seq<int>, v: int, k: nat)
    ensures AtDistance(g, seeds, v, k) <==>
            v in Ball(g, Nodes(seeds), k) && (k > 0 ==> v !in Ball(g, Nodes(seeds), k - 1))
  {
    var s := Nodes(seeds);
    hide Ends, Ball, Nodes;
    if AtDistance(g, seeds, v, k) {
      var j :| 0 <= j < |seeds| && v in Ends(g, seeds[j], k);
      EndsInBall(g, seeds, j, k, v);
      if k > 0 && v in Ball(g, s, k - 1) {
        var j', i := BallHasEnds(g, seeds, v, k - 1);
        assert false;
      }
    }
    if v in Ball(g, s, k) && (k > 0 ==> v !in Ball(g, s, k - 1)) {
      forall j, i | 0 <= j < |seeds| && 0 <= i < k
        ensures v !in Ends(g, seeds[j], i)
      {
        if v in Ends(g, seeds[j], i) {
          EndsInBall(g, seeds, j, i, v);
          BallMonotone(g, s, i, k - 1, v);
        }
      }
      var j, i := BallHasEnds(g, seeds, v, k);
      assert i == k;
    }
  }

  /** A node is reachable exactly if some walk leads from a seed to it. */
  lemma {:induction false} ReachableByWalks(g: Graph, seeds: seq<int>, v: int)
    ensures Reachable(g, seeds, v) <==>
            exists j, p, k: nat :: 0 <= j < |seeds| && WalkOf(g, p, seeds[j], v, k)
  {
    hide Ends, Ball, WalkOf;
    if k: nat :| v in Ball(g, Nodes(seeds), k) {
      var j, i := BallHasEnds(g, seeds, v, k);
      var p := EndsHaveWalk(g, seeds[j], v, i);
    }
    if j, p, k: nat :| 0 <= j < |seeds| && WalkOf(g, p, seeds[j], v, k) {
      WalkEnds(g, p, seeds[j], v, k);
      EndsInBall(g, seeds, j, k, v);
    }
  }

  lemma {:induction false} DistanceUnique(g: Graph, seeds: seq<int>, v: int, j: nat, k: nat)
    requires AtDistance(g, seeds, v, j) && AtDistance(g, seeds, v, k)
    ensures j == k
  {
  }

  /** Once a ball stops growing it holds everything that can be reached. */
  lemma {:induction false} BallFixpoint(g: Graph, s: iset<int>, r: nat, k: nat)
    requires Next(g, Ball(g, s, r)) <= Ball(g, s, r)
    ensures Ball(g, s, k) <= Ball(g, s, r)
    decreases k
  {
    if k <= r {
      forall v | v in Ball(g, s, k) ensures v in Ball(g, s, r) {
        BallMonotone(g, s, k, r, v);
      }
    } else {
      BallFixpoint(g, s, r, k - 1);
    }
  }
}
