/** What the finished blocks are: the nearest-seed decomposition of the graph. */
module Decomposition {
  import opened Sequences
  import opened Graphs
  import opened BlockScan
  import opened SeedPhase
  import opened RoundPhase

  /** v is k edges from its nearest seed, and seed j is the first in seed order
      of those that are k edges away. */
  ghost predicate FirstNearest(g: Graph, seeds: seq<int>, j: nat, k: nat, v: int)
    requires j < |seeds|
  {
    && AtDistance(g, seeds, v, k)
    && v in Ends(g, seeds[j], k)
    && forall i :: 0 <= i < j ==> v !in Ends(g, seeds[i], k)
  }

  /** Where a node other than the block's own seed may stand. A seed that an
      earlier seed touched stays in that block's layer 1. */
  ghost predicate Placed(g: Graph, seeds: seq<int>, table: seq<int>, j: nat, k: nat, v: int)
    requires j < |seeds|
  {
    && 0 <= v < |table|
    && if v in seeds then
         k == 1 && v !in seeds[..j + 1] && FirstTouch(g, seeds, j, v)
       else
         FirstNearest(g, seeds, j, k, v) && table[v] == seeds[j]
  }

  ghost predicate CellShape(seeds: seq<int>, j: nat, b: BlockState)
    requires j < |seeds|
  {
    b.src == seeds[j] && |b.layers| > 0 && b.layers[0] == [seeds[j]] && NoDup(b.Members())
  }

  /** The blocks are the nearest-seed cells, layered by distance. */
  ghost predicate Cells(g: Graph, seeds: seq<int>, n: nat, table: seq<int>, bs: seq<BlockState>)
    requires Input(g, seeds, n)
  {
    && |table| == n && |bs| == |seeds|
    && (forall j :: 0 <= j < |seeds| ==> CellShape(seeds, j, bs[j]))
    && (forall j :: 0 <= j < |seeds| ==> table[seeds[j]] == seeds[j])
    && (forall j, k, v :: 0 <= j < |seeds| && 0 < k < |bs[j].layers| && v in bs[j].layers[k] ==>
          Placed(g, seeds, table, j, k, v))
    && (forall j, v :: 0 <= j < |seeds| && 0 <= v < n && table[v] == seeds[j] ==> v in bs[j].Members())
    && (forall j, q :: 0 <= j < q < |seeds| && FirstTouch(g, seeds, j, seeds[q]) ==> seeds[q] in bs[j].Members())
    && (forall v :: 0 <= v < n ==> (table[v] == UNCLAIMED <==> !Reachable(g, seeds, v)))
    && (forall v :: 0 <= v < n && table[v] != UNCLAIMED ==> table[v] in seeds)
  }

  /** The halo is exactly the outer neighbours of layers 0 to 2, each once, and
      every halo node ends up with another owner. */
  ghost predicate HaloExact(g: Graph, table: seq<int>, b: BlockState) {
    && NoDup(b.halo)
    && (forall x :: x in b.halo <==>
          HasPred(g, b.LayerAt(0) + b.LayerAt(1) + b.LayerAt(2), x) && x !in b.Members())
    && b.seen == SetOf(b.Members()) + SetOf(b.halo)
    && (forall x :: x in b.halo ==> 0 <= x < |table| && table[x] != UNCLAIMED && table[x] != b.src)
  }

  ghost function ReachableSet(g: Graph, seeds: seq<int>, n: nat): set<int> {
    set v | v in Upto(n) && Reachable(g, seeds, v)
  }

  /** Everything the run promises about its result. */
  ghost predicate Decomposed(g: Graph, seeds: seq<int>, n: nat, table: seq<int>, bs: seq<BlockState>)
    requires Input(g, seeds, n)
  {
    && Cells(g, seeds, n, table, bs)
    && (forall j :: 0 <= j < |seeds| ==> HaloExact(g, table, bs[j]))
    && SumSizes(bs) == |ReachableSet(g, seeds, n)| + Reowned(g, seeds, |seeds|)
  }

  lemma {:induction false} MemberPlaced(g: Graph, seeds: seq<int>, n: nat, table: seq<int>, j: nat, k: nat, v: int)
    requires j < |seeds| && k > 0 && MemberOk(g, seeds, table, j, k, v)
    ensures Placed(g, seeds, table, j, k, v)
  {
    EndsInBall(g, seeds, j, k, v);
    DistanceIsShell(g, seeds, v, k);
    if v in seeds {
      forall i | 0 <= i <= j ensures v in Ends(g, seeds[i], 1) <==> v in Adj(g, seeds[i]) {
        HasPredOne(g, seeds[i], v);
        assert Ends(g, seeds[i], 0) == iset{seeds[i]};
      }
    }
  }

  lemma {:induction false} HaloIsExact(g: Graph, table: seq<int>, b: BlockState)
    requires HaloOk(g, table, b) && Scanned(g, b, |b.layers|)
    ensures HaloExact(g, table, b)
  {
    hide Flat, HasPred;
    InnerIsThree(b);
    var three := b.LayerAt(0) + b.LayerAt(1) + b.LayerAt(2);
    forall v ensures v in three <==> v in Nodes(b.Inner()) {
      assert v in b.Inner() <==> v in b.LayerAt(0) || v in b.LayerAt(1) || v in b.LayerAt(2);
    }
    assert three == Nodes(b.Inner());
    forall x | HasPred(g, three, x) && x !in b.Members() ensures x in b.halo {
      var u := PredWitness(g, b.Inner(), x);
      InnerSeen(g, b, u);
      assert x in SetOf(Adj(g, u));
    }
  }

  /** The layers whose neighbours are recorded are layers 0, 1 and 2. */
  lemma {:induction false} InnerIsThree(b: BlockState)
    ensures forall v :: v in b.Inner() <==> v in b.LayerAt(0) || v in b.LayerAt(1) || v in b.LayerAt(2)
  {
    hide Flat;
    var m := if |b.layers| < 3 then |b.layers| else 3;
    forall v ensures v in b.Inner() <==> v in b.LayerAt(0) || v in b.LayerAt(1) || v in b.LayerAt(2) {
      FlatMember(b.layers[..m], v);
      assert forall k :: 0 <= k < m ==> b.layers[..m][k] == b.layers[k];
      if v in b.LayerAt(0) {
        assert v in b.layers[..m][0];
      }
      if v in b.LayerAt(1) {
        assert v in b.layers[..m][1];
      }
      if v in b.LayerAt(2) {
        assert v in b.layers[..m][2];
      }
    }
  }

  lemma {:induction false} InnerSeen(g: Graph, b: BlockState, u: int)
    requires Scanned(g, b, |b.layers|) && u in b.Inner()
    ensures SetOf(Adj(g, u)) <= b.seen
  {
    hide Flat;
    var m := if |b.layers| < HOLO_LAYER then |b.layers| else HOLO_LAYER;
    FlatMember(b.layers[..m], u);
    var k :| 0 <= k < m && u in b.layers[..m][k];
    assert u in b.layers[k];
  }

  /** The end of a round in which no block stayed active. */
  lemma {:induction false} Finished(
      g: Graph, seeds: seq<int>, n: nat, r: nat, table: seq<int>, bs: seq<BlockState>, active: seq<bool>)
    requires Input(g, seeds, n)
    requires RoundInv(g, seeds, n, r, |seeds|, table, bs, active)
    requires forall j :: 0 <= j < |active| ==> !active[j]
    ensures Decomposed(g, seeds, n, table, bs)
  {
    QuietMeansDone(g, seeds, n, r, table, bs, active);
    FinishedCells(g, seeds, n, table, bs);
    FinishedHalos(g, seeds, n, r, table, bs, active);
    RoundHasCommon(g, seeds, n, r, table, bs, active);
    hide RoundInv, LayersOk, HaloOk, Cells, HaloExact, SumSizes, Reowned, Reachable;
    assert Claimed(table) == ReachableSet(g, seeds, n);
  }

  lemma {:induction false} RoundHasCommon(
      g: Graph, seeds: seq<int>, n: nat, r: nat, table: seq<int>, bs: seq<BlockState>, active: seq<bool>)
    requires Input(g, seeds, n)
    requires RoundInv(g, seeds, n, r, |seeds|, table, bs, active)
    ensures Common(g, seeds, n, |seeds|, table, bs)
  {
    hide Common, ClaimedIs, AllScanned, Lengths;
  }

  lemma {:induction false} FinishedHalos(
      g: Graph, seeds: seq<int>, n: nat, r: nat, table: seq<int>, bs: seq<BlockState>, active: seq<bool>)
    requires Input(g, seeds, n)
    requires RoundInv(g, seeds, n, r, |seeds|, table, bs, active)
    requires forall j :: 0 <= j < |active| ==> !active[j]
    ensures |bs| == |seeds| && forall j :: 0 <= j < |seeds| ==> HaloExact(g, table, bs[j])
  {
    hide LayersOk, HaloOk, HaloExact, SumSizes, Reowned, Scanned, ClaimedIs, Ball, Next, Lengths, Claimed, Bounded;
    forall j | 0 <= j < |seeds| ensures HaloExact(g, table, bs[j]) {
      HaloIsExact(g, table, bs[j]);
    }
  }

  lemma {:induction false} FinishedCells(g: Graph, seeds: seq<int>, n: nat, table: seq<int>, bs: seq<BlockState>)
    requires Input(g, seeds, n) && Common(g, seeds, n, |seeds|, table, bs)
    requires forall v :: v in Claimed(table) <==> Reachable(g, seeds, v)
    ensures Cells(g, seeds, n, table, bs)
  {
    hide MemberOk, Placed, FirstTouch, Flat, Reachable, SumSizes, Reowned, HaloOk, Bounded;
    assert seeds[..|seeds|] == seeds;
    forall j | 0 <= j < |seeds| ensures LayersOk(g, seeds, table, j, bs[j]) {
    }
    forall j, k, v | 0 <= j < |seeds| && 0 < k < |bs[j].layers| && v in bs[j].layers[k]
      ensures Placed(g, seeds, table, j, k, v)
    {
      MemberPlaced(g, seeds, n, table, j, k, v);
    }
    forall v | 0 <= v < n ensures table[v] == UNCLAIMED <==> !Reachable(g, seeds, v) {
      assert v in Claimed(table) <==> table[v] != UNCLAIMED;
    }
  }

  // ----- what the result means -----

  /** Where a node belongs, said with walks and seed order alone. */
  ghost predicate Belongs(g: Graph, seeds: seq<int>, j: nat, k: nat, v: int)
    requires j < |seeds|
  {
    if v in seeds then
      k == 1 && v !in seeds[..j + 1] && FirstTouch(g, seeds, j, v)
    else
      FirstNearest(g, seeds, j, k, v)
  }

  lemma {:induction false} MemberBelongs(
      g: Graph, seeds: seq<int>, n: nat, table: seq<int>, bs: seq<BlockState>, j: nat, v: int)
    returns (k: nat)
    requires Input(g, seeds, n) && Cells(g, seeds, n, table, bs)
    requires j < |seeds| && v in bs[j].Members() && v != seeds[j]
    ensures 0 < k < |bs[j].layers| && v in bs[j].layers[k] && Placed(g, seeds, table, j, k, v)
  {
    hide FirstNearest, FirstTouch, Reachable, Flat;
    FlatMember(bs[j].layers, v);
    assert CellShape(seeds, j, bs[j]);
    k :| 0 <= k < |bs[j].layers| && v in bs[j].layers[k];
    assert k > 0;
    assert Placed(g, seeds, table, j, k, v);
  }

  /** The owner of a reachable node that is no seed is the first of its nearest seeds. */
  lemma {:induction false} OwnerIsFirstNearest(
      g: Graph, seeds: seq<int>, n: nat, table: seq<int>, bs: seq<BlockState>, v: int)
    returns (j: nat, k: nat)
    requires Input(g, seeds, n) && Cells(g, seeds, n, table, bs)
    requires 0 <= v < n && v !in seeds && Reachable(g, seeds, v)
    ensures j < |seeds| && table[v] == seeds[j] && FirstNearest(g, seeds, j, k, v)
    ensures 0 < k < |bs[j].layers| && v in bs[j].layers[k]
  {
    hide FirstNearest, FirstTouch, Reachable, Flat, CellShape;
    assert table[v] in seeds;
    j :| 0 <= j < |seeds| && seeds[j] == table[v];
    k := MemberBelongs(g, seeds, n, table, bs, j, v);
  }

  lemma {:induction false} FirstNearestUnique(g: Graph, seeds: seq<int>, v: int, j: nat, k: nat, j': nat, k': nat)
    requires j < |seeds| && j' < |seeds|
    requires FirstNearest(g, seeds, j, k, v) && FirstNearest(g, seeds, j', k', v)
    ensures j == j' && k == k'
  {
    hide Ends;
    DistanceUnique(g, seeds, v, k, k');
  }

  lemma {:induction false} FirstNearestReachable(g: Graph, seeds: seq<int>, v: int, j: nat, k: nat)
    requires j < |seeds| && FirstNearest(g, seeds, j, k, v)
    ensures Reachable(g, seeds, v)
  {
    EndsInBall(g, seeds, j, k, v);
  }

  /** Each layer holds exactly the nodes that belong there. */
  lemma {:induction false} LayersAreCells(
      g: Graph, seeds: seq<int>, n: nat, table: seq<int>, bs: seq<BlockState>, j: nat, k: nat, v: int)
    requires Input(g, seeds, n) && Cells(g, seeds, n, table, bs)
    requires j < |seeds| && k > 0 && 0 <= v < n
    ensures v in bs[j].LayerAt(k) <==> Belongs(g, seeds, j, k, v)
  {
    hide Reachable, Flat, AtDistance, Ends, CellShape;
    if v in bs[j].LayerAt(k) {
      assert Placed(g, seeds, table, j, k, v);
    }
    if Belongs(g, seeds, j, k, v) {
      if v in seeds {
        var q :| 0 <= q < |seeds| && seeds[q] == v;
        assert q > j;
        var k' := MemberBelongs(g, seeds, n, table, bs, j, v);
      } else {
        FirstNearestReachable(g, seeds, v, j, k);
        var j', k' := OwnerIsFirstNearest(g, seeds, n, table, bs, v);
        FirstNearestUnique(g, seeds, v, j, k, j', k');
      }
    }
  }

  /** A reachable node that is no seed stands in one layer of one block, at its
      distance from the nearest seed, and in no other layer of any block. */
  lemma {:induction false} EachNodeOnce(g: Graph, seeds: seq<int>, n: nat, table: seq<int>, bs: seq<BlockState>, v: int)
    returns (j: nat, k: nat)
    requires Input(g, seeds, n) && Cells(g, seeds, n, table, bs)
    requires 0 <= v < n && v !in seeds && Reachable(g, seeds, v)
    ensures j < |seeds| && AtDistance(g, seeds, v, k) && v in Ends(g, seeds[j], k) && table[v] == seeds[j]
    ensures forall j', k' :: 0 <= j' < |seeds| && 0 <= k' < |bs[j'].layers| ==>
              (v in bs[j'].layers[k'] <==> j' == j && k' == k)
  {
    hide Reachable, Flat, AtDistance, Ends;
    j, k := OwnerIsFirstNearest(g, seeds, n, table, bs, v);
    forall j', k' | 0 <= j' < |seeds| && 0 <= k' < |bs[j'].layers|
      ensures v in bs[j'].layers[k'] <==> j' == j && k' == k
    {
      assert CellShape(seeds, j', bs[j']);
      if v in bs[j'].layers[k'] {
        assert k' > 0;
        assert Placed(g, seeds, table, j', k', v);
        FirstNearestUnique(g, seeds, v, j, k, j', k');
      }
    }
  }

  /** The input alone fixes the table and the nodes of every layer. */
  lemma {:induction false} CellsDetermined(g: Graph, seeds: seq<int>, n: nat,
                                           t: seq<int>, bs: seq<BlockState>, t': seq<int>, bs': seq<BlockState>)
    requires Input(g, seeds, n) && Cells(g, seeds, n, t, bs) && Cells(g, seeds, n, t', bs')
    ensures t == t'
    ensures forall j, k, v :: 0 <= j < |seeds| && k > 0 && 0 <= v < n ==>
              (v in bs[j].LayerAt(k) <==> v in bs'[j].LayerAt(k))
  {
    forall v | 0 <= v < n ensures t[v] == t'[v] {
      hide Flat, AtDistance, Ends, CellShape, Placed, FirstTouch;
      if v in seeds {
        var q :| 0 <= q < |seeds| && seeds[q] == v;
        assert t[seeds[q]] == seeds[q] == t'[seeds[q]];
      } else if Reachable(g, seeds, v) {
        var j, k := OwnerIsFirstNearest(g, seeds, n, t, bs, v);
        var j', k' := OwnerIsFirstNearest(g, seeds, n, t', bs', v);
        FirstNearestUnique(g, seeds, v, j, k, j', k');
      }
    }
    forall j, k, v | 0 <= j < |seeds| && k > 0 && 0 <= v < n
      ensures v in bs[j].LayerAt(k) <==> v in bs'[j].LayerAt(k)
    {
      hide *;
      LayersAreCells(g, seeds, n, t, bs, j, k, v);
      LayersAreCells(g, seeds, n, t', bs', j, k, v);
    }
  }

  /** Of two adjacent seeds the second is in two blocks: in the first one's layer 1, and
      in its own layer 0. So the sizes add up to one more than the nodes reached. */
  lemma {:induction false} TwoAdjacentSeeds(n: nat, table: seq<int>, bs: seq<BlockState>)
    requires Input(map[0 := [1], 1 := [0]], [0, 1], n) && Decomposed(map[0 := [1], 1 := [0]], [0, 1], n, table, bs)
    ensures 1 in bs[0].LayerAt(1) && 1 in bs[1].LayerAt(0) && table[1] == 1
    ensures SumSizes(bs) == |ReachableSet(map[0 := [1], 1 := [0]], [0, 1], n)| + 1
  {
    var g: Graph, seeds := map[0 := [1], 1 := [0]], [0, 1];
    hide Reachable, HaloExact, Flat, Placed, AtDistance, SumSizes, Bounded;
    assert FirstTouch(g, seeds, 0, 1) && 1 !in seeds[..1];
    LayersAreCells(g, seeds, n, table, bs, 0, 1, 1);
    assert CellShape(seeds, 1, bs[1]);
    assert table[seeds[1]] == 1;
    assert bs[1].layers[0] == [1];
    assert seeds[..1] == [0] && HasPred(g, Nodes([0]), 1) by {
      assert 0 in Nodes([0]);
    }
    assert seeds[..0] == [] && Reowned(g, seeds, 1) == 0;
    assert Reowned(g, seeds, 2) == 1;
  }

  // ----- a path of six nodes -----

  const PATH: Graph := map[0 := [1], 1 := [0, 2], 2 := [1, 3], 3 := [2, 4], 4 := [3, 5], 5 := [4]]

  lemma {:induction false} PathStep(s: iset<int>, x: int)
    ensures HasPred(PATH, s, x) <==>
            || (x == 0 && 1 in s) || (x == 1 && (0 in s || 2 in s)) || (x == 2 && (1 in s || 3 in s))
            || (x == 3 && (2 in s || 4 in s)) || (x == 4 && (3 in s || 5 in s)) || (x == 5 && 4 in s)
  {
    if u :| u in s && x in Adj(PATH, u) {
      assert 0 <= u <= 5;
    }
    assert forall u :: 0 <= u <= 5 && u in s && x in Adj(PATH, u) ==> HasPred(PATH, s, x);
    assert 1 in Adj(PATH, 0) && 0 in Adj(PATH, 1) && 2 in Adj(PATH, 1) && 1 in Adj(PATH, 2) && 3 in Adj(PATH, 2);
    assert 2 in Adj(PATH, 3) && 4 in Adj(PATH, 3) && 3 in Adj(PATH, 4) && 5 in Adj(PATH, 4) && 4 in Adj(PATH, 5);
  }

  lemma {:induction false} PathEnds()
    ensures forall v :: v in Ends(PATH, 0, 1) <==> v == 1
    ensures forall v :: v in Ends(PATH, 5, 1) <==> v == 4
    ensures forall v :: v in Ends(PATH, 0, 2) <==> v == 0 || v == 2
    ensures forall v :: v in Ends(PATH, 5, 2) <==> v == 3 || v == 5
  {
    assert Ends(PATH, 0, 0) == iset{0} && Ends(PATH, 5, 0) == iset{5};
    forall v ensures v in Ends(PATH, 0, 1) <==> v == 1
             ensures v in Ends(PATH, 5, 1) <==> v == 4 {
      PathStep(Ends(PATH, 0, 0), v);
      PathStep(Ends(PATH, 5, 0), v);
    }
    forall v ensures v in Ends(PATH, 0, 2) <==> v == 0 || v == 2
             ensures v in Ends(PATH, 5, 2) <==> v == 3 || v == 5 {
      PathStep(Ends(PATH, 0, 1), v);
      PathStep(Ends(PATH, 5, 1), v);
    }
  }

  lemma {:induction false} PathDistances(v: int) returns (j: nat, k: nat)
    requires 1 <= v <= 4
    ensures j == (if v <= 2 then 0 else 1) && k == (if v == 1 || v == 4 then 1 else 2)
    ensures FirstNearest(PATH, [0, 5], j, k, v)
  {
    PathEnds();
    j, k := if v <= 2 then 0 else 1, if v == 1 || v == 4 then 1 else 2;
    var seeds := [0, 5];
    assert Ends(PATH, 0, 0) == iset{0} && Ends(PATH, 5, 0) == iset{5};
    hide Ends;
    assert v in Ends(PATH, seeds[j], k);
    forall q, i | 0 <= q < 2 && 0 <= i < k ensures v !in Ends(PATH, seeds[q], i) {
    }
  }

  /** On the path 0-1-2-3-4-5 with the seeds 0 and 5, each block takes the three nodes of its
      half, and its halo is the node of the other half behind its layer 2. */
  lemma {:induction false} PathHalos(table: seq<int>, bs: seq<BlockState>)
    requires Input(PATH, [0, 5], 6) && Decomposed(PATH, [0, 5], 6, table, bs)
    ensures forall v :: v in bs[0].Members() <==> 0 <= v <= 2
    ensures forall v :: v in bs[1].Members() <==> 3 <= v <= 5
    ensures bs[0].halo == [3] && bs[1].halo == [2]
  {
    hide Flat, Bounded, Reachable, SumSizes, Reowned, HasPred, FirstNearest, CellShape, Placed, FirstTouch;
    forall v ensures v in bs[0].Members() <==> 0 <= v <= 2
             ensures v in bs[1].Members() <==> 3 <= v <= 5 {
      PathMember(table, bs, 0, v);
      PathMember(table, bs, 1, v);
    }
    PathHalo(table, bs, 0, 3);
    PathHalo(table, bs, 1, 2);
  }

  /** The nodes nearer to seed j. */
  predicate InHalf(j: nat, v: int) {
    if j == 0 then 0 <= v <= 2 else 3 <= v <= 5
  }

  ghost function FirstThree(b: BlockState): iset<int> {
    b.LayerAt(0) + b.LayerAt(1) + b.LayerAt(2)
  }

  lemma {:induction false} MemberInHalf(table: seq<int>, bs: seq<BlockState>, j: nat, v: int)
    requires Input(PATH, [0, 5], 6) && Cells(PATH, [0, 5], 6, table, bs) && j < 2
    requires v in bs[j].Members()
    ensures InHalf(j, v)
  {
    hide Flat, Bounded, Reachable, FirstNearest, CellShape;
    var seeds := [0, 5];
    if v != seeds[j] {
      var k := MemberBelongs(PATH, seeds, 6, table, bs, j, v);
      if v !in seeds {
        var j', k' := PathDistances(v);
        FirstNearestUnique(PATH, seeds, v, j, k, j', k');
      }
    }
  }

  lemma {:induction false} HalfInLayers(table: seq<int>, bs: seq<BlockState>, j: nat, v: int)
    requires Input(PATH, [0, 5], 6) && Cells(PATH, [0, 5], 6, table, bs) && j < 2
    requires InHalf(j, v)
    ensures v in FirstThree(bs[j])
  {
    hide Flat, Bounded, Reachable, FirstNearest, Placed, FirstTouch;
    var seeds := [0, 5];
    assert CellShape(seeds, j, bs[j]);
    if v == seeds[j] {
      assert v in bs[j].layers[0];
    } else {
      var j', k' := PathDistances(v);
      FirstNearestReachable(PATH, seeds, v, j', k');
      var i, k := OwnerIsFirstNearest(PATH, seeds, 6, table, bs, v);
      FirstNearestUnique(PATH, seeds, v, i, k, j', k');
    }
  }

  lemma {:induction false} ThreeAreMembers(b: BlockState, v: int)
    requires v in FirstThree(b)
    ensures v in b.Members()
  {
    FlatMember(b.layers, v);
    hide Flat;
  }

  lemma {:induction false} PathMember(table: seq<int>, bs: seq<BlockState>, j: nat, v: int)
    requires Input(PATH, [0, 5], 6) && Cells(PATH, [0, 5], 6, table, bs) && j < 2
    ensures v in bs[j].Members() <==> InHalf(j, v)
    ensures v in FirstThree(bs[j]) <==> InHalf(j, v)
  {
    assert |bs| == 2;
    hide *;
    if v in FirstThree(bs[j]) {
      ThreeAreMembers(bs[j], v);
    }
    if v in bs[j].Members() {
      MemberInHalf(table, bs, j, v);
    }
    if InHalf(j, v) {
      HalfInLayers(table, bs, j, v);
      ThreeAreMembers(bs[j], v);
    }
  }

  lemma {:induction false} PathHalo(table: seq<int>, bs: seq<BlockState>, j: nat, x: int)
    requires Input(PATH, [0, 5], 6) && Decomposed(PATH, [0, 5], 6, table, bs) && j < 2
    requires x == if j == 0 then 3 else 2
    ensures bs[j].halo == [x]
  {
    assert HaloExact(PATH, table, bs[j]);
    hide Flat, Bounded, Reachable, SumSizes, Reowned, HasPred, Cells, Decomposed, FirstThree;
    forall u
      ensures u in FirstThree(bs[j]) <==> InHalf(j, u)
      ensures u in bs[j].Members() <==> InHalf(j, u)
    {
      PathMember(table, bs, j, u);
    }
    forall v ensures v in bs[j].halo <==> v == x {
      PathStep(FirstThree(bs[j]), v);
      ThreeLayers(bs[j]);
    }
    OneElement(bs[j].halo, x);
  }

  lemma {:induction false} ThreeLayers(b: BlockState)
    ensures FirstThree(b) == b.LayerAt(0) + b.LayerAt(1) + b.LayerAt(2)
  {
  }

  lemma {:induction false} OneElement(s: seq<int>, x: int)
    requires NoDup(s) && forall v :: v in s <==> v == x
    ensures s == [x]
  {
    assert SetOf(s) == {x};
    NoDupCard(s);
    assert s[0] in s;
  }
}
