/** The rounds that follow the seed loop. */
module RoundPhase {
  import opened Sequences
  import opened Graphs
  import opened BlockScan
  import opened SeedPhase

  // ----- the rounds -----

  function ScanOf(g: Graph, table: seq<int>, b: BlockState): (sc: Scan)
    requires |b.layers| > 0
    requires InRange(Spread(g, b.layers[|b.layers| - 1]), |table|)
    ensures |sc.table| == |table|
  {
    VisitAll(Scan(table, b.seen, b.halo, []), b.src, |b.layers|, Spread(g, b.layers[|b.layers| - 1]))
  }

  function Grown(b: BlockState, sc: Scan): BlockState {
    BlockState(b.src, if sc.newest == [] then b.layers else b.layers + [sc.newest], sc.seen, sc.halo)
  }

  lemma {:induction false} FrontierMember(bs: seq<BlockState>, r: nat, i: nat, j: nat)
    requires j < i <= |bs|
    ensures bs[j].LayerAt(r) <= Frontier(bs, r, i)
    decreases i
  {
    if j < i - 1 {
      FrontierMember(bs, r, i - 1, j);
    }
  }

  lemma {:induction false} FrontierKept(bs: seq<BlockState>, r: nat, i: nat, j: nat, b: BlockState)
    requires i <= |bs| && j < |bs| && b.LayerAt(r) == bs[j].LayerAt(r)
    ensures Frontier(bs[j := b], r, i) == Frontier(bs, r, i)
    decreases i
  {
    if i > 0 {
      FrontierKept(bs, r, i - 1, j, b);
    }
  }

  lemma {:induction false} SumSizesUpdate(bs: seq<BlockState>, j: nat, b: BlockState)
    requires j < |bs|
    ensures SumSizes(bs[j := b]) == SumSizes(bs) - |bs[j].Members()| + |b.Members()|
    decreases |bs|
  {
    var m := |bs| - 1;
    if j < m {
      SumSizesUpdate(bs[..m], j, b);
      assert bs[j := b][..m] == bs[..m][j := b];
    } else {
      assert bs[j := b][..m] == bs[..m];
    }
  }

  lemma {:induction false} MembersClaimed(
      g: Graph, seeds: seq<int>, n: nat, table: seq<int>, bs: seq<BlockState>, j: nat, v: int)
    requires Input(g, seeds, n) && Common(g, seeds, n, |seeds|, table, bs)
    requires j < |seeds| && v in bs[j].Members()
    ensures 0 <= v < n && table[v] != UNCLAIMED
  {
    FlatMember(bs[j].layers, v);
    assert LayersOk(g, seeds, table, j, bs[j]);
    var k :| 0 <= k < |bs[j].layers| && v in bs[j].layers[k];
    if k > 0 {
      assert MemberOk(g, seeds, table, j, k, v);
      if v in seeds {
        var q :| 0 <= q < |seeds| && seeds[q] == v;
        assert table[seeds[q]] == seeds[q];
      }
    } else {
      assert table[seeds[j]] == seeds[j];
    }
  }

  lemma {:induction false} SeedInBall(g: Graph, seeds: seq<int>, v: int, k: nat)
    requires v in seeds
    ensures v in Ball(g, Nodes(seeds), k)
  {
    assert v in Ball(g, Nodes(seeds), 0);
    BallMonotone(g, Nodes(seeds), 0, k, v);
  }

  lemma {:induction false} ShellRadius(g: Graph, seeds: seq<int>, j: nat, k: nat, r: nat, v: int)
    requires j < |seeds| && k > 0 && r > 0
    requires v in Ends(g, seeds[j], k) && v !in Ball(g, Nodes(seeds), k - 1)
    requires v in Ball(g, Nodes(seeds), r) && v !in Ball(g, Nodes(seeds), r - 1)
    ensures k == r
  {
    hide *;
    EndsInBall(g, seeds, j, k, v);
    if k < r {
      BallMonotone(g, Nodes(seeds), k, r - 1, v);
    } else if r < k {
      BallMonotone(g, Nodes(seeds), r, k - 1, v);
    }
  }

  /** A claimed node r > 0 edges from its nearest seed stands in layer r of the
      block that owns it. */
  lemma {:induction false} ShellOwner(
      g: Graph, seeds: seq<int>, n: nat, table: seq<int>, bs: seq<BlockState>, r: nat, v: int)
    returns (j: nat)
    requires Input(g, seeds, n) && Common(g, seeds, n, |seeds|, table, bs)
    requires r > 0 && v in Ball(g, Nodes(seeds), r) && v !in Ball(g, Nodes(seeds), r - 1)
    requires 0 <= v < n && table[v] != UNCLAIMED
    ensures j < |seeds| && table[v] == seeds[j]
    ensures r < |bs[j].layers| && v in bs[j].layers[r] && MemberOk(g, seeds, table, j, r, v)
  {
    hide Ball, Ends, HaloOk, Claimed, SumSizes, Reowned;
    assert seeds[..|seeds|] == seeds;
    j :| 0 <= j < |seeds| && table[v] == seeds[j];
    var b := bs[j];
    assert LayersOk(g, seeds, table, j, b);
    FlatMember(b.layers, v);
    var k :| 0 <= k < |b.layers| && v in b.layers[k];
    if v in seeds {
      SeedInBall(g, seeds, v, r - 1);
    }
    assert k > 0;
    assert MemberOk(g, seeds, table, j, k, v);
    ShellRadius(g, seeds, j, k, r, v);
  }

  /** A node r+1 edges from an earlier seed, and no nearer to any, has already been
      claimed when block j is scanned. */
  lemma {:induction false} EarlierWouldHaveClaimed(
      g: Graph, seeds: seq<int>, n: nat, r: nat, j: nat, table: seq<int>, bs: seq<BlockState>, i: nat, x: int)
    requires Input(g, seeds, n) && r > 0 && i < j < |seeds|
    requires Common(g, seeds, n, |seeds|, table, bs)
    requires ClaimedIs(table, Ball(g, Nodes(seeds), r) + Next(g, Frontier(bs, r, j)))
    requires x in Ends(g, seeds[i], r + 1) && x !in Ball(g, Nodes(seeds), r)
    ensures x in Claimed(table)
  {
    hide Ball, Ends, HaloOk, SumSizes, Reowned, LayersOk, MemberOk, Frontier;
    var s := Nodes(seeds);
    var w := EndsPred(g, seeds[i], r, x);
    EndsInBall(g, seeds, i, r, w);
    if w in Ball(g, s, r - 1) {
      BallGrow(g, s, r - 1, w, x);
    }
    assert w in Claimed(table);
    var q := OwnerUpTo(g, seeds, n, table, bs, r, w, i);
    FrontierMember(bs, r, j, q);
    assert w in Frontier(bs, r, j);
    assert HasPred(g, Frontier(bs, r, j), x);
  }

  /** The owner of a node comes no later than any seed as near as its own. */
  lemma {:induction false} OwnerUpTo(
      g: Graph, seeds: seq<int>, n: nat, table: seq<int>, bs: seq<BlockState>, r: nat, v: int, i: nat)
    returns (j: nat)
    requires Input(g, seeds, n) && Common(g, seeds, n, |seeds|, table, bs)
    requires r > 0 && v in Ball(g, Nodes(seeds), r) && v !in Ball(g, Nodes(seeds), r - 1)
    requires v in Claimed(table) && i < |seeds| && v in Ends(g, seeds[i], r)
    ensures j <= i && v in bs[j].LayerAt(r)
  {
    hide Ball, Ends, HaloOk, SumSizes, Reowned, LayersOk;
    j := ShellOwner(g, seeds, n, table, bs, r, v);
  }

  /** A node claimed in round r is r+1 edges from its block's seed, from no seed
      fewer, and from no earlier seed as few. */
  lemma {:induction false} NewMember(
      g: Graph, seeds: seq<int>, n: nat, r: nat, j: nat, table: seq<int>, bs: seq<BlockState>,
                  t': seq<int>, u: int, x: int)
    requires Input(g, seeds, n) && r > 0 && j < |seeds|
    requires Common(g, seeds, n, |seeds|, table, bs)
    requires ClaimedIs(table, Ball(g, Nodes(seeds), r) + Next(g, Frontier(bs, r, j)))
    requires |bs[j].layers| == r + 1 && u in bs[j].layers[r] && x in Adj(g, u)
    requires 0 <= x < n == |t'| && table[x] == UNCLAIMED && t'[x] == seeds[j]
    ensures MemberOk(g, seeds, t', j, r + 1, x)
  {
    hide Ball, Ends, HaloOk, SumSizes, Reowned;
    var s := Nodes(seeds);
    assert LayersOk(g, seeds, table, j, bs[j]);
    assert MemberOk(g, seeds, table, j, r, u);
    assert x !in Claimed(table);
    assert x !in Ball(g, s, r);
    EndsGrow(g, seeds[j], r, u, x);
    if x in seeds {
      SeedInBall(g, seeds, x, r);
    }
    forall i | 0 <= i < j ensures x !in Ends(g, seeds[i], r + 1) {
      if x in Ends(g, seeds[i], r + 1) {
        EarlierWouldHaveClaimed(g, seeds, n, r, j, table, bs, i, x);
      }
    }
  }

  lemma {:induction false} ScanOfMeans(g: Graph, n: nat, table: seq<int>, b: BlockState)
    requires Bounded(g, n) && |table| == n && |b.layers| > 0 && b.src != UNCLAIMED
    ensures var xs := Spread(g, b.layers[|b.layers| - 1]);
            && InRange(xs, n)
            && Nodes(xs) == Next(g, Nodes(b.layers[|b.layers| - 1]))
            && ScanMeaning(Scan(table, b.seen, b.halo, []), ScanOf(g, table, b), b.src, |b.layers|, xs)
  {
    var last := b.layers[|b.layers| - 1];
    SpreadBounded(g, last, n);
    SpreadIsNext(g, last);
    ScanMeans(Scan(table, b.seen, b.halo, []), b.src, |b.layers|, Spread(g, last));
  }

  /** What the scan of block j in round r depends on. */
  ghost predicate BeforeScan(g: Graph, seeds: seq<int>, n: nat, r: nat, j: nat, table: seq<int>, bs: seq<BlockState>) {
    && Input(g, seeds, n) && r > 0 && j < |seeds|
    && Common(g, seeds, n, |seeds|, table, bs)
    && ClaimedIs(table, Ball(g, Nodes(seeds), r) + Next(g, Frontier(bs, r, j)))
    && (|bs[j].layers| == r + 1 || (r == 1 && |bs[j].layers| == 1))
  }

  lemma {:induction false} BlockBasics(
      g: Graph, seeds: seq<int>, n: nat, r: nat, j: nat, table: seq<int>, bs: seq<BlockState>)
    requires BeforeScan(g, seeds, n, r, j, table, bs)
    ensures |table| == n && |bs| == |seeds| && bs[j].src == seeds[j] && seeds[j] != UNCLAIMED
    ensures |bs[j].layers| > 0
    ensures InRange(Spread(g, bs[j].layers[|bs[j].layers| - 1]), n)
    ensures Bounded(g, n) && (|bs[j].layers| == r + 1 || (r == 1 && |bs[j].layers| == 1))
  {
    hide Ball, Claimed, SumSizes, Reowned, HaloOk, MemberOk;
    assert LayersOk(g, seeds, table, j, bs[j]);
    SpreadBounded(g, bs[j].layers[|bs[j].layers| - 1], n);
  }

  /** A block whose seed claimed nothing finds nothing in round 1 either. */
  lemma {:induction false} LoneSeedFindsNothing(
      g: Graph, seeds: seq<int>, n: nat, j: nat, table: seq<int>, bs: seq<BlockState>, x: int)
    requires BeforeScan(g, seeds, n, 1, j, table, bs) && |bs[j].layers| == 1
    requires x in Spread(g, bs[j].layers[0])
    ensures x in Claimed(table)
  {
    hide Ball, Claimed, SumSizes, Reowned, HaloOk, MemberOk, Frontier, Spread;
    assert LayersOk(g, seeds, table, j, bs[j]);
    SpreadIsNext(g, [seeds[j]]);
    assert x in Nodes(Spread(g, [seeds[j]]));
    SeedInBall(g, seeds, seeds[j], 0);
    var u :| u in Nodes([seeds[j]]) && x in Adj(g, u);
    BallGrow(g, Nodes(seeds), 0, seeds[j], x);
  }

  /** What the scan of a block gives, in terms of the graph. */
  ghost predicate ScanFacts(g: Graph, n: nat, r: nat, table: seq<int>, b: BlockState, sc: Scan) {
    && |table| == n && |b.layers| > 0 && b.src != UNCLAIMED
    && InRange(Spread(g, b.layers[|b.layers| - 1]), n)
    && ScanMeaning(Scan(table, b.seen, b.halo, []), sc, b.src, |b.layers|, Spread(g, b.layers[|b.layers| - 1]))
    && Evolves(table, sc.table, b.src)
    && (sc.newest != [] ==> |b.layers| == r + 1)
    && (forall x :: x in sc.newest <==>
           HasPred(g, Nodes(b.layers[|b.layers| - 1]), x) && 0 <= x < n && table[x] == UNCLAIMED)
  }

  lemma {:induction false} ScanHasFacts(g: Graph, n: nat, r: nat, table: seq<int>, b: BlockState)
    requires Bounded(g, n) && |table| == n && |b.layers| > 0 && b.src != UNCLAIMED
    requires |b.layers| != r + 1 ==>
               forall x :: x in Spread(g, b.layers[|b.layers| - 1]) ==> x in Claimed(table)
    ensures InRange(Spread(g, b.layers[|b.layers| - 1]), |table|)
    ensures ScanFacts(g, n, r, table, b, ScanOf(g, table, b))
  {
    ScanOfMeans(g, n, table, b);
    hide Spread, ScanOf, Bounded;
    var last := b.layers[|b.layers| - 1];
    var sc := ScanOf(g, table, b);
    forall x ensures x in sc.newest <==> HasPred(g, Nodes(last), x) && 0 <= x < n && table[x] == UNCLAIMED {
      assert x in Nodes(Spread(g, last)) <==> HasPred(g, Nodes(last), x);
    }
    if |b.layers| != r + 1 {
      forall x ensures x !in sc.newest {
        assert x in Nodes(Spread(g, last)) ==> x in Claimed(table);
      }
      if sc.newest != [] {
        NonEmptyHas(sc.newest);
      }
    }
  }

  /** The scan of a block stays inside the table and has these facts. */
  ghost predicate ScanReady(g: Graph, n: nat, r: nat, table: seq<int>, b: BlockState) {
    && |b.layers| > 0
    && InRange(Spread(g, b.layers[|b.layers| - 1]), |table|)
    && ScanFacts(g, n, r, table, b, ScanOf(g, table, b))
  }

  /** The scan of block j in round r is ready. */
  lemma {:induction false} RoundScan(
      g: Graph, seeds: seq<int>, n: nat, r: nat, j: nat, table: seq<int>, bs: seq<BlockState>, b: BlockState)
    requires BeforeScan(g, seeds, n, r, j, table, bs) && bs[j] == b
    ensures b.src == seeds[j] && ScanReady(g, n, r, table, b)
  {
    hide *;
    BlockBasics(g, seeds, n, r, j, table, bs);
    if |b.layers| != r + 1 {
      forall x | x in Spread(g, b.layers[|b.layers| - 1]) ensures x in Claimed(table) {
        LoneSeedFindsNothing(g, seeds, n, j, table, bs, x);
      }
    }
    ScanHasFacts(g, n, r, table, b);
    ReadyMeans(g, n, r, table, b);
  }

  lemma {:induction false} ReadyMeans(g: Graph, n: nat, r: nat, table: seq<int>, b: BlockState)
    requires |b.layers| > 0 && InRange(Spread(g, b.layers[|b.layers| - 1]), |table|)
    requires ScanFacts(g, n, r, table, b, ScanOf(g, table, b))
    ensures ScanReady(g, n, r, table, b)
  {
    hide ScanFacts, ScanOf, Spread;
  }

  lemma {:induction false} GrownMembers(b: BlockState, sc: Scan)
    requires |b.layers| > 0
    ensures Grown(b, sc).Members() == b.Members() + sc.newest
    ensures forall x :: x in b.Inner() ==> x in Grown(b, sc).Inner()
    ensures |b.layers| <= HOLO_LAYER ==> forall x :: x in b.layers[|b.layers| - 1] ==> x in Grown(b, sc).Inner()
  {
    var b' := Grown(b, sc);
    if sc.newest != [] {
      FlatSnoc(b.layers, sc.newest);
    }
    var m := if |b.layers| < HOLO_LAYER then |b.layers| else HOLO_LAYER;
    var m' := if |b'.layers| < HOLO_LAYER then |b'.layers| else HOLO_LAYER;
    assert b.layers[..m] == b'.layers[..m];
    forall x | x in b.Inner() ensures x in b'.Inner() {
      FlatMember(b.layers[..m], x);
      FlatMember(b'.layers[..m'], x);
      var k :| 0 <= k < m && x in b.layers[..m][k];
      assert x in b'.layers[..m'][k];
    }
    forall x | |b.layers| <= HOLO_LAYER && x in b.layers[|b.layers| - 1] ensures x in b.Inner() {
      FlatMember(b.layers[..m], x);
      assert x in b.layers[..m][m - 1];
    }
  }

  lemma {:induction false} GrownLayersOk(
      g: Graph, seeds: seq<int>, n: nat, r: nat, j: nat, table: seq<int>, bs: seq<BlockState>,
                                         b: BlockState, sc: Scan)
    requires BeforeScan(g, seeds, n, r, j, table, bs) && bs[j] == b && b.src == seeds[j]
    requires ScanFacts(g, n, r, table, b, sc)
    ensures LayersOk(g, seeds, sc.table, j, Grown(b, sc))
  {
    hide *;
    NewLayerOk(g, seeds, n, r, j, table, bs, b, sc);
    BlockOf(g, seeds, n, r, j, table, bs, b);
    NewestIsNew(g, seeds, n, r, j, table, bs, b, sc);
    GrownLayers(g, seeds, n, r, table, j, b, sc);
  }

  lemma {:induction false} BlockOf(
      g: Graph, seeds: seq<int>, n: nat, r: nat, j: nat, table: seq<int>, bs: seq<BlockState>, b: BlockState)
    requires BeforeScan(g, seeds, n, r, j, table, bs) && bs[j] == b
    ensures j < |seeds| && LayersOk(g, seeds, table, j, b) && HaloOk(g, table, b)
  {
    hide LayersOk, HaloOk, Ball, ClaimedIs, SumSizes, Reowned;
  }

  lemma {:induction false} NewestIsNew(
      g: Graph, seeds: seq<int>, n: nat, r: nat, j: nat, table: seq<int>, bs: seq<BlockState>,
                                       b: BlockState, sc: Scan)
    requires BeforeScan(g, seeds, n, r, j, table, bs) && bs[j] == b && ScanFacts(g, n, r, table, b, sc)
    ensures forall v :: v in b.Members() ==> v !in sc.newest
  {
    hide Ball, SumSizes, Reowned, HaloOk, LayersOk, Frontier, Spread, Bounded, Flat, HasPred,
         ClaimedIs, Evolves, ScanMeaning;
    forall v | v in b.Members() ensures v !in sc.newest {
      MembersClaimed(g, seeds, n, table, bs, j, v);
    }
  }

  lemma {:induction false} GrownLayers(
      g: Graph, seeds: seq<int>, n: nat, r: nat, table: seq<int>, j: nat, b: BlockState, sc: Scan)
    requires j < |seeds| && LayersOk(g, seeds, table, j, b) && ScanFacts(g, n, r, table, b, sc)
    requires forall v :: v in b.Members() ==> v !in sc.newest
    requires forall x :: x in sc.newest ==> MemberOk(g, seeds, sc.table, j, |b.layers|, x)
    ensures LayersOk(g, seeds, sc.table, j, Grown(b, sc))
  {
    hide MemberOk, Flat, Evolves, HasPred, Spread;
    OldLayersOk(g, seeds, table, sc.table, j, b);
    GrownMembers(b, sc);
    assert NoDup(b.Members());
    assert NoDup(sc.newest);
    assert forall x :: x in b.Members() ==> x !in sc.newest;
    NoDupAppend(b.Members(), sc.newest);
  }

  /** Each node of the new layer, given the old node it was reached from. */
  lemma {:induction false} NewLayerOk(
      g: Graph, seeds: seq<int>, n: nat, r: nat, j: nat, table: seq<int>, bs: seq<BlockState>,
                                      b: BlockState, sc: Scan)
    requires BeforeScan(g, seeds, n, r, j, table, bs) && bs[j] == b && b.src == seeds[j]
    requires ScanFacts(g, n, r, table, b, sc)
    ensures |b.layers| > 0 && forall x :: x in sc.newest ==> MemberOk(g, seeds, sc.table, j, |b.layers|, x)
  {
    hide Ball, Ends, Common, Claimed, ClaimedIs, MemberOk, Frontier, HasPred, Evolves, Spread, Bounded;
    forall x | x in sc.newest ensures MemberOk(g, seeds, sc.table, j, |b.layers|, x) {
      var u := PredWitness(g, b.layers[r], x);
      NewMember(g, seeds, n, r, j, table, bs, sc.table, u, x);
    }
  }

  lemma {:induction false} OldLayersOk(g: Graph, seeds: seq<int>, table: seq<int>, t': seq<int>, j: nat, b: BlockState)
    requires j < |seeds| && seeds[j] != UNCLAIMED && LayersOk(g, seeds, table, j, b) && Evolves(table, t', seeds[j])
    ensures forall k, v :: 0 < k < |b.layers| && v in b.layers[k] ==> MemberOk(g, seeds, t', j, k, v)
  {
    hide Evolves, MemberOk, Flat;
    forall k, v | 0 < k < |b.layers| && v in b.layers[k] ensures MemberOk(g, seeds, t', j, k, v) {
      MemberKept(g, seeds, table, t', j, k, v);
    }
  }

  lemma {:induction false} MemberKept(g: Graph, seeds: seq<int>, t: seq<int>, t': seq<int>, j: nat, k: nat, v: int)
    requires j < |seeds| && k > 0 && seeds[j] != UNCLAIMED
    requires MemberOk(g, seeds, t, j, k, v) && Evolves(t, t', seeds[j])
    ensures MemberOk(g, seeds, t', j, k, v)
  {
    hide Ball, Ends;
  }

  lemma {:induction false} GrownHaloOk(
      g: Graph, seeds: seq<int>, n: nat, r: nat, j: nat, table: seq<int>, b: BlockState, sc: Scan)
    requires j < |seeds| && LayersOk(g, seeds, table, j, b) && HaloOk(g, table, b)
    requires ScanFacts(g, n, r, table, b, sc)
    ensures HaloOk(g, sc.table, Grown(b, sc))
  {
    hide HaloOk, MemberOk, ScanMeaning, Spread, Flat, Evolves, HasPred;
    ScanHalo(g, table, b, sc);
  }

  lemma {:induction false} ScanHalo(g: Graph, table: seq<int>, b: BlockState, sc: Scan)
    requires |b.layers| > 0 && b.src != UNCLAIMED && HaloOk(g, table, b)
    requires InRange(Spread(g, b.layers[|b.layers| - 1]), |table|)
    requires var last := b.layers[|b.layers| - 1];
             ScanMeaning(Scan(table, b.seen, b.halo, []), sc, b.src, |b.layers|, Spread(g, last))
    requires forall v :: 0 <= v < |table| && table[v] == b.src ==> v in b.Members()
    ensures HaloOk(g, sc.table, Grown(b, sc))
  {
    var last := b.layers[|b.layers| - 1];
    var xs := Spread(g, last);
    SpreadIsNext(g, last);
    GrownMembers(b, sc);
    ScanHaloNext(g, table, b, sc);
    hide Flat, Spread, HasPred;
    var b' := Grown(b, sc);
    var more := sc.halo[|b.halo|..];
    assert sc.halo == b.halo + more;
    forall x | x in sc.halo
      ensures x !in b'.Members() && 0 <= x < |table| && sc.table[x] != UNCLAIMED && sc.table[x] != b.src
    {
      assert x in b.halo || x in more;
    }
    forall x | x in b.halo ensures x !in more {
      assert x in b.seen;
    }
    NoDupAppend(b.halo, more);
    forall x ensures x in b'.seen <==> x in SetOf(b'.Members()) + SetOf(b'.halo) {
      assert x in SetOf(xs) <==> x in xs;
    }
  }

  lemma {:induction false} ScanHaloNext(g: Graph, table: seq<int>, b: BlockState, sc: Scan)
    requires |b.layers| > 0
    requires forall x :: x in b.halo ==> x in Next(g, Nodes(b.Inner()))
    requires var last := b.layers[|b.layers| - 1];
             ScanMeaning(Scan(table, b.seen, b.halo, []), sc, b.src, |b.layers|, Spread(g, last))
    ensures forall x :: x in sc.halo ==> x in Next(g, Nodes(Grown(b, sc).Inner()))
  {
    var last := b.layers[|b.layers| - 1];
    var xs := Spread(g, last);
    SpreadIsNext(g, last);
    GrownMembers(b, sc);
    hide Flat, Spread, HasPred;
    var more := sc.halo[|b.halo|..];
    assert sc.halo == b.halo + more;
    var inner, inner' := b.Inner(), Grown(b, sc).Inner();
    assert forall x :: x in inner ==> x in inner';
    assert Nodes(inner) <= Nodes(inner');
    forall x | x in sc.halo ensures x in Next(g, Nodes(inner')) {
      if x in b.halo {
        assert HasPred(g, Nodes(inner), x);
        PredMonotone(g, Nodes(inner), Nodes(inner'), x);
      } else {
        assert x in more;
        assert x in Nodes(xs);
        assert HasPred(g, Nodes(last), x);
        assert Nodes(last) <= Nodes(inner');
        PredMonotone(g, Nodes(last), Nodes(inner'), x);
      }
    }
  }

  lemma {:induction false} PredMonotone(g: Graph, a: iset<int>, b: iset<int>, x: int)
    requires a <= b && HasPred(g, a, x)
    ensures HasPred(g, b, x)
  {
    var u :| u in a && x in Adj(g, u);
    assert u in b;
  }

  lemma {:induction false} GrownClaims(
      g: Graph, seeds: seq<int>, n: nat, r: nat, j: nat, table: seq<int>, bs: seq<BlockState>,
                                       b: BlockState, sc: Scan)
    requires j < |bs| && bs[j] == b && ScanFacts(g, n, r, table, b, sc)
    requires |b.layers| == r + 1 || (r == 1 && |b.layers| == 1)
    requires ClaimedIs(table, Ball(g, Nodes(seeds), r) + Next(g, Frontier(bs, r, j)))
    ensures ClaimedIs(sc.table, Ball(g, Nodes(seeds), r) + Next(g, Frontier(bs[j := Grown(b, sc)], r, j + 1)))
  {
    hide Ball, HasPred, Spread, Evolves;
    var b' := Grown(b, sc);
    var last := b.layers[|b.layers| - 1];
    FrontierKept(bs, r, j, j, b');
    var front := Frontier(bs, r, j);
    assert Frontier(bs[j := b'], r, j + 1) == front + b.LayerAt(r);
    SpreadIsNext(g, last);
    forall x
      ensures x in Claimed(sc.table) <==> x in Ball(g, Nodes(seeds), r) || HasPred(g, front + b.LayerAt(r), x)
    {
      HasPredUnion(g, front, b.LayerAt(r), x);
      assert x in Claimed(table) <==> x in Ball(g, Nodes(seeds), r) + Next(g, front);
      assert x in Claimed(sc.table) <==> x in Claimed(table) || x in sc.newest;
      if |b.layers| == r + 1 {
        assert b.LayerAt(r) == Nodes(last);
        assert HasPred(g, Nodes(last), x) ==> x in Nodes(Spread(g, last));
      } else {
        assert b.LayerAt(r) == iset{};
        NoPred(g, x);
      }
    }
  }

  lemma {:induction false} NoPred(g: Graph, x: int)
    ensures !HasPred(g, iset{}, x)
  {
  }

  lemma {:induction false} ClaimedGrows(g: Graph, n: nat, r: nat, table: seq<int>, b: BlockState, sc: Scan)
    requires ScanFacts(g, n, r, table, b, sc)
    ensures |Claimed(sc.table)| == |Claimed(table)| + |sc.newest|
  {
    hide HasPred, Spread, Evolves;
    NoDupCard(sc.newest);
    assert Claimed(sc.table) == Claimed(table) + SetOf(sc.newest);
    assert Claimed(table) !! SetOf(sc.newest);
  }

  lemma {:induction false} GrownCount(g: Graph, n: nat, r: nat, j: nat, table: seq<int>, bs: seq<BlockState>,
                                      b: BlockState, sc: Scan)
    requires j < |bs| && bs[j] == b && ScanFacts(g, n, r, table, b, sc)
    ensures SumSizes(bs[j := Grown(b, sc)]) - |Claimed(sc.table)| == SumSizes(bs) - |Claimed(table)|
  {
    hide HasPred, Spread, Flat, SumSizes, Evolves, Claimed, ScanMeaning;
    GrownMembers(b, sc);
    SumSizesUpdate(bs, j, Grown(b, sc));
    ClaimedGrows(g, n, r, table, b, sc);
  }

  lemma {:induction false} GrownScanned(g: Graph, n: nat, r: nat, table: seq<int>, b: BlockState, sc: Scan)
    requires ScanFacts(g, n, r, table, b, sc) && Scanned(g, b, |b.layers| - 1)
    ensures Scanned(g, Grown(b, sc), |b.layers|)
  {
    hide HasPred, Evolves;
    var last := b.layers[|b.layers| - 1];
    var b' := Grown(b, sc);
    forall k, u | 0 <= k < |b.layers| && k < HOLO_LAYER && k < |b'.layers| && u in b'.layers[k]
      ensures SetOf(Adj(g, u)) <= b'.seen
    {
      assert b'.layers[k] == b.layers[k];
      if k == |b.layers| - 1 {
        SpreadHolds(g, last, u);
      }
    }
  }

  lemma {:induction false} SpreadHolds(g: Graph, nodes: seq<int>, u: int)
    requires u in nodes
    ensures SetOf(Adj(g, u)) <= SetOf(Spread(g, nodes))
    decreases |nodes|
  {
    var m := |nodes| - 1;
    assert nodes == nodes[..m] + [nodes[m]];
    if u != nodes[m] {
      SpreadHolds(g, nodes[..m], u);
    }
  }

  lemma {:induction false} GrownCommon(
      g: Graph, seeds: seq<int>, n: nat, r: nat, j: nat, table: seq<int>, bs: seq<BlockState>,
                                       b: BlockState, sc: Scan)
    requires BeforeScan(g, seeds, n, r, j, table, bs) && bs[j] == b && b.src == seeds[j]
    requires ScanFacts(g, n, r, table, b, sc)
    ensures Common(g, seeds, n, |seeds|, sc.table, bs[j := Grown(b, sc)])
  {
    hide LayersOk, HaloOk, Ball, ClaimedIs, SumSizes, Reowned, Spread, ScanMeaning, Frontier, Claimed, HasPred;
    var b' := Grown(b, sc);
    BlockOf(g, seeds, n, r, j, table, bs, b);
    GrownLayersOk(g, seeds, n, r, j, table, bs, b, sc);
    GrownHaloOk(g, seeds, n, r, j, table, b, sc);
    GrownCount(g, n, r, j, table, bs, b, sc);
    OthersKept(g, seeds, n, |seeds|, table, bs, sc.table, seeds[j]);
    assert seeds[..|seeds|] == seeds;
    var bs' := bs[j := b'];
    forall i | 0 <= i < |seeds|
      ensures LayersOk(g, seeds, sc.table, i, bs'[i]) && HaloOk(g, sc.table, bs'[i])
    {
      assert i != j ==> seeds[i] != seeds[j] && bs'[i] == bs[i];
    }
    forall i | 0 <= i < |seeds| ensures sc.table[seeds[i]] == seeds[i] {
      assert table[seeds[i]] == seeds[i];
    }
  }

  /** The scan of an active block is in range and has the facts above. */
  lemma {:induction false} RoundReady(
      g: Graph, seeds: seq<int>, n: nat, r: nat, j: nat, table: seq<int>, bs: seq<BlockState>,
                                      active: seq<bool>, b: BlockState)
    requires Input(g, seeds, n) && j < |seeds|
    requires RoundInv(g, seeds, n, r, j, table, bs, active) && active[j] && bs[j] == b
    ensures b.src == seeds[j] && ScanReady(g, n, r, table, b)
  {
    hide LayersOk, HaloOk, Ball, ClaimedIs, SumSizes, Reowned, Spread, ScanMeaning, Frontier,
         Claimed, HasPred, ScanOf, Scanned, Evolves;
    RoundScan(g, seeds, n, r, j, table, bs, b);
  }

  /** Scanning an active block keeps the invariant of the round. */
  lemma {:induction false} RoundStep(
      g: Graph, seeds: seq<int>, n: nat, r: nat, j: nat, table: seq<int>, bs: seq<BlockState>,
                                     active: seq<bool>, b: BlockState, sc: Scan)
    requires Input(g, seeds, n) && j < |seeds|
    requires RoundInv(g, seeds, n, r, j, table, bs, active) && active[j] && bs[j] == b
    requires b.src == seeds[j] && ScanFacts(g, n, r, table, b, sc)
    ensures RoundInv(g, seeds, n, r, j + 1, sc.table, bs[j := Grown(b, sc)], active[j := sc.newest != []])
    ensures |Claimed(sc.table)| == |Claimed(table)| + |sc.newest|
  {
    hide LayersOk, HaloOk, Ball, ClaimedIs, SumSizes, Reowned, Spread, ScanMeaning, Frontier,
         Claimed, HasPred, Scanned, Evolves, Bounded;
    GrownCommon(g, seeds, n, r, j, table, bs, b, sc);
    ClaimedGrows(g, n, r, table, b, sc);
    GrownClaims(g, seeds, n, r, j, table, bs, b, sc);
    GrownLengths(g, n, r, j, table, bs, active, b, sc);
    hide Common, Lengths, AllScanned, ScanFacts, Grown;
  }

  lemma {:induction false} GrownLengths(
      g: Graph, n: nat, r: nat, j: nat, table: seq<int>, bs: seq<BlockState>, active: seq<bool>,
                                        b: BlockState, sc: Scan)
    requires |active| == |bs| && j < |bs| && active[j] && bs[j] == b
    requires ScanFacts(g, n, r, table, b, sc) && AllScanned(g, bs, active) && Lengths(r, j, bs, active)
    ensures var bs', active' := bs[j := Grown(b, sc)], active[j := sc.newest != []];
            AllScanned(g, bs', active') && Lengths(r, j + 1, bs', active')
  {
    GrownScanned(g, n, r, table, b, sc);
    hide Scanned, ScanMeaning, Evolves, HasPred, Spread;
  }

  /** An inactive block is passed over. */
  lemma {:induction false} RoundSkip(
      g: Graph, seeds: seq<int>, n: nat, r: nat, j: nat, table: seq<int>, bs: seq<BlockState>,
                                     active: seq<bool>)
    requires Input(g, seeds, n)
    requires RoundInv(g, seeds, n, r, j, table, bs, active) && j < |seeds| && !active[j]
    ensures RoundInv(g, seeds, n, r, j + 1, table, bs, active)
  {
    hide LayersOk, HaloOk, Ball, SumSizes, Reowned, Claimed, HasPred, Scanned;
    assert bs[j].LayerAt(r) == iset{};
    assert Frontier(bs, r, j + 1) == Frontier(bs, r, j);
  }

  lemma {:induction false} FrontierInBall(
      g: Graph, seeds: seq<int>, n: nat, table: seq<int>, bs: seq<BlockState>, r: nat, i: nat, u: int)
    requires Input(g, seeds, n) && Common(g, seeds, n, |seeds|, table, bs)
    requires r > 0 && i <= |seeds| && u in Frontier(bs, r, i)
    ensures u in Ball(g, Nodes(seeds), r)
    decreases i
  {
    hide Ball, HaloOk, SumSizes, Reowned, Claimed, Ends, Flat;
    if u in Frontier(bs, r, i - 1) {
      FrontierInBall(g, seeds, n, table, bs, r, i - 1, u);
    } else {
      assert LayersOk(g, seeds, table, i - 1, bs[i - 1]);
      assert u in bs[i - 1].layers[r];
      assert MemberOk(g, seeds, table, i - 1, r, u);
      EndsInBall(g, seeds, i - 1, r, u);
    }
  }

  lemma {:induction false} ShellInFrontier(
      g: Graph, seeds: seq<int>, n: nat, table: seq<int>, bs: seq<BlockState>, r: nat, u: int)
    requires Input(g, seeds, n) && Common(g, seeds, n, |seeds|, table, bs)
    requires r > 0 && u in Claimed(table)
    requires u in Ball(g, Nodes(seeds), r) && u !in Ball(g, Nodes(seeds), r - 1)
    ensures u in Frontier(bs, r, |seeds|)
  {
    var q := ShellOwner(g, seeds, n, table, bs, r, u);
    hide Ball, HaloOk, LayersOk, SumSizes, Reowned, Claimed, Ends, Frontier, MemberOk;
    FrontierMember(bs, r, |seeds|, q);
    assert u in bs[q].LayerAt(r);
  }

  /** A whole round moves the claimed nodes out by one edge. */
  lemma {:induction false} RoundReaches(g: Graph, seeds: seq<int>, n: nat, r: nat, table: seq<int>, bs: seq<BlockState>)
    requires Input(g, seeds, n) && Common(g, seeds, n, |seeds|, table, bs) && r > 0
    requires ClaimedIs(table, Ball(g, Nodes(seeds), r) + Next(g, Frontier(bs, r, |seeds|)))
    ensures ClaimedIs(table, Ball(g, Nodes(seeds), r + 1))
  {
    hide Ball, LayersOk, HaloOk, SumSizes, Reowned, Claimed, Frontier, HasPred, Bounded;
    var s := Nodes(seeds);
    var front := Frontier(bs, r, |seeds|);
    forall x ensures x in Claimed(table) <==> x in Ball(g, s, r + 1) {
      assert x in Claimed(table) <==> x in Ball(g, s, r) || HasPred(g, front, x);
      BallStep(g, s, r, x);
      if HasPred(g, front, x) {
        var u := PredOf(g, front, x);
        FrontierInBall(g, seeds, n, table, bs, r, |seeds|, u);
        BallGrow(g, s, r, u, x);
      }
      if x !in Ball(g, s, r) && HasPred(g, Ball(g, s, r), x) {
        var u := PredOf(g, Ball(g, s, r), x);
        if u in Ball(g, s, r - 1) {
          BallGrow(g, s, r - 1, u, x);
        }
        assert u in Claimed(table);
        ShellInFrontier(g, seeds, n, table, bs, r, u);
        PredIs(g, front, u, x);
      }
    }
  }

  lemma {:induction false} PredOf(g: Graph, s: iset<int>, x: int) returns (u: int)
    requires HasPred(g, s, x)
    ensures u in s && x in Adj(g, u)
  {
    u :| u in s && x in Adj(g, u);
  }

  lemma {:induction false} PredIs(g: Graph, s: iset<int>, u: int, x: int)
    requires u in s && x in Adj(g, u)
    ensures HasPred(g, s, x)
  {
  }

  /** The end of a round is the start of the next. */
  lemma {:induction false} RoundEnd(
      g: Graph, seeds: seq<int>, n: nat, r: nat, table: seq<int>, bs: seq<BlockState>, active: seq<bool>)
    requires Input(g, seeds, n)
    requires RoundInv(g, seeds, n, r, |seeds|, table, bs, active)
    ensures RoundInv(g, seeds, n, r + 1, 0, table, bs, active)
    ensures ClaimedIs(table, Ball(g, Nodes(seeds), r + 1))
  {
    hide Ball, LayersOk, HaloOk, SumSizes, Reowned, Claimed, HasPred, Bounded, Scanned;
    RoundReaches(g, seeds, n, r, table, bs);
    forall x ensures x !in Next(g, iset{}) {
      NoPred(g, x);
    }
  }

  /** If no block is active after a round, nothing further can be reached. */
  lemma {:induction false} QuietMeansDone(
      g: Graph, seeds: seq<int>, n: nat, r: nat, table: seq<int>, bs: seq<BlockState>, active: seq<bool>)
    requires Input(g, seeds, n)
    requires RoundInv(g, seeds, n, r, |seeds|, table, bs, active)
    requires forall j :: 0 <= j < |active| ==> !active[j]
    ensures forall v :: v in Claimed(table) <==> Reachable(g, seeds, v)
  {
    hide Ball, LayersOk, HaloOk, SumSizes, Reowned, Claimed, HasPred, Bounded, Scanned, Frontier, Ends, MemberOk;
    RoundEnd(g, seeds, n, r, table, bs, active);
    var s := Nodes(seeds);
    forall x | HasPred(g, Ball(g, s, r), x) ensures x in Ball(g, s, r) {
      BallStep(g, s, r, x);
      assert x in Claimed(table);
      NoShell(g, seeds, n, table, bs, r + 1, x);
    }
    forall v ensures v in Claimed(table) <==> Reachable(g, seeds, v) {
      if k: nat :| v in Ball(g, s, k) {
        BallFixpoint(g, s, r, k);
        BallStep(g, s, r, v);
      }
    }
  }

  lemma {:induction false} NoShell(
      g: Graph, seeds: seq<int>, n: nat, table: seq<int>, bs: seq<BlockState>, r: nat, v: int)
    requires Input(g, seeds, n) && Common(g, seeds, n, |seeds|, table, bs)
    requires r > 0 && v in Claimed(table) && v in Ball(g, Nodes(seeds), r)
    requires forall j :: 0 <= j < |bs| ==> |bs[j].layers| <= r
    ensures v in Ball(g, Nodes(seeds), r - 1)
  {
    hide Ball, Ends, HaloOk, SumSizes, Reowned, LayersOk;
    if v !in Ball(g, Nodes(seeds), r - 1) {
      var j := ShellOwner(g, seeds, n, table, bs, r, v);
    }
  }
}
