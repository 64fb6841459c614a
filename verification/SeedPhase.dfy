/** The invariant that the growing of all blocks keeps, and the seed loop. */
module SeedPhase {
  import opened Sequences
  import opened Graphs
  import opened BlockScan

  // ----- the invariant of the whole run -----

  ghost predicate Input(g: Graph, seeds: seq<int>, n: nat) {
    && Bounded(g, n)
    && NoDup(seeds)
    && forall j :: 0 <= j < |seeds| ==> 0 <= seeds[j] < n
  }

  ghost function Claimed(table: seq<int>): set<int> {
    set v | v in Upto(|table|) && table[v] != UNCLAIMED
  }

  ghost predicate ClaimedIs(table: seq<int>, s: iset<int>) {
    forall v :: v in Claimed(table) <==> v in s
  }

  /** What it takes for v to stand in layer k of the block of seed j (k > 0). The
      block is the first in seed order among those whose seed is k edges away. */
  ghost predicate MemberOk(g: Graph, seeds: seq<int>, table: seq<int>, j: nat, k: nat, v: int)
    requires j < |seeds| && k > 0
  {
    && 0 <= v < |table|
    && v in Ends(g, seeds[j], k)
    && (forall i :: 0 <= i < j ==> v !in Ends(g, seeds[i], k))
    && (v in seeds ==> k == 1 && v !in seeds[..j + 1])
    && (v !in seeds ==> table[v] == seeds[j] && v !in Ball(g, Nodes(seeds), k - 1))
  }

  ghost predicate LayersOk(g: Graph, seeds: seq<int>, table: seq<int>, j: nat, b: BlockState)
    requires j < |seeds|
  {
    && b.src == seeds[j]
    && |b.layers| > 0 && b.layers[0] == [seeds[j]]
    && (forall k :: 0 <= k < |b.layers| ==> b.layers[k] != [])
    && NoDup(b.Members())
    && (forall k, v :: 0 < k < |b.layers| && v in b.layers[k] ==> MemberOk(g, seeds, table, j, k, v))
    && (forall v :: 0 <= v < |table| && table[v] == b.src ==> v in b.Members())
    && (forall q :: j < q < |seeds| && FirstTouch(g, seeds, j, seeds[q]) ==> seeds[q] in b.Members())
  }

  /** Seed j is the first in seed order to have v among its neighbours. */
  ghost predicate FirstTouch(g: Graph, seeds: seq<int>, j: nat, v: int)
    requires j < |seeds|
  {
    v in Adj(g, seeds[j]) && forall i :: 0 <= i < j ==> v !in Adj(g, seeds[i])
  }

  ghost predicate HaloOk(g: Graph, table: seq<int>, b: BlockState) {
    && b.seen == SetOf(b.Members()) + SetOf(b.halo)
    && (forall x :: x in b.halo ==> x !in b.Members())
    && NoDup(b.halo)
    && (forall x :: x in b.halo ==> 0 <= x < |table| && table[x] != UNCLAIMED && table[x] != b.src)
    && (forall x :: x in b.halo ==> x in Next(g, Nodes(b.Inner())))
  }

  /** The first e layers have been scanned, and those among layers 0 to 2 left
      no neighbour unseen. */
  ghost predicate Scanned(g: Graph, b: BlockState, e: int) {
    forall k, u :: 0 <= k < e && k < HOLO_LAYER && k < |b.layers| && u in b.layers[k] ==> SetOf(Adj(g, u)) <= b.seen
  }

  ghost function SumSizes(bs: seq<BlockState>): nat {
    if bs == [] then 0 else SumSizes(bs[..|bs| - 1]) + |bs[|bs| - 1].Members()|
  }

  /** How many of the first m seeds are neighbours of an earlier seed. */
  ghost function Reowned(g: Graph, seeds: seq<int>, m: nat): nat
    requires m <= |seeds|
  {
    if m == 0 then 0
    else Reowned(g, seeds, m - 1) + if seeds[m - 1] in Next(g, Nodes(seeds[..m - 1])) then 1 else 0
  }

  /** What holds at every point of the run. */
  ghost predicate Common(g: Graph, seeds: seq<int>, n: nat, m: nat, table: seq<int>, bs: seq<BlockState>)
    requires Input(g, seeds, n) && m <= |seeds|
  {
    && |table| == n && |bs| == m
    && (forall j :: 0 <= j < m ==> LayersOk(g, seeds, table, j, bs[j]) && HaloOk(g, table, bs[j]))
    && (forall j :: 0 <= j < m ==> table[seeds[j]] == seeds[j])
    && (forall v :: 0 <= v < n && table[v] != UNCLAIMED ==> table[v] in seeds[..m])
    && SumSizes(bs) == |Claimed(table)| + Reowned(g, seeds, m)
  }

  /** After the first m seeds have claimed their neighbours. */
  ghost predicate SeedInv(g: Graph, seeds: seq<int>, n: nat, m: nat, table: seq<int>, bs: seq<BlockState>)
    requires Input(g, seeds, n) && m <= |seeds|
  {
    && Common(g, seeds, n, m, table, bs)
    && ClaimedIs(table, Ball(g, Nodes(seeds[..m]), 1))
    && forall j :: 0 <= j < m ==> |bs[j].layers| <= 2 && Scanned(g, bs[j], 1)
  }

  /** The nodes of layer r of the first i blocks. */
  ghost function Frontier(bs: seq<BlockState>, r: nat, i: nat): iset<int>
    requires i <= |bs|
  {
    if i == 0 then iset{} else Frontier(bs, r, i - 1) + bs[i - 1].LayerAt(r)
  }

  /** Every layer but the last layer of an active block has been scanned. */
  ghost predicate AllScanned(g: Graph, bs: seq<BlockState>, active: seq<bool>)
    requires |bs| == |active|
  {
    forall j :: 0 <= j < |bs| ==> Scanned(g, bs[j], if active[j] then |bs[j].layers| - 1 else |bs[j].layers|)
  }

  /** How many layers the blocks before and after entry i have in round r, and which
      of them are active. */
  ghost predicate Lengths(r: nat, i: nat, bs: seq<BlockState>, active: seq<bool>)
    requires |bs| == |active|
  {
    && (forall j :: 0 <= j < i && j < |bs| ==> |bs[j].layers| <= r + 2 && (active[j] <==> |bs[j].layers| == r + 2))
    && (forall j :: i <= j < |bs| ==> |bs[j].layers| <= r + 1)
    && (forall j :: i <= j < |bs| && |bs[j].layers| == r + 1 ==> active[j])
    && (forall j :: i <= j < |bs| && active[j] ==>
          |bs[j].layers| == r + 1 || (r == 1 && |bs[j].layers| == 1))
  }

  /** In round r (from 1), after the first i entries of the active table. */
  ghost predicate RoundInv(g: Graph, seeds: seq<int>, n: nat, r: nat, i: nat,
                           table: seq<int>, bs: seq<BlockState>, active: seq<bool>)
    requires Input(g, seeds, n)
  {
    && 1 <= r && i <= |seeds| && |active| == |seeds| == |bs|
    && Common(g, seeds, n, |seeds|, table, bs)
    && ClaimedIs(table, Ball(g, Nodes(seeds), r) + Next(g, Frontier(bs, r, i)))
    && AllScanned(g, bs, active)
    && Lengths(r, i, bs, active)
  }

  // ----- one block's change leaves the others alone -----

  ghost predicate Evolves(t: seq<int>, t': seq<int>, src: int) {
    && |t'| == |t|
    && forall v :: 0 <= v < |t| ==> t'[v] == t[v] || (t'[v] == src && (t[v] == UNCLAIMED || v == src))
  }

  lemma {:induction false} OtherBlockKept(
      g: Graph, seeds: seq<int>, t: seq<int>, t': seq<int>, src: int, j: nat, b: BlockState)
    requires j < |seeds| && seeds[j] != UNCLAIMED
    requires LayersOk(g, seeds, t, j, b) && HaloOk(g, t, b)
    requires Evolves(t, t', src) && src in seeds && src != b.src && src != UNCLAIMED
    ensures LayersOk(g, seeds, t', j, b) && HaloOk(g, t', b)
  {
    forall k, v | 0 < k < |b.layers| && v in b.layers[k]
      ensures MemberOk(g, seeds, t', j, k, v)
    {
      assert MemberOk(g, seeds, t, j, k, v);
    }
  }

  // ----- the seed loop -----

  /** The block a seed starts with, and the table it leaves. */
  function Sprout(g: Graph, table: seq<int>, s: int): Scan
    requires 0 <= s < |table|
    requires InRange(Adj(g, s), |table|)
  {
    VisitAll(Scan(table[s := s], {s}, [], []), s, 1, Adj(g, s))
  }

  function SproutBlock(s: int, sc: Scan): BlockState {
    BlockState(s, if sc.newest == [] then [[s]] else [[s], sc.newest], sc.seen, sc.halo)
  }

  lemma {:induction false} SproutMembers(s: int, sc: Scan)
    ensures SproutBlock(s, sc).Members() == [s] + sc.newest
    ensures SproutBlock(s, sc).Inner() == [s] + sc.newest
  {
    var b := SproutBlock(s, sc);
    FlatSnoc<int>([], [s]);
    assert [] + [[s]] == [[s]];
    assert Flat([[s]]) == [s];
    if sc.newest != [] {
      FlatSnoc([[s]], sc.newest);
      assert [[s]] + [sc.newest] == [[s], sc.newest];
    }
    assert b.layers[..|b.layers|] == b.layers;
  }

  /** The part of the state before seed m that its sprouting depends on. */
  ghost predicate BeforeSprout(g: Graph, seeds: seq<int>, n: nat, m: nat, table: seq<int>) {
    && Input(g, seeds, n) && m < |seeds| && |table| == n
    && (forall v :: 0 <= v < n && table[v] != UNCLAIMED ==> table[v] in seeds[..m])
    && ClaimedIs(table, Ball(g, Nodes(seeds[..m]), 1))
  }

  lemma {:induction false} SproutScan(g: Graph, seeds: seq<int>, n: nat, m: nat, table: seq<int>)
    requires BeforeSprout(g, seeds, n, m, table)
    ensures var s := seeds[m];
            var sc := Sprout(g, table, s);
            && ScanMeaning(Scan(table[s := s], {s}, [], []), sc, s, 1, Adj(g, s))
            && s !in sc.newest && s !in seeds[..m] && sc.table[s] == s
            && Evolves(table, sc.table, s)
            && forall v :: 0 <= v < n && sc.table[v] == s ==> v == s || v in sc.newest
  {
    var s := seeds[m];
    ScanMeans(Scan(table[s := s], {s}, [], []), s, 1, Adj(g, s));
    var sc := Sprout(g, table, s);
    assert s !in seeds[..m];
    assert forall v :: 0 <= v < n && table[v] != UNCLAIMED ==> table[v] != s;
  }

  lemma {:induction false} SproutNewMember(
      g: Graph, seeds: seq<int>, n: nat, m: nat, table: seq<int>, t': seq<int>, v: int)
    requires BeforeSprout(g, seeds, n, m, table)
    requires 0 <= v < n == |t'| && v in Adj(g, seeds[m]) && table[v] == UNCLAIMED && v != seeds[m]
    requires t'[v] == seeds[m]
    ensures MemberOk(g, seeds, t', m, 1, v)
  {
    var s := seeds[m];
    assert v !in Claimed(table);
    assert Ends(g, s, 0) == iset{s};
    assert v in Ends(g, s, 1);
    var earlier := Nodes(seeds[..m]);
    assert Ball(g, earlier, 0) == earlier;
    forall i | 0 <= i < m ensures v !in Ends(g, seeds[i], 1) {
      assert seeds[..m][i] in earlier;
      assert Ends(g, seeds[i], 0) == iset{seeds[i]};
    }
    assert v !in seeds[..m];
    assert seeds[..m + 1] == seeds[..m] + [s];
    assert Ball(g, Nodes(seeds), 0) == Nodes(seeds);
  }

  lemma {:induction false} PredWitness(g: Graph, s: seq<int>, x: int) returns (u: int)
    requires HasPred(g, Nodes(s), x)
    ensures u in s && x in Adj(g, u)
  {
    u :| u in Nodes(s) && x in Adj(g, u);
  }

  lemma {:induction false} UntouchedIsFree(g: Graph, seeds: seq<int>, n: nat, m: nat, table: seq<int>, q: nat)
    requires BeforeSprout(g, seeds, n, m, table)
    requires m < q < |seeds| && FirstTouch(g, seeds, m, seeds[q])
    ensures table[seeds[q]] == UNCLAIMED && seeds[q] != seeds[m]
  {
    var earlier := Nodes(seeds[..m]);
    assert seeds[q] !in earlier;
    BallStep(g, earlier, 0, seeds[q]);
    if HasPred(g, earlier, seeds[q]) {
      var u := PredWitness(g, seeds[..m], seeds[q]);
      assert false;
    }
  }

  lemma {:induction false} SproutLayersOk(g: Graph, seeds: seq<int>, n: nat, m: nat, table: seq<int>)
    requires BeforeSprout(g, seeds, n, m, table)
    ensures var sc := Sprout(g, table, seeds[m]);
            LayersOk(g, seeds, sc.table, m, SproutBlock(seeds[m], sc))
  {
    var s := seeds[m];
    SproutScan(g, seeds, n, m, table);
    var sc := Sprout(g, table, s);
    var b := SproutBlock(s, sc);
    SproutMembers(s, sc);
    NoDupAppend([s], sc.newest);
    forall q | m < q < |seeds| && FirstTouch(g, seeds, m, seeds[q]) ensures seeds[q] in sc.newest {
      UntouchedIsFree(g, seeds, n, m, table, q);
    }
    forall k, v | 0 < k < |b.layers| && v in b.layers[k]
      ensures MemberOk(g, seeds, sc.table, m, k, v)
    {
      SproutNewMember(g, seeds, n, m, table, sc.table, v);
    }
  }

  lemma {:induction false} SproutHaloOk(g: Graph, seeds: seq<int>, n: nat, m: nat, table: seq<int>)
    requires BeforeSprout(g, seeds, n, m, table)
    ensures var sc := Sprout(g, table, seeds[m]);
            var b := SproutBlock(seeds[m], sc);
            HaloOk(g, sc.table, b) && Scanned(g, b, 1)
  {
    var s := seeds[m];
    SproutScan(g, seeds, n, m, table);
    var sc := Sprout(g, table, s);
    var b := SproutBlock(s, sc);
    SproutMembers(s, sc);
    assert sc.halo[0..] == sc.halo;
    forall x | x in sc.halo
      ensures x != s && x !in sc.newest && x in Next(g, Nodes(b.Inner()))
    {
      assert s in Nodes(b.Inner());
    }
    forall x ensures x in b.seen <==> x in SetOf(b.Members()) + SetOf(b.halo) {
      assert x in b.seen <==> x == s || x in sc.newest || x in Adj(g, s);
    }
  }

  lemma {:induction false} SproutClaims(g: Graph, seeds: seq<int>, n: nat, m: nat, table: seq<int>)
    requires BeforeSprout(g, seeds, n, m, table)
    ensures var sc := Sprout(g, table, seeds[m]);
            && Claimed(sc.table) == (Claimed(table) + {seeds[m]}) + SetOf(sc.newest)
            && (Claimed(table) + {seeds[m]}) !! SetOf(sc.newest)
            && NoDup(sc.newest)
            && SetOf(Adj(g, seeds[m])) <= Claimed(sc.table)
            && SetOf(sc.newest) <= SetOf(Adj(g, seeds[m]))
  {
    SproutScan(g, seeds, n, m, table);
  }

  lemma {:induction false} SproutBall(g: Graph, seeds: seq<int>, n: nat, m: nat, table: seq<int>)
    requires BeforeSprout(g, seeds, n, m, table)
    ensures ClaimedIs(Sprout(g, table, seeds[m]).table, Ball(g, Nodes(seeds[..m + 1]), 1))
  {
    hide Sprout, Claimed, VisitAll, HasPred;
    var s := seeds[m];
    SproutClaims(g, seeds, n, m, table);
    var sc := Sprout(g, table, s);
    var earlier := Nodes(seeds[..m]);
    var now := Nodes(seeds[..m + 1]);
    assert seeds[..m + 1] == seeds[..m] + [s];
    assert now == earlier + iset{s};
    forall v ensures v in Claimed(sc.table) <==> v in Ball(g, now, 1) {
      BallStep(g, earlier, 0, v);
      BallStep(g, now, 0, v);
      HasPredUnion(g, earlier, iset{s}, v);
      HasPredOne(g, s, v);
    }
  }

  lemma {:induction false} SproutCount(g: Graph, seeds: seq<int>, n: nat, m: nat, table: seq<int>)
    requires BeforeSprout(g, seeds, n, m, table)
    ensures var sc := Sprout(g, table, seeds[m]);
            |Claimed(sc.table)| + Reowned(g, seeds, m + 1)
            == |Claimed(table)| + Reowned(g, seeds, m) + 1 + |sc.newest|
  {
    var s := seeds[m];
    var sc := Sprout(g, table, s);
    SproutClaims(g, seeds, n, m, table);
    NoDupCard(sc.newest);
    var earlier := Nodes(seeds[..m]);
    assert s !in earlier;
    assert s in Claimed(table) <==> s in Next(g, earlier) by {
      assert Ball(g, earlier, 0) == earlier;
    }
    var known := Claimed(table);
    if s in known {
      assert known + {s} == known;
    } else {
      assert |known + {s}| == |known| + 1;
    }
  }

  lemma {:induction false} OthersKept(
      g: Graph, seeds: seq<int>, n: nat, m: nat, table: seq<int>, bs: seq<BlockState>, t': seq<int>, s: int)
    requires Input(g, seeds, n) && m <= |seeds| && Common(g, seeds, n, m, table, bs)
    requires Evolves(table, t', s) && s in seeds
    ensures forall j :: 0 <= j < m && seeds[j] != s ==> LayersOk(g, seeds, t', j, bs[j]) && HaloOk(g, t', bs[j])
  {
    forall j | 0 <= j < m && seeds[j] != s
      ensures LayersOk(g, seeds, t', j, bs[j]) && HaloOk(g, t', bs[j])
    {
      OtherBlockKept(g, seeds, table, t', s, j, bs[j]);
    }
  }

  lemma {:induction false} SproutCommon(g: Graph, seeds: seq<int>, n: nat, m: nat, table: seq<int>, bs: seq<BlockState>)
    requires BeforeSprout(g, seeds, n, m, table) && Common(g, seeds, n, m, table, bs)
    ensures var sc := Sprout(g, table, seeds[m]);
            Common(g, seeds, n, m + 1, sc.table, bs + [SproutBlock(seeds[m], sc)])
  {
    hide LayersOk, HaloOk, Ball, Sprout, VisitAll, ScanMeaning, Flat, Claimed, Reowned, SproutBlock;
    var s := seeds[m];
    SproutScan(g, seeds, n, m, table);
    SproutLayersOk(g, seeds, n, m, table);
    SproutHaloOk(g, seeds, n, m, table);
    SproutCount(g, seeds, n, m, table);
    var sc := Sprout(g, table, s);
    var b := SproutBlock(s, sc);
    SproutMembers(s, sc);
    OthersKept(g, seeds, n, m, table, bs, sc.table, s);
    var bs' := bs + [b];
    assert bs'[..m] == bs;
    assert SumSizes(bs') == SumSizes(bs) + 1 + |sc.newest|;
    forall j | 0 <= j < m + 1 ensures sc.table[seeds[j]] == seeds[j] {
      assert j < m ==> table[seeds[j]] == seeds[j];
    }
    forall j | 0 <= j < m + 1
      ensures LayersOk(g, seeds, sc.table, j, bs'[j]) && HaloOk(g, sc.table, bs'[j])
    {
      assert j < m ==> seeds[j] != s && bs'[j] == bs[j];
    }
    assert seeds[..m + 1] == seeds[..m] + [s];
  }

  /** One turn of the seed loop keeps its invariant. */
  lemma {:induction false} SeedStep(g: Graph, seeds: seq<int>, n: nat, m: nat, table: seq<int>, bs: seq<BlockState>)
    requires Input(g, seeds, n) && m < |seeds|
    requires SeedInv(g, seeds, n, m, table, bs)
    ensures var sc := Sprout(g, table, seeds[m]);
            SeedInv(g, seeds, n, m + 1, sc.table, bs + [SproutBlock(seeds[m], sc)])
  {
    hide LayersOk, HaloOk, Ball, Sprout, VisitAll, ScanMeaning, Flat, Reowned, SumSizes, Scanned;
    assert BeforeSprout(g, seeds, n, m, table) by {
      assert Claimed(table) == Claimed(table);
    }
    SproutCommon(g, seeds, n, m, table, bs);
    SproutHaloOk(g, seeds, n, m, table);
    SproutBall(g, seeds, n, m, table);
  }

  /** After the seed loop every block is active and round 1 may start. */
  lemma {:induction false} RoundsStart(
      g: Graph, seeds: seq<int>, n: nat, table: seq<int>, bs: seq<BlockState>, active: seq<bool>)
    requires Input(g, seeds, n)
    requires SeedInv(g, seeds, n, |seeds|, table, bs)
    requires |active| == |seeds| && forall j :: 0 <= j < |active| ==> active[j]
    ensures RoundInv(g, seeds, n, 1, 0, table, bs, active)
  {
    assert seeds[..|seeds|] == seeds;
    assert Next(g, iset{}) == iset{};
    forall j | 0 <= j < |seeds| ensures 1 <= |bs[j].layers| {
      assert LayersOk(g, seeds, table, j, bs[j]);
    }
  }
}
