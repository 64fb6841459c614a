/** Blocks are sorted by size and the four largest are merged into two partitions. */
module Partitions {
  import opened Sequences
  import opened Graphs
  import opened BlockScan
  import opened SeedPhase
  import opened Decomposition
  import opened NodeBlocks

  /** A list extended by the nodes it does not hold yet. */
  function Merged(list: seq<int>, xs: seq<int>): seq<int> {
    if xs == [] then list
    else
      var r := Merged(list, xs[..|xs| - 1]);
      if xs[|xs| - 1] in r then r else r + [xs[|xs| - 1]]
  }

  /** Merging is a union without repeats that keeps what was there in place. */
  lemma {:induction false} MergedIsUnion(list: seq<int>, xs: seq<int>)
    requires NoDup(list)
    ensures var r := Merged(list, xs);
            NoDup(r) && list <= r && SetOf(r) == SetOf(list) + SetOf(xs)
    decreases |xs|
  {
    if xs != [] {
      var m := |xs| - 1;
      MergedIsUnion(list, xs[..m]);
      var r := Merged(list, xs[..m]);
      assert xs == xs[..m] + [xs[m]];
      assert SetOf(xs) == SetOf(xs[..m]) + {xs[m]};
      if xs[m] !in r {
        assert SetOf(r + [xs[m]]) == SetOf(r) + {xs[m]};
      } else {
        assert xs[m] in SetOf(r);
      }
    }
  }

  class Partition {
    var partitionId: int
    var nodeViewed: set<int>
    var nodeList: seq<int>
    var size: nat
    var trainSize: int
    var valSize: int
    var testSize: int

    ghost predicate Valid()
      reads this
    {
      nodeViewed == SetOf(nodeList) && NoDup(nodeList)
    }

    constructor ()
      ensures Valid() && partitionId == -1 && nodeList == [] && size == 0
      ensures trainSize == 0 && valSize == 0 && testSize == 0
    {
      partitionId, nodeViewed, nodeList, size := -1, {}, [], 0;
      trainSize, valSize, testSize := 0, 0, 0;
    }

    /** The nodes of one layer. */
    method MergeLayer(nodes: seq<int>)
      requires Valid()
      modifies this`size, this`nodeViewed, this`nodeList
      ensures Valid() && nodeList == Merged(old(nodeList), nodes) && size == old(size) + |nodes|
    {
      size := size + |nodes|;
      var k := 0;
      while k < |nodes|
        invariant 0 <= k <= |nodes|
        invariant Valid() && nodeList == Merged(old(nodeList), nodes[..k]) && size == old(size) + |nodes|
      {
        var node := nodes[k];
        assert nodes[..k + 1][..k] == nodes[..k];
        if node !in nodeViewed {
          assert node !in nodeList;
          nodeViewed := nodeViewed + {node};
          nodeList := nodeList + [node];
        } else {
          assert node in nodeList;
        }
        k := k + 1;
      }
      assert nodes[..k] == nodes;
    }

    /** `size` counts every entry of the block; `nodeList` takes only new nodes. */
    method MergeBlock(block: Block)
      requires Valid()
      modifies this
      ensures Valid() && partitionId == old(partitionId)
      ensures nodeList == Merged(old(nodeList), block.View().Members())
      ensures size == old(size) + |block.View().Members()|
      ensures trainSize == old(trainSize) + block.trainNodeNumber
      ensures valSize == old(valSize) + block.valNodeNumber
      ensures testSize == old(testSize) + block.testNodeNumber
    {
      trainSize := trainSize + block.trainNodeNumber;
      valSize := valSize + block.valNodeNumber;
      testSize := testSize + block.testNodeNumber;
      hide Merged, Flat;
      MergedNothing(nodeList);
      var i := 0;
      while i < |block.nodeList|
        modifies this`size, this`nodeViewed, this`nodeList
        invariant 0 <= i <= |block.nodeList| && Valid()
        invariant nodeList == Merged(old(nodeList), Flat(block.nodeList[..i]))
        invariant size == old(size) + |Flat(block.nodeList[..i])|
      {
        assert block.nodeList[..i + 1] == block.nodeList[..i] + [block.nodeList[i]];
        FlatSnoc(block.nodeList[..i], block.nodeList[i]);
        MergedAppend(old(nodeList), Flat(block.nodeList[..i]), block.nodeList[i]);
        MergeLayer(block.nodeList[i]);
        i := i + 1;
      }
      assert block.nodeList[..i] == block.nodeList;
    }
  }

  lemma {:induction false} MergedNothing(list: seq<int>)
    ensures Merged(list, Flat<int>([])) == list
  {
  }

  lemma {:induction false} MergedAppend(list: seq<int>, a: seq<int>, b: seq<int>)
    ensures Merged(list, a + b) == Merged(Merged(list, a), b)
    decreases |b|
  {
    if b == [] {
      assert a + b == a;
    } else {
      MergedAppend(list, a, b[..|b| - 1]);
      assert (a + b)[..|a + b| - 1] == a + b[..|b| - 1];
    }
  }

  ghost predicate Descending(order: seq<BlockState>) {
    forall i, j :: 0 <= i < j < |order| ==> |order[i].Members()| >= |order[j].Members()|
  }

  ghost predicate BySize(blocks: seq<Block>)
    reads blocks
  {
    forall i, j :: 0 <= i < j < |blocks| ==> blocks[i].blockSize >= blocks[j].blockSize
  }

  method Insert(sorted: seq<Block>, block: Block) returns (r: seq<Block>)
    requires BySize(sorted)
    ensures BySize(r) && |r| == |sorted| + 1 && multiset(r) == multiset(sorted) + multiset{block}
  {
    var at := 0;
    while at < |sorted| && sorted[at].blockSize >= block.blockSize
      invariant 0 <= at <= |sorted|
      invariant forall i :: 0 <= i < at ==> sorted[i].blockSize >= block.blockSize
    {
      at := at + 1;
    }
    InsertedMultiset(sorted, at, block);
    r := sorted[..at] + [block] + sorted[at..];
    assert forall i :: 0 <= i < |r| ==> r[i] == if i < at then sorted[i] else if i == at then block else sorted[i - 1];
    assert at < |sorted| ==> forall j :: at <= j < |sorted| ==> sorted[at].blockSize >= sorted[j].blockSize;
  }

  lemma {:induction false} InsertedMultiset<T>(s: seq<T>, at: nat, x: T)
    requires at <= |s|
    ensures multiset(s[..at] + [x] + s[at..]) == multiset(s) + multiset{x}
  {
    assert s == s[..at] + s[at..];
  }

  /** Sorts by `blockSize`, largest first. `std::sort` may leave equal blocks in any
      order; callers rely on no more than this contract. */
  method BlockSort(blocks: seq<Block>) returns (sorted: seq<Block>)
    ensures multiset(sorted) == multiset(blocks) && |sorted| == |blocks| && BySize(sorted)
  {
    sorted := [];
    var m := 0;
    while m < |blocks|
      invariant 0 <= m <= |blocks| && |sorted| == m && multiset(sorted) == multiset(blocks[..m]) && BySize(sorted)
    {
      hide BySize;
      assert blocks[..m + 1] == blocks[..m] + [blocks[m]];
      sorted := Insert(sorted, blocks[m]);
      m := m + 1;
    }
    assert blocks[..m] == blocks;
  }

  /** The node list of a partition that merges block a and then block b. */
  function PairList(a: BlockState, b: BlockState): seq<int> {
    Merged(Merged([], a.Members()), b.Members())
  }

  function PairSize(a: BlockState, b: BlockState): nat {
    |a.Members()| + |b.Members()|
  }

  /** The source reads blocks 0 to 3 and partitions 0 and 1 without a check. `order`
      is the value of the sorted blocks. */
  method BlockToPartition(blocks: seq<Block>, partNumber: nat)
    returns (sorted: seq<Block>, ghost order: seq<BlockState>, partitions: seq<Partition>)
    requires |blocks| >= 4 && partNumber >= 2
    requires forall j :: 0 <= j < |blocks| ==> blocks[j].blockSize == |blocks[j].View().Members()|
    ensures multiset(sorted) == multiset(blocks) && |sorted| == |blocks|
    ensures forall i :: 0 <= i < |sorted| ==> i < |order| && sorted[i].View() == order[i]
    ensures multiset(order) == multiset(old(Views(blocks))) && Descending(order) && |order| == |blocks|
    ensures |partitions| == partNumber && NoDup(partitions)
    ensures forall i :: 0 <= i < partNumber ==> fresh(partitions[i]) && partitions[i].partitionId == i
    ensures partitions[0].nodeList == PairList(order[0], order[2])
    ensures partitions[0].size == PairSize(order[0], order[2])
    ensures partitions[1].nodeList == PairList(order[1], order[3])
    ensures partitions[1].size == PairSize(order[1], order[3])
    ensures forall i :: 2 <= i < partNumber ==> partitions[i].nodeList == [] && partitions[i].size == 0
  {
    hide PairList, PairSize, Flat, BySize, Views, Descending;
    sorted, order := SortedBlocks(blocks);
    partitions := MakePartitions(partNumber);
    MergeFour(sorted, partitions);
  }

  /** The four merges. */
  method MergeFour(sorted: seq<Block>, partitions: seq<Partition>)
    requires |sorted| >= 4 && |partitions| >= 2 && NoDup(partitions)
    requires forall j :: 0 <= j < 2 ==>
               partitions[j].Valid() && partitions[j].nodeList == [] && partitions[j].size == 0
    modifies partitions[0], partitions[1]
    ensures partitions[0].partitionId == old(partitions[0].partitionId)
    ensures partitions[1].partitionId == old(partitions[1].partitionId)
    ensures partitions[0].nodeList == PairList(sorted[0].View(), sorted[2].View())
    ensures partitions[0].size == PairSize(sorted[0].View(), sorted[2].View())
    ensures partitions[1].nodeList == PairList(sorted[1].View(), sorted[3].View())
    ensures partitions[1].size == PairSize(sorted[1].View(), sorted[3].View())
  {
    hide PairList, PairSize, Flat;
    MergePair(partitions[0], sorted[0], sorted[2]);
    MergePair(partitions[1], sorted[1], sorted[3]);
  }

  method SortedBlocks(blocks: seq<Block>) returns (sorted: seq<Block>, ghost order: seq<BlockState>)
    requires forall j :: 0 <= j < |blocks| ==> blocks[j].blockSize == |blocks[j].View().Members()|
    ensures multiset(sorted) == multiset(blocks) && |sorted| == |blocks| && order == Views(sorted)
    ensures multiset(order) == multiset(Views(blocks)) && Descending(order)
  {
    hide Flat, BySize, Views, Descending;
    sorted := BlockSort(blocks);
    SortedViews(blocks, sorted);
    order := Views(sorted);
  }

  method MergePair(p: Partition, a: Block, b: Block)
    requires p.Valid() && p.nodeList == [] && p.size == 0
    modifies p
    ensures p.partitionId == old(p.partitionId)
    ensures p.nodeList == PairList(a.View(), b.View()) && p.size == PairSize(a.View(), b.View())
  {
    hide Merged, Flat;
    p.MergeBlock(a);
    p.MergeBlock(b);
  }

  method MakePartitions(partNumber: nat) returns (partitions: seq<Partition>)
    ensures |partitions| == partNumber && NoDup(partitions)
    ensures forall j :: 0 <= j < partNumber ==>
              fresh(partitions[j]) && partitions[j].Valid() && partitions[j].partitionId == j &&
              partitions[j].nodeList == [] && partitions[j].size == 0
  {
    partitions := [];
    var i := 0;
    while i < partNumber
      invariant 0 <= i <= partNumber && |partitions| == i && NoDup(partitions)
      invariant forall j :: 0 <= j < i ==>
                  fresh(partitions[j]) && partitions[j].Valid() && partitions[j].partitionId == j &&
                  partitions[j].nodeList == [] && partitions[j].size == 0
    {
      var partition := new Partition();
      partition.partitionId := i;
      partitions := partitions + [partition];
      i := i + 1;
    }
  }

  // ----- permutations -----

  lemma {:induction false} RemoveLast<T>(a: seq<T>, b: seq<T>) returns (i: nat)
    requires multiset(a) == multiset(b) && a != []
    ensures i < |b| && b[i] == a[|a| - 1]
    ensures multiset(a[..|a| - 1]) == multiset(b[..i] + b[i + 1..])
  {
    var m := |a| - 1;
    assert a == a[..m] + [a[m]];
    assert a[m] in multiset(b);
    i :| 0 <= i < |b| && b[i] == a[m];
    assert b == b[..i] + [b[i]] + b[i + 1..];
    assert multiset(b[..i] + b[i + 1..]) == multiset(b[..i]) + multiset(b[i + 1..]);
    assert multiset(a[..m]) == multiset(a) - multiset{a[m]};
  }

  lemma {:induction false} ViewsWithout(b: seq<Block>, i: nat)
    requires i < |b|
    ensures multiset(Views(b)) == multiset(Views(b[..i] + b[i + 1..])) + multiset{b[i].View()}
  {
    hide Views;
    var vb, vc := Views(b), Views(b[..i] + b[i + 1..]);
    assert vc == vb[..i] + vb[i + 1..];
    assert vb == vb[..i] + [vb[i]] + vb[i + 1..];
  }

  lemma {:induction false} ViewsPermute(a: seq<Block>, b: seq<Block>)
    requires multiset(a) == multiset(b)
    ensures multiset(Views(a)) == multiset(Views(b))
    decreases |a|
  {
    hide Views;
    if a == [] {
      assert |multiset(b)| == 0;
      assert b == [];
    } else {
      var m := |a| - 1;
      var i := RemoveLast(a, b);
      ViewsPermute(a[..m], b[..i] + b[i + 1..]);
      ViewsWithout(b, i);
      ViewsWithout(a, m);
      assert a[..m] + a[m + 1..] == a[..m];
    }
  }

  lemma {:induction false} SortedViews(blocks: seq<Block>, sorted: seq<Block>)
    requires multiset(sorted) == multiset(blocks) && |sorted| == |blocks|
    requires forall j :: 0 <= j < |blocks| ==> blocks[j].blockSize == |blocks[j].View().Members()|
    requires BySize(sorted)
    ensures multiset(Views(sorted)) == multiset(Views(blocks)) && Descending(Views(sorted))
  {
    ViewsPermute(sorted, blocks);
    hide Flat;
    forall i | 0 <= i < |sorted| ensures sorted[i].blockSize == |sorted[i].View().Members()| {
      assert sorted[i] in multiset(blocks);
      var j :| 0 <= j < |blocks| && blocks[j] == sorted[i];
    }
  }

  lemma {:induction false} SumSizesRemove(b: seq<BlockState>, i: nat)
    requires i < |b|
    ensures SumSizes(b) == SumSizes(b[..i] + b[i + 1..]) + |b[i].Members()|
    decreases |b|
  {
    hide Flat;
    var m := |b| - 1;
    var c := b[..i] + b[i + 1..];
    if i < m {
      SumSizesRemove(b[..m], i);
      assert c[..|c| - 1] == b[..m][..i] + b[..m][i + 1..];
    } else {
      assert c == b[..m];
    }
  }

  lemma {:induction false} SumSizesPermute(a: seq<BlockState>, b: seq<BlockState>)
    requires multiset(a) == multiset(b)
    ensures SumSizes(a) == SumSizes(b)
    decreases |a|
  {
    hide Flat;
    if a == [] {
      assert |multiset(b)| == 0;
      assert b == [];
    } else {
      var i := RemoveLast(a, b);
      SumSizesPermute(a[..|a| - 1], b[..i] + b[i + 1..]);
      SumSizesRemove(b, i);
    }
  }

  lemma {:induction false} NoDupPermute<T>(a: seq<T>, b: seq<T>)
    requires multiset(a) == multiset(b) && NoDup(b)
    ensures NoDup(a)
  {
    forall i, j | 0 <= i < j < |a| ensures a[i] != a[j] {
      if a[i] == a[j] {
        assert a == a[..i] + [a[i]] + a[i + 1..j] + [a[j]] + a[j + 1..];
        assert multiset(a)[a[i]] >= 2;
        OnceAtMost(b, a[i]);
      }
    }
  }

  lemma {:induction false} OnceAtMost<T>(b: seq<T>, x: T)
    requires NoDup(b)
    ensures multiset(b)[x] <= 1
    decreases |b|
  {
    if b != [] {
      var m := |b| - 1;
      assert b == b[..m] + [b[m]];
      OnceAtMost(b[..m], x);
      if b[m] == x {
        assert x !in b[..m];
        assert x !in multiset(b[..m]);
      }
    }
  }

  // ----- what the partitions are -----

  lemma {:induction false} PairListIsUnion(a: BlockState, b: BlockState)
    ensures NoDup(PairList(a, b)) && SetOf(PairList(a, b)) == SetOf(a.Members()) + SetOf(b.Members())
  {
    hide Merged, Flat;
    MergedIsUnion([], a.Members());
    MergedIsUnion(Merged([], a.Members()), b.Members());
  }

  lemma {:induction false} MergedNew(list: seq<int>, xs: seq<int>)
    requires NoDup(xs) && forall x :: x in xs ==> x !in list
    ensures Merged(list, xs) == list + xs
    decreases |xs|
  {
    if xs == [] {
      assert list + xs == list;
    } else {
      var m := |xs| - 1;
      MergedNew(list, xs[..m]);
      assert xs == xs[..m] + [xs[m]] && xs[m] !in xs[..m];
      assert list + xs == list + xs[..m] + [xs[m]];
    }
  }

  /** The nodes of the first block come first, in the order of its layers, and those that
      only the second one has behind them. */
  lemma {:induction false} FirstBlockFirst(a: BlockState, b: BlockState)
    requires NoDup(a.Members()) && NoDup(b.Members())
    ensures a.Members() <= PairList(a, b)
    ensures (forall x :: x in b.Members() ==> x !in a.Members()) ==> PairList(a, b) == a.Members() + b.Members()
  {
    hide Flat, Merged;
    MergedNew([], a.Members());
    assert [] + a.Members() == a.Members();
    MergedIsUnion(a.Members(), b.Members());
    if forall x :: x in b.Members() ==> x !in a.Members() {
      MergedNew(a.Members(), b.Members());
    }
  }

  /** The blocks in some order, as values. */
  ghost predicate Reordered(
      g: Graph, seeds: seq<int>, n: nat, table: seq<int>, bs: seq<BlockState>, order: seq<BlockState>) {
    && Input(g, seeds, n) && Decomposed(g, seeds, n, table, bs)
    && multiset(order) == multiset(bs) && |order| == |bs|
  }

  lemma {:induction false} OrderIndex(
      g: Graph, seeds: seq<int>, n: nat, table: seq<int>, bs: seq<BlockState>, order: seq<BlockState>, q: nat)
    returns (j: nat)
    requires Reordered(g, seeds, n, table, bs, order) && q < |order|
    ensures j < |seeds| && |bs| == |seeds| && bs[j] == order[q] && bs[j].src == seeds[j]
  {
    hide Placed, FirstTouch, Reachable, Flat, HaloExact, SumSizes, Reowned;
    assert order[q] in multiset(order);
    assert order[q] in multiset(bs);
    j :| 0 <= j < |bs| && bs[j] == order[q];
    assert CellShape(seeds, j, bs[j]);
  }

  lemma {:induction false} OrderDistinct(
      g: Graph, seeds: seq<int>, n: nat, table: seq<int>, bs: seq<BlockState>, order: seq<BlockState>)
    requires Reordered(g, seeds, n, table, bs, order)
    ensures forall i, j :: 0 <= i < j < |order| ==> order[i].src != order[j].src
  {
    hide Placed, FirstTouch, Reachable, Flat, HaloExact, SumSizes, Reowned;
    forall i, j | 0 <= i < j < |bs| ensures bs[i].src != bs[j].src {
      assert CellShape(seeds, i, bs[i]) && CellShape(seeds, j, bs[j]);
    }
    NoDupPermute(order, bs);
    forall i, j | 0 <= i < j < |order| ensures order[i].src != order[j].src {
      var i' := OrderIndex(g, seeds, n, table, bs, order, i);
      var j' := OrderIndex(g, seeds, n, table, bs, order, j);
    }
  }

  /** A node that is no seed is a member of exactly the block that owns it. */
  lemma {:induction false} MemberIffOwned(
      g: Graph, seeds: seq<int>, n: nat, table: seq<int>, bs: seq<BlockState>, order: seq<BlockState>,
                                          q: nat, v: int)
    requires Reordered(g, seeds, n, table, bs, order) && q < |order|
    requires 0 <= v < n && v !in seeds && |table| == n
    ensures v in order[q].Members() <==> table[v] == order[q].src
  {
    var j := OrderIndex(g, seeds, n, table, bs, order, q);
    hide FirstTouch, Reachable, Flat, HaloExact, SumSizes, Reowned, FirstNearest;
    if v in order[q].Members() {
      var k := MemberBelongs(g, seeds, n, table, bs, j, v);
    }
  }

  /** Where each node lands, for any number of blocks from four up: a reachable node
      that is no seed is in partition 0 exactly if its owner is the largest or third
      block, in partition 1 exactly if its owner is the second or fourth, and so is
      lost exactly if its owner is none of the four. */
  lemma {:induction false} WhereNodesLand(
      g: Graph, seeds: seq<int>, n: nat, table: seq<int>, bs: seq<BlockState>, order: seq<BlockState>, v: int)
    requires Reordered(g, seeds, n, table, bs, order) && |order| >= 4
    requires 0 <= v < n == |table| && v !in seeds && Reachable(g, seeds, v)
    ensures v in PairList(order[0], order[2]) <==> table[v] == order[0].src || table[v] == order[2].src
    ensures v in PairList(order[1], order[3]) <==> table[v] == order[1].src || table[v] == order[3].src
    ensures !(v in PairList(order[0], order[2]) && v in PairList(order[1], order[3]))
  {
    hide *;
    forall q | 0 <= q < 4 ensures v in order[q].Members() <==> table[v] == order[q].src {
      MemberIffOwned(g, seeds, n, table, bs, order, q, v);
    }
    OrderDistinct(g, seeds, n, table, bs, order);
    InPair(order[0], order[2], v);
    InPair(order[1], order[3], v);
  }

  lemma {:induction false} InPair(a: BlockState, b: BlockState, v: int)
    ensures v in PairList(a, b) <==> v in a.Members() || v in b.Members()
  {
    PairListIsUnion(a, b);
    hide PairList, Flat;
    assert v in PairList(a, b) <==> v in SetOf(PairList(a, b));
  }

  lemma {:induction false} OwnerInOrder(
      g: Graph, seeds: seq<int>, n: nat, table: seq<int>, bs: seq<BlockState>, order: seq<BlockState>, v: int)
    returns (q: nat)
    requires Reordered(g, seeds, n, table, bs, order)
    requires 0 <= v < n && Reachable(g, seeds, v)
    ensures |table| == n && q < |order| && table[v] == order[q].src
  {
    hide Flat, HaloExact, SumSizes, Reowned, Placed, FirstTouch, Bounded, Reachable;
    var j :| 0 <= j < |seeds| && seeds[j] == table[v];
    assert CellShape(seeds, j, bs[j]);
    assert bs[j] in multiset(bs);
    q :| 0 <= q < |order| && order[q] == bs[j];
  }

  /** With exactly four blocks no node is lost. */
  lemma {:induction false} FourBlocksCover(
      g: Graph, seeds: seq<int>, n: nat, table: seq<int>, bs: seq<BlockState>, order: seq<BlockState>, v: int)
    requires Reordered(g, seeds, n, table, bs, order) && |order| == 4
    requires 0 <= v < n && v !in seeds && Reachable(g, seeds, v)
    ensures v in PairList(order[0], order[2]) <==> v !in PairList(order[1], order[3])
  {
    hide *;
    var q := OwnerInOrder(g, seeds, n, table, bs, order, v);
    WhereNodesLand(g, seeds, n, table, bs, order, v);
  }

  ghost predicate Lands(order: seq<BlockState>, v: int)
    requires |order| >= 4
  {
    v in PairList(order[0], order[2]) || v in PairList(order[1], order[3])
  }

  /** A seed that is a member of an earlier seed's block: the first seed to touch it. */
  ghost predicate TouchedFirst(g: Graph, seeds: seq<int>, src: int, v: int) {
    exists j :: 0 <= j < |seeds| && seeds[j] == src && v !in seeds[..j + 1] && FirstTouch(g, seeds, j, v)
  }

  /** A seed is a member of its own block and of the block of the earlier seed that
      touched it first, if there is one. */
  lemma {:induction false} SeedMemberIff(
      g: Graph, seeds: seq<int>, n: nat, table: seq<int>, bs: seq<BlockState>, order: seq<BlockState>, q: nat, v: int)
    requires Reordered(g, seeds, n, table, bs, order) && q < |order| && v in seeds
    ensures v in order[q].Members() <==> v == order[q].src || TouchedFirst(g, seeds, order[q].src, v)
  {
    var j := OrderIndex(g, seeds, n, table, bs, order, q);
    hide FirstTouch, Reachable, Flat, HaloExact, SumSizes, Reowned, FirstNearest;
    assert CellShape(seeds, j, bs[j]);
    if v == seeds[j] {
      FlatMember(bs[j].layers, v);
      assert v in bs[j].layers[0];
    } else if v in bs[j].Members() {
      var k := MemberBelongs(g, seeds, n, table, bs, j, v);
    }
  }

  /** Where each seed lands, for any number of blocks from four up. It may land in both
      partitions. */
  lemma {:induction false} WhereSeedsLand(
      g: Graph, seeds: seq<int>, n: nat, table: seq<int>, bs: seq<BlockState>, order: seq<BlockState>, v: int)
    requires Reordered(g, seeds, n, table, bs, order) && |order| >= 4 && v in seeds
    ensures v in PairList(order[0], order[2]) <==>
            || v == order[0].src || TouchedFirst(g, seeds, order[0].src, v)
            || v == order[2].src || TouchedFirst(g, seeds, order[2].src, v)
    ensures v in PairList(order[1], order[3]) <==>
            || v == order[1].src || TouchedFirst(g, seeds, order[1].src, v)
            || v == order[3].src || TouchedFirst(g, seeds, order[3].src, v)
  {
    hide *;
    forall q | 0 <= q < 4
      ensures v in order[q].Members() <==> v == order[q].src || TouchedFirst(g, seeds, order[q].src, v)
    {
      SeedMemberIff(g, seeds, n, table, bs, order, q, v);
    }
    InPair(order[0], order[2], v);
    InPair(order[1], order[3], v);
  }

  /** A seed is taken in by one of the first four blocks, though it is not its own. */
  ghost predicate TakenIn(g: Graph, seeds: seq<int>, order: seq<BlockState>, v: int) {
    exists p :: 0 <= p < 4 && p < |order| && TouchedFirst(g, seeds, order[p].src, v)
  }

  lemma {:induction false} SeedLandsIff(
      g: Graph, seeds: seq<int>, n: nat, table: seq<int>, bs: seq<BlockState>, order: seq<BlockState>, v: int)
    requires Reordered(g, seeds, n, table, bs, order) && |order| >= 4 && v in seeds
    ensures Lands(order, v) <==> (exists p :: 0 <= p < 4 && order[p].src == v) || TakenIn(g, seeds, order, v)
  {
    hide *;
    WhereSeedsLand(g, seeds, n, table, bs, order, v);
    LandsMeans(order, v);
    TakenInMeans(g, seeds, order, v);
  }

  lemma {:induction false} TakenInMeans(g: Graph, seeds: seq<int>, order: seq<BlockState>, v: int)
    requires |order| >= 4
    ensures TakenIn(g, seeds, order, v) <==>
            || TouchedFirst(g, seeds, order[0].src, v) || TouchedFirst(g, seeds, order[1].src, v)
            || TouchedFirst(g, seeds, order[2].src, v) || TouchedFirst(g, seeds, order[3].src, v)
  {
    hide TouchedFirst;
  }

  /** No node is lost, seeds included, exactly if each block past the fourth holds nothing
      but seeds, and its own seed is taken in by one of the first four. */
  lemma {:induction false} NothingLostIff(
      g: Graph, seeds: seq<int>, n: nat, table: seq<int>, bs: seq<BlockState>, order: seq<BlockState>)
    requires Reordered(g, seeds, n, table, bs, order) && |order| >= 4
    ensures (forall v :: 0 <= v < n && Reachable(g, seeds, v) ==> Lands(order, v)) <==>
            (forall q :: 4 <= q < |order| ==>
               TakenIn(g, seeds, order, order[q].src) && forall v :: v in order[q].Members() ==> v in seeds)
  {
    hide *;
    if forall v :: 0 <= v < n && Reachable(g, seeds, v) ==> Lands(order, v) {
      forall q | 4 <= q < |order|
        ensures TakenIn(g, seeds, order, order[q].src) && forall v :: v in order[q].Members() ==> v in seeds
      {
        LateSeedTakenIn(g, seeds, n, table, bs, order, q);
        forall v | v in order[q].Members() ensures v in seeds {
          if v !in seeds {
            LateMemberIsLost(g, seeds, n, table, bs, order, q, v);
          }
        }
      }
    }
    if forall q :: 4 <= q < |order| ==>
         TakenIn(g, seeds, order, order[q].src) && forall v :: v in order[q].Members() ==> v in seeds {
      forall v | 0 <= v < n && Reachable(g, seeds, v) ensures Lands(order, v) {
        var q := OwnerInOrder(g, seeds, n, table, bs, order, v);
        if v in seeds {
          SeedOwnsItself(g, seeds, n, table, bs, order, v);
          SeedLandsIff(g, seeds, n, table, bs, order, v);
        } else {
          WhereNodesLand(g, seeds, n, table, bs, order, v);
          MemberIffOwned(g, seeds, n, table, bs, order, q, v);
          LandsMeans(order, v);
        }
      }
    }
  }

  lemma {:induction false} SeedOwnsItself(
      g: Graph, seeds: seq<int>, n: nat, table: seq<int>, bs: seq<BlockState>, order: seq<BlockState>, v: int)
    requires Reordered(g, seeds, n, table, bs, order) && v in seeds
    ensures 0 <= v < n == |table| && table[v] == v && Reachable(g, seeds, v)
  {
    hide Placed, FirstTouch, Reachable, Flat, HaloExact, SumSizes, Reowned, CellShape, Bounded;
    var j :| 0 <= j < |seeds| && seeds[j] == v;
    assert table[seeds[j]] == seeds[j];
  }

  /** The seed of a block past the fourth lands only if it is taken in. */
  lemma {:induction false} LateSeedTakenIn(
      g: Graph, seeds: seq<int>, n: nat, table: seq<int>, bs: seq<BlockState>, order: seq<BlockState>, q: nat)
    requires Reordered(g, seeds, n, table, bs, order) && 4 <= q < |order|
    ensures order[q].src in seeds && 0 <= order[q].src < n && Reachable(g, seeds, order[q].src)
    ensures Lands(order, order[q].src) <==> TakenIn(g, seeds, order, order[q].src)
  {
    hide *;
    var j := OrderIndex(g, seeds, n, table, bs, order, q);
    SeedOwnsItself(g, seeds, n, table, bs, order, order[q].src);
    OrderDistinct(g, seeds, n, table, bs, order);
    SeedLandsIff(g, seeds, n, table, bs, order, order[q].src);
  }

  /** Of five seeds without edges, one is lost, though no block holds anything else. */
  lemma {:induction false} FifthSeedLost(n: nat, table: seq<int>, bs: seq<BlockState>, order: seq<BlockState>)
    requires Reordered(map[], [0, 1, 2, 3, 4], n, table, bs, order)
    ensures |order| == 5 && !Lands(order, order[4].src)
    ensures forall q, v :: 0 <= q < 5 && v in order[q].Members() ==> v in [0, 1, 2, 3, 4]
  {
    hide FirstTouch, Reachable, Flat, HaloExact, SumSizes, Reowned, FirstNearest, Placed, CellShape, Lands;
    var seeds := [0, 1, 2, 3, 4];
    LateSeedTakenIn(map[], seeds, n, table, bs, order, 4);
    NoEdges(seeds, order);
    forall q, v | 0 <= q < 5 && v in order[q].Members() ensures v in seeds {
      var j := OrderIndex(map[], seeds, n, table, bs, order, q);
      OnlySeed(seeds, n, table, bs, j, v);
    }
  }

  lemma {:induction false} NoEdges(seeds: seq<int>, order: seq<BlockState>)
    ensures forall v :: !TakenIn(map[], seeds, order, v)
  {
  }

  lemma {:induction false} OnlySeed(seeds: seq<int>, n: nat, table: seq<int>, bs: seq<BlockState>, j: nat, v: int)
    requires Input(map[], seeds, n) && Cells(map[], seeds, n, table, bs)
    requires j < |seeds| && |bs| == |seeds| && v in bs[j].Members()
    ensures v in seeds
  {
    hide Flat, FirstTouch, CellShape;
    if v != seeds[j] {
      var k := MemberBelongs(map[], seeds, n, table, bs, j, v);
      if v !in seeds {
        var u := EndsPred(map[], seeds[j], k - 1, v);
        assert false;
      }
    }
  }

  lemma {:induction false} LateMemberIsLost(
      g: Graph, seeds: seq<int>, n: nat, table: seq<int>, bs: seq<BlockState>, order: seq<BlockState>,
                                            q: nat, v: int)
    requires Reordered(g, seeds, n, table, bs, order) && 4 <= q < |order|
    requires v in order[q].Members() && v !in seeds
    ensures 0 <= v < n && Reachable(g, seeds, v) && !Lands(order, v)
  {
    var j := OrderIndex(g, seeds, n, table, bs, order, q);
    OwnMember(g, seeds, n, table, bs, j, v);
    hide *;
    OrderDistinct(g, seeds, n, table, bs, order);
    WhereNodesLand(g, seeds, n, table, bs, order, v);
    LandsMeans(order, v);
  }

  lemma {:induction false} LandsMeans(order: seq<BlockState>, v: int)
    requires |order| >= 4
    ensures Lands(order, v) <==> v in PairList(order[0], order[2]) || v in PairList(order[1], order[3])
  {
    hide PairList;
  }

  lemma {:induction false} OwnMember(
      g: Graph, seeds: seq<int>, n: nat, table: seq<int>, bs: seq<BlockState>, j: nat, v: int)
    requires Input(g, seeds, n) && Decomposed(g, seeds, n, table, bs)
    requires j < |seeds| && |bs| == |seeds| && v in bs[j].Members() && v !in seeds
    ensures |table| == n && 0 <= v < n && Reachable(g, seeds, v) && table[v] == bs[j].src
  {
    hide FirstTouch, Reachable, Flat, HaloExact, SumSizes, Reowned, FirstNearest;
    var k := MemberBelongs(g, seeds, n, table, bs, j, v);
    assert CellShape(seeds, j, bs[j]);
  }

  /** The two sizes add up to the sizes of all blocks, and their difference is between
      nothing and the gap between the largest and the smallest block. */
  lemma {:induction false} FourBlocksBalance(
      g: Graph, seeds: seq<int>, n: nat, table: seq<int>, bs: seq<BlockState>, order: seq<BlockState>)
    requires Reordered(g, seeds, n, table, bs, order) && |order| == 4 && Descending(order)
    ensures |seeds| == 4
    ensures PairSize(order[0], order[2]) + PairSize(order[1], order[3])
            == |ReachableSet(g, seeds, n)| + Reowned(g, seeds, 4)
    ensures 0 <= PairSize(order[0], order[2]) - PairSize(order[1], order[3])
              <= |order[0].Members()| - |order[3].Members()|
  {
    hide Flat, Reowned, Reachable, HaloExact;
    SumSizesPermute(order, bs);
    var o3, o2, o1 := order[..3], order[..2], order[..1];
    assert o3[..2] == o2 && o2[..1] == o1 && o1[..0] == [];
    assert SumSizes(order) == SumSizes(o3) + |order[3].Members()|;
    assert SumSizes(o3) == SumSizes(o2) + |order[2].Members()|;
    assert SumSizes(o2) == SumSizes(o1) + |order[1].Members()|;
    assert SumSizes(o1) == |order[0].Members()|;
  }
}
