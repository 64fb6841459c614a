/** `Block` and `NodeBlockConstruct`: one block grows from each training seed,
    all of them claiming nodes in one shared table. */
module NodeBlocks {
  import opened Sequences
  import opened Graphs
  import opened BlockScan
  import opened SeedPhase
  import opened RoundPhase
  import opened Decomposition

  class Block {
    var srcNodeID: int
    var blockId: int
    var partitionId: int
    var nodeList: seq<seq<int>>
    var nodeViewed: set<int>
    var holoNode: seq<int>
    var blockSize: nat
    var trainNodeNumber: int
    var valNodeNumber: int
    var testNodeNumber: int
    const holoLayer: nat := HOLO_LAYER

    constructor (nodeId: int)
      ensures View() == BlockState(nodeId, [[nodeId]], {nodeId}, [])
      ensures blockSize == 0 && trainNodeNumber == 0 && valNodeNumber == 0 && testNodeNumber == 0
    {
      srcNodeID := nodeId;
      nodeList := [[nodeId]];
      nodeViewed := {nodeId};
      holoNode := [];
      blockId, partitionId, blockSize := 0, 0, 0;
      trainNodeNumber, valNodeNumber, testNodeNumber := 0, 0, 0;
    }

    ghost function View(): BlockState
      reads this
    {
      BlockState(srcNodeID, nodeList, nodeViewed, holoNode)
    }

    /** Numbers the block and counts its nodes. */
    method RefactorBlock(id: int)
      modifies this
      ensures View() == old(View())
      ensures blockId == id && partitionId == -1
      ensures blockSize == |View().Members()|
      ensures trainNodeNumber == old(trainNodeNumber) && valNodeNumber == old(valNodeNumber)
      ensures testNodeNumber == old(testNodeNumber)
    {
      blockId := id;
      partitionId := -1;
      blockSize := 0;
      var i := 0;
      while i < |nodeList|
        invariant 0 <= i <= |nodeList|
        invariant View() == old(View()) && blockId == id && partitionId == -1
        invariant blockSize == |Flat(nodeList[..i])|
        invariant trainNodeNumber == old(trainNodeNumber) && valNodeNumber == old(valNodeNumber)
        invariant testNodeNumber == old(testNodeNumber)
      {
        FlatSnoc(nodeList[..i], nodeList[i]);
        assert nodeList[..i + 1] == nodeList[..i] + [nodeList[i]];
        blockSize := blockSize + |nodeList[i]|;
        i := i + 1;
      }
      assert nodeList[..i] == nodeList;
    }
  }

  ghost function Views(blocks: seq<Block>): (r: seq<BlockState>)
    reads blocks
    ensures |r| == |blocks|
    ensures forall i :: 0 <= i < |blocks| ==> r[i] == blocks[i].View()
  {
    if blocks == [] then [] else Views(blocks[..|blocks| - 1]) + [blocks[|blocks| - 1].View()]
  }

  /** A seed claims itself and its unclaimed neighbours. */
  method SeedBlock(nodeMap: Graph, nodeId: int, viewedTable: array<int>) returns (block: Block)
    requires 0 <= nodeId < viewedTable.Length && InRange(Adj(nodeMap, nodeId), viewedTable.Length)
    modifies viewedTable
    ensures fresh(block) && block.blockSize == 0
    ensures var sc := Sprout(nodeMap, old(viewedTable[..]), nodeId);
            viewedTable[..] == sc.table && block.View() == SproutBlock(nodeId, sc)
  {
    viewedTable[nodeId] := nodeId;
    block := new Block(nodeId);
    var tmp := [];
    ghost var start := Scan(viewedTable[..], {nodeId}, [], []);
    var near := Adj(nodeMap, nodeId);
    var i := 0;
    while i < |near|
      invariant 0 <= i <= |near|
      invariant block.srcNodeID == nodeId && block.nodeList == [[nodeId]] && block.blockSize == 0
      invariant Scan(viewedTable[..], block.nodeViewed, block.holoNode, tmp) == VisitAll(start, nodeId, 1, near[..i])
    {
      var sampleId := near[i];
      assert near[..i + 1][..i] == near[..i];
      if viewedTable[sampleId] == -1 {
        tmp := tmp + [sampleId];
        viewedTable[sampleId] := nodeId;
        block.nodeViewed := block.nodeViewed + {sampleId};
      } else if sampleId !in block.nodeViewed {
        block.holoNode := block.holoNode + [sampleId];
        block.nodeViewed := block.nodeViewed + {sampleId};
      }
      i := i + 1;
    }
    assert near[..i] == near;
    if tmp != [] {
      block.nodeList := block.nodeList + [tmp];
    }
  }

  /** One neighbour of the last layer: claimed for the new layer, noted as halo, or neither. */
  method VisitNeighbour(block: Block, viewedTable: array<int>, tmp: seq<int>, nextLayerId: int)
    returns (tmp': seq<int>, claimed: bool)
    requires 0 <= nextLayerId < viewedTable.Length
    modifies block, viewedTable
    ensures Scan(viewedTable[..], block.nodeViewed, block.holoNode, tmp')
            == Visit(Scan(old(viewedTable[..]), old(block.nodeViewed), old(block.holoNode), tmp),
                     old(block.srcNodeID), |old(block.nodeList)|, nextLayerId)
    ensures block.srcNodeID == old(block.srcNodeID) && block.nodeList == old(block.nodeList)
    ensures block.blockSize == old(block.blockSize)
    ensures tmp <= tmp' && claimed == (tmp' != tmp)
  {
    tmp', claimed := tmp, false;
    if viewedTable[nextLayerId] == -1 {
      tmp' := tmp + [nextLayerId];
      viewedTable[nextLayerId] := block.srcNodeID;
      block.nodeViewed := block.nodeViewed + {nextLayerId};
      claimed := true;
      assert |tmp'| == |tmp| + 1;
    } else if block.holoLayer >= |block.nodeList| && nextLayerId !in block.nodeViewed {
      block.holoNode := block.holoNode + [nextLayerId];
      block.nodeViewed := block.nodeViewed + {nextLayerId};
    }
  }

  lemma {:induction false} VisitSnoc(sc: Scan, src: int, depth: nat, xs: seq<int>, x: int)
    requires InRange(xs, |sc.table|) && 0 <= x < |sc.table|
    ensures InRange(xs + [x], |sc.table|)
    ensures VisitAll(sc, src, depth, xs + [x]) == Visit(VisitAll(sc, src, depth, xs), src, depth, x)
  {
    assert (xs + [x])[..|xs|] == xs;
  }

  /** All neighbours of one node of the last layer; `met` is what was met before. */
  method VisitNode(nodeMap: Graph, nodeId: int, block: Block, viewedTable: array<int>, tmp: seq<int>,
                   ghost start: Scan, ghost met: seq<int>)
    returns (tmp': seq<int>, flag: bool)
    requires |start.table| == viewedTable.Length && InRange(met + Adj(nodeMap, nodeId), viewedTable.Length)
    requires InRange(met, viewedTable.Length)
    requires Scan(viewedTable[..], block.nodeViewed, block.holoNode, tmp)
             == VisitAll(start, block.srcNodeID, |block.nodeList|, met)
    modifies block, viewedTable
    ensures Scan(viewedTable[..], block.nodeViewed, block.holoNode, tmp')
            == VisitAll(start, block.srcNodeID, |block.nodeList|, met + Adj(nodeMap, nodeId))
    ensures block.srcNodeID == old(block.srcNodeID) && block.nodeList == old(block.nodeList)
    ensures block.blockSize == old(block.blockSize)
    ensures tmp <= tmp' && flag == (tmp' != tmp)
  {
    hide Visit, VisitAll;
    tmp', flag := tmp, false;
    ghost var now := met;
    var near := Adj(nodeMap, nodeId);
    var k := 0;
    while k < |near|
      invariant 0 <= k <= |near| && now == met + near[..k]
      invariant block.srcNodeID == old(block.srcNodeID) && block.nodeList == old(block.nodeList)
      invariant block.blockSize == old(block.blockSize)
      invariant tmp <= tmp' && flag == (tmp' != tmp) && InRange(now, viewedTable.Length)
      invariant Scan(viewedTable[..], block.nodeViewed, block.holoNode, tmp')
                == VisitAll(start, block.srcNodeID, |block.nodeList|, now)
    {
      assert near[k] == (met + near)[|met| + k];
      VisitSnoc(start, block.srcNodeID, |block.nodeList|, now, near[k]);
      now := now + [near[k]];
      var claimed;
      tmp', claimed := VisitNeighbour(block, viewedTable, tmp', near[k]);
      if claimed {
        flag := true;
      }
      k := k + 1;
    }
    assert now == met + near;
  }

  /** An active block scans its last layer; flag tells whether it claimed any node. */
  method GrowBlock(nodeMap: Graph, block: Block, viewedTable: array<int>) returns (flag: bool)
    requires |block.nodeList| > 0
    requires InRange(Spread(nodeMap, block.nodeList[|block.nodeList| - 1]), viewedTable.Length)
    modifies block, viewedTable
    ensures var sc := ScanOf(nodeMap, old(viewedTable[..]), old(block.View()));
            && viewedTable[..] == sc.table
            && block.View() == Grown(old(block.View()), sc)
            && flag == (sc.newest != [])
    ensures block.blockSize == old(block.blockSize)
  {
    hide Visit, VisitAll, Spread;
    flag := false;
    var tmp := [];
    var last := block.nodeList[|block.nodeList| - 1];
    ghost var start := Scan(viewedTable[..], block.nodeViewed, block.holoNode, []);
    ghost var met := [];
    NothingMet(nodeMap, start, block.srcNodeID, |block.nodeList|);
    assert last[..0] == [];
    var i := 0;
    while i < |last|
      invariant 0 <= i <= |last| && met == Spread(nodeMap, last[..i])
      invariant block.srcNodeID == old(block.srcNodeID) && block.nodeList == old(block.nodeList)
      invariant block.blockSize == old(block.blockSize)
      invariant flag == (tmp != []) && InRange(met, viewedTable.Length)
      invariant Scan(viewedTable[..], block.nodeViewed, block.holoNode, tmp)
                == VisitAll(start, block.srcNodeID, |block.nodeList|, met)
    {
      SpreadPrefix(nodeMap, last, i, viewedTable.Length);
      var claimed;
      tmp, claimed := VisitNode(nodeMap, last[i], block, viewedTable, tmp, start, met);
      met := met + Adj(nodeMap, last[i]);
      if claimed {
        flag := true;
      }
      i := i + 1;
    }
    assert last[..i] == last;
    if flag {
      block.nodeList := block.nodeList + [tmp];
    }
  }

  lemma {:induction false} NothingMet(g: Graph, sc: Scan, src: int, depth: nat)
    ensures Spread(g, []) == [] && VisitAll(sc, src, depth, []) == sc
  {
  }

  lemma {:induction false} SpreadPrefix(g: Graph, nodes: seq<int>, i: nat, n: nat)
    requires i < |nodes| && InRange(Spread(g, nodes), n)
    ensures Spread(g, nodes[..i + 1]) == Spread(g, nodes[..i]) + Adj(g, nodes[i])
    ensures InRange(Spread(g, nodes[..i]) + Adj(g, nodes[i]), n)
    decreases |nodes|
  {
    assert nodes[..i + 1][..i] == nodes[..i];
    var m := |nodes| - 1;
    if i == m {
      assert nodes[..i + 1] == nodes;
    } else {
      forall q | 0 <= q < |Spread(g, nodes[..m])| ensures 0 <= Spread(g, nodes[..m])[q] < n {
        assert Spread(g, nodes)[q] == Spread(g, nodes[..m])[q];
      }
      SpreadPrefix(g, nodes[..m], i, n);
      assert nodes[..m][..i] == nodes[..i] && nodes[..m][..i + 1] == nodes[..i + 1];
    }
  }

  /** Grows one block per training seed until none can grow. */
  method NodeBlockConstruct(nodeMap: Graph, nodeClassList: seq<seq<int>>, viewedTable: array<int>)
    returns (blocks: seq<Block>)
    requires |nodeClassList| > 0 && Input(nodeMap, nodeClassList[0], viewedTable.Length)
    requires forall v :: 0 <= v < viewedTable.Length ==> viewedTable[v] == UNCLAIMED
    modifies viewedTable
    ensures |blocks| == |nodeClassList[0]| && NoDup(blocks) && forall j :: 0 <= j < |blocks| ==> fresh(blocks[j])
    ensures Decomposed(nodeMap, nodeClassList[0], viewedTable.Length, viewedTable[..], Views(blocks))
    ensures forall j :: 0 <= j < |blocks| ==>
              blocks[j].blockId == j && blocks[j].partitionId == -1 &&
              blocks[j].blockSize == |blocks[j].View().Members()|
  {
    hide SeedInv, Decomposed;
    ghost var bs;
    blocks, bs := SeedBlocks(nodeMap, nodeClassList[0], viewedTable);
    bs := GrowBlocks(nodeMap, nodeClassList[0], blocks, bs, viewedTable);
    NumberBlocks(blocks, bs);
    assert Views(blocks) == bs;
  }

  /** The rounds, until none claims a node. */
  method GrowBlocks(
      nodeMap: Graph, ghost seeds: seq<int>, blocks: seq<Block>, ghost bs: seq<BlockState>,
      viewedTable: array<int>)
    returns (ghost bs': seq<BlockState>)
    requires Input(nodeMap, seeds, viewedTable.Length) && |blocks| == |seeds| && Same(blocks, bs)
    requires SeedInv(nodeMap, seeds, viewedTable.Length, |seeds|, viewedTable[..], bs)
    modifies blocks, viewedTable
    ensures Same(blocks, bs') && Decomposed(nodeMap, seeds, viewedTable.Length, viewedTable[..], bs')
  {
    hide RoundInv, SeedInv, Decomposed, Claimed, Bounded;
    ghost var n := viewedTable.Length;
    bs' := bs;
    var activeBlocksTable := new int[|blocks|](i => i);
    ghost var active := seq(|seeds|, i => true);
    RoundsStart(nodeMap, seeds, n, viewedTable[..], bs, active);
    ghost var r := 1;
    var blocksActive := true;
    while blocksActive
      invariant Same(blocks, bs') && Tracks(activeBlocksTable[..], active) && |active| == |seeds|
      invariant RoundInv(nodeMap, seeds, n, r, 0, viewedTable[..], bs', active)
      invariant !blocksActive ==> Decomposed(nodeMap, seeds, n, viewedTable[..], bs')
      decreases n - |Claimed(viewedTable[..])|, blocksActive
    {
      blocksActive, bs', active := Round(nodeMap, seeds, r, blocks, bs', activeBlocksTable, active, viewedTable);
      RoundEnd(nodeMap, seeds, n, r, viewedTable[..], bs', active);
      if !blocksActive {
        Finished(nodeMap, seeds, n, r, viewedTable[..], bs', active);
      }
      ClaimedBound(viewedTable[..]);
      r := r + 1;
    }
  }

  /** `refactorBlock` on every block. */
  method NumberBlocks(blocks: seq<Block>, ghost bs: seq<BlockState>)
    requires Same(blocks, bs)
    modifies blocks
    ensures Same(blocks, bs)
    ensures forall j :: 0 <= j < |blocks| ==>
              blocks[j].blockId == j && blocks[j].partitionId == -1 &&
              blocks[j].blockSize == |blocks[j].View().Members()|
  {
    var index := 0;
    while index < |blocks|
      invariant 0 <= index <= |blocks| && Same(blocks, bs)
      invariant forall j :: 0 <= j < index ==>
                  blocks[j].blockId == j && blocks[j].partitionId == -1 &&
                  blocks[j].blockSize == |blocks[j].View().Members()|
    {
      blocks[index].RefactorBlock(index);
      index := index + 1;
    }
  }

  /** The objects hold the values, and no object stands twice in the list. */
  ghost predicate Same(blocks: seq<Block>, bs: seq<BlockState>)
    reads blocks
  {
    && |bs| == |blocks| && NoDup(blocks)
    && forall j :: 0 <= j < |blocks| ==> blocks[j].View() == bs[j]
  }

  /** An entry of the active table is its own index, or -1. */
  ghost predicate Tracks(entries: seq<int>, active: seq<bool>) {
    && |entries| == |active|
    && forall j :: 0 <= j < |entries| ==> entries[j] == if active[j] then j else -1
  }

  lemma {:induction false} ClaimedBound(table: seq<int>)
    ensures |Claimed(table)| <= |table|
  {
    UptoCard(|table|);
    SubsetCard(Claimed(table), Upto(|table|));
  }

  /** The seed loop. */
  method SeedBlocks(
      nodeMap: Graph, seeds: seq<int>, viewedTable: array<int>) returns (blocks: seq<Block>,
      ghost bs: seq<BlockState>)
    requires Input(nodeMap, seeds, viewedTable.Length)
    requires forall v :: 0 <= v < viewedTable.Length ==> viewedTable[v] == UNCLAIMED
    modifies viewedTable
    ensures |blocks| == |seeds| && Same(blocks, bs) && forall j :: 0 <= j < |blocks| ==> fresh(blocks[j])
    ensures SeedInv(nodeMap, seeds, viewedTable.Length, |seeds|, viewedTable[..], bs)
  {
    hide SeedInv, Sprout, SproutBlock;
    blocks, bs := [], [];
    NothingClaimed(nodeMap, seeds, viewedTable[..]);
    var m := 0;
    while m < |seeds|
      invariant 0 <= m <= |seeds| && |blocks| == m && Same(blocks, bs)
      invariant forall j :: 0 <= j < |blocks| ==> fresh(blocks[j])
      invariant SeedInv(nodeMap, seeds, viewedTable.Length, m, viewedTable[..], bs)
    {
      SeedStep(nodeMap, seeds, viewedTable.Length, m, viewedTable[..], bs);
      ghost var sc := Sprout(nodeMap, viewedTable[..], seeds[m]);
      var block := SeedBlock(nodeMap, seeds[m], viewedTable);
      blocks := blocks + [block];
      bs := bs + [SproutBlock(seeds[m], sc)];
      m := m + 1;
    }
  }

  lemma {:induction false} NothingClaimed(g: Graph, seeds: seq<int>, table: seq<int>)
    requires Input(g, seeds, |table|)
    requires forall v :: 0 <= v < |table| ==> table[v] == UNCLAIMED
    ensures SeedInv(g, seeds, |table|, 0, table, [])
  {
    assert seeds[..0] == [];
    assert Claimed(table) == {};
    forall v ensures v !in Ball(g, Nodes(seeds[..0]), 1) {
      BallStep(g, Nodes(seeds[..0]), 0, v);
    }
  }

  /** The turn of an active entry. */
  method GrowEntry(nodeMap: Graph, ghost seeds: seq<int>, ghost r: nat, blocks: seq<Block>, i: nat,
                   ghost bs: seq<BlockState>, ghost active: seq<bool>, viewedTable: array<int>)
    returns (flag: bool, ghost bs': seq<BlockState>)
    requires Input(nodeMap, seeds, viewedTable.Length) && |blocks| == |seeds| == |active|
    requires Same(blocks, bs) && i < |seeds| && active[i]
    requires RoundInv(nodeMap, seeds, viewedTable.Length, r, i, viewedTable[..], bs, active)
    modifies blocks[i], viewedTable
    ensures Same(blocks, bs') && |bs'| == |bs|
    ensures RoundInv(nodeMap, seeds, viewedTable.Length, r, i + 1, viewedTable[..], bs', active[i := flag])
    ensures |Claimed(viewedTable[..])| >= |Claimed(old(viewedTable[..]))|
    ensures flag ==> |Claimed(viewedTable[..])| > |Claimed(old(viewedTable[..]))|
  {
    hide RoundInv, Claimed, ScanFacts, Grown, Bounded, ScanOf, Spread, InRange;
    ghost var n, b, table := viewedTable.Length, bs[i], viewedTable[..];
    RoundReady(nodeMap, seeds, n, r, i, table, bs, active, b);
    ghost var sc := ScanOf(nodeMap, table, b);
    RoundStep(nodeMap, seeds, n, r, i, table, bs, active, b, sc);
    flag := GrowBlock(nodeMap, blocks[i], viewedTable);
    bs' := bs[i := Grown(b, sc)];
  }

  /** One pass over the active table. */
  method Round(nodeMap: Graph, ghost seeds: seq<int>, ghost r: nat, blocks: seq<Block>, ghost bs: seq<BlockState>,
               activeBlocksTable: array<int>, ghost active: seq<bool>, viewedTable: array<int>)
    returns (blocksActive: bool, ghost bs': seq<BlockState>, ghost active': seq<bool>)
    requires Input(nodeMap, seeds, viewedTable.Length) && |blocks| == |seeds| && activeBlocksTable != viewedTable
    requires Same(blocks, bs) && Tracks(activeBlocksTable[..], active) && |active| == |seeds|
    requires RoundInv(nodeMap, seeds, viewedTable.Length, r, 0, viewedTable[..], bs, active)
    modifies blocks, activeBlocksTable, viewedTable
    ensures Same(blocks, bs') && Tracks(activeBlocksTable[..], active') && |active'| == |seeds|
    ensures RoundInv(nodeMap, seeds, viewedTable.Length, r, |seeds|, viewedTable[..], bs', active')
    ensures !blocksActive ==> forall j :: 0 <= j < |active'| ==> !active'[j]
    ensures |Claimed(viewedTable[..])| >= |Claimed(old(viewedTable[..]))|
    ensures blocksActive ==> |Claimed(viewedTable[..])| > |Claimed(old(viewedTable[..]))|
  {
    hide RoundInv, Claimed, ScanFacts, Grown, Bounded, ScanOf, Spread, InRange;
    blocksActive, bs', active' := false, bs, active;
    var n := viewedTable.Length;
    var i := 0;
    while i < activeBlocksTable.Length
      invariant 0 <= i <= |seeds| == activeBlocksTable.Length
      invariant Same(blocks, bs') && Tracks(activeBlocksTable[..], active')
      invariant RoundInv(nodeMap, seeds, n, r, i, viewedTable[..], bs', active')
      invariant !blocksActive ==> forall j :: 0 <= j < i ==> !active'[j]
      invariant |Claimed(viewedTable[..])| >= |Claimed(old(viewedTable[..]))|
      invariant blocksActive ==> |Claimed(viewedTable[..])| > |Claimed(old(viewedTable[..]))|
    {
      var blockId := activeBlocksTable[i];
      if blockId == -1 {
        RoundSkip(nodeMap, seeds, n, r, i, viewedTable[..], bs', active');
      } else {
        var flag;
        flag, bs' := GrowEntry(nodeMap, seeds, r, blocks, blockId, bs', active', viewedTable);
        active' := active'[i := flag];
        if flag {
          blocksActive := true;
        } else {
          activeBlocksTable[i] := -1;
        }
      }
      i := i + 1;
    }
  }
}
