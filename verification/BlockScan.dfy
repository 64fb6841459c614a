/** What one scan of a block's last layer does, on values. */
module BlockScan {
  import opened Sequences
  import opened Graphs

  /** The entry of `viewedTable` that says "not claimed by any block". */
  const UNCLAIMED: int := -1

  /** Halo nodes are recorded only while a block has at most this many layers. */
  const HOLO_LAYER: nat := 3

  /** The value of a block: its seed, its layers, the keys of `nodeViewed`, its halo. */
  datatype BlockState = BlockState(src: int, layers: seq<seq<int>>, seen: set<int>, halo: seq<int>)
  {
    function Members(): seq<int> {
      Flat(layers)
    }

    /** The layers whose outer neighbours are recorded as halo. */
    function Inner(): seq<int> {
      Flat(layers[..if |layers| < HOLO_LAYER then |layers| else HOLO_LAYER])
    }

    ghost function LayerAt(k: nat): iset<int> {
      if k < |layers| then Nodes(layers[k]) else iset{}
    }
  }

  /** The state of one scan: the shared table, the block's own records and the
      layer under construction. */
  datatype Scan = Scan(table: seq<int>, seen: set<int>, halo: seq<int>, newest: seq<int>)

  // ----- one scan -----

  /** One neighbour of the last layer: claim it, or record it as halo. */
  function Visit(sc: Scan, src: int, depth: nat, x: int): (r: Scan)
    requires 0 <= x < |sc.table|
    ensures |r.table| == |sc.table|
  {
    if sc.table[x] == UNCLAIMED then
      Scan(sc.table[x := src], sc.seen + {x}, sc.halo, sc.newest + [x])
    else if depth <= HOLO_LAYER && x !in sc.seen then
      Scan(sc.table, sc.seen + {x}, sc.halo + [x], sc.newest)
    else
      sc
  }

  ghost predicate InRange(xs: seq<int>, n: nat) {
    forall i :: 0 <= i < |xs| ==> 0 <= xs[i] < n
  }

  function VisitAll(sc: Scan, src: int, depth: nat, xs: seq<int>): (r: Scan)
    requires InRange(xs, |sc.table|)
    ensures |r.table| == |sc.table|
  {
    if xs == [] then sc else Visit(VisitAll(sc, src, depth, xs[..|xs| - 1]), src, depth, xs[|xs| - 1])
  }

  /** All neighbours of a list of nodes, in the order the nested loops meet them. */
  function Spread(g: Graph, nodes: seq<int>): seq<int> {
    if nodes == [] then [] else Spread(g, nodes[..|nodes| - 1]) + Adj(g, nodes[|nodes| - 1])
  }

  lemma {:induction false} SpreadIsNext(g: Graph, nodes: seq<int>)
    ensures Nodes(Spread(g, nodes)) == Next(g, Nodes(nodes))
    decreases |nodes|
  {
    if nodes != [] {
      var m := |nodes| - 1;
      SpreadIsNext(g, nodes[..m]);
      assert nodes == nodes[..m] + [nodes[m]];
      assert Nodes(nodes) == Nodes(nodes[..m]) + iset{nodes[m]};
      forall x ensures x in Nodes(Spread(g, nodes)) <==> x in Next(g, Nodes(nodes)) {
        assert x in Spread(g, nodes) <==> x in Nodes(Spread(g, nodes[..m])) || x in Adj(g, nodes[m]);
      }
    }
  }

  lemma {:induction false} SpreadBounded(g: Graph, nodes: seq<int>, n: nat)
    requires Bounded(g, n)
    ensures InRange(Spread(g, nodes), n)
    decreases |nodes|
  {
    if nodes != [] {
      SpreadBounded(g, nodes[..|nodes| - 1], n);
    }
  }

  /** The meaning of a scan, with no reference to its order: the new layer is
      exactly the unclaimed neighbours, each once; the new halo entries are
      exactly the neighbours that were claimed and not yet seen, each once. */
  ghost predicate ScanMeaning(a: Scan, b: Scan, src: int, depth: nat, xs: seq<int>) {
    && |b.table| == |a.table|
    && NoDup(b.newest)
    && (forall x :: x in b.newest <==> x in xs && 0 <= x < |a.table| && a.table[x] == UNCLAIMED)
    && (forall v :: 0 <= v < |a.table| ==> b.table[v] == if v in b.newest then src else a.table[v])
    && b.seen == a.seen + SetOf(b.newest) + (if depth <= HOLO_LAYER then SetOf(xs) else {})
    && a.halo <= b.halo
    && NoDup(b.halo[|a.halo|..])
    && (forall x :: x in b.halo[|a.halo|..] <==>
          depth <= HOLO_LAYER && x in xs && 0 <= x < |a.table| && a.table[x] != UNCLAIMED && x !in a.seen)
  }

  lemma {:induction false} ScanMeans(a: Scan, src: int, depth: nat, xs: seq<int>)
    requires InRange(xs, |a.table|)
    requires src != UNCLAIMED && a.newest == []
    ensures ScanMeaning(a, VisitAll(a, src, depth, xs), src, depth, xs)
    decreases |xs|
  {
    if xs != [] {
      var m := |xs| - 1;
      var ys, x := xs[..m], xs[m];
      assert xs == ys + [x];
      ScanMeans(a, src, depth, ys);
      ScanStep(a, VisitAll(a, src, depth, ys), src, depth, ys, x);
    }
  }

  /** `ys` are met in this order when `xs` is read from the front. */
  ghost predicate MetInOrder(ys: seq<int>, xs: seq<int>) {
    forall i, j :: 0 <= i < j < |ys| ==> Before(ys[i], ys[j], xs)
  }

  /** x occurs in `xs` before y does. */
  ghost predicate Before(x: int, y: int, xs: seq<int>) {
    exists p :: 0 <= p < |xs| && xs[p] == x && y !in xs[..p + 1]
  }

  lemma {:induction false} BeforeStays(x: int, y: int, xs: seq<int>, z: int)
    requires Before(x, y, xs)
    ensures Before(x, y, xs + [z])
  {
    var p :| 0 <= p < |xs| && xs[p] == x && y !in xs[..p + 1];
    assert (xs + [z])[p] == x && (xs + [z])[..p + 1] == xs[..p + 1];
  }

  lemma {:induction false} BeforeNew(x: int, xs: seq<int>, z: int)
    requires x in xs && z !in xs
    ensures Before(x, z, xs + [z])
  {
    var p :| 0 <= p < |xs| && xs[p] == x;
    assert (xs + [z])[p] == x && (xs + [z])[..p + 1] == xs[..p + 1];
    assert z !in xs[..p + 1];
  }

  lemma {:induction false} MetNext(ys: seq<int>, xs: seq<int>, z: int, more: bool)
    requires MetInOrder(ys, xs) && (forall y :: y in ys ==> y in xs) && (more ==> z !in xs)
    ensures MetInOrder(ys + if more then [z] else [], xs + [z])
  {
    hide Before;
    var zs := ys + if more then [z] else [];
    forall i, j | 0 <= i < j < |zs| ensures Before(zs[i], zs[j], xs + [z]) {
      if j < |ys| {
        BeforeStays(ys[i], ys[j], xs, z);
      } else {
        assert ys[i] in ys;
        BeforeNew(ys[i], xs, z);
      }
    }
  }

  /** The new layer and the new halo entries are in the order in which the neighbours
      are met. */
  lemma {:induction false} ScanInOrder(a: Scan, src: int, depth: nat, xs: seq<int>)
    requires InRange(xs, |a.table|)
    requires src != UNCLAIMED && a.newest == []
    ensures var b := VisitAll(a, src, depth, xs);
            a.halo <= b.halo && MetInOrder(b.newest, xs) && MetInOrder(b.halo[|a.halo|..], xs)
    decreases |xs|
  {
    ScanMeans(a, src, depth, xs);
    if xs != [] {
      var m := |xs| - 1;
      var ys, x := xs[..m], xs[m];
      assert xs == ys + [x];
      ScanMeans(a, src, depth, ys);
      ScanInOrder(a, src, depth, ys);
      OrderStep(a, VisitAll(a, src, depth, ys), src, depth, ys, x);
    }
  }

  lemma {:induction false} OrderStep(a: Scan, b: Scan, src: int, depth: nat, ys: seq<int>, x: int)
    requires ScanMeaning(a, b, src, depth, ys)
    requires 0 <= x < |a.table| && src != UNCLAIMED
    requires MetInOrder(b.newest, ys) && MetInOrder(b.halo[|a.halo|..], ys)
    ensures var c := Visit(b, src, depth, x);
            && a.halo <= c.halo
            && MetInOrder(c.newest, ys + [x]) && MetInOrder(c.halo[|a.halo|..], ys + [x])
  {
    var c := Visit(b, src, depth, x);
    var claims := b.table[x] == UNCLAIMED;
    var notes := !claims && depth <= HOLO_LAYER && x !in b.seen;
    assert claims ==> a.table[x] == UNCLAIMED && x !in b.newest && x !in ys;
    assert notes ==> x !in SetOf(ys) && x !in ys;
    assert c.newest == b.newest + if claims then [x] else [];
    assert c.halo[|a.halo|..] == b.halo[|a.halo|..] + if notes then [x] else [];
    hide MetInOrder;
    MetNext(b.newest, ys, x, claims);
    MetNext(b.halo[|a.halo|..], ys, x, notes);
  }

  /** The neighbours are met node by node, in the order of the nodes and of their lists. */
  lemma {:induction false} SpreadInOrder(g: Graph, a: seq<int>, b: seq<int>)
    ensures Spread(g, a + b) == Spread(g, a) + Spread(g, b)
    decreases |b|
  {
    hide Adj;
    if b == [] {
      assert a + b == a;
      assert Spread(g, b) == [];
    } else {
      var m := |b| - 1;
      var ab := a + b;
      SpreadInOrder(g, a, b[..m]);
      assert ab[..|ab| - 1] == a + b[..m];
      var x, y, z := Spread(g, a), Spread(g, b[..m]), Adj(g, b[m]);
      assert x + (y + z) == x + y + z;
    }
  }

  lemma {:induction false} SpreadOne(g: Graph, u: int)
    ensures Spread(g, [u]) == Adj(g, u)
  {
    assert [u][..0] == [];
    assert Spread(g, [u][..0]) == [];
  }

  lemma {:induction false} ScanStep(a: Scan, b: Scan, src: int, depth: nat, ys: seq<int>, x: int)
    requires ScanMeaning(a, b, src, depth, ys)
    requires 0 <= x < |a.table| && src != UNCLAIMED
    ensures ScanMeaning(a, Visit(b, src, depth, x), src, depth, ys + [x])
  {
    var c := Visit(b, src, depth, x);
    assert SetOf(ys + [x]) == SetOf(ys) + {x};
    if b.table[x] == UNCLAIMED {
      assert SetOf(c.newest) == SetOf(b.newest) + {x};
      assert x !in b.newest;
      assert a.table[x] == UNCLAIMED;
    } else if depth <= HOLO_LAYER && x !in b.seen {
      assert c.halo[|a.halo|..] == b.halo[|a.halo|..] + [x];
      assert x !in SetOf(b.newest) && x !in SetOf(ys);
    } else {
      assert depth <= HOLO_LAYER ==> x in b.seen;
      if depth <= HOLO_LAYER && x !in a.seen {
        assert x in SetOf(b.newest) || x in SetOf(ys);
      }
    }
  }
}
