/** Counting the messages that sampling needs between partitions, and the number of
    training nodes of each partition. */
module ReplicaCount {
  import opened Sequences

  /** `node_partition_map`: the first entry of a list is the node's home partition. */
  type Lists = map<int, seq<int>>

  function At(lists: Lists, v: int): seq<int> {
    if v in lists then lists[v] else []
  }

  /** One entry of the sample map, in the order the loop meets it. */
  datatype Sample = Sample(node: int, sampled: seq<int>)

  ghost predicate OrderOf(order: seq<Sample>, samples: map<int, seq<int>>) {
    && (forall i :: 0 <= i < |order| ==> order[i].node in samples && samples[order[i].node] == order[i].sampled)
    && (forall i, j :: 0 <= i < j < |order| ==> order[i].node != order[j].node)
    && (forall t :: t in samples ==> exists i :: 0 <= i < |order| && order[i].node == t)
  }

  ghost predicate HaveHomes(lists: Lists, samples: map<int, seq<int>>) {
    forall t :: t in samples ==> At(lists, t) != []
  }

  function Home(lists: Lists, t: int): int {
    if At(lists, t) != [] then At(lists, t)[0] else -1
  }

  /** The pairs (partition, node) for which a training node homed in the partition
      samples a node that had no copy there. No order is involved. */
  ghost function MessagePairs(lists: Lists, samples: map<int, seq<int>>): set<(int, int)> {
    set t, v | t in samples && v in samples[t] && Home(lists, t) !in At(lists, v) :: (Home(lists, t), v)
  }

  ghost function PairsOf(lists: Lists, p: int, vs: seq<int>): set<(int, int)> {
    set v | v in vs && p !in At(lists, v) :: (p, v)
  }

  ghost function PairsUpTo(lists: Lists, order: seq<Sample>): set<(int, int)> {
    if order == [] then {}
    else
      var s := order[|order| - 1];
      PairsUpTo(lists, order[..|order| - 1]) + PairsOf(lists, Home(lists, s.node), s.sampled)
  }

  lemma {:induction false} PairsUpToMember(lists: Lists, order: seq<Sample>, p: int, v: int)
    ensures (p, v) in PairsUpTo(lists, order) <==>
            p !in At(lists, v) &&
            exists i :: 0 <= i < |order| && Home(lists, order[i].node) == p && v in order[i].sampled
    decreases |order|
  {
    if order != [] {
      var m := |order| - 1;
      PairsUpToMember(lists, order[..m], p, v);
      if (p, v) in PairsUpTo(lists, order[..m]) {
        var i :| 0 <= i < m && Home(lists, order[..m][i].node) == p && v in order[..m][i].sampled;
        assert Home(lists, order[i].node) == p;
      }
      if p !in At(lists, v) {
        if i :| 0 <= i < |order| && Home(lists, order[i].node) == p && v in order[i].sampled {
          if i < m {
            assert order[..m][i] == order[i];
          }
        }
      }
    }
  }

  /** Every iteration order of the sample map meets the same pairs. */
  lemma {:induction false} OrderDoesNotMatter(lists: Lists, samples: map<int, seq<int>>, order: seq<Sample>)
    requires OrderOf(order, samples)
    ensures PairsUpTo(lists, order) == MessagePairs(lists, samples)
  {
    forall x: (int, int) ensures x in PairsUpTo(lists, order) <==> x in MessagePairs(lists, samples) {
      var (p, v) := x;
      PairsUpToMember(lists, order, p, v);
      if (p, v) in PairsUpTo(lists, order) {
        var i :| 0 <= i < |order| && Home(lists, order[i].node) == p && v in order[i].sampled;
        assert order[i].node in samples && v in samples[order[i].node];
      }
      if (p, v) in MessagePairs(lists, samples) {
        var t :| t in samples && v in samples[t] && Home(lists, t) !in At(lists, v) && Home(lists, t) == p;
        var i :| 0 <= i < |order| && order[i].node == t;
        assert v in order[i].sampled;
      }
    }
  }

  // ----- the total length of the lists -----

  ghost function Total(lists: Lists, ks: set<int>): nat {
    if exists k :: k in ks then
      var k :| k in ks;
      |At(lists, k)| + Total(lists, ks - {k})
    else 0
  }

  lemma {:induction false} TotalPick(lists: Lists, ks: set<int>, k: int)
    requires k in ks
    ensures Total(lists, ks) == |At(lists, k)| + Total(lists, ks - {k})
    decreases |ks|
  {
    var q :| q in ks && Total(lists, ks) == |At(lists, q)| + Total(lists, ks - {q});
    if q != k {
      TotalPick(lists, ks - {q}, k);
      TotalPick(lists, ks - {k}, q);
      assert ks - {q} - {k} == ks - {k} - {q};
    }
  }

  lemma {:induction false} TotalSame(a: Lists, b: Lists, ks: set<int>)
    requires forall k :: k in ks ==> |At(a, k)| == |At(b, k)|
    ensures Total(a, ks) == Total(b, ks)
    decreases |ks|
  {
    if k :| k in ks {
      TotalPick(a, ks, k);
      TotalPick(b, ks, k);
      TotalSame(a, b, ks - {k});
    }
  }

  lemma {:induction false} TotalUpdate(lists: Lists, ks: set<int>, v: int, l: seq<int>)
    requires v in ks
    ensures Total(lists[v := l], ks) == Total(lists, ks) - |At(lists, v)| + |l|
  {
    TotalPick(lists, ks, v);
    TotalPick(lists[v := l], ks, v);
    TotalSame(lists, lists[v := l], ks - {v});
  }

  /** All nodes that the lists or the samples name. */
  ghost function Named(lists: Lists, samples: map<int, seq<int>>): set<int> {
    lists.Keys + set t, i | t in samples && 0 <= i < |samples[t]| :: samples[t][i]
  }

  /** The lists after the pairs in `done` were added to `before`. */
  ghost predicate Grew(before: Lists, now: Lists, done: set<(int, int)>) {
    && (forall v :: At(before, v) <= At(now, v))
    && (forall p, v :: p in At(now, v) <==> p in At(before, v) || (p, v) in done)
    && (forall p, v :: (p, v) in done ==> p !in At(before, v))
  }

  ghost function AddedPair(before: Lists, p: int, v: int): set<(int, int)> {
    if p in At(before, v) then {} else {(p, v)}
  }

  lemma {:induction false} GrewOne(before: Lists, a: Lists, b: Lists, done: set<(int, int)>, p: int, v: int, sent: bool)
    requires Grew(before, a, done) && (sent <==> p !in At(a, v))
    requires forall u :: At(b, u) == At(a, u) + if sent && u == v then [p] else []
    ensures Grew(before, b, done + AddedPair(before, p, v))
    ensures |done + AddedPair(before, p, v)| == |done| + if sent then 1 else 0
  {
    hide At;
    if sent {
      assert AddedPair(before, p, v) == {(p, v)} && (p, v) !in done;
    } else {
      assert done + AddedPair(before, p, v) == done;
    }
  }

  class ReplicaCounter {
    var lists: Lists

    constructor (initial: Lists)
      ensures lists == initial
    {
      lists := initial;
    }

    /** One sampled node: a message and a new copy if the partition has none. */
    method CountOne(p: int, v: int, ghost ks: set<int>) returns (sent: bool)
      requires v in ks
      modifies this
      ensures sent <==> p !in At(old(lists), v)
      ensures forall u :: At(lists, u) == At(old(lists), u) + if sent && u == v then [p] else []
      ensures Total(lists, ks) == Total(old(lists), ks) + if sent then 1 else 0
    {
      hide Total;
      var partIds := At(lists, v);
      TotalUpdate(lists, ks, v, partIds);
      lists := lists[v := partIds];
      sent := p !in partIds;
      if sent {
        TotalUpdate(lists, ks, v, partIds + [p]);
        lists := lists[v := partIds + [p]];
      }
    }

    /** The sampled nodes of one training node homed in p. */
    method CountList(p: int, sampled: seq<int>, ghost before: Lists, ghost done: set<(int, int)>, ghost ks: set<int>)
      returns (sent: nat)
      requires Grew(before, lists, done) && forall k :: 0 <= k < |sampled| ==> sampled[k] in ks
      modifies this
      ensures Grew(before, lists, done + PairsOf(before, p, sampled))
      ensures |done + PairsOf(before, p, sampled)| == |done| + sent
      ensures Total(lists, ks) == Total(old(lists), ks) + sent
    {
      hide Total, PairsOf, Grew, AddedPair, At;
      sent := 0;
      ghost var met := done;
      NoPairs(before, p);
      var k := 0;
      while k < |sampled|
        invariant 0 <= k <= |sampled| && met == done + PairsOf(before, p, sampled[..k])
        invariant Grew(before, lists, met) && |met| == |done| + sent
        invariant Total(lists, ks) == Total(old(lists), ks) + sent
      {
        PairsOfSnoc(before, p, sampled, k);
        ghost var was := lists;
        var one := CountOne(p, sampled[k], ks);
        GrewOne(before, was, lists, met, p, sampled[k], one);
        if one {
          sent := sent + 1;
        }
        met := met + AddedPair(before, p, sampled[k]);
        k := k + 1;
      }
      assert sampled[..k] == sampled;
    }

    /** All sampled nodes of training node i. */
    method CountNode(order: seq<Sample>, i: nat, ghost samples: map<int, seq<int>>,
                     ghost before: Lists, ghost done: set<(int, int)>, ghost ks: set<int>) returns (sent: nat)
      requires OrderOf(order, samples) && HaveHomes(before, samples) && ks == Named(before, samples)
      requires i < |order| && Grew(before, lists, done) && done == PairsUpTo(before, order[..i])
      modifies this
      ensures Grew(before, lists, PairsUpTo(before, order[..i + 1]))
      ensures |PairsUpTo(before, order[..i + 1])| == |done| + sent
      ensures Total(lists, ks) == Total(old(lists), ks) + sent
    {
      hide PairsUpTo, Total, Named, PairsOf, Grew, OrderOf, HaveHomes, At, Home;
      HomeKept(before, lists, done, samples, order, i);
      var nodePartitionId := At(lists, order[i].node)[0];
      InNamed(before, samples, order[i].node);
      PairsUpToSnoc(before, order, i);
      sent := CountList(nodePartitionId, order[i].sampled, before, done, ks);
    }

    /** The number of messages is the number of pairs, whatever the order, and also
        the growth of the lists. */
    method CountMsg(order: seq<Sample>, ghost samples: map<int, seq<int>>) returns (msgCount: nat)
      requires OrderOf(order, samples) && HaveHomes(lists, samples)
      modifies this
      ensures msgCount == |MessagePairs(old(lists), samples)|
      ensures Grew(old(lists), lists, MessagePairs(old(lists), samples))
      ensures var ks := Named(old(lists), samples);
              Total(lists, ks) == Total(old(lists), ks) + msgCount
    {
      msgCount := 0;
      ghost var before, ks := lists, Named(lists, samples);
      ghost var done: set<(int, int)> := {};
      var i := 0;
      hide PairsUpTo, Total, Named, MessagePairs, PairsOf, OrderOf, HaveHomes, At, Home;
      GrewNothing(before);
      NoPairsYet(before, order);
      while i < |order|
        invariant 0 <= i <= |order| && done == PairsUpTo(before, order[..i])
        invariant Grew(before, lists, done) && msgCount == |done|
        invariant Total(lists, ks) == Total(before, ks) + msgCount
      {
        hide Grew;
        var sent := CountNode(order, i, samples, before, done, ks);
        msgCount := msgCount + sent;
        done := PairsUpTo(before, order[..i + 1]);
        i := i + 1;
      }
      assert order[..i] == order;
      OrderDoesNotMatter(before, samples, order);
    }
  }

  lemma {:induction false} GrewNothing(lists: Lists)
    ensures Grew(lists, lists, {})
  {
  }

  lemma {:induction false} NoPairsYet(lists: Lists, order: seq<Sample>)
    ensures PairsUpTo(lists, order[..0]) == {}
  {
  }

  lemma {:induction false} NoPairs(lists: Lists, p: int)
    ensures PairsOf(lists, p, []) == {}
  {
  }

  /** A training node's first entry never moves. */
  lemma {:induction false} HomeKept(before: Lists, now: Lists, done: set<(int, int)>, samples: map<int, seq<int>>,
                                    order: seq<Sample>, i: nat)
    requires Grew(before, now, done) && OrderOf(order, samples) && HaveHomes(before, samples) && i < |order|
    ensures order[i].node in samples && samples[order[i].node] == order[i].sampled
    ensures At(now, order[i].node) != [] && At(now, order[i].node)[0] == Home(before, order[i].node)
  {
    hide At;
    var t := order[i].node;
    assert At(before, t) != [] && At(before, t) <= At(now, t);
  }

  lemma {:induction false} PairsOfSnoc(lists: Lists, p: int, vs: seq<int>, k: nat)
    requires k < |vs|
    ensures PairsOf(lists, p, vs[..k + 1])
            == PairsOf(lists, p, vs[..k]) + AddedPair(lists, p, vs[k])
  {
    assert vs[..k + 1] == vs[..k] + [vs[k]];
  }

  lemma {:induction false} PairsUpToSnoc(lists: Lists, order: seq<Sample>, i: nat)
    requires i < |order|
    ensures PairsUpTo(lists, order[..i + 1])
            == PairsUpTo(lists, order[..i]) + PairsOf(lists, Home(lists, order[i].node), order[i].sampled)
  {
    assert order[..i + 1][..i] == order[..i];
  }

  lemma {:induction false} InNamed(lists: Lists, samples: map<int, seq<int>>, t: int)
    requires t in samples
    ensures forall k :: 0 <= k < |samples[t]| ==> samples[t][k] in Named(lists, samples)
  {
  }

  // ----- balance -----

  function Homes(lists: Lists, nodes: seq<int>): (r: seq<int>)
    ensures |r| == |nodes| && forall i :: 0 <= i < |nodes| ==> r[i] == Home(lists, nodes[i])
  {
    seq(|nodes|, i requires 0 <= i < |nodes| => Home(lists, nodes[i]))
  }

  ghost function Largest(s: seq<int>): (r: int)
    requires s != []
    ensures r in s && forall x :: x in s ==> x <= r
  {
    var m := |s| - 1;
    assert s == s[..m] + [s[m]];
    if m == 0 then s[0]
    else if s[m] > Largest(s[..m]) then s[m] else Largest(s[..m])
  }

  ghost function SumCounts(counts: seq<int>): int {
    if counts == [] then 0 else SumCounts(counts[..|counts| - 1]) + counts[|counts| - 1]
  }

  /** The map of the first loop: the count of each partition that occurs. */
  ghost predicate Counted(counts: map<int, int>, homes: seq<int>) {
    && counts.Keys == SetOf(homes)
    && forall p :: p in counts ==> counts[p] == multiset(homes)[p]
  }

  method CountHomes(trainNodeList: seq<int>, lists: Lists) returns (balanceCount: map<int, int>)
    requires forall i :: 0 <= i < |trainNodeList| ==> At(lists, trainNodeList[i]) != []
    ensures Counted(balanceCount, Homes(lists, trainNodeList))
  {
    ghost var homes := Homes(lists, trainNodeList);
    balanceCount := map[];
    var k := 0;
    while k < |trainNodeList|
      invariant 0 <= k <= |trainNodeList| && Counted(balanceCount, homes[..k])
    {
      var p := At(lists, trainNodeList[k])[0];
      assert homes[k] == p;
      assert homes[..k + 1] == homes[..k] + [p];
      if p !in balanceCount {
        assert p !in homes[..k];
        balanceCount := balanceCount[p := 0];
      }
      balanceCount := balanceCount[p := balanceCount[p] + 1];
      k := k + 1;
    }
    assert homes[..k] == homes;
  }

  /** Reports partition i with its count for i = 0, 1, ... while i is below the size of a
      map that reading entry i may enlarge. */
  method CountBalance(trainNodeList: seq<int>, lists: Lists) returns (counts: seq<int>)
    requires forall i :: 0 <= i < |trainNodeList| ==> At(lists, trainNodeList[i]) != []
    requires forall i :: 0 <= i < |trainNodeList| ==> Home(lists, trainNodeList[i]) >= 0
    ensures |counts| == if trainNodeList == [] then 0 else Largest(Homes(lists, trainNodeList)) + 1
    ensures forall i :: 0 <= i < |counts| ==> counts[i] == multiset(Homes(lists, trainNodeList))[i]
    ensures SumCounts(counts) == |trainNodeList|
  {
    ghost var homes := Homes(lists, trainNodeList);
    var balanceCount := CountHomes(trainNodeList, lists);
    counts := Report(balanceCount, homes);
    CountsAddUp(homes, counts);
  }

  method Report(initial: map<int, int>, ghost homes: seq<int>) returns (counts: seq<int>)
    requires Counted(initial, homes) && forall h :: h in homes ==> h >= 0
    ensures |counts| == if homes == [] then 0 else Largest(homes) + 1
    ensures forall p :: 0 <= p < |counts| ==> counts[p] == multiset(homes)[p]
    ensures forall h :: h in homes ==> h < |counts|
  {
    hide Largest, Upto;
    var balanceCount := initial;
    ghost var top := if homes == [] then 0 else Largest(homes) + 1;
    assert homes == [] ==> initial.Keys == {};
    assert forall h :: h in initial ==> 0 <= h < top;
    var i := 0;
    counts := [];
    while i < |balanceCount|
      invariant 0 <= i == |counts| <= top && balanceCount == AfterTurns(initial, i)
      invariant forall p :: 0 <= p < i ==> counts[p] == multiset(homes)[p]
      decreases top - i
    {
      hide Counted, Guard;
      GuardHolds(initial, i);
      OneTurn(initial, homes, i);
      if i !in balanceCount {
        balanceCount := balanceCount[i := 0];
      }
      counts := counts + [balanceCount[i]];
      i := i + 1;
    }
    GuardHolds(initial, i);
    if homes != [] {
      assert Largest(homes) in initial;
    }
  }

  lemma {:induction false} OneTurn(initial: map<int, int>, homes: seq<int>, i: nat)
    requires Counted(initial, homes)
    ensures var m := AfterTurns(initial, i + 1);
            i in m && m[i] == multiset(homes)[i]
  {
    AfterTurnsAre(initial, i + 1);
    assert i !in initial ==> i !in homes;
  }

  /** The map after i turns of the reporting loop: reading entry k adds it, if it is not
      there, with the count 0. */
  function AfterTurns(counts: map<int, int>, i: nat): map<int, int> {
    if i == 0 then counts
    else
      var m := AfterTurns(counts, i - 1);
      if i - 1 in m then m else m[i - 1 := 0]
  }

  /** After i turns the map has the keys 0 to i-1 besides its own, whatever these are. */
  lemma {:induction false} AfterTurnsAre(counts: map<int, int>, i: nat)
    ensures AfterTurns(counts, i).Keys == counts.Keys + Upto(i)
    ensures forall k :: k in AfterTurns(counts, i) ==> AfterTurns(counts, i)[k] == if k in counts then counts[k] else 0
    decreases i
  {
    if i > 0 {
      AfterTurnsAre(counts, i - 1);
    }
  }

  /** The loop guard `i < balanceCount.size()` after i turns. */
  ghost predicate Guard(counts: map<int, int>, i: nat) {
    i < |AfterTurns(counts, i)|
  }

  /** With no negative key, the guard holds exactly while some key is not yet reported. */
  lemma {:induction false} GuardHolds(counts: map<int, int>, i: nat)
    requires forall k :: k in counts ==> k >= 0
    ensures Guard(counts, i) <==> exists k :: k in counts && k >= i
  {
    var now := AfterTurns(counts, i);
    AfterTurnsAre(counts, i);
    assert |now| == |now.Keys|;
    UptoCard(i);
    SubsetCard(Upto(i), now.Keys);
    if k :| k in counts && k >= i {
      assert k in now.Keys;
    } else {
      assert now.Keys == Upto(i);
    }
  }

  /** With a negative key the guard never fails. */
  lemma {:induction false} GuardStays(counts: map<int, int>, k: int, i: nat)
    requires k in counts && k < 0
    ensures Guard(counts, i)
  {
    var now := AfterTurns(counts, i);
    AfterTurnsAre(counts, i);
    assert |now| == |now.Keys|;
    UptoCard(i);
    SubsetCard(Upto(i) + {k}, now.Keys);
  }

  /** The loop ends exactly if no partition id is negative. */
  lemma {:induction false} LoopEndsIff(counts: map<int, int>)
    ensures (exists i: nat :: !Guard(counts, i)) <==> forall k :: k in counts ==> k >= 0
  {
    hide Guard;
    if forall k :: k in counts ==> k >= 0 {
      var top := UpperBound(counts.Keys);
      GuardHolds(counts, top);
      assert !Guard(counts, top);
    }
    if k :| k in counts && k < 0 {
      forall i: nat ensures Guard(counts, i) {
        GuardStays(counts, k, i);
      }
    }
  }

  /** One training node in partition -1 is enough: the loop reports partitions for ever. */
  lemma {:induction false} NegativePartition(counts: map<int, int>, i: nat)
    requires Counted(counts, Homes(map[7 := [-1]], [7]))
    ensures Guard(counts, i)
  {
    assert Homes(map[7 := [-1]], [7])[0] == -1;
    GuardStays(counts, -1, i);
  }

  lemma {:induction false} UpperBound(keys: set<int>) returns (top: nat)
    ensures forall k :: k in keys ==> k < top
    decreases |keys|
  {
    top := 0;
    if k :| k in keys {
      var t := UpperBound(keys - {k});
      top := if k < t then t else k + 1;
      assert forall q :: q in keys ==> q == k || q in keys - {k};
    }
  }

  lemma {:induction false} CountsAddUp(homes: seq<int>, counts: seq<int>)
    requires forall p :: p in homes ==> 0 <= p < |counts|
    requires forall p :: 0 <= p < |counts| ==> counts[p] == multiset(homes)[p]
    ensures SumCounts(counts) == |homes|
    decreases |homes|
  {
    if homes == [] {
      SumZero(counts);
    } else {
      var m := |homes| - 1;
      var h := homes[m];
      assert homes == homes[..m] + [h];
      assert h in homes;
      assert multiset(homes) == multiset(homes[..m]) + multiset{h};
      assert forall p :: p in homes[..m] ==> p in homes;
      SumUpdate(counts, h, counts[h] - 1);
      CountsAddUp(homes[..m], counts[h := counts[h] - 1]);
    }
  }

  lemma {:induction false} SumZero(counts: seq<int>)
    requires forall p :: 0 <= p < |counts| ==> counts[p] == 0
    ensures SumCounts(counts) == 0
    decreases |counts|
  {
    if counts != [] {
      SumZero(counts[..|counts| - 1]);
    }
  }

  lemma {:induction false} SumUpdate(counts: seq<int>, i: nat, c: int)
    requires i < |counts|
    ensures SumCounts(counts[i := c]) == SumCounts(counts) - counts[i] + c
    decreases |counts|
  {
    var m := |counts| - 1;
    if i < m {
      SumUpdate(counts[..m], i, c);
      assert counts[i := c][..m] == counts[..m][i := c];
    } else {
      assert counts[i := c][..m] == counts[..m];
    }
  }
}
