/** Facts about sequences and finite sets that the other modules share. */
module Sequences {

  datatype Option<+T> = None | Some(value: T)

  ghost function SetOf<T>(s: seq<T>): set<T> {
    set x | x in s
  }

  ghost predicate NoDup<T>(s: seq<T>) {
    forall i, j :: 0 <= i < j < |s| ==> s[i] != s[j]
  }

  /** The concatenation of a list of lists. */
  function Flat<T>(ls: seq<seq<T>>): seq<T> {
    if ls == [] then [] else Flat(ls[..|ls| - 1]) + ls[|ls| - 1]
  }

  lemma {:induction false} FlatSnoc<T>(ls: seq<seq<T>>, l: seq<T>)
    ensures Flat(ls + [l]) == Flat(ls) + l
  {
    assert (ls + [l])[..|ls|] == ls;
  }

  lemma {:induction false} FlatAppend<T>(a: seq<seq<T>>, b: seq<seq<T>>)
    ensures Flat(a + b) == Flat(a) + Flat(b)
    decreases |b|
  {
    if b == [] {
      assert a + b == a;
      assert Flat<T>([]) == [];
    } else {
      var b', l := b[..|b| - 1], b[|b| - 1];
      assert b == b' + [l];
      assert a + b == (a + b') + [l];
      FlatAppend(a, b');
      FlatSnoc(a + b', l);
      FlatSnoc(b', l);
    }
  }

  lemma {:induction false} FlatMember<T>(ls: seq<seq<T>>, x: T)
    ensures x in Flat(ls) <==> exists k :: 0 <= k < |ls| && x in ls[k]
    decreases |ls|
  {
    if ls != [] {
      var m := |ls| - 1;
      FlatMember(ls[..m], x);
      if x in Flat(ls[..m]) {
        var k :| 0 <= k < m && x in ls[..m][k];
        assert x in ls[k];
      }
      if k :| 0 <= k < |ls| && x in ls[k] {
        if k < m {
          assert x in ls[..m][k];
        }
      }
    }
  }

  lemma {:induction false} NoDupCard<T>(s: seq<T>)
    requires NoDup(s)
    ensures |SetOf(s)| == |s|
    decreases |s|
  {
    if s != [] {
      var m := |s| - 1;
      NoDupCard(s[..m]);
      assert SetOf(s) == SetOf(s[..m]) + {s[m]} by {
        assert s == s[..m] + [s[m]];
      }
      assert s[m] !in s[..m];
    }
  }

  lemma {:induction false} NoDupAppend<T>(a: seq<T>, b: seq<T>)
    requires NoDup(a) && NoDup(b)
    requires forall x :: x in a ==> x !in b
    ensures NoDup(a + b)
  {
    forall i, j | 0 <= i < j < |a + b|
      ensures (a + b)[i] != (a + b)[j]
    {
      if i < |a| <= j {
        assert (a + b)[i] in a && (a + b)[j] in b;
      }
    }
  }

  lemma {:induction false} NonEmptyHas<T>(s: seq<T>)
    requires s != []
    ensures exists x :: x in s
  {
    assert s[0] in s;
  }

  /** The integers 0..n-1 as a set. */
  ghost function Upto(n: nat): (s: set<int>)
    ensures forall x :: x in s <==> 0 <= x < n
  {
    if n == 0 then {} else Upto(n - 1) + {n - 1}
  }

  lemma {:induction false} UptoCard(n: nat)
    ensures |Upto(n)| == n
  {
    if n > 0 {
      UptoCard(n - 1);
    }
  }

  lemma {:induction false} SubsetCard<T>(a: set<T>, b: set<T>)
    requires a <= b
    ensures |a| <= |b|
    ensures |a| == |b| ==> a == b
  {
    assert b == a + (b - a);
    assert |b| == |a| + |b - a|;
  }

  lemma {:induction false} EmptyCard<T>(s: set<T>)
    requires forall x :: x !in s
    ensures |s| == 0
  {
    assert s == {};
  }

  lemma {:induction false} HasElement<T>(s: set<T>) returns (x: T)
    requires |s| > 0
    ensures x in s
  {
    if forall y :: y !in s {
      EmptyCard(s);
    }
    x :| x in s;
  }
}
