/** What becomes of a whole stream, however it is cut into chunks. */
module Streams {
  import opened Sequences
  import opened ByteBuffer
  import opened Framing

  // ----- one run of the loop, and more bytes -----

  lemma {:induction false} DrainNothing(rx: Receiver)
    ensures Drain(rx, []) == Drained([], [], NeedMore)
  {
  }

  /** A run of the loop that comes to rest leaves bytes on which it would rest again. One
      that drops a line, or a body on which the handler throws, leaves fewer bytes. */
  lemma {:induction false} DrainLeaves(rx: Receiver, a: Bytes)
    ensures var d := Drain(rx, a);
            && |d.left| <= |a|
            && (Rests(rx.side, d.stop) ==> Drain(rx, d.left) == Drained([], d.left, d.stop))
            && (!Rests(rx.side, d.stop) ==> |d.left| < |a|)
    decreases |a|
  {
    TurnShrinks(rx.side, a);
    hide Turn;
    if Turn(rx.side, a).Deliver? && !rx.throws(Turn(rx.side, a).body) {
      DrainLeaves(rx, Turn(rx.side, a).left);
    }
  }

  /** A run that comes to rest goes on where it was when more bytes come. */
  lemma {:induction false} DrainAppend(rx: Receiver, a: Bytes, b: Bytes)
    requires Rests(rx.side, Drain(rx, a).stop)
    ensures var d := Drain(rx, a);
            var e := Drain(rx, d.left + b);
            Drain(rx, a + b) == Drained(d.delivered + e.delivered, e.left, e.stop)
    decreases |a|
  {
    TurnShrinks(rx.side, a);
    hide Turn;
    if Turn(rx.side, a).Deliver? {
      TurnStable(rx.side, a, b);
      var t := Turn(rx.side, a);
      DrainAppend(rx, t.left, b);
      var d, e := Drain(rx, t.left), Drain(rx, Drain(rx, a).left + b);
      assert [t.body] + (d.delivered + e.delivered) == ([t.body] + d.delivered) + e.delivered;
    }
  }

  /** A run that drops something does not look at the bytes behind it. */
  lemma {:induction false} DrainDrops(rx: Receiver, a: Bytes, b: Bytes)
    requires !Rests(rx.side, Drain(rx, a).stop)
    ensures var d := Drain(rx, a);
            Drain(rx, a + b) == Drained(d.delivered, d.left + b, d.stop)
    decreases |a|
  {
    TurnShrinks(rx.side, a);
    hide Turn;
    TurnStable(rx.side, a, b);
    var t := Turn(rx.side, a);
    if t.Deliver? && !rx.throws(t.body) {
      DrainDrops(rx, t.left, b);
    }
  }

  lemma {:induction false} ResumeSplits(rx: Receiver, left: Bytes, xs: seq<Bytes>, ys: seq<Bytes>)
    ensures var r := Resume(rx, left, xs);
            var e := Resume(rx, r.left, ys);
            Resume(rx, left, xs + ys) == Received(r.delivered + e.delivered, e.left)
    decreases |ys|
  {
    hide Drain;
    if ys == [] {
      assert xs + ys == xs;
    } else {
      var m := |ys| - 1;
      ResumeSplits(rx, left, xs, ys[..m]);
      assert (xs + ys)[..|xs| + m] == xs + ys[..m];
    }
  }

  /** One chunk, and what it leaves. */
  lemma {:induction false} ResumeOne(rx: Receiver, a: Bytes, x: Bytes)
    ensures Resume(rx, a, [x]) == Received(Drain(rx, a + x).delivered, Drain(rx, a + x).left)
  {
    hide Drain;
    assert [x][..0] == [];
    assert Resume(rx, a, [x][..0]) == Received([], a);
  }

  // ----- where a stream leads in the end -----

  /** The loop run again and again until it comes to rest. */
  function Settled(rx: Receiver, buf: Bytes): Received
    decreases |buf|
  {
    var d := Drain(rx, buf);
    if Rests(rx.side, d.stop) || |d.left| >= |buf| then Received(d.delivered, d.left)
    else Settled(rx, d.left).After(d.delivered)
  }

  lemma {:induction false} AfterBoth(e: Received, a: seq<Bytes>, b: seq<Bytes>)
    ensures e.After(b).After(a) == e.After(a + b) && e.After([]) == e
  {
    assert a + (b + e.delivered) == a + b + e.delivered;
    assert [] + e.delivered == e.delivered;
  }

  lemma {:induction false} SettledStep(rx: Receiver, a: Bytes, b: Bytes)
    ensures var d := Drain(rx, a);
            Settled(rx, a + b) == Settled(rx, d.left + b).After(d.delivered)
  {
    var d := Drain(rx, a);
    DrainLeaves(rx, a);
    if Rests(rx.side, d.stop) {
      DrainAppend(rx, a, b);
      DrainLeaves(rx, d.left + b);
      var e := Drain(rx, d.left + b);
      SettledIs(rx, a + b);
      SettledIs(rx, d.left + b);
      hide Drain, Settled;
      AfterBoth(Settled(rx, e.left), d.delivered, e.delivered);
    } else {
      DrainDrops(rx, a, b);
      SettledIs(rx, a + b);
    }
  }

  lemma {:induction false} SettledIs(rx: Receiver, s: Bytes)
    ensures var d := Drain(rx, s);
            Settled(rx, s) == if Rests(rx.side, d.stop) then Received(d.delivered, d.left)
                              else Settled(rx, d.left).After(d.delivered)
  {
    DrainLeaves(rx, s);
    hide Drain;
  }

  lemma {:induction false} TowardsSettled(rx: Receiver, left: Bytes, chunks: seq<Bytes>, b: Bytes)
    ensures var r := Resume(rx, left, chunks);
            Settled(rx, left + Flat(chunks) + b) == Settled(rx, r.left + b).After(r.delivered)
    decreases |chunks|
  {
    hide Drain, Settled;
    if chunks == [] {
      assert left + Flat(chunks) + b == left + b;
      AfterBoth(Settled(rx, left + b), [], []);
    } else {
      var m := |chunks| - 1;
      TowardsSettled(rx, left, chunks[..m], chunks[m] + b);
      var r := Resume(rx, left, chunks[..m]);
      SettledStep(rx, r.left + chunks[m], b);
      assert left + (Flat(chunks[..m]) + chunks[m]) + b == left + Flat(chunks[..m]) + (chunks[m] + b);
      assert r.left + chunks[m] + b == r.left + (chunks[m] + b);
      var d := Drain(rx, r.left + chunks[m]);
      AfterBoth(Settled(rx, d.left + b), r.delivered, d.delivered);
    }
  }

  /** However a stream is cut, what has been delivered and what the buffer still leads to
      are together what the whole stream leads to. There is no condition on the stream. */
  lemma {:induction false} FeedLeadsOn(rx: Receiver, chunks: seq<Bytes>)
    ensures var r := Feed(rx, chunks);
            Settled(rx, Flat(chunks)) == Settled(rx, r.left).After(r.delivered)
  {
    TowardsSettled(rx, [], chunks, []);
    hide Drain, Settled, Resume;
    assert [] + Flat(chunks) + [] == Flat(chunks);
    var r := Feed(rx, chunks);
    assert r.left + [] == r.left;
  }

  /** k further runs of the loop in which nothing is received. */
  function Empties(k: nat): (r: seq<Bytes>)
    ensures |r| == k && forall i :: 0 <= i < k ==> r[i] == []
  {
    seq(k, _ => [])
  }

  lemma {:induction false} EmptiesSettle(rx: Receiver, left: Bytes, k: nat)
    requires k > |left|
    ensures Resume(rx, left, Empties(k)) == Settled(rx, left)
    decreases k
  {
    var d := Drain(rx, left);
    DrainLeaves(rx, left);
    SettledIs(rx, left);
    hide Drain, Resume, Settled;
    assert left + [] == left;
    ResumeOne(rx, left, []);
    assert Empties(k) == [[]] + Empties(k - 1);
    ResumeSplits(rx, left, [[]], Empties(k - 1));
    if Rests(rx.side, d.stop) {
      EmptiesRest(rx, d.left, k - 1);
      assert d.delivered + [] == d.delivered;
    } else {
      EmptiesSettle(rx, d.left, k - 1);
    }
  }

  lemma {:induction false} EmptiesRest(rx: Receiver, left: Bytes, k: nat)
    requires Drain(rx, left).delivered == [] && Drain(rx, left).left == left
    ensures Resume(rx, left, Empties(k)) == Received([], left)
    decreases k
  {
    hide Drain;
    if k > 0 {
      assert Empties(k)[..k - 1] == Empties(k - 1);
      EmptiesRest(rx, left, k - 1);
      assert left + [] == left;
    }
  }

  lemma {:induction false} ResumeNoLonger(rx: Receiver, left: Bytes, chunks: seq<Bytes>)
    ensures |Resume(rx, left, chunks).left| <= |left| + |Flat(chunks)|
    decreases |chunks|
  {
    hide Drain;
    if chunks != [] {
      var m := |chunks| - 1;
      ResumeNoLonger(rx, left, chunks[..m]);
      DrainLeaves(rx, Resume(rx, left, chunks[..m]).left + chunks[m]);
    }
  }

  /** However a stream is cut, enough further runs of the loop bring the receiver to where
      the stream leads, so any two cuts come to the same. */
  lemma {:induction false} CutsAgreeInTheEnd(rx: Receiver, chunks: seq<Bytes>, k: nat)
    requires k > |Flat(chunks)|
    ensures Feed(rx, chunks + Empties(k)) == Settled(rx, Flat(chunks))
  {
    FeedLeadsOn(rx, chunks);
    ResumeNoLonger(rx, [], chunks);
    ResumeSplits(rx, [], chunks, Empties(k));
    hide Drain, Settled, Resume;
    EmptiesSettle(rx, Feed(rx, chunks).left, k);
  }

  // ----- when the cuts do not matter at all -----

  /** The loop would find nothing to do. */
  predicate Still(rx: Receiver, left: Bytes) {
    Drain(rx, left).delivered == [] && Drain(rx, left).left == left
  }

  /** Any cut gives the result of the stream in one piece, if one run of the loop on the
      whole stream leaves nothing to do. */
  lemma {:induction false} CutsDoNotMatter(rx: Receiver, chunks: seq<Bytes>)
    requires Still(rx, Drain(rx, Flat(chunks)).left)
    ensures var d := Drain(rx, Flat(chunks)); Feed(rx, chunks) == Received(d.delivered, d.left)
    decreases |chunks|
  {
    hide Drain;
    if chunks == [] {
      DrainNothing(rx);
    } else {
      var m := |chunks| - 1;
      var a, c := Flat(chunks[..m]), chunks[m];
      var d := Drain(rx, a);
      DrainLeaves(rx, a);
      if Rests(rx.side, d.stop) {
        CutsDoNotMatter(rx, chunks[..m]);
        DrainAppend(rx, a, c);
      } else {
        DrainDrops(rx, a, c);
        StillBefore(rx, d.left, c);
        CutsDoNotMatter(rx, chunks[..m]);
        assert d.delivered + [] == d.delivered;
      }
    }
  }

  lemma {:induction false} StillBefore(rx: Receiver, a: Bytes, b: Bytes)
    requires Still(rx, a + b)
    ensures Still(rx, a)
  {
    DrainLeaves(rx, a);
    if Rests(rx.side, Drain(rx, a).stop) {
      DrainAppend(rx, a, b);
      DrainLeaves(rx, Drain(rx, a).left + b);
    } else {
      DrainDrops(rx, a, b);
    }
    hide Drain;
  }

  /** The bytes that a turn takes are enough for the turn. */
  lemma {:induction false} NotWaiting(side: Side, a: Bytes, b: Bytes)
    requires Turn(side, a + b).Deliver? || !Rests(side, Turn(side, a + b).stop)
    requires |b| <= |Turn(side, a + b).left|
    ensures Turn(side, a) != Halt(NeedMore, a)
  {
    var i := FindCrlf(a + b).value;
    assert i + 2 <= |a|;
    assert CrlfAt(a, i) && forall k: nat :: k < i ==> (CrlfAt(a, k) <==> CrlfAt(a + b, k));
    TurnAt(side, a, Some(i));
    assert (a + b)[..i] == a[..i];
    hide FindCrlf, Announced;
  }

  lemma {:induction false} TurnShort(side: Side, a: Bytes, b: Bytes)
    requires Turn(side, a + b).Deliver? || !Rests(side, Turn(side, a + b).stop)
    requires |b| <= |Turn(side, a + b).left|
    ensures Turn(side, a + b) ==
            match Turn(side, a)
            case Deliver(body, left) => Deliver(body, left + b)
            case Halt(stop, left) => Halt(stop, left + b)
  {
    NotWaiting(side, a, b);
    TurnStable(side, a, b);
    hide Turn;
  }

  /** So are the bytes that a run of the loop takes, if it drops something. */
  lemma {:induction false} DrainShort(rx: Receiver, a: Bytes, b: Bytes)
    requires !Rests(rx.side, Drain(rx, a + b).stop) && |b| <= |Drain(rx, a + b).left|
    ensures var d := Drain(rx, a);
            Drain(rx, a + b) == Drained(d.delivered, d.left + b, d.stop)
    decreases |a + b|
  {
    var t := Turn(rx.side, a + b);
    TurnShrinks(rx.side, a + b);
    if t.Deliver? {
      DrainLeaves(rx, t.left);
    }
    hide Turn;
    TurnShort(rx.side, a, b);
    if t.Deliver? && !rx.throws(t.body) {
      DrainShort(rx, Turn(rx.side, a).left, b);
    }
  }

  /** The stream in pieces, none of them empty. */
  ghost predicate IsCut(s: Bytes, chunks: seq<Bytes>) {
    Flat(chunks) == s && forall i :: 0 <= i < |chunks| ==> chunks[i] != []
  }

  /** The cut does not matter exactly if one run of the loop on the whole stream leaves
      nothing to do: otherwise the cut behind what this run drops gives something else. */
  lemma {:induction false} CutsMatterIff(rx: Receiver, s: Bytes)
    ensures var d := Drain(rx, s);
            (forall chunks: seq<Bytes> :: IsCut(s, chunks) ==> Feed(rx, chunks) == Received(d.delivered, d.left)) <==>
            Still(rx, d.left)
  {
    var d := Drain(rx, s);
    hide Drain, Feed, Still;
    if Still(rx, d.left) {
      forall chunks: seq<Bytes> | IsCut(s, chunks) ensures Feed(rx, chunks) == Received(d.delivered, d.left) {
        CutsDoNotMatter(rx, chunks);
      }
    } else {
      var chunks := OtherCut(rx, s);
    }
  }

  lemma {:induction false} OtherCut(rx: Receiver, s: Bytes) returns (chunks: seq<Bytes>)
    requires !Still(rx, Drain(rx, s).left)
    ensures IsCut(s, chunks)
    ensures Feed(rx, chunks) != Received(Drain(rx, s).delivered, Drain(rx, s).left)
  {
    var d := Drain(rx, s);
    DrainLeaves(rx, s);
    DrainNothing(rx);
    var p := |s| - |d.left|;
    var a, b := s[..p], s[p..];
    assert s == a + b;
    DrainShort(rx, a, b);
    DrainDrops(rx, a, b);
    hide Drain;
    assert |Drain(rx, a).left + b| == |b|;
    assert Drain(rx, a).left == [] && [] + b == b == d.left;
    chunks := [a, b];
    var first: seq<Bytes> := [a];
    assert chunks[..1] == first && first[..0] == [];
    assert Flat(first) == a;
    FeedTwo(rx, a, b);
  }

  // ----- streams of messages -----

  /** The receiver's limit allows these bodies. */
  ghost predicate Allowed(side: Side, bodies: seq<Bytes>) {
    forall i :: 0 <= i < |bodies| ==> |bodies[i]| + 2 < Limit(side)
  }

  /** The handler throws on none of these. */
  ghost predicate Calm(rx: Receiver, bodies: seq<Bytes>) {
    forall i :: 0 <= i < |bodies| ==> !rx.throws(bodies[i] + CRLF)
  }

  lemma {:induction false} MessagesDrain(rx: Receiver, bodies: seq<Bytes>)
    requires Allowed(rx.side, bodies) && Calm(rx, bodies)
    ensures Drain(rx, Messages(bodies)) == Drained(Payloads(bodies), [], NeedMore)
    decreases |bodies|
  {
    hide Turn, Message;
    if bodies == [] {
      DrainNothing(rx);
    } else {
      MessageAcceptedIff(rx.side, bodies[0], Messages(bodies[1..]));
      MessagesDrain(rx, bodies[1..]);
      assert Payloads(bodies) == [bodies[0] + CRLF] + Payloads(bodies[1..]);
    }
  }

  /** However the stream of some messages is cut, exactly their bodies, each with its
      CRLF, are delivered in order, and the buffer ends up empty. */
  lemma {:induction false} ChunkingIndependence(rx: Receiver, bodies: seq<Bytes>, chunks: seq<Bytes>)
    requires Allowed(rx.side, bodies) && Calm(rx, bodies)
    requires Flat(chunks) == Messages(bodies)
    ensures Feed(rx, chunks) == Received(Payloads(bodies), [])
  {
    MessagesDrain(rx, bodies);
    DrainNothing(rx);
    assert Still(rx, []);
    hide *;
    CutsDoNotMatter(rx, chunks);
  }

  /** A whole stream of messages, and what follows it: the bodies are delivered first,
      though not by one run of the loop if the handler throws. */
  lemma {:induction false} MessagesSettle(rx: Receiver, bodies: seq<Bytes>, rest: Bytes)
    requires Allowed(rx.side, bodies)
    ensures Settled(rx, Messages(bodies) + rest) == Settled(rx, rest).After(Payloads(bodies))
    decreases |bodies|
  {
    hide Settled, Message, Payloads;
    if bodies == [] {
      assert Messages(bodies) + rest == rest;
      AfterBoth(Settled(rx, rest), [], []);
      assert Payloads(bodies) == [];
    } else {
      var body, more := bodies[0], Messages(bodies[1..]);
      MessagesSettle(rx, bodies[1..], rest);
      MessageSettles(rx, body, more + rest);
      assert Messages(bodies) + rest == Message(body) + (more + rest);
      assert Payloads(bodies) == [body + CRLF] + Payloads(bodies[1..]);
      AfterBoth(Settled(rx, rest), [body + CRLF], Payloads(bodies[1..]));
    }
  }

  lemma {:induction false} MessageSettles(rx: Receiver, body: Bytes, rest: Bytes)
    requires |body| + 2 < Limit(rx.side)
    ensures Settled(rx, Message(body) + rest) == Settled(rx, rest).After([body + CRLF])
  {
    var m := Message(body);
    assert m + [] == m;
    MessageAcceptedIff(rx.side, body, []);
    DrainTurn(rx, m);
    DrainNothing(rx);
    SettledStep(rx, m, rest);
    hide Turn, Message, Drain, Settled;
    assert [] + rest == rest;
    assert [body + CRLF] + [] == [body + CRLF];
  }

  /** Whatever the handler throws on: after any cut of a stream of messages the bodies
      delivered are the first ones in order, and enough further runs of the loop deliver
      the rest. */
  lemma {:induction false} DeliveredInTheEnd(rx: Receiver, bodies: seq<Bytes>, chunks: seq<Bytes>, k: nat)
    requires Allowed(rx.side, bodies) && Flat(chunks) == Messages(bodies)
    ensures Feed(rx, chunks).delivered <= Payloads(bodies)
    ensures k > |Messages(bodies)| ==> Feed(rx, chunks + Empties(k)) == Received(Payloads(bodies), [])
  {
    DrainNothing(rx);
    assert Settled(rx, []) == Received([], []);
    hide Drain, Settled, Feed, Messages, Payloads, Empties;
    MessagesSettle(rx, bodies, []);
    assert Messages(bodies) + [] == Messages(bodies) && Payloads(bodies) + [] == Payloads(bodies);
    FeedLeadsOn(rx, chunks);
    if k > |Messages(bodies)| {
      CutsAgreeInTheEnd(rx, chunks, k);
    }
  }

  /** What the loop has taken and what it has left are the bytes that were there, if it
      dropped no line. */
  lemma {:induction false} DrainConserves(rx: Receiver, buf: Bytes)
    requires Rests(rx.side, Drain(rx, buf).stop) || Drain(rx, buf).stop == HandlerThrew
    ensures Frames(Drain(rx, buf).delivered) + Drain(rx, buf).left == buf
    decreases |buf|
  {
    TurnShrinks(rx.side, buf);
    hide Turn, Frame;
    var t := Turn(rx.side, buf);
    if t.Deliver? {
      TurnConserves(rx.side, buf);
      var d := Drain(rx, t.left);
      if rx.throws(t.body) {
        OneFrame(t.body);
      } else {
        DrainConserves(rx, t.left);
        assert ([t.body] + d.delivered)[1..] == d.delivered;
        assert Frame(t.body) + Frames(d.delivered) + d.left == Frame(t.body) + (Frames(d.delivered) + d.left);
      }
    }
  }

  lemma {:induction false} OneFrame(body: Bytes)
    ensures Frames([body]) == Frame(body)
  {
    assert [body][1..] == [];
    assert Frame(body) + [] == Frame(body);
  }

  lemma {:induction false} FramesAppend(a: seq<Bytes>, b: seq<Bytes>)
    ensures Frames(a + b) == Frames(a) + Frames(b)
    decreases |a|
  {
    hide Frame;
    if a == [] {
      assert a + b == b;
    } else {
      FramesAppend(a[1..], b);
      assert (a + b)[1..] == a[1..] + b;
    }
  }

  /** On the beginning of a stream of messages the loop drops no line: it waits, or its
      handler throws. What it leaves is the beginning of a stream of the other messages. */
  lemma {:induction false} MessagesBegun(rx: Receiver, bodies: seq<Bytes>, a: Bytes, b: Bytes) returns (j: nat)
    requires Allowed(rx.side, bodies) && a + b == Messages(bodies)
    ensures var d := Drain(rx, a);
            && j <= |bodies| && d.delivered == Payloads(bodies[..j]) && d.left + b == Messages(bodies[j..])
            && (d.stop == NeedMore || d.stop == HandlerThrew)
    decreases |bodies|
  {
    hide Turn, Message, FindCrlf;
    j := 0;
    assert bodies[..0] == [] && bodies[0..] == bodies;
    if bodies == [] {
      DrainNothing(rx);
    } else if Turn(rx.side, a) != Halt(NeedMore, a) {
      MessageAcceptedIff(rx.side, bodies[0], Messages(bodies[1..]));
      TurnStable(rx.side, a, b);
      var left := Turn(rx.side, a).left;
      j := 1;
      assert bodies[..1] == [bodies[0]];
      if !rx.throws(bodies[0] + CRLF) {
        var i := MessagesBegun(rx, bodies[1..], left, b);
        j := i + 1;
        assert bodies[1..][..i] == bodies[1..j] && bodies[1..][i..] == bodies[j..];
        assert Payloads(bodies[..j]) == [bodies[0] + CRLF] + Payloads(bodies[1..j]);
      }
    }
  }

  /** At every point, whatever the handler throws on, the bodies delivered are those of
      the first messages, and these messages followed by the buffered bytes are the bytes
      received: nothing is lost, repeated or reordered. */
  lemma {:induction false} NothingLost(rx: Receiver, bodies: seq<Bytes>, chunks: seq<Bytes>, n: nat) returns (j: nat)
    requires Allowed(rx.side, bodies)
    requires Flat(chunks) == Messages(bodies) && n <= |chunks|
    ensures var r := Feed(rx, chunks[..n]);
            && j <= |bodies| && r.delivered == Payloads(bodies[..j])
            && Frames(r.delivered) + r.left == Flat(chunks[..n])
  {
    assert chunks == chunks[..n] + chunks[n..];
    FlatAppend(chunks[..n], chunks[n..]);
    hide Drain, Messages, Payloads, Frames, Feed;
    j := FedMessages(rx, bodies, chunks[..n], Flat(chunks[n..]));
  }

  lemma {:induction false} FedMessages(rx: Receiver, bodies: seq<Bytes>, chunks: seq<Bytes>, b: Bytes) returns (j: nat)
    requires Allowed(rx.side, bodies) && Flat(chunks) + b == Messages(bodies)
    ensures var r := Feed(rx, chunks);
            && j <= |bodies| && r.delivered == Payloads(bodies[..j]) && r.left + b == Messages(bodies[j..])
            && Frames(r.delivered) + r.left == Flat(chunks)
    decreases |chunks|
  {
    hide Drain, Messages, Payloads, Frames;
    if chunks == [] {
      j := 0;
      assert bodies[..0] == [] && bodies[0..] == bodies;
      NoPayloads();
    } else {
      var m := |chunks| - 1;
      var c := chunks[m];
      assert Flat(chunks[..m]) + c + b == Flat(chunks[..m]) + (c + b);
      var i := FedMessages(rx, bodies, chunks[..m], c + b);
      var r := Feed(rx, chunks[..m]);
      assert r.left + c + b == r.left + (c + b);
      var k := MessagesBegun(rx, bodies[i..], r.left + c, b);
      j := i + k;
      assert bodies[i..][k..] == bodies[j..];
      PayloadsAppend(bodies[..i], bodies[i..][..k]);
      assert bodies[..i] + bodies[i..][..k] == bodies[..j];
      var d := Drain(rx, r.left + c);
      DrainConserves(rx, r.left + c);
      FramesAppend(r.delivered, d.delivered);
      assert Frames(r.delivered) + Frames(d.delivered) + d.left == Frames(r.delivered) + (r.left + c);
      assert Frames(r.delivered) + (r.left + c) == Frames(r.delivered) + r.left + c;
    }
  }

  lemma {:induction false} NoPayloads()
    ensures Payloads([]) == [] && Frames([]) == []
  {
  }

  lemma {:induction false} PayloadsAppend(a: seq<Bytes>, b: seq<Bytes>)
    ensures Payloads(a + b) == Payloads(a) + Payloads(b)
  {
  }

  /** The handler has got the body it throws on, and the loop does not go on to the next
      message. If it does not throw, the loop goes on. */
  lemma {:induction false} ThrowStopsLoop(rx: Receiver, body: Bytes, more: Bytes)
    requires |body| + 2 < Limit(rx.side)
    ensures var d := Drain(rx, Message(body) + more);
            var e := Drain(rx, more);
            if rx.throws(body + CRLF) then d == Drained([body + CRLF], more, HandlerThrew)
            else d == Drained([body + CRLF] + e.delivered, e.left, e.stop)
  {
    MessageAcceptedIff(rx.side, body, more);
    DrainTurn(rx, Message(body) + more);
    hide Turn, Message, Drain;
  }

  /** A blank line delays the message behind it, if both come in one chunk. */
  lemma {:induction false} BlankLineDelays(rx: Receiver, body: Bytes)
    requires rx.side == Server && |body| + 2 < Limit(Server) && !rx.throws(body + CRLF)
    ensures Feed(rx, [CRLF + Message(body)]) == Received([], Message(body))
    ensures Feed(rx, [CRLF, Message(body)]) == Received([body + CRLF], [])
  {
    var m := Message(body);
    OneMessage(rx, body);
    BlankTurn(m);
    BlankTurn([]);
    DrainTurn(rx, CRLF + m);
    DrainTurn(rx, CRLF + []);
    hide *;
    assert [] + (CRLF + m) == CRLF + m && [] + CRLF == CRLF + [] && [] + m == m;
    FeedOne(rx, CRLF + m);
    FeedTwo(rx, CRLF, m);
  }

  lemma {:induction false} OneMessage(rx: Receiver, body: Bytes)
    requires |body| + 2 < Limit(rx.side) && !rx.throws(body + CRLF)
    ensures Drain(rx, Message(body)) == Drained([body + CRLF], [], NeedMore)
  {
    var m := Message(body);
    assert m + [] == m;
    MessageAcceptedIff(rx.side, body, []);
    DrainTurn(rx, m);
    DrainNothing(rx);
    hide Turn, Message, Drain;
  }

  lemma {:induction false} FeedOne(rx: Receiver, x: Bytes)
    ensures Feed(rx, [x]) == Received(Drain(rx, x).delivered, Drain(rx, x).left)
  {
    ResumeOne(rx, [], x);
    hide Drain, Resume;
    assert [] + x == x;
  }

  lemma {:induction false} FeedTwo(rx: Receiver, x: Bytes, y: Bytes)
    ensures var d := Drain(rx, x);
            var e := Drain(rx, d.left + y);
            Feed(rx, [x, y]) == Received(d.delivered + e.delivered, e.left)
  {
    FeedOne(rx, x);
    ResumeOne(rx, Drain(rx, x).left, y);
    ResumeSplits(rx, [], [x], [y]);
    hide Drain, Resume;
    assert [x] + [y] == [x, y];
  }

  lemma {:induction false} BlankTurn(more: Bytes)
    ensures Turn(Server, CRLF + more) == Halt(BlankLine, more)
  {
    var s := CRLF + more;
    assert CrlfAt(s, 0);
    TurnAt(Server, s, Some(0));
    assert s[2..] == more;
  }
}
