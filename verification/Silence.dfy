/** Streams after which a receiver delivers nothing more. */
module Silence {
  import opened Sequences
  import opened ByteBuffer
  import opened Framing
  import opened Streams

  /** A header that is refused stays in the buffer, in front of all that follows. */
  lemma {:induction false} RefusedHeaderStays(rx: Receiver, a: Bytes, b: Bytes, stop: Stop)
    requires Turn(rx.side, a) == Halt(stop, a) && stop != NeedMore
    ensures stop == TooLong || (stop == BadHeader && rx.side.Server?)
    ensures Drain(rx, a + b) == Drained([], a + b, stop)
  {
    TurnShrinks(rx.side, a);
    TurnStable(rx.side, a, b);
    DrainTurn(rx, a + b);
    hide Turn, Drain;
  }

  /** The server's buffer holds no CRLF yet, and more bytes can still make a header of
      an acceptable length, or a blank line, of it. */
  predicate MayBegin(a: Bytes) {
    var d := WithoutCR(a);
    d == [] || ((forall i :: 0 <= i < |d| ==> IsDigit(d[i])) && d[0] != 48 && Value(d) < Limit(Server))
  }

  function WithoutCR(a: Bytes): Bytes {
    if a != [] && a[|a| - 1] == CR then a[..|a| - 1] else a
  }

  /** The bytes at the front of the buffer can never be got rid of: a header that is too
      long, on the server also one that is bad or can only become bad. Lines that are
      dropped are looked through. */
  predicate Stuck(side: Side, a: Bytes)
    decreases |a|
  {
    match Turn(side, a)
    case Deliver(_, _) => false
    case Halt(stop, left) =>
      match stop
      case TooLong => true
      case NeedMore => side.Server? && FindCrlf(a).None? && !MayBegin(a)
      case HandlerThrew => false
      case BlankLine => |left| < |a| && Stuck(side, left)
      case BadHeader => side.Server? || (|left| < |a| && Stuck(side, left))
  }

  lemma {:induction false} ValuePrefix(s: Bytes, k: nat)
    requires 0 < k <= |s| && (forall i :: 0 <= i < |s| ==> IsDigit(s[i]))
    ensures 0 <= Value(s[..k]) <= Value(s)
    decreases |s|
  {
    if k < |s| {
      ValuePrefix(s[..|s| - 1], k);
      assert s[..|s| - 1][..k] == s[..k];
    } else {
      assert s[..k] == s;
      if |s| > 1 {
        ValuePrefix(s[..|s| - 1], |s| - 1);
        assert s[..|s| - 1][..|s| - 1] == s[..|s| - 1];
      }
    }
  }

  lemma {:induction false} StuckDrains(rx: Receiver, a: Bytes)
    requires Stuck(rx.side, a)
    ensures Drain(rx, a).delivered == [] && Stuck(rx.side, Drain(rx, a).left)
  {
    TurnShrinks(rx.side, a);
    hide Turn;
  }

  /** More bytes do not help. */
  lemma {:induction false} StuckGrows(side: Side, a: Bytes, b: Bytes)
    requires Stuck(side, a)
    ensures Stuck(side, a + b)
    decreases |a|
  {
    TurnShrinks(side, a);
    if Turn(side, a) == Halt(NeedMore, a) {
      if !Stuck(side, a + b) {
        BegunWell(a, b);
      }
    } else {
      TurnStable(side, a, b);
      TurnShrinks(side, a + b);
      hide Turn;
      var t := Turn(side, a);
      if !Rests(side, t.stop) {
        StuckGrows(side, t.left, b);
      }
    }
  }

  lemma {:induction false} BeginsBefore(s: Bytes, k: nat)
    requires MayBegin(s) && k <= |s|
    ensures MayBegin(s[..k])
  {
    var d := WithoutCR(s);
    if k == |s| {
      assert s[..k] == s;
    } else if k > 0 {
      assert s[..k] == d[..k];
      assert d[..k][k - 1] == d[k - 1] && d[..k][0] == d[0];
      ValuePrefix(d, k);
    }
  }

  lemma {:induction false} HeaderBegins(s: Bytes, i: nat)
    requires i < |s| && s[i] == CR && Announced(s[..i]).Some? && Announced(s[..i]).value < Limit(Server)
    ensures MayBegin(s[..i + 1])
  {
    var d := s[..i];
    assert s[..i + 1][..i] == d;
    assert Value(d[..0]) == 0;
    assert |d| == 1 ==> Value(d) == (d[0] as int) - 48;
  }

  lemma {:induction false} CrlfWithin(a: Bytes, b: Bytes, i: nat)
    requires CrlfAt(a + b, i) && i + 1 < |a|
    ensures CrlfAt(a, i)
  {
  }

  /** Whatever the server does not refuse has begun well. */
  lemma {:induction false} BegunWell(a: Bytes, b: Bytes)
    requires FindCrlf(a).None? && !Stuck(Server, a + b)
    ensures MayBegin(a)
  {
    var s := a + b;
    if FindCrlf(s).None? {
      BeginsBefore(s, |a|);
      assert s[..|a|] == a;
    } else {
      var i := FindCrlf(s).value;
      if i + 1 < |a| {
        CrlfWithin(a, b, i);
      }
      if i > 0 {
        HeaderBegins(s, i);
        BeginsBefore(s[..i + 1], |a|);
        assert s[..i + 1][..|a|] == a;
      }
    }
  }

  lemma {:induction false} StuckForEver(rx: Receiver, a: Bytes, ys: seq<Bytes>)
    requires Stuck(rx.side, a)
    ensures Resume(rx, a, ys).delivered == [] && Stuck(rx.side, Resume(rx, a, ys).left)
    decreases |ys|
  {
    hide Drain, Stuck;
    if ys != [] {
      var m := |ys| - 1;
      StuckForEver(rx, a, ys[..m]);
      var left := Resume(rx, a, ys[..m]).left;
      StuckGrows(rx.side, left, ys[m]);
      StuckDrains(rx, left + ys[m]);
    }
  }

  /** Bytes that begin a frame become that frame. */
  lemma {:induction false} FrameCompletes(rx: Receiver, a: Bytes, payload: Bytes)
    requires a <= Frame(payload) && 0 < |payload| < Limit(rx.side)
    ensures Drain(rx, a + Frame(payload)[|a|..]).delivered == [payload]
  {
    assert a + Frame(payload)[|a|..] == Frame(payload) + [];
    FrameTaken(rx.side, payload, []);
    DrainTurn(rx, Frame(payload) + []);
    DrainNothing(rx);
    hide Turn, Drain, Frame;
  }

  function Zeros(n: nat): (r: Bytes)
    ensures |r| == n
  {
    seq(n, _ => 0)
  }

  /** A header that waits for its body is the beginning of a frame. */
  lemma {:induction false} WaitingIsPrefix(a: Bytes, i: nat, n: nat) returns (payload: Bytes)
    requires i + 2 <= |a| < i + 2 + n && a[i..i + 2] == CRLF && ToDecimal(n) == a[..i]
    ensures a <= Frame(payload) && |payload| == n
  {
    hide ToDecimal;
    var rest := Zeros(i + 2 + n - |a|);
    payload := a[i + 2..] + rest;
    assert a == a[..i] + CRLF + a[i + 2..];
    assert Frame(payload) == a + rest;
  }

  lemma {:induction false} WaitingCompletes(rx: Receiver, a: Bytes, i: nat) returns (x: Bytes)
    requires FindCrlf(a) == Some(i) && Turn(rx.side, a) == Halt(NeedMore, a)
    ensures Drain(rx, a + x).delivered != []
  {
    var n := Announced(a[..i]).value;
    AnnouncedIsText(a[..i]);
    assert a[i..i + 2] == CRLF;
    hide FindCrlf, Announced, ToDecimal, Drain;
    var payload := WaitingIsPrefix(a, i, n);
    hide Turn, Frame;
    x := Frame(payload)[|a|..];
    FrameCompletes(rx, a, payload);
  }

  lemma {:induction false} BeginningCompletes(rx: Receiver, a: Bytes) returns (x: Bytes)
    requires rx.side == Server && FindCrlf(a).None? && MayBegin(a) && a != [CR]
    ensures Drain(rx, a + x).delivered != []
  {
    var d := WithoutCR(a);
    var payload := [0];
    if d != [] {
      DecimalOfValue(d);
      ValuePositive(d);
      payload := Zeros(Value(d));
      assert a <= d + CRLF;
    }
    hide MayBegin, FindCrlf, Value, ToDecimal;
    assert a <= Frame(payload);
    x := Frame(payload)[|a|..];
    FrameCompletes(rx, a, payload);
  }

  /** The client drops whatever line it waits for. */
  lemma {:induction false} ClientDropsLine(rx: Receiver, a: Bytes)
    requires rx.side == Client && FindCrlf(a).None?
    ensures Drain(rx, a + ([120] + CRLF)) == Drained([], [], BadHeader)
  {
    var s := a + ([120] + CRLF);
    assert CrlfAt(s, |a| + 1);
    forall k: nat | k < |a| + 1 ensures !CrlfAt(s, k) {
      assert k + 1 < |a| ==> (CrlfAt(s, k) <==> CrlfAt(a, k));
    }
    TurnAt(Client, s, Some(|a| + 1));
    assert s[..|a| + 1][|a|] == 120;
    assert s[|a| + 3..] == [];
    hide FindCrlf;
  }

  /** From a buffer that is not stuck some more bytes get a message delivered. */
  lemma {:induction false} NotStuckDelivers(rx: Receiver, a: Bytes) returns (ys: seq<Bytes>)
    requires !Stuck(rx.side, a)
    ensures Resume(rx, a, ys).delivered != []
    decreases |a|
  {
    TurnShrinks(rx.side, a);
    DrainTurn(rx, a);
    hide Drain, FindCrlf, Announced, MayBegin;
    assert a + [] == a;
    var t := Turn(rx.side, a);
    if t.Deliver? {
      ys := [[]];
      ResumeOne(rx, a, []);
    } else if !Rests(rx.side, t.stop) {
      ResumeOne(rx, a, []);
      var more := NotStuckDelivers(rx, t.left);
      ys := [[]] + more;
      ResumeSplits(rx, a, [[]], more);
    } else {
      ys := WaitingDelivers(rx, a);
    }
  }

  lemma {:induction false} WaitingDelivers(rx: Receiver, a: Bytes) returns (ys: seq<Bytes>)
    requires !Stuck(rx.side, a) && Turn(rx.side, a) == Halt(NeedMore, a)
    ensures Resume(rx, a, ys).delivered != []
  {
    var first, x := [], [];
    hide Announced, MayBegin, Drain;
    if FindCrlf(a).Some? {
      x := WaitingCompletes(rx, a, FindCrlf(a).value);
      ys := [x];
      ResumeOne(rx, a, x);
    } else if rx.side.Server? && a != [CR] {
      x := BeginningCompletes(rx, a);
      ys := [x];
      ResumeOne(rx, a, x);
    } else {
      if rx.side.Server? {
        first := [LF];
        BlankLineGoes(rx);
      } else {
        first := [120] + CRLF;
        ClientDropsLine(rx, a);
      }
      ResumeOne(rx, a, first);
      x := Frame([0]);
      FrameCompletes(rx, [], [0]);
      assert Frame([0])[0..] == x;
      ResumeOne(rx, [], x);
      ys := [first] + [x];
      ResumeSplits(rx, a, [first], [x]);
    }
  }

  lemma {:induction false} BlankLineGoes(rx: Receiver)
    requires rx.side == Server
    ensures Drain(rx, [CR] + [LF]) == Drained([], [], BlankLine)
  {
    assert CrlfAt([CR] + [LF], 0);
    TurnAt(Server, [CR] + [LF], Some(0));
    assert ([CR] + [LF])[2..] == [];
  }

  /** After any input, nothing more is delivered, whatever follows and however it is cut,
      exactly if the buffer is stuck. */
  lemma {:induction false} SilentIff(rx: Receiver, xs: seq<Bytes>)
    ensures (forall ys :: Feed(rx, xs + ys).delivered == Feed(rx, xs).delivered) <==>
            Stuck(rx.side, Feed(rx, xs).left)
  {
    hide Resume, Stuck;
    var r := Feed(rx, xs);
    if Stuck(rx.side, r.left) {
      forall ys ensures Feed(rx, xs + ys).delivered == r.delivered {
        ResumeSplits(rx, [], xs, ys);
        StuckForEver(rx, r.left, ys);
      }
    } else {
      var ys := NotStuckDelivers(rx, r.left);
      ResumeSplits(rx, [], xs, ys);
      assert Feed(rx, xs + ys).delivered != r.delivered;
    }
  }

  /** A header that announces a length from the limit up. On the client the length must
      still be a number, or else the line is dropped. */
  ghost predicate Refused(side: Side, n: nat) {
    n >= Limit(side) && (side.Client? ==> n <= MAX_INT32)
  }

  lemma {:induction false} RefusedHeader(rx: Receiver, n: nat, rest: Bytes)
    requires Refused(rx.side, n)
    ensures var s := ToDecimal(n) + CRLF + rest;
            Stuck(rx.side, s) && Drain(rx, s).delivered == [] && Drain(rx, s).left == s && Still(rx, s)
  {
    var s := ToDecimal(n) + CRLF + rest;
    HeaderLine(n, rest);
    TextIsAnnounced(n);
    DrainTurn(rx, s);
    hide FindCrlf, Announced, ToDecimal;
  }

  lemma {:induction false} HeaderLine(n: nat, rest: Bytes)
    ensures var h := ToDecimal(n);
            FindCrlf(h + CRLF + rest) == Some(|h|) && (h + CRLF + rest)[..|h|] == h
  {
    var h := ToDecimal(n);
    var s := h + CRLF + rest;
    assert s[..|h|] == h;
    assert CrlfAt(s, |h|);
    forall k: nat | k < |h| ensures !CrlfAt(s, k) {
      assert s[k] == h[k] && IsDigit(h[k]);
    }
    TurnAt(Server, s, Some(|h|));
  }

  /** A refused header is the end: however the stream is cut and whatever stands behind
      the header, only messages before it are delivered, and all of them if the handler
      throws on none. */
  lemma {:induction false} RefusedHeaderIsLast(
      rx: Receiver, bodies: seq<Bytes>, n: nat, rest: Bytes, chunks: seq<Bytes>)
    requires Allowed(rx.side, bodies) && Refused(rx.side, n)
    requires Flat(chunks) == Messages(bodies) + (ToDecimal(n) + CRLF + rest)
    ensures Feed(rx, chunks).delivered <= Payloads(bodies)
    ensures Calm(rx, bodies) ==> Feed(rx, chunks) == Received(Payloads(bodies), ToDecimal(n) + CRLF + rest)
  {
    RefusedHeader(rx, n, rest);
    hide *;
    StillEndIsLast(rx, bodies, ToDecimal(n) + CRLF + rest, chunks);
  }

  lemma {:induction false} StillEndIsLast(rx: Receiver, bodies: seq<Bytes>, end: Bytes, chunks: seq<Bytes>)
    requires Allowed(rx.side, bodies) && Still(rx, end) && Flat(chunks) == Messages(bodies) + end
    ensures Feed(rx, chunks).delivered <= Payloads(bodies)
    ensures Calm(rx, bodies) ==> Feed(rx, chunks) == Received(Payloads(bodies), end)
  {
    SettledIs(rx, end);
    DrainLeaves(rx, end);
    assert Settled(rx, end) == Received([], end);
    hide *;
    MessagesSettle(rx, bodies, end);
    FeedLeadsOn(rx, chunks);
    AfterMeans(Settled(rx, end), Payloads(bodies));
    AfterMeans(Settled(rx, Feed(rx, chunks).left), Feed(rx, chunks).delivered);
    if Calm(rx, bodies) {
      MessagesBefore(rx, bodies, end);
      CutsDoNotMatter(rx, chunks);
    }
  }

  lemma {:induction false} AfterMeans(e: Received, before: seq<Bytes>)
    ensures before <= e.After(before).delivered
    ensures e.delivered == [] ==> e.After(before).delivered == before
  {
  }

  lemma {:induction false} MessagesBefore(rx: Receiver, bodies: seq<Bytes>, end: Bytes)
    requires Allowed(rx.side, bodies) && Calm(rx, bodies) && Still(rx, end)
    ensures var d := Drain(rx, Messages(bodies) + end);
            d.delivered == Payloads(bodies) && d.left == end && Still(rx, d.left)
  {
    MessagesDrain(rx, bodies);
    DrainAppend(rx, Messages(bodies), end);
    hide Drain, Messages, Payloads;
    assert [] + end == end;
  }

  /** A message that its receiver refuses is the last one, and stays in the buffer. */
  lemma {:induction false} RefusedMessageIsLast(
      rx: Receiver, bodies: seq<Bytes>, big: Bytes, rest: Bytes, chunks: seq<Bytes>)
    requires Allowed(rx.side, bodies) && Refused(rx.side, |big| + 2)
    requires Flat(chunks) == Messages(bodies) + (Message(big) + rest)
    ensures Feed(rx, chunks).delivered <= Payloads(bodies)
    ensures Calm(rx, bodies) ==> Feed(rx, chunks) == Received(Payloads(bodies), Message(big) + rest)
  {
    MessageHeader(big, rest);
    hide *;
    RefusedHeaderIsLast(rx, bodies, |big| + 2, big + CRLF + rest, chunks);
  }

  lemma {:induction false} MessageHeader(body: Bytes, rest: Bytes)
    ensures Message(body) + rest == ToDecimal(|body| + 2) + CRLF + (body + CRLF + rest)
  {
    hide ToDecimal;
  }

  /** A response of 65534 bytes, which the server would itself accept, silences the
      client, whatever follows and however it is cut. */
  lemma {:induction false} LongResponseSilencesClient(rx: Receiver, body: Bytes, rest: Bytes, chunks: seq<Bytes>)
    requires rx.side == Client && |body| == 65534 && Flat(chunks) == Message(body) + rest
    ensures Feed(rx, chunks).delivered == []
  {
    hide Message, Feed, Flat;
    assert Messages([]) + (Message(body) + rest) == Message(body) + rest;
    RefusedMessageIsLast(rx, [], body, rest, chunks);
  }

  /** So does a line that is no number, for the server. */
  lemma {:induction false} BadLineSilencesServer(rx: Receiver, rest: Bytes, chunks: seq<Bytes>)
    requires rx.side == Server && Flat(chunks) == [120] + CRLF + rest
    ensures Feed(rx, chunks).delivered == []
  {
    var s: Bytes := [120] + CRLF + rest;
    assert CrlfAt(s, 1) && !CrlfAt(s, 0);
    TurnAt(Server, s, Some(1));
    assert s[..1] == [120];
    DrainTurn(rx, s);
    assert Still(rx, s);
    hide FindCrlf, Drain, Resume, Flat;
    CutsDoNotMatter(rx, chunks);
  }
}
