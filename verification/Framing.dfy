/** Length-prefixed messages: what the senders write and how the receivers cut the
    byte stream back into messages. */
module Framing {
  import opened Sequences
  import opened ByteBuffer

  type Bytes = seq<Byte>

  const CRLF: Bytes := [CR, LF]
  const MAX_INT32: nat := 0x7fff_ffff

  // ----- decimal headers -----

  /** `std::to_string` of a size. */
  function ToDecimal(n: nat): (s: Bytes)
    ensures s != [] && forall i :: 0 <= i < |s| ==> IsDigit(s[i])
  {
    if n < 10 then [48 + n] else ToDecimal(n / 10) + [48 + n % 10]
  }

  predicate IsDigit(b: Byte) {
    48 <= b <= 57
  }

  function Value(s: Bytes): int {
    if s == [] then 0 else 10 * Value(s[..|s| - 1]) + (s[|s| - 1] as int) - 48
  }

  /** A header line that is the decimal text of an int32: digits, no leading zero. */
  predicate IsNumber(line: Bytes) {
    && line != [] && (forall i :: 0 <= i < |line| ==> IsDigit(line[i]))
    && (|line| > 1 ==> line[0] != 48)
    && Value(line) <= MAX_INT32
  }

  lemma {:induction false} ValueOfDecimal(n: nat)
    ensures Value(ToDecimal(n)) == n
    ensures |ToDecimal(n)| > 1 ==> ToDecimal(n)[0] != 48
    ensures n > 0 ==> ToDecimal(n)[0] != 48
    decreases n
  {
    if n >= 10 {
      ValueOfDecimal(n / 10);
      var s := ToDecimal(n);
      assert s[..|s| - 1] == ToDecimal(n / 10);
    }
  }

  lemma {:induction false} ValuePositive(s: Bytes)
    requires s != [] && (forall i :: 0 <= i < |s| ==> IsDigit(s[i])) && s[0] != 48
    ensures Value(s) > 0
    decreases |s|
  {
    if |s| > 1 {
      ValuePositive(s[..|s| - 1]);
    }
  }

  /** The text of a number is the only header line with that value. */
  lemma {:induction false} DecimalOfValue(s: Bytes)
    requires s != [] && (forall i :: 0 <= i < |s| ==> IsDigit(s[i])) && (|s| > 1 ==> s[0] != 48)
    ensures Value(s) >= 0 && ToDecimal(Value(s)) == s
    decreases |s|
  {
    var m := |s| - 1;
    if m == 0 {
      assert s[..0] == [];
    } else {
      var h := s[..m];
      DecimalOfValue(h);
      ValuePositive(h);
      var d: int := s[m];
      assert Value(s) == 10 * Value(h) + (d - 48);
      assert Value(s) / 10 == Value(h) && Value(s) % 10 == d - 48;
      assert s == h + [s[m]];
    }
  }

  /** The length a header line announces, if the receivers accept the line. */
  function Announced(line: Bytes): (r: Option<nat>) {
    if IsNumber(line) && Value(line) > 0 then Some(Value(line)) else None
  }

  lemma {:induction false} AnnouncedIsText(line: Bytes)
    requires Announced(line).Some?
    ensures Announced(line).value > 0 && ToDecimal(Announced(line).value) == line
  {
    DecimalOfValue(line);
  }

  lemma {:induction false} TextIsAnnounced(n: nat)
    ensures Announced(ToDecimal(n)) == if 0 < n <= MAX_INT32 then Some(n) else None
  {
    ValueOfDecimal(n);
  }

  /** Headers are the decimal texts of the positive 32-bit integers. */
  lemma {:induction false} HeaderIsInt32(n: nat)
    ensures Announced(ToDecimal(n)) == if 1 <= n <= 2147483647 then Some(n) else None
  {
    TextIsAnnounced(n);
  }

  // ----- the receivers -----

  datatype Side = Server | Client

  /** `kMaxMessageLen` of each side. */
  function Limit(side: Side): nat {
    if side.Server? then 100 * 1024 * 1024 else 65536
  }

  /** A receiver: its side, and the bodies on which its handler throws. */
  datatype Receiver = Receiver(side: Side, throws: Bytes -> bool)

  /** Why the receive loop stopped. */
  datatype Stop = NeedMore | BlankLine | BadHeader | TooLong | HandlerThrew

  datatype Step = Deliver(body: Bytes, left: Bytes) | Halt(stop: Stop, left: Bytes)

  function FindCrlf(s: Bytes): (r: Option<nat>)
    ensures r.Some? ==> FirstCrlf(s, r.value)
    ensures r.None? ==> forall k: nat :: !CrlfAt(s, k)
  {
    if |s| < 2 then None
    else if CrlfAt(s, 0) then Some(0)
    else
      var r := FindCrlf(s[1..]);
      assert forall k: nat :: k > 0 ==> (CrlfAt(s, k) <==> CrlfAt(s[1..], k - 1));
      if r.Some? then Some(r.value + 1) else None
  }

  lemma {:induction false} FirstCrlfUnique(s: Bytes, i: nat, j: nat)
    requires FirstCrlf(s, i) && FirstCrlf(s, j)
    ensures i == j
  {
  }

  /** One turn of the loop in `handleMessage`. */
  function Turn(side: Side, buf: Bytes): Step {
    match FindCrlf(buf)
    case None => Halt(NeedMore, buf)
    case Some(i) =>
      if side.Server? && i == 0 then Halt(BlankLine, buf[2..])
      else Judge(side, buf, i, Announced(buf[..i]))
  }

  /** The turn once the header line, which ends at i, has been read. */
  function Judge(side: Side, buf: Bytes, i: nat, header: Option<nat>): Step
    requires i + 2 <= |buf|
  {
    match header
    case None => Halt(BadHeader, if side.Client? then buf[i + 2..] else buf)
    case Some(len) =>
      if len >= Limit(side) then Halt(TooLong, buf)
      else if |buf| < i + 2 + len then Halt(NeedMore, buf)
      else Deliver(buf[i + 2..i + 2 + len], buf[i + 2 + len..])
  }

  datatype Drained = Drained(delivered: seq<Bytes>, left: Bytes, stop: Stop)

  /** The whole loop. A handler that throws has got its body, which is out of the buffer. */
  function Drain(rx: Receiver, buf: Bytes): Drained
    decreases |buf|
  {
    match Turn(rx.side, buf)
    case Halt(stop, left) => Drained([], left, stop)
    case Deliver(body, left) =>
      if rx.throws(body) then Drained([body], left, HandlerThrew)
      else
        var more := Drain(rx, left);
        Drained([body] + more.delivered, more.left, more.stop)
  }

  /** One turn on the buffer object: a body, or the reason to stop. */
  method TakeOne(side: Side, buffer: Buffer) returns (body: Option<Bytes>, stop: Stop)
    requires buffer.Valid()
    modifies buffer
    ensures buffer.Valid() && buffer.buffer == old(buffer.buffer)
    ensures match Turn(side, old(buffer.Contents()))
            case Deliver(b, left) => body == Some(b) && buffer.Contents() == left
            case Halt(s, left) => body == None && stop == s && buffer.Contents() == left
  {
    hide Announced, FindCrlf, Judge;
    body, stop := None, NeedMore;
    ghost var now := buffer.Contents();
    var crlf := buffer.FindCRLF();
    assert buffer.Contents() == now;
    TurnAt(side, now, crlf);
    if crlf.None? {
      return;
    }
    if side.Server? && crlf.value == 0 {
      buffer.Retrieve(2);
      stop := BlankLine;
      return;
    }
    var line := buffer.PeekBytes(crlf.value);
    body, stop := TakeFrame(side, buffer, crlf.value + 2, Announced(line));
  }

  /** The rest of the turn, behind the header line. */
  method TakeFrame(side: Side, buffer: Buffer, headerLen: nat, header: Option<nat>)
    returns (body: Option<Bytes>, stop: Stop)
    requires buffer.Valid() && 2 <= headerLen <= |buffer.Contents()|
    modifies buffer
    ensures buffer.Valid() && buffer.buffer == old(buffer.buffer)
    ensures match Judge(side, old(buffer.Contents()), headerLen - 2, header)
            case Deliver(b, left) => body == Some(b) && buffer.Contents() == left
            case Halt(s, left) => body == None && stop == s && buffer.Contents() == left
  {
    body, stop := None, NeedMore;
    if header.None? {
      if side.Client? {
        buffer.Retrieve(headerLen);
      }
      stop := BadHeader;
      return;
    }
    var bodyLen := header.value;
    if bodyLen >= Limit(side) {
      stop := TooLong;
      return;
    }
    var readable := buffer.ReadableBytes();
    if readable < headerLen + bodyLen {
      return;
    }
    var json := TakeBody(buffer, headerLen, bodyLen);
    body := Some(json);
  }

  method TakeBody(buffer: Buffer, headerLen: nat, bodyLen: nat) returns (json: Bytes)
    requires buffer.Valid() && headerLen + bodyLen <= |buffer.Contents()|
    modifies buffer
    ensures buffer.Valid() && buffer.buffer == old(buffer.buffer)
    ensures json == old(buffer.Contents())[headerLen..headerLen + bodyLen]
    ensures buffer.Contents() == old(buffer.Contents())[headerLen + bodyLen..]
  {
    TwoCuts(buffer.Contents(), headerLen, bodyLen);
    buffer.Retrieve(headerLen);
    json := buffer.RetrieveAsString(bodyLen);
  }

  lemma {:induction false} TwoCuts(buf: Bytes, i: nat, n: nat)
    requires i + n <= |buf|
    ensures buf[i..][..n] == buf[i..i + n] && buf[i..][n..] == buf[i + n..]
  {
  }

  /** `handleMessage` on the buffer object. */
  method HandleMessage(rx: Receiver, buffer: Buffer) returns (delivered: seq<Bytes>, stop: Stop)
    requires buffer.Valid()
    modifies buffer
    ensures buffer.Valid() && buffer.buffer == old(buffer.buffer)
    ensures var d := Drain(rx, old(buffer.Contents()));
            delivered == d.delivered && buffer.Contents() == d.left && stop == d.stop
  {
    hide Turn, Drain;
    delivered := [];
    ghost var whole := Drain(rx, buffer.Contents());
    while true
      invariant buffer.Valid() && buffer.buffer == old(buffer.buffer)
      invariant var d := Drain(rx, buffer.Contents());
                whole == Drained(delivered + d.delivered, d.left, d.stop)
      decreases |buffer.Contents()|
    {
      ghost var now := buffer.Contents();
      DrainTurn(rx, now);
      TurnShrinks(rx.side, now);
      var body;
      body, stop := TakeOne(rx.side, buffer);
      if body.None? {
        return;
      }
      Regroup(delivered, body.value, Drain(rx, buffer.Contents()).delivered);
      delivered := delivered + [body.value];
      if rx.throws(body.value) {
        stop := HandlerThrew;
        return;
      }
    }
  }

  lemma {:induction false} DrainTurn(rx: Receiver, buf: Bytes)
    ensures match Turn(rx.side, buf)
            case Halt(stop, left) => Drain(rx, buf) == Drained([], left, stop)
            case Deliver(body, left) =>
              if rx.throws(body) then Drain(rx, buf) == Drained([body], left, HandlerThrew)
              else
                var more := Drain(rx, left);
                Drain(rx, buf) == Drained([body] + more.delivered, more.left, more.stop)
  {
    hide Turn;
  }

  lemma {:induction false} Regroup(a: seq<Bytes>, b: Bytes, c: seq<Bytes>)
    ensures a + ([b] + c) == (a + [b]) + c
  {
  }

  lemma {:induction false} TurnAt(side: Side, buf: Bytes, crlf: Option<nat>)
    requires match crlf case Some(i) => FirstCrlf(buf, i) case None => forall i: nat :: !CrlfAt(buf, i)
    ensures FindCrlf(buf) == crlf
  {
    if crlf.Some? && FindCrlf(buf).Some? {
      FirstCrlfUnique(buf, crlf.value, FindCrlf(buf).value);
    }
  }

  // ----- however the stream is cut -----

  /** A turn that does more than wait does the same when more bytes follow. */
  lemma {:induction false} TurnStable(side: Side, a: Bytes, b: Bytes)
    requires Turn(side, a) != Halt(NeedMore, a)
    ensures match Turn(side, a)
            case Deliver(body, left) => Turn(side, a + b) == Deliver(body, left + b)
            case Halt(stop, left) => stop != NeedMore && Turn(side, a + b) == Halt(stop, left + b)
  {
    var i := FindCrlf(a).value;
    CrlfStable(a, b, i);
    hide FindCrlf, Announced, Judge;
    assert (a + b)[..i] == a[..i];
    CutAfter(a, b, 2);
    if side.Client? || i > 0 {
      JudgeStable(side, a, b, i, Announced(a[..i]));
    }
  }

  lemma {:induction false} JudgeStable(side: Side, a: Bytes, b: Bytes, i: nat, header: Option<nat>)
    requires i + 2 <= |a| && Judge(side, a, i, header) != Halt(NeedMore, a)
    ensures match Judge(side, a, i, header)
            case Deliver(body, left) => Judge(side, a + b, i, header) == Deliver(body, left + b)
            case Halt(stop, left) => stop != NeedMore && Judge(side, a + b, i, header) == Halt(stop, left + b)
  {
    CutAfter(a, b, i + 2);
    if header.Some? && Judge(side, a, i, header).Deliver? {
      var end := i + 2 + header.value;
      CutWithin(a, b, i + 2, end);
      CutAfter(a, b, end);
    }
  }

  lemma {:induction false} CutWithin(a: Bytes, b: Bytes, i: nat, j: nat)
    requires i <= j <= |a|
    ensures (a + b)[i..j] == a[i..j]
  {
  }

  lemma {:induction false} CutAfter(a: Bytes, b: Bytes, i: nat)
    requires i <= |a|
    ensures (a + b)[i..] == a[i..] + b
  {
  }

  lemma {:induction false} CrlfStable(a: Bytes, b: Bytes, i: nat)
    requires FindCrlf(a) == Some(i)
    ensures FindCrlf(a + b) == Some(i)
  {
    assert forall k: nat :: k <= i ==> (CrlfAt(a, k) <==> CrlfAt(a + b, k));
    TurnAt(Server, a + b, Some(i));
  }

  /** The loop has stopped where it stopped reading, and left everything from there on in
      the buffer. Otherwise it has first dropped a line or a body. */
  predicate Rests(side: Side, stop: Stop) {
    stop == NeedMore || stop == TooLong || (stop == BadHeader && side.Server?)
  }

  lemma {:induction false} TurnShrinks(side: Side, a: Bytes)
    ensures Turn(side, a).Deliver? ==> |Turn(side, a).left| < |a|
    ensures Turn(side, a).Halt? && Rests(side, Turn(side, a).stop) ==> Turn(side, a).left == a
    ensures Turn(side, a).Halt? && !Rests(side, Turn(side, a).stop) ==> |Turn(side, a).left| < |a|
    ensures Turn(side, a).Halt? ==> Turn(side, a).stop != HandlerThrew
  {
  }

  datatype Received = Received(delivered: seq<Bytes>, left: Bytes)
  {
    /** This, with some deliveries before it. */
    function After(before: seq<Bytes>): Received {
      Received(before + delivered, left)
    }
  }

  /** Each chunk is appended to the buffer, and then the loop runs. */
  function Resume(rx: Receiver, left: Bytes, chunks: seq<Bytes>): Received {
    if chunks == [] then Received([], left)
    else
      var m := |chunks| - 1;
      var r := Resume(rx, left, chunks[..m]);
      var d := Drain(rx, r.left + chunks[m]);
      Received(r.delivered + d.delivered, d.left)
  }

  /** From an empty buffer. */
  function Feed(rx: Receiver, chunks: seq<Bytes>): Received {
    Resume(rx, [], chunks)
  }

  /** The buffer object fed chunk by chunk. */
  method Receive(rx: Receiver, buffer: Buffer, chunks: seq<Bytes>) returns (delivered: seq<Bytes>)
    requires buffer.Valid()
    modifies buffer, buffer.buffer
    ensures buffer.Valid() && (buffer.buffer == old(buffer.buffer) || fresh(buffer.buffer))
    ensures Resume(rx, old(buffer.Contents()), chunks) == Received(delivered, buffer.Contents())
  {
    hide Drain;
    delivered := [];
    var i := 0;
    while i < |chunks|
      invariant 0 <= i <= |chunks|
      invariant buffer.Valid() && (buffer.buffer == old(buffer.buffer) || fresh(buffer.buffer))
      invariant Resume(rx, old(buffer.Contents()), chunks[..i]) == Received(delivered, buffer.Contents())
    {
      assert chunks[..i + 1][..i] == chunks[..i];
      buffer.Append(chunks[i]);
      var more, stop := HandleMessage(rx, buffer);
      delivered := delivered + more;
      i := i + 1;
    }
    assert chunks[..i] == chunks;
  }

  // ----- the senders -----

  /** A header and the bytes it announces. */
  function Frame(payload: Bytes): Bytes {
    ToDecimal(|payload|) + CRLF + payload
  }

  /** What `sendRequest` and `sendResponse` write for a serialised value. */
  function Message(body: Bytes): Bytes {
    ToDecimal(|body| + 2) + CRLF + body + CRLF
  }

  function Frames(payloads: seq<Bytes>): Bytes {
    if payloads == [] then [] else Frame(payloads[0]) + Frames(payloads[1..])
  }

  function Messages(bodies: seq<Bytes>): Bytes {
    if bodies == [] then [] else Message(bodies[0]) + Messages(bodies[1..])
  }

  function Payloads(bodies: seq<Bytes>): (r: seq<Bytes>)
    ensures |r| == |bodies| && forall i :: 0 <= i < |bodies| ==> r[i] == bodies[i] + CRLF
  {
    seq(|bodies|, i requires 0 <= i < |bodies| => bodies[i] + CRLF)
  }

  lemma {:induction false} MessageIsFrame(body: Bytes)
    ensures Message(body) == Frame(body + CRLF)
  {
    assert ToDecimal(|body| + 2) + CRLF + body + CRLF == ToDecimal(|body| + 2) + CRLF + (body + CRLF);
  }

  /** The first CRLF of a frame ends its header. */
  lemma {:induction false} HeaderEnds(payload: Bytes, more: Bytes)
    ensures FindCrlf(Frame(payload) + more) == Some(|ToDecimal(|payload|)|)
    ensures (Frame(payload) + more)[..|ToDecimal(|payload|)|] == ToDecimal(|payload|)
  {
    var h := ToDecimal(|payload|);
    var s := Frame(payload) + more;
    assert s == h + (CRLF + payload + more);
    assert s[..|h|] == h;
    assert CrlfAt(s, |h|);
    forall k: nat | k < |h| ensures !CrlfAt(s, k) {
      assert s[k] == h[k] && IsDigit(h[k]);
    }
    TurnAt(Server, s, Some(|h|));
  }

  /** A frame is taken off the front of the buffer exactly if its length is positive and
      below the receiver's limit. */
  lemma {:induction false} FrameTaken(side: Side, payload: Bytes, more: Bytes)
    ensures 0 < |payload| < Limit(side) ==> Turn(side, Frame(payload) + more) == Deliver(payload, more)
    ensures |payload| == 0 || |payload| >= Limit(side) ==> !Turn(side, Frame(payload) + more).Deliver?
  {
    HeaderEnds(payload, more);
    TextIsAnnounced(|payload|);
    hide ToDecimal, FindCrlf, Announced;
    var h := ToDecimal(|payload|);
    var s := Frame(payload) + more;
    assert s == h + CRLF + payload + more;
    var end := |h| + 2 + |payload|;
    assert s[|h| + 2..end] == payload;
    assert s[end..] == more;
  }

  /** The receiver accepts a body exactly if it and its CRLF are below the limit. The
      senders do not check this. */
  lemma {:induction false} MessageAcceptedIff(side: Side, body: Bytes, more: Bytes)
    ensures Turn(side, Message(body) + more) == Deliver(body + CRLF, more) <==> |body| + 2 < Limit(side)
  {
    MessageIsFrame(body);
    FrameTaken(side, body + CRLF, more);
    hide Turn, Message, Frame;
  }

  /** The same in bytes: the server takes bodies up to 104857597 bytes, the client bodies up
      to 65533. */
  lemma {:induction false} LimitsInBytes(body: Bytes, more: Bytes)
    ensures Turn(Server, Message(body) + more) == Deliver(body + CRLF, more) <==> |body| <= 104857597
    ensures Turn(Client, Message(body) + more) == Deliver(body + CRLF, more) <==> |body| <= 65533
  {
    MessageAcceptedIff(Server, body, more);
    MessageAcceptedIff(Client, body, more);
    hide Turn, Message;
  }

  /** The client refuses what the server may send: a body that the server's own
      limit allows and the client's does not. */
  lemma {:induction false} LimitsDiffer(body: Bytes)
    requires |body| == 65534
    ensures Turn(Server, Message(body)).Deliver? && !Turn(Client, Message(body)).Deliver?
  {
    MessageIsFrame(body);
    FrameTaken(Server, body + CRLF, []);
    FrameTaken(Client, body + CRLF, []);
    assert Frame(body + CRLF) + [] == Frame(body + CRLF);
    hide Turn, Message, Frame;
  }

  lemma {:induction false} TurnConserves(side: Side, buf: Bytes)
    requires Turn(side, buf).Deliver?
    ensures buf == Frame(Turn(side, buf).body) + Turn(side, buf).left
  {
    var i := FindCrlf(buf).value;
    var t := Turn(side, buf);
    AnnouncedIsText(buf[..i]);
    hide FindCrlf, ToDecimal, Announced;
    assert buf[i..i + 2] == CRLF;
    CutInFour(buf, i, i + 2 + |t.body|);
  }

  lemma {:induction false} CutInFour(buf: Bytes, i: nat, end: nat)
    requires i + 2 <= end <= |buf|
    ensures buf == buf[..i] + buf[i..i + 2] + buf[i + 2..end] + buf[end..]
  {
  }

  /** A message on the wire: `{}`, with its length in front and CRLF behind both. */
  lemma {:induction false} MessageOnTheWire()
    ensures Message([123, 125]) == [52, 13, 10, 123, 125, 13, 10]
    ensures ToDecimal(1024) == [49, 48, 50, 52]
  {
    assert ToDecimal(4) == [52];
    assert ToDecimal(1) == [49] && ToDecimal(10) == [49, 48] && ToDecimal(102) == [49, 48, 50];
  }
}
