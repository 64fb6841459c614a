/** The byte buffer: an array with room in front, compacted in place or grown. */
module ByteBuffer {
  import opened Sequences

  type Byte = b: int | 0 <= b < 256

  const CHEAP_PREPEND: nat := 8
  const INITIAL_SIZE: nat := 1024
  const EXTRA_BUFFER: nat := 65536
  const CR: Byte := 13
  const LF: Byte := 10

  // ----- the first CRLF -----

  predicate CrlfAt(s: seq<Byte>, i: nat) {
    i + 1 < |s| && s[i] == CR && s[i + 1] == LF
  }

  /** The position of the first CRLF. */
  ghost predicate FirstCrlf(s: seq<Byte>, i: nat) {
    CrlfAt(s, i) && forall k: nat :: k < i ==> !CrlfAt(s, k)
  }

  // ----- big-endian integers -----

  function Pow256(w: nat): (p: int)
    ensures p > 0
  {
    if w == 0 then 1 else 256 * Pow256(w - 1)
  }

  /** The w low bytes of u, the most significant first. */
  function BigEndian(u: nat, w: nat): (s: seq<Byte>)
    ensures |s| == w
  {
    if w == 0 then [] else BigEndian(u / 256, w - 1) + [u % 256]
  }

  function Unsigned(s: seq<Byte>): nat {
    if s == [] then 0 else Unsigned(s[..|s| - 1]) * 256 + s[|s| - 1]
  }

  ghost predicate Fits(x: int, w: nat) {
    w > 0 && -Pow256(w) <= 2 * x < Pow256(w)
  }

  /** Two's complement of w bytes, as `htobe` leaves it in memory. */
  function EncodeInt(x: int, w: nat): (s: seq<Byte>)
    ensures |s| == w
  {
    BigEndian(x % Pow256(w), w)
  }

  function DecodeInt(s: seq<Byte>): int {
    var u := Unsigned(s);
    if 2 * u >= Pow256(|s|) then u - Pow256(|s|) else u
  }

  lemma {:induction false} UnsignedOfBigEndian(u: nat, w: nat)
    requires u < Pow256(w)
    ensures Unsigned(BigEndian(u, w)) == u
    decreases w
  {
    if w > 0 {
      UnsignedOfBigEndian(u / 256, w - 1);
      var s := BigEndian(u, w);
      assert s[..w - 1] == BigEndian(u / 256, w - 1);
    }
  }

  /** Reading an integer back gives the integer that was written. */
  lemma {:induction false} IntRoundTrip(x: int, w: nat)
    requires Fits(x, w)
    ensures DecodeInt(EncodeInt(x, w)) == x
  {
    var p := Pow256(w);
    assert x % p == if x >= 0 then x else x + p by {
      ModOfSmall(x, p);
    }
    UnsignedOfBigEndian(x % p, w);
  }

  lemma {:induction false} ModOfSmall(x: int, p: int)
    requires p > 0 && -p < x < p
    ensures x % p == if x >= 0 then x else x + p
  {
    if x < 0 {
      assert x == -1 * p + (x + p);
    }
  }

  /** The first byte is the most significant one: network order. */
  lemma {:induction false} FirstIsHighest(s: seq<Byte>)
    requires s != []
    ensures Unsigned(s) == s[0] * Pow256(|s| - 1) + Unsigned(s[1..])
    decreases |s|
  {
    var m := |s| - 1;
    if m == 0 {
      assert s[..0] == [];
    } else {
      FirstIsHighest(s[..m]);
      assert s[..m][1..] == s[1..][..m - 1];
      assert 256 * (s[0] * Pow256(m - 1)) == s[0] * Pow256(m);
    }
  }

  /** An integer on the wire. */
  lemma {:induction false} IntOnTheWire()
    ensures EncodeInt(0x01020304, 4) == [1, 2, 3, 4]
  {
    assert Pow256(1) == 256 && Pow256(2) == 65536 && Pow256(3) == 0x100_0000 && Pow256(4) == 0x1_0000_0000;
    assert BigEndian(1, 1) == [1] && BigEndian(0x0102, 2) == [1, 2] && BigEndian(0x010203, 3) == [1, 2, 3];
  }

  lemma {:induction false} NegativeOnTheWire()
    ensures EncodeInt(-2, 2) == [255, 254]
    ensures Fits(127, 1) && Fits(-128, 1) && !Fits(128, 1) && !Fits(-129, 1)
  {
    assert Pow256(1) == 256 && Pow256(2) == 65536;
    assert BigEndian(0xff, 1) == [255];
    assert (-2) % 65536 == 65534;
  }

  // ----- sizes and indices -----

  /** The sizes and indices of a buffer. `peak` is the largest readable length that room
      was made for so far, which for an append is the length right after it. */
  datatype Shape = Shape(size: nat, reader: nat, writer: nat, peak: nat)
  {
    predicate Ok() {
      CHEAP_PREPEND <= writer <= size && reader <= writer
    }

    function Readable(): int {
      writer - reader
    }

    function Writable(): int {
      size - writer
    }

    /** Room for len more bytes: nothing, growth, or a move to the front. */
    function Ensured(len: nat): Shape
      requires Ok()
    {
      var p := if peak < Readable() + len then Readable() + len else peak;
      if Writable() >= len then Shape(size, reader, writer, p)
      else if Writable() + reader < len + CHEAP_PREPEND then Shape(writer + len, reader, writer, p)
      else Shape(size, CHEAP_PREPEND, CHEAP_PREPEND + Readable(), p)
    }

    function Appended(len: nat): Shape
      requires Ok()
    {
      var e := Ensured(len);
      e.(writer := e.writer + len)
    }

    function Retrieved(len: nat): Shape
      requires Ok() && len <= Readable()
    {
      if len < Readable() then this.(reader := reader + len)
      else this.(reader := CHEAP_PREPEND, writer := CHEAP_PREPEND)
    }

    function Prepended(len: nat): Shape
      requires len <= reader
    {
      this.(reader := reader - len)
    }
  }

  datatype Op = Append(len: nat) | Retrieve(len: nat) | Prepend(len: nat) | Written(len: nat)

  predicate CanDo(s: Shape, op: Op) {
    s.Ok() &&
    match op
    case Append(_) => true
    case Retrieve(len) => len <= s.Readable()
    case Prepend(len) => len <= s.reader
    case Written(len) => len <= s.Writable()
  }

  function Do(s: Shape, op: Op): Shape
    requires CanDo(s, op)
  {
    match op
    case Append(len) => s.Appended(len)
    case Retrieve(len) => s.Retrieved(len)
    case Prepend(len) => s.Prepended(len)
    case Written(len) => s.(writer := s.writer + len)
  }

  ghost predicate IsRun(s: Shape, ops: seq<Op>, t: Shape)
    decreases |ops|
  {
    if ops == [] then t == s
    else
      var m := |ops| - 1;
      exists u :: IsRun(s, ops[..m], u) && CanDo(u, ops[m]) && t == Do(u, ops[m])
  }

  ghost predicate GrowthBound(s: Shape, initial: nat) {
    s.size <= 8 + initial || s.size <= 8 + 2 * s.peak
  }

  /** Making room keeps the indices in order, the readable length and the bound. */
  lemma {:induction false} EnsureKeeps(s: Shape, len: nat, initial: nat)
    requires s.Ok() && GrowthBound(s, initial)
    ensures var t := s.Ensured(len);
            && t.Ok() && GrowthBound(t, initial) && t.Writable() >= len && t.Readable() == s.Readable()
            && t.peak >= s.peak && t.peak >= s.Readable() + len
    ensures s.Writable() < len && s.Writable() + s.reader >= len + CHEAP_PREPEND ==> s.reader > CHEAP_PREPEND
  {
  }

  /** The array grows exactly if the bytes that are not readable, but for eight, are fewer
      than those wanted, and then by what is missing behind the readable ones. */
  lemma {:induction false} GrowsIff(s: Shape, len: nat)
    requires s.Ok()
    ensures var t := s.Ensured(len);
            && (t.size > s.size <==> s.size - s.Readable() < len + 8 && len > s.size - s.writer)
            && (t.size > s.size ==> t.size == s.writer + len && t.reader == s.reader && t.writer == s.writer)
            && (t.size <= s.size ==> t.size == s.size)
            && (t.reader != s.reader ==> t.reader == 8 && t.size == s.size)
  {
  }

  /** Over every run of operations on a new buffer, the size stays within 8 + the initial
      size or 8 + twice the largest readable length an append has reached. */
  lemma {:induction false} GrowthOverRuns(initial: nat, ops: seq<Op>, t: Shape)
    requires IsRun(Shape(CHEAP_PREPEND + initial, CHEAP_PREPEND, CHEAP_PREPEND, 0), ops, t)
    ensures t.Ok() && GrowthBound(t, initial)
    decreases |ops|
  {
    var s := Shape(CHEAP_PREPEND + initial, CHEAP_PREPEND, CHEAP_PREPEND, 0);
    if ops != [] {
      var m := |ops| - 1;
      var u :| IsRun(s, ops[..m], u) && CanDo(u, ops[m]) && t == Do(u, ops[m]);
      GrowthOverRuns(initial, ops[..m], u);
      if ops[m].Append? {
        EnsureKeeps(u, ops[m].len, initial);
      }
    }
  }

  // ----- the class -----

  lemma {:induction false} SameSlice(a: seq<Byte>, b: seq<Byte>, i: nat, j: nat)
    requires i <= j <= |a| <= |b| && b[..|a|] == a
    ensures b[i..j] == a[i..j]
  {
    forall k | i <= k < j ensures b[k] == a[k] {
      assert b[..|a|][k] == b[k];
    }
  }

  class Buffer {
    var buffer: array<Byte>
    var readerIndex: nat
    var writerIndex: nat
    ghost var initial: nat
    ghost var peak: nat

    ghost function View(): Shape
      reads this
    {
      Shape(buffer.Length, readerIndex, writerIndex, peak)
    }

    ghost predicate Valid()
      reads this
    {
      View().Ok() && GrowthBound(View(), initial)
    }

    /** The readable bytes. */
    ghost function Contents(): seq<Byte>
      reads this, buffer
      requires Valid()
    {
      buffer[readerIndex..writerIndex]
    }

    constructor (initialSize: nat := INITIAL_SIZE)
      ensures Valid() && fresh(buffer) && initial == initialSize
      ensures Contents() == [] && View() == Shape(CHEAP_PREPEND + initialSize, CHEAP_PREPEND, CHEAP_PREPEND, 0)
      ensures buffer.Length == 8 + initialSize && readerIndex == 8 == writerIndex
    {
      buffer := new Byte[CHEAP_PREPEND + initialSize](_ => 0);
      readerIndex, writerIndex := CHEAP_PREPEND, CHEAP_PREPEND;
      initial, peak := initialSize, 0;
    }

    /** A buffer of the default size. */
    static method Default() returns (b: Buffer)
      ensures fresh(b) && b.Valid() && b.Contents() == [] && b.buffer.Length == 1032
    {
      b := new Buffer();
    }

    method Swap(rhs: Buffer)
      requires Valid() && rhs.Valid()
      modifies this, rhs
      ensures Valid() && rhs.Valid()
      ensures buffer == old(rhs.buffer) && View() == old(rhs.View())
      ensures rhs.buffer == old(buffer) && rhs.View() == old(View())
    {
      buffer, rhs.buffer := rhs.buffer, buffer;
      readerIndex, rhs.readerIndex := rhs.readerIndex, readerIndex;
      writerIndex, rhs.writerIndex := rhs.writerIndex, writerIndex;
      initial, rhs.initial := rhs.initial, initial;
      peak, rhs.peak := rhs.peak, peak;
    }

    method ReadableBytes() returns (n: nat)
      requires Valid()
      ensures n == |Contents()|
    {
      n := writerIndex - readerIndex;
    }

    method PeekBytes(len: nat) returns (result: seq<Byte>)
      requires Valid() && len <= |Contents()|
      ensures result == Contents()[..len]
    {
      result := buffer[readerIndex..readerIndex + len];
    }

    /** The offset of the first CRLF among the readable bytes. */
    method FindCRLF() returns (at: Option<nat>)
      requires Valid()
      ensures match at
              case Some(i) => FirstCrlf(Contents(), i)
              case None => forall i: nat :: !CrlfAt(Contents(), i)
    {
      var i := 0;
      while readerIndex + i + 1 < writerIndex
        invariant readerIndex + i <= writerIndex
        invariant forall k: nat :: k < i ==> !CrlfAt(Contents(), k)
      {
        assert Contents()[i] == buffer[readerIndex + i] && Contents()[i + 1] == buffer[readerIndex + i + 1];
        if buffer[readerIndex + i] == CR && buffer[readerIndex + i + 1] == LF {
          return Some(i);
        }
        i := i + 1;
      }
      at := None;
    }

    method Retrieve(len: nat)
      requires Valid() && len <= |Contents()|
      modifies this
      ensures Valid() && buffer == old(buffer) && initial == old(initial)
      ensures Contents() == old(Contents())[len..]
      ensures View() == old(View()).Retrieved(len)
      ensures Contents() == [] ==> readerIndex == 8 == writerIndex
      ensures Contents() != [] ==> readerIndex == old(readerIndex) + len && writerIndex == old(writerIndex)
    {
      if len < writerIndex - readerIndex {
        readerIndex := readerIndex + len;
      } else {
        readerIndex, writerIndex := CHEAP_PREPEND, CHEAP_PREPEND;
      }
    }

    method RetrieveAsString(len: nat) returns (result: seq<Byte>)
      requires Valid() && len <= |Contents()|
      modifies this
      ensures Valid() && buffer == old(buffer) && initial == old(initial)
      ensures result == old(Contents())[..len] && Contents() == old(Contents())[len..]
      ensures View() == old(View()).Retrieved(len)
    {
      ghost var was := Contents();
      result := PeekBytes(len);
      assert result == was[..len];
      Retrieve(len);
      assert Contents() == was[len..];
    }

    /** A larger array with the old bytes in place and zeros behind them. */
    method Resize(size: nat)
      requires size >= buffer.Length >= writerIndex >= readerIndex
      modifies this
      ensures fresh(buffer) && buffer.Length == size && buffer[..old(buffer.Length)] == old(buffer[..])
      ensures buffer[old(readerIndex)..old(writerIndex)] == old(buffer[readerIndex..writerIndex])
      ensures readerIndex == old(readerIndex) && writerIndex == old(writerIndex)
      ensures initial == old(initial) && peak == old(peak)
    {
      var larger := new Byte[size](_ => 0);
      ghost var bytes := buffer[..];
      var i := 0;
      while i < buffer.Length
        invariant 0 <= i <= buffer.Length && buffer == old(buffer)
        invariant larger[..i] == bytes[..i] && buffer[..] == bytes
        invariant readerIndex == old(readerIndex) && writerIndex == old(writerIndex)
        invariant initial == old(initial) && peak == old(peak)
      {
        larger[i] := buffer[i];
        i := i + 1;
      }
      assert larger[..|bytes|] == bytes;
      SameSlice(bytes, larger[..], readerIndex, writerIndex);
      buffer := larger;
      assert bytes[readerIndex..writerIndex] == old(buffer[readerIndex..writerIndex]);
    }

    /** Moves the readable bytes to the front, source and target overlapping. */
    method Compact()
      requires Valid() && readerIndex > CHEAP_PREPEND
      modifies this`readerIndex, this`writerIndex, buffer
      ensures View() == old(View()).(reader := CHEAP_PREPEND, writer := CHEAP_PREPEND + old(View().Readable()))
      ensures Valid() && Contents() == old(Contents())
    {
      ghost var was := Contents();
      var readable := writerIndex - readerIndex;
      var i := 0;
      while i < readable
        invariant 0 <= i <= readable == |was| && Valid() && View() == old(View())
        invariant buffer[CHEAP_PREPEND..CHEAP_PREPEND + i] == was[..i]
        invariant buffer[readerIndex + i..writerIndex] == was[i..]
      {
        MoveOne(i, was);
        i := i + 1;
      }
      readerIndex := CHEAP_PREPEND;
      writerIndex := readerIndex + readable;
      assert was[..readable] == was;
    }

    /** One byte of the copy, which may overwrite bytes that have been copied. */
    method MoveOne(i: nat, ghost was: seq<Byte>)
      requires Valid() && readerIndex > CHEAP_PREPEND && readerIndex + i < writerIndex
      requires |was| == writerIndex - readerIndex
      requires buffer[CHEAP_PREPEND..CHEAP_PREPEND + i] == was[..i] && buffer[readerIndex + i..writerIndex] == was[i..]
      modifies buffer
      ensures buffer[CHEAP_PREPEND..CHEAP_PREPEND + i + 1] == was[..i + 1]
      ensures buffer[readerIndex + i + 1..writerIndex] == was[i + 1..]
    {
      ghost var front, rest := buffer[CHEAP_PREPEND..CHEAP_PREPEND + i], buffer[readerIndex + i..writerIndex];
      assert rest[0] == was[i] && rest[1..] == was[i + 1..];
      buffer[CHEAP_PREPEND + i] := buffer[readerIndex + i];
      assert buffer[CHEAP_PREPEND..CHEAP_PREPEND + i] == front;
      assert buffer[readerIndex + i + 1..writerIndex] == rest[1..];
    }

    /** The two assertions of `makeSpace` and the one after it hold. */
    method EnsureWritableBytes(len: nat)
      requires Valid()
      modifies this, buffer
      ensures Valid() && (buffer == old(buffer) || fresh(buffer)) && initial == old(initial)
      ensures Contents() == old(Contents()) && View() == old(View()).Ensured(len)
      ensures buffer.Length - writerIndex >= len
    {
      EnsureKeeps(View(), len, initial);
      ghost var was := Contents();
      var writable := buffer.Length - writerIndex;
      ghost var top := if peak < |Contents()| + len then |Contents()| + len else peak;
      if writable < len {
        if writable + readerIndex < len + CHEAP_PREPEND {
          Resize(writerIndex + len);
          peak := top;
        } else {
          assert CHEAP_PREPEND < readerIndex;
          Compact();
          peak := top;
        }
      } else {
        peak := top;
      }
    }

    method Append(data: seq<Byte>)
      requires Valid()
      modifies this, buffer
      ensures Valid() && (buffer == old(buffer) || fresh(buffer)) && initial == old(initial)
      ensures Contents() == old(Contents()) + data
      ensures View() == old(View()).Appended(|data|)
    {
      EnsureWritableBytes(|data|);
      FillTail(data);
    }

    /** Bytes written behind the readable ones, where there is room, become readable. */
    method FillTail(data: seq<Byte>)
      requires Valid() && |data| <= buffer.Length - writerIndex
      modifies this`writerIndex, buffer
      ensures Valid() && Contents() == old(Contents()) + data
      ensures writerIndex == old(writerIndex) + |data|
    {
      ghost var was := Contents();
      WriteAt(data);
      assert buffer[readerIndex..writerIndex] == buffer[..writerIndex][readerIndex..];
      HasWritten(|data|);
    }

    /** `std::copy` to `beginWrite()`. */
    method WriteAt(data: seq<Byte>)
      requires Valid() && |data| <= buffer.Length - writerIndex
      modifies buffer
      ensures buffer[..writerIndex] == old(buffer[..writerIndex])
      ensures buffer[writerIndex..writerIndex + |data|] == data
    {
      var i := 0;
      while i < |data|
        invariant 0 <= i <= |data|
        invariant buffer[..writerIndex] == old(buffer[..writerIndex])
        invariant buffer[writerIndex..writerIndex + i] == data[..i]
      {
        buffer[writerIndex + i] := data[i];
        i := i + 1;
      }
    }

    method HasWritten(len: nat)
      requires Valid() && len <= buffer.Length - writerIndex
      modifies this`writerIndex
      ensures Valid() && writerIndex == old(writerIndex) + len
      ensures Contents() == old(Contents()) + buffer[old(writerIndex)..old(writerIndex) + len]
    {
      writerIndex := writerIndex + len;
    }

    method Prepend(data: seq<Byte>)
      requires Valid() && |data| <= readerIndex
      modifies this, buffer
      ensures Valid() && buffer == old(buffer) && initial == old(initial)
      ensures Contents() == data + old(Contents()) && View() == old(View()).Prepended(|data|)
    {
      ghost var was := Contents();
      WriteInFront(data);
      readerIndex := readerIndex - |data|;
      assert Contents() == data + was;
    }

    /** `std::copy` to the bytes in front of the readable ones. */
    method WriteInFront(data: seq<Byte>)
      requires Valid() && |data| <= readerIndex
      modifies buffer
      ensures buffer[readerIndex - |data|..readerIndex] == data
      ensures buffer[readerIndex..writerIndex] == old(buffer[readerIndex..writerIndex])
    {
      var to := readerIndex - |data|;
      var i := 0;
      while i < |data|
        invariant 0 <= i <= |data|
        invariant buffer[to..to + i] == data[..i]
        invariant buffer[readerIndex..writerIndex] == old(buffer[readerIndex..writerIndex])
      {
        buffer[to + i] := data[i];
        i := i + 1;
      }
    }

    /** `appendInt8` to `appendInt64`, for a width of 1, 2, 4 or 8 bytes. */
    method AppendInt(x: int, width: nat)
      requires Valid() && Fits(x, width)
      modifies this, buffer
      ensures Valid() && (buffer == old(buffer) || fresh(buffer)) && initial == old(initial)
      ensures Contents() == old(Contents()) + EncodeInt(x, width)
    {
      Append(EncodeInt(x, width));
    }

    method PeekInt(width: nat) returns (x: int)
      requires Valid() && |Contents()| >= width
      ensures x == DecodeInt(Contents()[..width])
    {
      assert Contents()[..width] == buffer[readerIndex..readerIndex + width];
      x := DecodeInt(buffer[readerIndex..readerIndex + width]);
    }

    method ReadInt(width: nat) returns (x: int)
      requires Valid() && |Contents()| >= width
      modifies this
      ensures Valid() && buffer == old(buffer) && initial == old(initial)
      ensures x == DecodeInt(old(Contents())[..width]) && Contents() == old(Contents())[width..]
    {
      x := PeekInt(width);
      Retrieve(width);
    }

    method PrependInt(x: int, width: nat)
      requires Valid() && Fits(x, width) && width <= readerIndex
      modifies this, buffer
      ensures Valid() && buffer == old(buffer) && initial == old(initial)
      ensures Contents() == EncodeInt(x, width) + old(Contents())
    {
      Prepend(EncodeInt(x, width));
    }

    /** How many bytes one `readv` can deliver. */
    ghost function Capacity(): (n: int)
      reads this
      ensures n == buffer.Length - writerIndex + if buffer.Length - writerIndex < 65536 then 65536 else 0
    {
      var writable := buffer.Length - writerIndex;
      if writable < EXTRA_BUFFER then writable + EXTRA_BUFFER else writable
    }

    /** `received` is what `readv` delivered, or None if it failed. It fills the tail of
        the buffer first and the extra buffer with the rest. */
    method ReadFd(received: Option<seq<Byte>>) returns (n: int)
      requires Valid() && (received.Some? ==> |received.value| <= Capacity())
      modifies this, buffer
      ensures Valid() && (buffer == old(buffer) || fresh(buffer)) && initial == old(initial)
      ensures received.None? ==> n < 0 && Contents() == old(Contents())
      ensures received.Some? ==> n == |received.value| && Contents() == old(Contents()) + received.value
    {
      if received.None? {
        return -1;
      }
      var data := received.value;
      n := |data|;
      var writable := buffer.Length - writerIndex;
      if n <= writable {
        FillTail(data);
      } else {
        var extrabuf := data[writable..];
        assert data == data[..writable] + extrabuf;
        FillTail(data[..writable]);
        assert writerIndex == buffer.Length;
        Append(extrabuf);
      }
    }
  }

  /** An integer appended behind other bytes and read after them comes back. */
  lemma {:induction false} AppendThenRead(before: seq<Byte>, x: int, w: nat, after: seq<Byte>)
    requires Fits(x, w)
    ensures DecodeInt((before + EncodeInt(x, w) + after)[|before|..][..w]) == x
  {
    assert (before + EncodeInt(x, w) + after)[|before|..][..w] == EncodeInt(x, w);
    IntRoundTrip(x, w);
  }

  /** An integer put in front of the readable bytes is what a peek then sees. */
  lemma {:induction false} PrependThenPeek(x: int, w: nat, contents: seq<Byte>)
    requires Fits(x, w)
    ensures DecodeInt((EncodeInt(x, w) + contents)[..w]) == x
  {
    assert (EncodeInt(x, w) + contents)[..w] == EncodeInt(x, w);
    IntRoundTrip(x, w);
  }
}
