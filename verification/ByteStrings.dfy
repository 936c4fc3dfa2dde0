/** The growable cursor buffer of `client/sml/byte_string.cpp`, and the datagram codec written
    with it. */
module ByteStrings {
  import opened Bytes
  import opened Wrappers
  import opened Datagrams

  // ---------- what the buffer represents ----------

  /** A string of bytes with a cursor. */
  datatype Text = Text(content: seq<byte>, cursor: nat)

  ghost predicate Sound(t: Text) {
    t.cursor <= |t.content|
  }

  /** Overwrite from the cursor on, lengthening the string where necessary. */
  function WriteTo(t: Text, data: seq<byte>): Text
    requires t.cursor <= |t.content|
  {
    var end := t.cursor + |data|;
    Text(t.content[..t.cursor] + data + t.content[Min(end, |t.content|)..], end)
  }

  /** The bytes a read of at most `n` takes. */
  function Taken(t: Text, n: nat): seq<byte>
    requires t.cursor <= |t.content|
  {
    t.content[t.cursor..Min(t.cursor + n, |t.content|)]
  }

  datatype Whence = SeekSet | SeekCur | SeekEnd

  function Target(t: Text, whence: Whence, offset: int): int {
    match whence
    case SeekSet => offset
    case SeekCur => t.cursor + offset
    case SeekEnd => |t.content| + offset
  }

  /** Reading back what was written, wherever the cursor was, gives the same bytes; everything else
      in the string is as before. */
  lemma WriteThenRead(t: Text, data: seq<byte>)
    requires Sound(t)
    ensures var u := WriteTo(t, data);
            && Sound(u)
            && Taken(u.(cursor := t.cursor), |data|) == data
            && u.content[..t.cursor] == t.content[..t.cursor]
            && forall i :: t.cursor + |data| <= i < |t.content| ==> u.content[i] == t.content[i]
  {
  }

  /** A read takes the bytes from the cursor on, as many as it asks for or as there are. */
  lemma TakenAt(t: Text, n: nat)
    requires Sound(t)
    ensures |Taken(t, n)| == if t.cursor + n <= |t.content| then n else |t.content| - t.cursor
    ensures forall i :: 0 <= i < |Taken(t, n)| ==> Taken(t, n)[i] == t.content[t.cursor + i]
  {
  }

  /** What a seek is for: from the start it leaves so many bytes behind, and from the end so many to be
      read. */
  lemma SeekFromEnds(t: Text, k: nat)
    requires Sound(t) && k <= |t.content|
    ensures t.content[..k] + Taken(t.(cursor := Target(t, SeekSet, k)), |t.content|) == t.content
    ensures t.content[..|t.content| - k] + Taken(t.(cursor := Target(t, SeekEnd, 0 - k)), k) == t.content
  {
    var c := t.content;
    assert Taken(t.(cursor := k), |c|) == c[k..];
    assert Taken(t.(cursor := |c| - k), k) == c[|c| - k..];
    hide Taken;
  }

  /** From the cursor it passes over what a read would take ... */
  lemma SeekForward(t: Text, k: nat, n: nat)
    requires t.cursor + k <= |t.content|
    ensures Taken(t, k) + Taken(t.(cursor := Target(t, SeekCur, k)), n) == Taken(t, k + n)
  {
    TakenJoins(t, k, n);
    hide Taken;
  }

  /** ... or goes back over it. */
  lemma SeekBack(t: Text, k: nat, n: nat)
    requires Sound(t) && k <= t.cursor
    ensures Taken(t.(cursor := Target(t, SeekCur, 0 - k)), k + n) == t.content[t.cursor - k..t.cursor] + Taken(t, n)
  {
    TakenJoins(t.(cursor := t.cursor - k), k, n);
    assert t.(cursor := t.cursor - k).(cursor := t.cursor) == t;
    hide Taken;
  }

  lemma TakenJoins(t: Text, k: nat, n: nat)
    requires t.cursor + k <= |t.content|
    ensures Taken(t, k) == t.content[t.cursor..t.cursor + k]
    ensures Taken(t, k) + Taken(t.(cursor := t.cursor + k), n) == Taken(t, k + n)
  {
    var at := t.cursor;
    SliceJoins(t.content, at, at + k, Min(at + k + n, |t.content|));
  }

  lemma SliceJoins(s: seq<byte>, i: nat, j: nat, k: nat)
    requires i <= j <= k <= |s|
    ensures s[i..j] + s[j..k] == s[i..k]
  {
  }

  lemma WrittenAtEnd(content: seq<byte>, data: seq<byte>)
    ensures WriteTo(Text(content, |content|), data) == Text(content + data, |content| + |data|)
  {
    assert content[|content|..] == [] && content[..|content|] == content;
    assert content + data + [] == content + data;
  }

  /** Two writes in a row are one. */
  lemma WritesJoin(t: Text, d: seq<byte>, e: seq<byte>)
    requires Sound(t)
    ensures Sound(WriteTo(t, d)) && WriteTo(WriteTo(t, d), e) == WriteTo(t, d + e)
  {
    var u := WriteTo(t, d);
    assert u.content[..u.cursor] == t.content[..t.cursor] + d;
    assert u.content[Min(u.cursor + |e|, |u.content|)..] == t.content[Min(t.cursor + |d + e|, |t.content|)..];
  }

  // ---------- sizes ----------

  /** The largest size asked for; beyond it the 32-bit shift of the program overflows. */
  const MAX_SIZE := 0x4000_0000

  const ALIGNED := 16

  function AlignUp(size: nat): nat {
    if size == 0 then 0 else (size - 1) / ALIGNED * ALIGNED + ALIGNED
  }

  /** The least multiple of sixteen that is large enough. */
  lemma AlignUpIsLeast(size: nat, m: nat)
    ensures AlignUp(size) % 16 == 0 && AlignUp(size) >= size
    ensures m % 16 == 0 && m >= size ==> AlignUp(size) <= m
  {
  }

  ghost predicate PowerOfTwo(x: nat) {
    exists k: nat :: x == Pow2(k)
  }

  lemma {:induction false} Pow2Grows(i: nat, j: nat)
    requires i < j
    ensures 2 * Pow2(i) <= Pow2(j)
  {
    if i + 1 < j {
      Pow2Grows(i, j - 1);
    }
  }

  lemma PowersApart(x: nat, y: nat)
    requires PowerOfTwo(x) && PowerOfTwo(y) && x < y
    ensures 2 * x <= y
  {
    var i: nat :| x == Pow2(i);
    var j: nat :| y == Pow2(j);
    if j < i {
      Pow2Grows(j, i);
    }
    Pow2Grows(i, j);
  }

  lemma {:induction false} Pow2Multiple(k: nat)
    requires k >= 4
    ensures Pow2(k) % ALIGNED == 0
  {
    if k == 4 {
      assert Pow2(4) == 16;
    } else {
      Pow2Multiple(k - 1);
    }
  }

  /** Aligning a power of two leaves it alone, or makes it the least size. */
  lemma AlignPower(x: nat)
    requires PowerOfTwo(x)
    ensures AlignUp(x) == Max(x, ALIGNED) && PowerOfTwo(AlignUp(x))
  {
    var k: nat :| x == Pow2(k);
    assert Pow2(4) == 16;
    if k < 4 {
      Pow2Grows(k, 4);
    } else {
      Pow2Multiple(k);
    }
  }

  // ---------- the buffer ----------

  class ByteString {
    var buf: array<byte>
    var dataLen: nat
    var bufSize: nat
    var offset: nat
    ghost var copied: nat    // bytes copied by all reallocations so far

    ghost predicate Valid()
      reads this
    {
      buf.Length == bufSize && offset <= dataLen <= bufSize && bufSize % ALIGNED == 0
    }

    ghost function View(): Text
      requires Valid()
      reads this, buf
    {
      Text(buf[..dataLen], offset)
    }

    /** What a buffer that started empty keeps: its capacity is nothing, or a power of two that is
        at least 16 and less than twice its length, and all reallocations together have copied
        fewer bytes than that. */
    ghost predicate Amortised()
      reads this
    {
      if bufSize == 0 then copied == 0 && dataLen == 0
      else PowerOfTwo(bufSize) && ALIGNED <= bufSize < Max(17, 2 * dataLen) && copied < bufSize
    }

    constructor ()
      ensures Valid() && View() == Text([], 0) && Amortised() && fresh(buf)
    {
      buf := new byte[0];
      dataLen, bufSize, offset, copied := 0, 0, 0, 0;
    }

    constructor FromBytes(val: seq<byte>)
      requires |val| <= MAX_SIZE
      ensures Valid() && View() == Text(val, 0) && fresh(buf)
    {
      buf := new byte[0];
      dataLen, bufSize, offset, copied := 0, 0, 0, 0;
      new;
      ChangeBufferSizeTo(|val|);
      dataLen := |val|;
      forall i | 0 <= i < |val| {
        buf[i] := val[i];
      }
      assert buf[..dataLen] == val;
    }

    /** Reallocate to a multiple of 16, keeping as much of the data as fits; whoever shrinks the
        buffer below its data has to set the length anew. */
    method ChangeBufferSizeTo(size: nat)
      requires Valid()
      modifies this`buf, this`bufSize, this`copied
      ensures fresh(buf) && buf.Length == bufSize == AlignUp(size) >= size
      ensures buf[..Min(bufSize, dataLen)] == old(buf[..Min(AlignUp(size), dataLen)])
      ensures size >= dataLen ==> Valid() && View() == old(View())
      ensures copied == old(copied) + if size > 0 && old(bufSize) > 0 then Min(bufSize, dataLen) else 0
    {
      var rounded := if size >= 1 then (size - 1) / ALIGNED * ALIGNED + ALIGNED else 0;
      var newBuf := new byte[rounded];
      if rounded > 0 && bufSize > 0 {
        var n := if rounded < dataLen then rounded else dataLen;
        forall i | 0 <= i < n {
          newBuf[i] := buf[i];
        }
        copied := copied + n;
      }
      assert newBuf[..Min(rounded, dataLen)] == buf[..Min(rounded, dataLen)];
      buf := newBuf;
      bufSize := rounded;
    }

    /** Grow to the least power of two that is large enough. */
    method AdjustBufferSize(need: nat)
      requires Valid() && dataLen <= need <= MAX_SIZE
      modifies this`buf, this`bufSize, this`copied
      ensures Valid() && View() == old(View()) && fresh(buf)
      ensures bufSize >= need && PowerOfTwo(bufSize) && ALIGNED <= bufSize < Max(17, 2 * need)
      ensures copied == old(copied) + if old(bufSize) > 0 then dataLen else 0
    {
      var dst := 1;
      ghost var k: nat := 0;
      while dst < need
        invariant dst == Pow2(k) && (dst < 2 * need || dst == 1)
        decreases need - dst
      {
        dst := dst * 2;
        k := k + 1;
      }
      assert PowerOfTwo(dst);
      AlignPower(dst);
      ChangeBufferSizeTo(dst);
    }

    method GuaranteeSpace(size: nat)
      requires Valid() && dataLen <= bufSize && size <= MAX_SIZE
      modifies this`buf, this`bufSize, this`copied
      ensures Valid() && View() == old(View()) && bufSize >= size
      ensures size <= old(bufSize) ==> buf == old(buf) && bufSize == old(bufSize) && copied == old(copied)
      ensures size > old(bufSize) ==>
                && fresh(buf) && PowerOfTwo(bufSize) && ALIGNED <= bufSize < Max(17, 2 * size)
                && copied == old(copied) + if old(bufSize) > 0 then dataLen else 0
    {
      if size > bufSize {
        AdjustBufferSize(size);
      }
    }

    /** Writes everything it is given. */
    method Write(data: seq<byte>) returns (n: nat)
      requires Valid() && offset + |data| <= MAX_SIZE
      modifies this, buf
      ensures Valid() && (buf == old(buf) || fresh(buf))
      ensures n == |data| && View() == WriteTo(old(View()), data)
      ensures old(Amortised()) ==> Amortised()
    {
      if data == [] {
        assert View().content == WriteTo(old(View()), data).content;
        return 0;
      }
      GuaranteeSpace(offset + |data|);
      GrowthIsAmortised(old(bufSize), old(copied), dataLen, bufSize, copied, Max(dataLen, offset + |data|));
      Overwrite(data);
      n := |data|;
    }

    /** Copy into the space there is. */
    method Overwrite(data: seq<byte>)
      requires Valid() && offset + |data| <= bufSize
      modifies this`offset, this`dataLen, buf
      ensures Valid() && View() == WriteTo(old(View()), data)
      ensures dataLen == Max(old(dataLen), old(offset) + |data|)
    {
      ghost var t := View();
      forall i | 0 <= i < |data| {
        buf[offset + i] := data[i];
      }
      offset := offset + |data|;
      dataLen := if offset > dataLen then offset else dataLen;
      assert buf[..dataLen] == WriteTo(t, data).content;
    }

    /** Takes at most `n` bytes from the cursor on. */
    method Read(n: nat) returns (data: seq<byte>)
      requires Valid()
      modifies this`offset
      ensures Valid() && data == Taken(old(View()), n)
      ensures View() == old(View()).(cursor := old(offset) + |data|)
    {
      var m := if dataLen - offset >= n then n else dataLen - offset;
      data := buf[offset..offset + m];
      offset := offset + m;
    }

    /** Targets outside the data are not modelled. */
    method Seek(whence: Whence, delta: int)
      requires Valid() && 0 <= Target(View(), whence, delta) <= dataLen
      modifies this`offset
      ensures Valid() && View() == old(View()).(cursor := Target(old(View()), whence, delta))
      ensures Amortised() == old(Amortised())
    {
      match whence {
        case SeekCur => offset := offset + delta;
        case SeekEnd => offset := dataLen + delta;
        case SeekSet => offset := delta;
      }
    }

    /** Appends the content of another buffer. */
    method Append(val: ByteString)
      requires Valid() && val.Valid() && val != this && val.buf != buf && dataLen + val.dataLen <= MAX_SIZE
      modifies this, buf
      ensures Valid() && (buf == old(buf) || fresh(buf))
      ensures View() == Text(old(View().content) + old(val.View().content), old(dataLen) + old(val.dataLen))
      ensures old(Amortised()) ==> Amortised()
    {
      hide WriteTo, Amortised;
      ghost var t := View();
      var data := val.buf[..val.dataLen];
      Seek(SeekEnd, 0);
      assert View() == t.(cursor := |t.content|);
      var n := Write(data);
      WrittenAtEnd(t.content, data);
    }
  }

  /** One reallocation keeps the bound on capacity and on copying. */
  lemma GrowthIsAmortised(c0: nat, copied0: nat, len0: nat, c1: nat, copied1: nat, len1: nat)
    requires len0 <= c0 && len0 <= len1
    requires len1 <= c0 ==> c1 == c0 && copied1 == copied0
    requires len1 > c0 ==> len1 <= c1 && PowerOfTwo(c1) && ALIGNED <= c1 < Max(17, 2 * len1)
    requires len1 > c0 ==> copied1 == copied0 + if c0 > 0 then len0 else 0
    requires len1 > 0
    ensures c0 == 0 && copied0 == 0 && len0 == 0 ==>
              PowerOfTwo(c1) && ALIGNED <= c1 < Max(17, 2 * len1) && copied1 < c1
    ensures c0 > 0 && PowerOfTwo(c0) && ALIGNED <= c0 < Max(17, 2 * len0) && copied0 < c0 ==>
              PowerOfTwo(c1) && ALIGNED <= c1 < Max(17, 2 * len1) && copied1 < c1
  {
    if c0 > 0 && PowerOfTwo(c0) && c0 < c1 {
      PowersApart(c0, c1);
    }
  }

  // ---------- whole runs ----------

  /** What a user may do with a buffer; the buffer appended is another one, with this content. */
  datatype Operation =
    | Writing(data: seq<byte>)
    | Reading(n: nat)
    | Seeking(whence: Whence, delta: int)
    | Appending(data: seq<byte>)

  /** The operation stays within the data and within the sizes considered. */
  predicate Possible(t: Text, op: Operation) {
    && t.cursor <= |t.content|
    && match op
       case Writing(data) => t.cursor + |data| <= MAX_SIZE
       case Reading(_) => true
       case Seeking(whence, delta) => 0 <= Target(t, whence, delta) <= |t.content|
       case Appending(data) => |t.content| + |data| <= MAX_SIZE
  }

  function Performed(t: Text, op: Operation): Text
    requires Possible(t, op)
  {
    match op
    case Writing(data) => WriteTo(t, data)
    case Reading(n) => t.(cursor := t.cursor + |Taken(t, n)|)
    case Seeking(whence, delta) => t.(cursor := Target(t, whence, delta))
    case Appending(data) => Text(t.content + data, |t.content| + |data|)
  }

  predicate AllPossible(t: Text, ops: seq<Operation>)
    decreases |ops|
  {
    ops != [] ==> Possible(t, ops[0]) && AllPossible(Performed(t, ops[0]), ops[1..])
  }

  /** The string and cursor after all operations, and everything that was read. */
  function AllPerformed(t: Text, ops: seq<Operation>): (Text, seq<seq<byte>>)
    requires AllPossible(t, ops)
    decreases |ops|
  {
    if ops == [] then (t, [])
    else
      var r := AllPerformed(Performed(t, ops[0]), ops[1..]);
      (r.0, TakenBy(t, ops[0]) + r.1)
  }

  function TakenBy(t: Text, op: Operation): seq<seq<byte>>
    requires Possible(t, op)
  {
    if op.Reading? then [Taken(t, op.n)] else []
  }

  method PerformOne(b: ByteString, op: Operation) returns (taken: seq<seq<byte>>)
    requires b.Valid() && Possible(b.View(), op)
    modifies b, b.buf
    ensures b.Valid() && (b.buf == old(b.buf) || fresh(b.buf)) && (old(b.Amortised()) ==> b.Amortised())
    ensures b.View() == Performed(old(b.View()), op) && taken == TakenBy(old(b.View()), op)
  {
    taken := [];
    if op.Writing? {
      var n := b.Write(op.data);
    } else if op.Reading? {
      var bytes := b.Read(op.n);
      taken := [bytes];
    } else if op.Seeking? {
      b.Seek(op.whence, op.delta);
    } else {
      var other := new ByteString.FromBytes(op.data);
      b.Append(other);
    }
  }

  /** Any run of operations on a buffer that starts empty: it reads and holds what the string and its
      cursor would, keeps its shape, and its capacity and all its copying stay within the bounds. */
  method Perform(ops: seq<Operation>) returns (b: ByteString, taken: seq<seq<byte>>)
    requires AllPossible(Text([], 0), ops)
    ensures fresh(b) && b.Valid() && b.Amortised()
    ensures (b.View(), taken) == AllPerformed(Text([], 0), ops)
  {
    hide Possible, Performed, TakenBy, ByteString.Amortised;
    ghost var t := Text([], 0);
    b := new ByteString();
    taken := [];
    assert ops[0..] == ops && [] + AllPerformed(t, ops).1 == AllPerformed(t, ops).1;
    for i := 0 to |ops|
      invariant fresh(b) && fresh(b.buf) && b.Valid() && b.Amortised()
      invariant AllPossible(b.View(), ops[i..])
      invariant var r := AllPerformed(b.View(), ops[i..]);
                AllPerformed(t, ops) == (r.0, taken + r.1)
    {
      assert ops[i..][0] == ops[i] && ops[i..][1..] == ops[i + 1..];
      ghost var rest := AllPerformed(Performed(b.View(), ops[i]), ops[i + 1..]).1;
      var more := PerformOne(b, ops[i]);
      assert taken + (more + rest) == taken + more + rest;
      taken := taken + more;
    }
    assert taken + [] == taken;
  }

  // ---------- the codec ----------

  /** A datagram as its conversion to a string writes it, field by field. */
  method SerialiseDatagram(o: ByteOrder, d: Datagram) returns (bytes: seq<byte>)
    requires HEADER + |d.payload| <= MAX_SIZE
    ensures bytes == Serialise(o, d)
  {
    hide WriteTo, Serialise, U32Bytes, ByteString.Amortised;
    var b := new ByteString();
    var n := b.Write([d.kind]);
    WrittenAtEnd([], [d.kind]);
    ghost var s1 := [d.kind];
    assert [] + s1 == s1;
    n := b.Write(U32Bytes(o, d.id));
    WrittenAtEnd(s1, U32Bytes(o, d.id));
    ghost var s2 := s1 + U32Bytes(o, d.id);
    n := b.Write(U32Bytes(o, d.offset));
    WrittenAtEnd(s2, U32Bytes(o, d.offset));
    ghost var s3 := s2 + U32Bytes(o, d.offset);
    n := b.Write(U32Bytes(o, d.length));
    WrittenAtEnd(s3, U32Bytes(o, d.length));
    ghost var s4 := s3 + U32Bytes(o, d.length);
    n := b.Write(d.payload);
    WrittenAtEnd(s4, d.payload);
    bytes := b.buf[..b.dataLen];
    SerialisedInOrder(o, d);
  }

  lemma SerialisedInOrder(o: ByteOrder, d: Datagram)
    ensures Serialise(o, d) == [d.kind] + U32Bytes(o, d.id) + U32Bytes(o, d.offset) + U32Bytes(o, d.length) + d.payload
  {
  }

  /** Fields are read in the same order; a field that cannot be read whole raises an exception. */
  method ParseDatagram(o: ByteOrder, bytes: seq<byte>) returns (r: Result<Datagram, ParseError>)
    requires |bytes| <= MAX_SIZE
    ensures r == Parse(o, bytes)
  {
    hide BytesU32, ByteString.Amortised;
    var b := new ByteString.FromBytes(bytes);
    var kind := b.Read(1);
    if |kind| != 1 {
      return Failure(IoError);
    }
    var id := b.Read(4);
    if |id| != 4 {
      return Failure(IoError);
    }
    assert id == bytes[1..5];
    var offset := b.Read(4);
    if |offset| != 4 {
      return Failure(IoError);
    }
    assert offset == bytes[5..9];
    var length := b.Read(4);
    if |length| != 4 {
      return Failure(IoError);
    }
    assert length == bytes[9..13];
    var payload := b.Read(b.dataLen - b.offset);
    assert payload == bytes[13..];
    r := Success(Datagram(kind[0], BytesU32(o, id), BytesU32(o, offset), BytesU32(o, length), payload));
  }
}
