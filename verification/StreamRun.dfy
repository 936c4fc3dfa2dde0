/** Two ends of one stream over a network that loses, repeats and reorders datagrams.
    The network is the set of all datagrams ever handed to it: a datagram may be received any
    number of times, at any later time, or never. Both directions run at once. */
module StreamRun {
  import opened Bytes
  import opened Datagrams
  import opened StreamSpec

  /** One end, with the history of what it transmitted (`out`), what its user wrote, what its
      output ring received, and the largest acknowledgement it has processed. */
  datatype End = End(s: StreamState, out: set<Datagram>, written: seq<byte>, got: seq<byte>, acked: u32)

  datatype Event = Write(data: seq<byte>) | Timeout | Receive(d: Datagram)

  datatype Net = Net(a: End, b: End)

  function Flatten(chunks: seq<seq<byte>>): seq<byte> {
    if chunks == [] then [] else chunks[0] + Flatten(chunks[1..])
  }

  // ---------- steps ----------

  /** Everything written has been acknowledged, and the last acknowledgement processed says so. */
  ghost predicate Idle(x: End) {
    x.s.sendQueue == map[] && x.s.sendOffset == |x.written|
  }

  ghost predicate Enabled(x: End, inbound: set<Datagram>, e: Event) {
    match e
    case Write(data) => Idle(x) && |x.written| + |data| < TWO32
    case Timeout => x.s.timerArmed
    case Receive(d) => d in inbound
  }

  ghost function EffectOf(s: StreamState, e: Event): Effect {
    match e
    case Write(data) => Send(s, data)
    case Timeout => SendOne(s)
    case Receive(d) => Feed(s, d)
  }

  ghost function Act(x: End, e: Event): End {
    var f := EffectOf(x.s, e);
    End(f.state,
        x.out + (set d | d in f.sent),
        if e.Write? then x.written + e.data else x.written,
        x.got + Flatten(f.delivered),
        if e.Receive? && e.d.kind == DATA_ACK && e.d.offset > x.acked then e.d.offset else x.acked)
  }

  ghost predicate Init(n: Net) {
    exists i: u32, j: u32 ::
      n == Net(End(Fresh(i), {}, [], [], 0), End(Fresh(j), {}, [], [], 0))
  }

  ghost predicate Next(n: Net, n': Net) {
    || (exists e :: Enabled(n.a, n.b.out, e) && n' == Net(Act(n.a, e), n.b))
    || (exists e :: Enabled(n.b, n.a.out, e) && n' == Net(n.a, Act(n.b, e)))
  }

  ghost predicate IsRun(run: seq<Net>) {
    && |run| > 0
    && Init(run[0])
    && forall i :: 0 <= i < |run| - 1 ==> Next(run[i], run[i + 1])
  }

  // ---------- the segments of a stream ----------

  /** Where segment `i` begins; the end of the stream after the last one. */
  function Cut(segs: seq<Datagram>, w: seq<byte>, i: nat): int {
    if i < |segs| then segs[i].offset else |w|
  }

  /** `segs` is the stream `w` cut into consecutive non-empty segments of at most 1000 bytes. */
  ghost predicate Segmented(segs: seq<Datagram>, w: seq<byte>) {
    && |w| < TWO32
    && Cut(segs, w, 0) == 0
    && forall i :: 0 <= i < |segs| ==> IsSegment(segs, w, i)
  }

  ghost predicate IsSegment(segs: seq<Datagram>, w: seq<byte>, i: nat)
    requires i < |segs|
  {
    var d := segs[i];
    && d.kind == DATA
    && 1 <= d.length <= SEGMENT_MAX
    && d.offset + d.length == Cut(segs, w, i + 1) <= |w|
    && d.payload == w[d.offset..d.offset + d.length]
  }

  lemma {:induction false} CutsGrow(segs: seq<Datagram>, w: seq<byte>, i: nat, j: nat)
    requires Segmented(segs, w) && i <= j <= |segs|
    ensures Cut(segs, w, i) + (j - i) <= Cut(segs, w, j) <= |w|
    decreases |segs| - i
  {
    if i < j {
      assert IsSegment(segs, w, i);
      CutsGrow(segs, w, i + 1, j);
    } else if j < |segs| {
      assert IsSegment(segs, w, j);
    }
  }

  /** `q` holds exactly the segments from number `m` on. */
  ghost predicate QueueIs(q: Queue, segs: seq<Datagram>, m: nat) {
    && (forall i :: m <= i < |segs| ==> segs[i].offset in q && q[segs[i].offset] == segs[i])
    && (forall k :: k in q ==> exists i :: m <= i < |segs| && segs[i].offset == k)
  }

  lemma QueueHead(q: Queue, segs: seq<Datagram>, m: nat)
    requires QueueIs(q, segs, m)
    ensures m < |segs| ==> segs[m].offset in q
  {
  }

  /** `d` is one of the segments up to number `r`. */
  ghost predicate UpTo(segs: seq<Datagram>, d: Datagram, r: nat) {
    exists i :: 0 <= i <= r && i < |segs| && segs[i] == d
  }

  /** `off` is a segment boundary at or before number `r`. */
  ghost predicate IsCut(segs: seq<Datagram>, w: seq<byte>, off: int, r: nat) {
    exists j :: 0 <= j <= r && Cut(segs, w, j) == off
  }

  // ---------- the invariant of one direction ----------

  /** How far the direction from `x` to `y` has come: the segments so far, the number of the first
      one not acknowledged to `x`, and the number of the first one not delivered at `y`. */
  datatype Track = Track(segs: seq<Datagram>, m: nat, r: nat)

  ghost predicate Sending(x: End, t: Track) {
    && Segmented(t.segs, x.written)
    && t.m <= t.r <= |t.segs|
    && x.acked == Cut(t.segs, x.written, t.m)
    && QueueIs(x.s.sendQueue, t.segs, t.m)
    && IsCut(t.segs, x.written, x.s.sendOffset, t.m)
    && (forall d :: d in x.out ==> (d.kind == DATA_ACK && d.payload == []) || UpTo(t.segs, d, t.r))
  }

  ghost predicate Receiving(x: End, y: End, t: Track) {
    && Segmented(t.segs, x.written)
    && t.r <= |t.segs|
    && y.s.recvOffset == Cut(t.segs, x.written, t.r) <= |x.written|
    && y.got == x.written[..y.s.recvOffset]
    && (forall k :: k in y.s.recvQueue ==> UpTo(t.segs, y.s.recvQueue[k], t.r) && y.s.recvQueue[k].offset == k)
    && !AtHead(y.s.recvQueue, y.s.recvOffset)
    && (forall d :: d in y.out && d.kind == DATA_ACK ==> IsCut(t.segs, x.written, d.offset, t.r))
  }

  ghost predicate Half(x: End, y: End, t: Track) {
    Sending(x, t) && Receiving(x, y, t)
  }

  ghost predicate Inv(n: Net) {
    exists ta, tb :: Half(n.a, n.b, ta) && Half(n.b, n.a, tb)
  }

  // ---------- transmitting ----------

  /** Dropping what lies before a boundary leaves the segments from the later boundary on, and the
      one transmitted is the first of them. */
  lemma SendOneKeepsQueue(s: StreamState, segs: seq<Datagram>, w: seq<byte>, m: nat, j: nat)
    requires Segmented(segs, w) && m <= |segs| && j <= |segs|
    requires QueueIs(s.sendQueue, segs, m) && s.sendOffset == Cut(segs, w, j)
    ensures var f := SendOne(s);
            var m' := if j < m then m else j;
            && QueueIs(f.state.sendQueue, segs, m')
            && f.sent == (if m' < |segs| then [segs[m']] else [])
            && f.state.timerArmed == (m' < |segs|)
            && forall d :: d in f.sent ==> d.kind == DATA
  {
    var m' := if j < m then m else j;
    var q := SendOne(s).state.sendQueue;
    forall i | 0 <= i < |segs|
      ensures i < j ==> segs[i].offset < s.sendOffset
      ensures i >= j ==> segs[i].offset >= s.sendOffset
      ensures i > m' ==> segs[i].offset > Cut(segs, w, m')
    {
      if i < j { CutsGrow(segs, w, i, j); } else { CutsGrow(segs, w, j, i); }
      if i > m' { CutsGrow(segs, w, m', i); }
    }
    assert QueueIs(q, segs, m');
    if m' < |segs| {
      assert segs[m'].offset in q;
      assert IsLeast(q.Keys, segs[m'].offset);
      assert IsSegment(segs, w, m');
    }
  }

  /** Everything the event makes `x` transmit is data. */
  ghost predicate OnlyData(x: End, e: Event) {
    forall d :: d in EffectOf(x.s, e).sent ==> d.kind == DATA
  }

  lemma SenderTimeout(x: End, t: Track)
    requires Sending(x, t)
    ensures Sending(Act(x, Timeout), t) && OnlyData(x, Timeout)
  {
    var j :| 0 <= j <= t.m && Cut(t.segs, x.written, j) == x.s.sendOffset;
    SendOneKeepsQueue(x.s, t.segs, x.written, t.m, j);
  }

  /** What an acknowledgement does to its receiver's sending half. */
  lemma AcknowledgedEffect(x: End, d: Datagram)
    requires d.kind == DATA_ACK
    ensures var x', one := Act(x, Receive(d)), SendOne(x.s.(sendOffset := d.offset));
            && x'.s.sendQueue == one.state.sendQueue && x'.s.sendOffset == d.offset
            && x'.written == x.written && x'.acked == Max(x.acked, d.offset)
            && (forall a :: a in x'.out ==> a in x.out || a in one.sent || (a.kind == DATA_ACK && a.payload == []))
            && (!AtHead(x.s.recvQueue, x.s.recvOffset) ==> EffectOf(x.s, Receive(d)).sent == one.sent)
  {
  }

  lemma SenderAcknowledged(x: End, t: Track, d: Datagram) returns (t': Track)
    requires Sending(x, t) && d.kind == DATA_ACK && IsCut(t.segs, x.written, d.offset, t.r)
    ensures t' == t.(m := t'.m) && Sending(Act(x, Receive(d)), t')
    ensures !AtHead(x.s.recvQueue, x.s.recvOffset) ==> OnlyData(x, Receive(d))
  {
    hide Act, SendOne, EffectOf, AtHead;
    var j :| 0 <= j <= t.r && Cut(t.segs, x.written, j) == d.offset;
    t' := t.(m := if j < t.m then t.m else j);
    AcknowledgedEffect(x, d);
    SendOneKeepsQueue(x.s.(sendOffset := d.offset), t.segs, x.written, t.m, j);
    if j < t.m { CutsGrow(t.segs, x.written, j, t.m); } else { CutsGrow(t.segs, x.written, t.m, j); }
    var sent := SendOne(x.s.(sendOffset := d.offset)).sent;
    assert forall a :: a in sent ==> UpTo(t.segs, a, t.r);
    hide UpTo, QueueIs;
  }

  /** The segments `send` makes of `data`. */
  function Segments(id: u32, base: nat, data: seq<byte>, from: nat): seq<Datagram>
    requires from <= |data|
    decreases |data| - from
  {
    if from == |data| then []
    else var d := SegmentAt(id, base, data, from); [d] + Segments(id, base, data, from + d.length)
  }

  /** A segment that begins where the stream ends extends the segmentation ... */
  lemma SegmentExtends(segs: seq<Datagram>, d: Datagram, w0: seq<byte>, w1: seq<byte>)
    requires Segmented(segs, w0)
    requires d.kind == DATA && 1 <= d.length <= SEGMENT_MAX && d.offset == |w0|
    requires w1 == w0 + d.payload && |d.payload| == d.length && |w1| < TWO32
    ensures Segmented(segs + [d], w1)
  {
    var segs1 := segs + [d];
    forall i | 0 <= i < |segs1|
      ensures IsSegment(segs1, w1, i)
    {
      if i < |segs| {
        assert IsSegment(segs, w0, i);
        var lo, hi := segs[i].offset, segs[i].offset + segs[i].length;
        assert Cut(segs1, w1, i + 1) == Cut(segs, w0, i + 1);
        assert w1[lo..hi] == w0[lo..hi];
      }
    }
  }

  /** ... and the queue. */
  lemma QueueExtends(q: Queue, segs: seq<Datagram>, d: Datagram, w0: seq<byte>, m: nat)
    requires Segmented(segs, w0) && m <= |segs| && QueueIs(q, segs, m) && d.offset == |w0|
    ensures QueueIs(InsertIfAbsent(q, d), segs + [d], m)
  {
    forall k | k in q
      ensures k < d.offset
    {
      var i :| m <= i < |segs| && segs[i].offset == k;
      CutsGrow(segs, w0, i, |segs|);
    }
    var q1 := InsertIfAbsent(q, d);
    var segs1 := segs + [d];
    forall k | k in q1
      ensures exists i :: m <= i < |segs1| && segs1[i].offset == k
    {
      if k == d.offset {
        assert segs1[|segs|].offset == k;
      } else {
        var i :| m <= i < |segs| && segs[i].offset == k;
        assert segs1[i].offset == k;
      }
    }
  }

  lemma NextSegment(id: u32, base: nat, data: seq<byte>, from: nat, w: seq<byte>)
    requires from < |data| && base + |data| < TWO32
    ensures var d := SegmentAt(id, base, data, from);
            && d.kind == DATA && 1 <= d.length <= SEGMENT_MAX && d.offset == base + from
            && from + d.length <= |data| && |d.payload| == d.length
            && w + data[..from + d.length] == w + data[..from] + d.payload
  {
    var d := SegmentAt(id, base, data, from);
    assert data[..from + d.length] == data[..from] + d.payload;
  }

  /** Queueing `data[from..]` behind a queue that reaches up to `from` extends both the queue and
      the segmentation. */
  lemma {:induction false} EnqueueExtends(q: Queue, id: u32, base: nat, data: seq<byte>, from: nat,
                                          segs: seq<Datagram>, w: seq<byte>, m: nat)
    requires from <= |data| && |w| == base && base + |data| < TWO32
    requires Segmented(segs, w + data[..from]) && m <= |segs| && QueueIs(q, segs, m)
    ensures var segs' := segs + Segments(id, base, data, from);
            Segmented(segs', w + data) && QueueIs(Enqueue(q, id, base, data, from), segs', m)
    decreases |data| - from
  {
    hide Segmented, QueueIs;
    if from == |data| {
      assert data[..from] == data;
      assert segs + [] == segs;
    } else {
      var d := SegmentAt(id, base, data, from);
      var to := from + d.length;
      NextSegment(id, base, data, from, w);
      hide SegmentAt;
      SegmentExtends(segs, d, w + data[..from], w + data[..to]);
      QueueExtends(q, segs, d, w + data[..from], m);
      EnqueueExtends(InsertIfAbsent(q, d), id, base, data, to, segs + [d], w, m);
      var rest := Segments(id, base, data, to);
      assert Segments(id, base, data, from) == [d] + rest;
      assert segs + [d] + rest == segs + ([d] + rest);
    }
  }

  /** `t'` continues `t` after `data` has been written to `w`. */
  ghost predicate Continues(t: Track, t': Track, w: seq<byte>, data: seq<byte>) {
    && t'.m == t.m && t'.r == t.r && t.segs <= t'.segs
    && Segmented(t'.segs, w + data)
    && forall i :: 0 <= i <= |t.segs| ==> Cut(t'.segs, w + data, i) == Cut(t.segs, w, i)
  }

  /** The state of an idle sender when `send` has filled the queue and not yet transmitted. */
  ghost function Filled(s: StreamState, data: seq<byte>): StreamState {
    s.(sendQueue := Enqueue(s.sendQueue, s.id, SendBase(s), data, 0))
  }

  lemma FillContinues(x: End, t: Track, data: seq<byte>) returns (t': Track)
    requires Sending(x, t) && Idle(x) && |x.written| + |data| < TWO32
    ensures t.m == t.r == |t.segs| && Continues(t, t', x.written, data)
    ensures QueueIs(Filled(x.s, data).sendQueue, t'.segs, t.m)
    ensures Cut(t'.segs, x.written + data, t.m) == x.s.sendOffset
  {
    var w := x.written;
    QueueHead(x.s.sendQueue, t.segs, t.m);
    assert w + data[..0] == w;
    EnqueueExtends(x.s.sendQueue, x.s.id, |w|, data, 0, t.segs, w, t.m);
    t' := t.(segs := t.segs + Segments(x.s.id, |w|, data, 0));
    if data == [] {
      assert t'.segs == t.segs && w + data == w;
    }
  }

  lemma UpToContinues(t: Track, t': Track, out: set<Datagram>)
    requires t.segs <= t'.segs && t.r == t'.r
    requires forall d :: d in out ==> (d.kind == DATA_ACK && d.payload == []) || UpTo(t.segs, d, t.r)
    ensures forall d :: d in out ==> (d.kind == DATA_ACK && d.payload == []) || UpTo(t'.segs, d, t'.r)
  {
    forall d | d in out && UpTo(t.segs, d, t.r)
      ensures UpTo(t'.segs, d, t'.r)
    {
      var i :| 0 <= i <= t.r && i < |t.segs| && t.segs[i] == d;
      assert t'.segs[i] == d;
    }
  }

  lemma SenderWrites(x: End, t: Track, data: seq<byte>) returns (t': Track)
    requires Sending(x, t) && Idle(x) && |x.written| + |data| < TWO32
    ensures Continues(t, t', x.written, data) && Sending(Act(x, Write(data)), t')
    ensures OnlyData(x, Write(data))
  {
    t' := FillContinues(x, t, data);
    SendOneKeepsQueue(Filled(x.s, data), t'.segs, x.written + data, t.m, t.m);
    UpToContinues(t, t', x.out);
    assert forall d | d in Act(x, Write(data)).out :: d in x.out || UpTo(t'.segs, d, t.r);
  }

  // ---------- receiving ----------

  /** All queued segments lie at or before the expected one, so a drain takes it alone. */
  lemma DrainOfOne(q: Queue, off: u32)
    requires AtHead(q, off) && q[off].length > 0
    requires forall k :: k in q ==> k <= off
    ensures Drain(q, off) == Drained(map[], (off + q[off].length) % TWO32, [q[off].payload])
  {
    assert (q - {off}) == map[];
  }

  lemma NothingAtHead(off: u32)
    ensures !AtHead(map[], off)
  {
  }

  lemma SegmentOf(segs: seq<Datagram>, w: seq<byte>, i: nat)
    requires Segmented(segs, w) && i < |segs|
    ensures IsSegment(segs, w, i)
  {
  }

  lemma WiderCuts(out: set<Datagram>, segs: seq<Datagram>, w: seq<byte>, r: nat, r': nat)
    requires r <= r' && forall a :: a in out && a.kind == DATA_ACK ==> IsCut(segs, w, a.offset, r)
    ensures forall a :: a in out && a.kind == DATA_ACK ==> IsCut(segs, w, a.offset, r')
  {
  }

  /** What a data segment does to its receiver. */
  lemma FedEffect(y: End, d: Datagram)
    requires d.kind == DATA
    ensures var y', q, off := Act(y, Receive(d)), y.s.recvQueue[d.offset := d], y.s.recvOffset;
            if AtHead(q, off) then
              var r := Drain(q, off);
              && y'.s.recvQueue == r.queue && y'.s.recvOffset == r.offset
              && y'.got == y.got + Flatten(r.payloads)
              && y'.out == y.out + {AckFor(y.s.id, r.offset)}
            else
              y'.s.recvQueue == q && y'.s.recvOffset == off && y'.got == y.got && y'.out == y.out
  {
    assert Flatten([]) == [];
    assert y.got + [] == y.got;
  }

  lemma FlattenOne(chunk: seq<byte>)
    ensures Flatten([chunk]) == chunk
  {
    assert [chunk][1..] == [];
    assert chunk + [] == chunk;
  }

  /** Receiving segment `i`, which is at most the next expected one. */
  lemma ReceiverFed(x: End, y: End, t: Track, i: nat) returns (t': Track)
    requires Receiving(x, y, t) && i <= t.r && i < |t.segs|
    ensures t' == t.(r := t'.r) && t.r <= t'.r <= |t.segs|
    ensures Receiving(x, Act(y, Receive(t.segs[i])), t')
  {
    var d := t.segs[i];
    var w := x.written;
    var q := y.s.recvQueue[d.offset := d];
    var off := y.s.recvOffset;
    assert IsSegment(t.segs, w, i);
    assert UpTo(t.segs, d, t.r);
    forall k | k in q
      ensures k <= off && UpTo(t.segs, q[k], t.r)
      ensures k == off ==> t.r < |t.segs| && q[k] == t.segs[t.r]
    {
      var n :| 0 <= n <= t.r && n < |t.segs| && t.segs[n] == q[k];
      CutsGrow(t.segs, w, n, t.r);
    }
    FedEffect(y, d);
    hide Act, AtHead, Segmented, Drain, Flatten;
    if AtHead(q, off) {
      HeadQueued(q, off);
      assert IsSegment(t.segs, w, t.r) by { SegmentOf(t.segs, w, t.r); }
      DrainOfOne(q, off);
      t' := t.(r := t.r + 1);
      ExpectedDelivered(x, y, Act(y, Receive(d)), t);
    } else {
      t' := t;
    }
  }

  /** The next expected segment moves the receive offset to its end. */
  lemma ExpectedDelivered(x: End, y: End, y': End, t: Track)
    requires Receiving(x, y, t) && t.r < |t.segs| && IsSegment(t.segs, x.written, t.r)
    requires var next := t.segs[t.r];
             && y'.s.recvQueue == map[] && y'.s.recvOffset == (y.s.recvOffset + next.length) % TWO32
             && y'.got == y.got + Flatten([next.payload])
             && y'.out == y.out + {AckFor(y.s.id, y'.s.recvOffset)}
    ensures Receiving(x, y', t.(r := t.r + 1))
  {
    hide AtHead, Flatten, UpTo, IsSegment;
    var w, off, next := x.written, y.s.recvOffset, t.segs[t.r];
    assert next.offset == off && off + next.length == Cut(t.segs, w, t.r + 1) <= |w|
           && next.payload == w[off..off + next.length] by {
      ThisSegment(t.segs, w, t.r);
    }
    assert y'.s.recvOffset == off + next.length;
    FlattenOne(next.payload);
    assert w[..off] + w[off..off + next.length] == w[..off + next.length];
    NothingAtHead(y'.s.recvOffset);
    WiderCuts(y.out, t.segs, w, t.r, t.r + 1);
    assert IsCut(t.segs, w, y'.s.recvOffset, t.r + 1);
  }

  lemma ThisSegment(segs: seq<Datagram>, w: seq<byte>, i: nat)
    requires i < |segs| && IsSegment(segs, w, i)
    ensures segs[i].offset == Cut(segs, w, i) && segs[i].offset + segs[i].length == Cut(segs, w, i + 1) <= |w|
    ensures segs[i].payload == w[segs[i].offset..segs[i].offset + segs[i].length]
  {
  }

  /** Steps of the receiving end that concern its own sending direction leave this one alone. */
  lemma ReceiverUnmoved(x: End, y: End, t: Track, e: Event)
    requires Receiving(x, y, t)
    requires e.Receive? ==> e.d.kind == DATA_ACK
    requires OnlyData(y, e)
    ensures Receiving(x, Act(y, e), t)
  {
    assert Flatten([]) == [];
    assert Act(y, e).got == y.got;
  }

  lemma ReceiverContinues(x: End, y: End, t: Track, t': Track, data: seq<byte>, x': End)
    requires Receiving(x, y, t) && Continues(t, t', x.written, data) && x'.written == x.written + data
    ensures Receiving(x', y, t')
  {
    forall k | k in y.s.recvQueue
      ensures UpTo(t'.segs, y.s.recvQueue[k], t.r)
    {
      var i :| 0 <= i <= t.r && i < |t.segs| && t.segs[i] == y.s.recvQueue[k];
      assert t'.segs[i] == y.s.recvQueue[k];
    }
    forall d | d in y.out && d.kind == DATA_ACK
      ensures IsCut(t'.segs, x'.written, d.offset, t.r)
    {
      var j :| 0 <= j <= t.r && Cut(t.segs, x.written, j) == d.offset;
      assert Cut(t'.segs, x'.written, j) == d.offset;
    }
    assert Cut(t'.segs, x'.written, t.r) == y.s.recvOffset;
    assert y.got == x'.written[..y.s.recvOffset];
  }

  // ---------- every step keeps the invariant ----------

  /** A step of `x` keeps the direction in which `x` sends. */
  lemma SenderStep(x: End, y: End, e: Event, t: Track) returns (t': Track)
    requires Half(x, y, t) && Enabled(x, y.out, e)
    ensures Half(Act(x, e), y, t')
    ensures !AtHead(x.s.recvQueue, x.s.recvOffset) && (e.Receive? ==> e.d.kind == DATA_ACK) ==> OnlyData(x, e)
  {
    match e
    case Write(data) =>
      t' := SenderWrites(x, t, data);
      ReceiverContinues(x, y, t, t', data, Act(x, e));
    case Timeout =>
      SenderTimeout(x, t);
      t' := t;
    case Receive(d) =>
      if d.kind == DATA_ACK {
        t' := SenderAcknowledged(x, t, d);
      } else {
        t' := t;
      }
  }

  /** A step of `y` keeps the direction in which `y` receives. */
  lemma ReceiverStep(x: End, y: End, e: Event, t: Track) returns (t': Track)
    requires Half(x, y, t) && Enabled(y, x.out, e)
    requires (e.Receive? ==> e.d.kind == DATA_ACK) ==> OnlyData(y, e)
    ensures Half(x, Act(y, e), t')
  {
    if e.Receive? && e.d.kind != DATA_ACK {
      var i :| 0 <= i <= t.r && i < |t.segs| && t.segs[i] == e.d;
      t' := ReceiverFed(x, y, t, i);
    } else {
      ReceiverUnmoved(x, y, t, e);
      t' := t;
    }
  }

  lemma InitHolds(n: Net)
    requires Init(n)
    ensures Inv(n)
  {
    var t := Track([], 0, 0);
    assert Cut([], [], 0) == 0;
    assert Half(n.a, n.b, t) && Half(n.b, n.a, t);
  }

  lemma NextKeeps(n: Net, n': Net)
    requires Inv(n) && Next(n, n')
    ensures Inv(n')
  {
    var ta, tb :| Half(n.a, n.b, ta) && Half(n.b, n.a, tb);
    if e :| Enabled(n.a, n.b.out, e) && n' == Net(Act(n.a, e), n.b) {
      var ta' := SenderStep(n.a, n.b, e, ta);
      var tb' := ReceiverStep(n.b, n.a, e, tb);
    } else {
      var e :| Enabled(n.b, n.a.out, e) && n' == Net(n.a, Act(n.b, e));
      var tb' := SenderStep(n.b, n.a, e, tb);
      var ta' := ReceiverStep(n.a, n.b, e, ta);
    }
  }

  lemma {:induction false} RunKeeps(run: seq<Net>, i: nat)
    requires IsRun(run) && i < |run|
    ensures Inv(run[i])
  {
    if i == 0 {
      InitHolds(run[0]);
    } else {
      RunKeeps(run, i - 1);
      NextKeeps(run[i - 1], run[i]);
    }
  }

  // ---------- what it means for the users ----------

  /** Main result: in every reachable state, what each user has received is a prefix of what the
      other has written, and it is as long as the receive offset says. */
  lemma StreamSafety(run: seq<Net>, i: nat)
    requires IsRun(run) && i < |run|
    ensures run[i].b.got <= run[i].a.written && |run[i].b.got| == run[i].b.s.recvOffset
    ensures run[i].a.got <= run[i].b.written && |run[i].a.got| == run[i].a.s.recvOffset
  {
    RunKeeps(run, i);
  }

  /** The queue tiles the stream from `from` to its end, and holds nothing else. */
  ghost predicate Tiles(q: Queue, w: seq<byte>, from: int) {
    && (from < |w| ==> from in q)
    && (forall k :: k in q ==>
          && from <= k < k + q[k].length <= |w|
          && q[k].payload == w[k..k + q[k].length]
          && 1 <= q[k].length <= SEGMENT_MAX
          && (k + q[k].length == |w| || k + q[k].length in q))
  }

  lemma SendingTiles(x: End, t: Track)
    requires Sending(x, t)
    ensures Tiles(x.s.sendQueue, x.written, x.acked)
  {
    var segs, w, q := t.segs, x.written, x.s.sendQueue;
    forall k | k in q
      ensures x.acked <= k && 1 <= q[k].length <= SEGMENT_MAX && k + q[k].length <= |w|
      ensures q[k].payload == w[k..k + q[k].length]
      ensures k + q[k].length == |w| || k + q[k].length in q
    {
      var i :| t.m <= i < |segs| && segs[i].offset == k;
      assert IsSegment(segs, w, i);
      CutsGrow(segs, w, t.m, i);
      if i + 1 < |segs| {
        assert segs[i + 1].offset in q;
      }
    }
    QueueHead(q, segs, t.m);
  }

  /** A transmitted data datagram: within the window, and with the bytes written at its place. */
  ghost predicate InWindow(d: Datagram, w: seq<byte>, recvOffset: int) {
    && d.offset <= recvOffset
    && d.offset + d.length <= recvOffset + SEGMENT_MAX
    && d.offset + d.length <= |w|
    && d.payload == w[d.offset..d.offset + d.length]
  }

  lemma TransmittedInWindow(x: End, y: End, t: Track)
    requires Half(x, y, t)
    ensures forall d :: d in x.out && d.kind == DATA ==> InWindow(d, x.written, y.s.recvOffset)
  {
    forall d | d in x.out && d.kind == DATA
      ensures InWindow(d, x.written, y.s.recvOffset)
    {
      var i :| 0 <= i <= t.r && i < |t.segs| && t.segs[i] == d;
      assert IsSegment(t.segs, x.written, i);
      CutsGrow(t.segs, x.written, i, t.r);
    }
  }

  /** Segments are small, and acknowledgements are empty. */
  lemma PayloadsSmall(x: End, y: End, t: Track)
    requires Half(x, y, t)
    ensures forall d :: d in x.out ==> |d.payload| <= SEGMENT_MAX
  {
    forall d | d in x.out
      ensures |d.payload| <= SEGMENT_MAX
    {
      if UpTo(t.segs, d, t.r) {
        var i :| 0 <= i <= t.r && i < |t.segs| && t.segs[i] == d;
        assert IsSegment(t.segs, x.written, i);
      }
    }
  }

  lemma OffsetsOrdered(x: End, y: End, t: Track)
    requires Half(x, y, t)
    ensures x.s.sendOffset <= x.acked <= y.s.recvOffset <= |x.written|
  {
    var j :| 0 <= j <= t.m && Cut(t.segs, x.written, j) == x.s.sendOffset;
    CutsGrow(t.segs, x.written, j, t.m);
    CutsGrow(t.segs, x.written, t.m, t.r);
  }

  /** One direction within its window. */
  ghost predicate Windowed(x: End, y: End) {
    && Tiles(x.s.sendQueue, x.written, x.acked)
    && x.s.sendOffset <= x.acked <= y.s.recvOffset <= |x.written|
    && forall d :: d in x.out && d.kind == DATA ==> InWindow(d, x.written, y.s.recvOffset)
  }

  /** Main result: a window of one segment. Every data datagram ever transmitted, retransmissions
      included, carries the bytes written at its offset, begins at or before the receive offset of
      the other end and ends at most 1000 bytes after it; and the send queue is exactly the
      unacknowledged rest of the stream, counted from the largest acknowledgement processed, even
      when a late one has moved the send offset back. */
  lemma OneSegmentWindow(run: seq<Net>, i: nat)
    requires IsRun(run) && i < |run|
    ensures Windowed(run[i].a, run[i].b) && Windowed(run[i].b, run[i].a)
  {
    RunKeeps(run, i);
    var n := run[i];
    var ta, tb :| Half(n.a, n.b, ta) && Half(n.b, n.a, tb);
    SendingTiles(n.a, ta);
    SendingTiles(n.b, tb);
    TransmittedInWindow(n.a, n.b, ta);
    TransmittedInWindow(n.b, n.a, tb);
    OffsetsOrdered(n.a, n.b, ta);
    OffsetsOrdered(n.b, n.a, tb);
  }
}
