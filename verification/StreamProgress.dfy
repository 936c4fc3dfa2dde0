/** When the reliable stream makes progress, and when it does not: what a call of `send` adds to
    the queue, and how many successful exchanges a message needs. */
module StreamProgress {
  import opened Bytes
  import opened Datagrams
  import opened StreamSpec
  import opened StreamRun
  import opened StreamReassembly

  // ---------- calling send ----------

  lemma TileAt(q: Queue, w: seq<byte>, from: int, k: u32)
    requires Tiles(q, w, from) && k in q
    ensures k < k + q[k].length <= |w|
    ensures k + q[k].length != |w| ==> k + q[k].length in q
  {
  }

  /** A tiled rest of a stream has a last segment, which ends where the stream ends. */
  lemma {:induction false} TilesReachEnd(q: Queue, w: seq<byte>, from: int, k: u32)
    requires Tiles(q, w, from) && k in q
    ensures exists j :: j in q && j + q[j].length == |w|
    decreases |w| - k
  {
    hide Tiles;
    TileAt(q, w, from, k);
    if k + q[k].length != |w| {
      TilesReachEnd(q, w, from, k + q[k].length);
    }
  }

  lemma EndMissing(q: Queue, w: seq<byte>, from: int)
    requires from < |w| && forall k :: k in q ==> k + q[k].length < |w|
    ensures !Tiles(q, w, from)
  {
    if Tiles(q, w, from) {
      TilesReachEnd(q, w, from, from);
      assert false;
    }
  }

  /** No new segment ends after `base + |data|`. */
  lemma {:induction false} EnqueueEnds(q: Queue, id: u32, base: nat, data: seq<byte>, from: nat)
    requires from <= |data| && base + |data| < TWO32
    ensures var q' := Enqueue(q, id, base, data, from);
            forall k :: k in q' ==> (k in q && q'[k] == q[k]) || k + q'[k].length <= base + |data|
    decreases |data| - from
  {
    if from < |data| {
      var d := SegmentAt(id, base, data, from);
      EnqueueEnds(InsertIfAbsent(q, d), id, base, data, from + d.length);
    }
  }

  lemma IdleSendTiles(x: End, t: Track, data: seq<byte>)
    requires Sending(x, t) && Idle(x) && |x.written| + |data| < TWO32
    ensures Tiles(Send(x.s, data).state.sendQueue, x.written + data, x.acked)
  {
    var t' := SenderWrites(x, t, data);
    SendingTiles(Act(x, Write(data)), t');
  }

  lemma BusySendLosesEnd(x: End, t: Track, data: seq<byte>)
    requires Sending(x, t) && !Idle(x) && data != [] && |x.written| + |data| < TWO32
    ensures !Tiles(Send(x.s, data).state.sendQueue, x.written + data, x.acked)
  {
    hide Tiles;
    var s, w := x.s, x.written;
    var base := SendBase(s);
    var q' := Send(s, data).state.sendQueue;
    SendingTiles(x, t);
    QueueHead(s.sendQueue, t.segs, t.m);
    var j :| 0 <= j <= t.m && Cut(t.segs, w, j) == s.sendOffset;
    CutsGrow(t.segs, w, j, t.m);
    assert base < |w|;
    EnqueueEnds(s.sendQueue, s.id, base, data, 0);
    assert forall k :: k in q' ==> k + q'[k].length < |w + data|;
    CutsGrow(t.segs, w, t.m, |t.segs|);
    EndMissing(q', w + data, x.acked);
  }

  /** What `send` is for, exactly: after a call with data in any reachable state, the queue holds
      the unacknowledged rest of everything written so far, the new data included, if and only if
      the queue was empty and the send offset was the number of bytes written. */
  lemma SendTilesIffIdle(run: seq<Net>, i: nat, data: seq<byte>)
    requires IsRun(run) && i < |run|
    requires data != [] && |run[i].a.written| + |data| < TWO32
    ensures var x := run[i].a;
            Tiles(Send(x.s, data).state.sendQueue, x.written + data, x.acked) <==> Idle(x)
  {
    RunKeeps(run, i);
    var x := run[i].a;
    var t, u :| Half(run[i].a, run[i].b, t) && Half(run[i].b, run[i].a, u);
    if Idle(x) {
      IdleSendTiles(x, t, data);
    } else {
      BusySendLosesEnd(x, t, data);
    }
  }

  /** The segment of `data` that is queued under the key `k`, if the data is counted from `base`. */
  function SegmentFor(id: u32, base: nat, data: seq<byte>, k: u32): Datagram
    requires base <= k < base + |data|
  {
    var end := Min(k - base + 1000, |data|);
    Datagram(DATA, id, k, end - (k - base), data[k - base..end])
  }

  /** `q'` is `q` and, at every thousandth place of the data where no key is taken, its segment. */
  ghost predicate Added(q: Queue, q': Queue, id: u32, base: nat, data: seq<byte>, from: nat) {
    && (forall k :: k in q ==> k in q' && q'[k] == q[k])
    && (forall k: u32 :: base + from <= k < base + |data| && (k - base) % 1000 == 0 && k !in q ==>
          k in q' && q'[k] == SegmentFor(id, base, data, k))
    && (forall k :: k in q' && k !in q ==> base + from <= k < base + |data| && (k - base) % 1000 == 0)
  }

  /** Adding the segment at `from` and then those from `next` on is adding those from `from` on. */
  lemma AddedFirst(q: Queue, q': Queue, id: u32, base: nat, data: seq<byte>, from: nat, next: nat)
    requires from < |data| && base + |data| < TWO32 && from % 1000 == 0 && next == Min(from + 1000, |data|)
    requires forall k :: k in q ==> k < base + from || (from == 0 && k <= base)
    requires var d := SegmentFor(id, base, data, base + from);
             Added(if d.offset in q then q else q[d.offset := d], q', id, base, data, next)
    ensures Added(q, q', id, base, data, from)
  {
    hide SegmentFor;
    var first := base + from;
    assert SegmentFor(id, base, data, first).offset == first by { SegmentForKey(id, base, data, first); }
    forall k: u32 | first <= k < base + |data| && (k - base) % 1000 == 0 && k !in q
      ensures k in q' && q'[k] == SegmentFor(id, base, data, k)
    {
      if first < k {
        NextMultiple(from, k - base);
      }
    }
  }

  lemma SegmentForKey(id: u32, base: nat, data: seq<byte>, k: u32)
    requires base <= k < base + |data|
    ensures SegmentFor(id, base, data, k).offset == k
  {
  }

  lemma NextMultiple(x: nat, y: nat)
    requires x % 1000 == 0 && y % 1000 == 0 && x < y
    ensures x + 1000 <= y
  {
  }

  lemma {:induction false} EnqueueAdds(q: Queue, id: u32, base: nat, data: seq<byte>, from: nat)
    requires from <= |data| && base + |data| < TWO32 && (from % 1000 == 0 || from == |data|)
    requires forall k :: k in q ==> k < base + from || (from == 0 && k <= base)
    ensures Added(q, Enqueue(q, id, base, data, from), id, base, data, from)
    decreases |data| - from
  {
    if from < |data| {
      var d := SegmentAt(id, base, data, from);
      assert d == SegmentFor(id, base, data, base + from);
      hide Added, SegmentFor, SegmentAt;
      var q' := Enqueue(q, id, base, data, from);
      assert q' == Enqueue(InsertIfAbsent(q, d), id, base, data, from + d.length);
      EnqueueAdds(InsertIfAbsent(q, d), id, base, data, from + d.length);
      AddedFirst(q, q', id, base, data, from, from + d.length);
    }
  }

  lemma SendEnqueues(s: StreamState, data: seq<byte>, base: u32)
    requires base == SendBase(s) && base + |data| < TWO32 && forall k :: k in s.sendQueue ==> s.sendOffset <= k <= base
    ensures Send(s, data).state.sendQueue == Enqueue(s.sendQueue, s.id, base, data, 0)
    ensures Added(s.sendQueue, Send(s, data).state.sendQueue, s.id, base, data, 0)
  {
    hide Enqueue, SegmentFor;
    EnqueueAdds(s.sendQueue, s.id, base, data, 0);
    var q := Enqueue(s.sendQueue, s.id, base, data, 0);
    assert forall k :: k in q ==> s.sendOffset <= k;
    assert Unacknowledged(q, s.sendOffset) == q;
  }

  /** What a call of `send` adds to the queue in any reachable state, busy or not: the data is counted
      from the last key of the queue, or from the send offset if the queue is empty; at every
      thousandth place from there stands the segment of the data, except where a key is taken, which
      can only be the first; and nothing else changes. */
  lemma SendAdds(run: seq<Net>, i: nat, data: seq<byte>, base: u32)
    requires IsRun(run) && i < |run| && base + |data| < TWO32
    requires run[i].a.s.sendQueue == map[] ==> base == run[i].a.s.sendOffset
    requires run[i].a.s.sendQueue != map[] ==>
               base in run[i].a.s.sendQueue && forall k :: k in run[i].a.s.sendQueue ==> k <= base
    ensures var s := run[i].a.s;
            Added(s.sendQueue, Send(s, data).state.sendQueue, s.id, base, data, 0)
  {
    RunKeeps(run, i);
    var x := run[i].a;
    var t, u :| Half(run[i].a, run[i].b, t) && Half(run[i].b, run[i].a, u);
    assert base == SendBase(x.s);
    NothingStale(x, t);
    hide Send, Added, Sending, Half;
    SendEnqueues(x.s, data, base);
  }

  lemma NothingStale(x: End, t: Track)
    requires Sending(x, t)
    ensures forall k :: k in x.s.sendQueue ==> x.s.sendOffset <= k
  {
    var j :| 0 <= j <= t.m && Cut(t.segs, x.written, j) == x.s.sendOffset;
    forall k | k in x.s.sendQueue
      ensures x.s.sendOffset <= k
    {
      var l :| t.m <= l < |t.segs| && t.segs[l].offset == k;
      CutsGrow(t.segs, x.written, j, l);
    }
  }

  /** The smallest failure: of two single bytes sent in a row, the second is never queued, because
      its segment has the key of the first. */
  lemma SecondSendDropped(id: u32, b1: byte, b2: byte)
    ensures var first := Send(Fresh(id), [b1]).state;
            first.sendQueue == map[0 := Datagram(DATA, id, 0, 1, [b1])]
            && Send(first, [b2]).state.sendQueue == first.sendQueue
  {
    var d := Datagram(DATA, id, 0, 1, [b1]);
    assert SegmentAt(id, 0, [b1], 0) == d by {
      assert [b1][0..1] == [b1];
    }
    assert Enqueue(map[], id, 0, [b1], 0) == Enqueue(map[0 := d], id, 0, [b1], 1) == map[0 := d];
    var first := Send(Fresh(id), [b1]).state;
    assert first.sendQueue == map[0 := d];
    assert Greatest(first.sendQueue.Keys) == 0;
    var e := SegmentAt(id, 0, [b2], 0);
    assert e.offset == 0 && e.length == 1;
    assert Enqueue(first.sendQueue, id, 0, [b2], 0) == Enqueue(first.sendQueue, id, 0, [b2], 1);
  }

  lemma OneByteSent(id: u32, b: byte)
    ensures Send(Fresh(id), [b]).sent == [Datagram(DATA, id, 0, 1, [b])]
  {
    SecondSendDropped(id, b, b);
    assert map[0 := Datagram(DATA, id, 0, 1, [b])].Keys == {0};
    hide Enqueue;
  }

  lemma OneByteTaken(id: u32, b: byte)
    ensures var f := Feed(Fresh(id), Datagram(DATA, id, 0, 1, [b]));
            f.state.recvOffset == 1 && f.state.recvQueue == map[] && f.delivered == [[b]]
  {
    var d := Datagram(DATA, id, 0, 1, [b]);
    var q: Queue := map[0 := d];
    assert Fresh(id).recvQueue[d.offset := d] == q;
    assert q.Keys == {0} && AtHead(q, 0);
    DrainOfOne(q, 0);
  }

  lemma OneByteWritten(id: u32, b: byte)
    ensures var x := Act(End(Fresh(id), {}, [], [], 0), Write([b]));
            x.out == {Datagram(DATA, id, 0, 1, [b])} && x.written == [b]
  {
    hide Send;
    OneByteSent(id, b);
  }

  lemma OneByteGot(id: u32, b: byte)
    ensures var y := Act(End(Fresh(id), {}, [], [], 0), Receive(Datagram(DATA, id, 0, 1, [b])));
            y.got == [b] && y.s.recvOffset == 1 && y.s.recvQueue == map[]
  {
    hide Feed, Flatten;
    OneByteTaken(id, b);
    FlattenOne([b]);
  }

  lemma FedState(y: End, d: Datagram)
    ensures Act(y, Receive(d)).s == Feed(y.s, d).state
  {
    hide Feed;
  }

  /** The smallest run into the state that stops a receiver: one byte is written, its segment arrives,
      and arrives again. */
  lemma StuckHappens(id: u32, b: byte) returns (run: seq<Net>)
    ensures IsRun(run) && |run| == 4
    ensures !Stuck(run[2].b.s) && run[2].b.got == run[2].a.written == [b]
    ensures Stuck(run[3].b.s)
  {
    hide Act, Stuck;
    var d := Datagram(DATA, id, 0, 1, [b]);
    var x, y := End(Fresh(id), {}, [], [], 0), End(Fresh(id), {}, [], [], 0);
    OneByteWritten(id, b);
    OneByteGot(id, b);
    var n0, n1 := Net(x, y), Net(Act(x, Write([b])), y);
    var n2 := Net(n1.a, Act(y, Receive(d)));
    var n3 := Net(n1.a, Act(n2.b, Receive(d)));
    assert Enabled(n0.a, n0.b.out, Write([b])) && Enabled(n1.b, n1.a.out, Receive(d));
    assert Enabled(n2.b, n2.a.out, Receive(d));
    assert Next(n0, n1) && Next(n1, n2) && Next(n2, n3);
    run := [n0, n1, n2, n3];
    assert Init(n0);
    hide Next, Init, Enabled;
    assert IsRun(run);
    StuckExactly(run, 2, d);
    FedState(n2.b, d);
  }

  // ---------- successful exchanges ----------

  /** One direction of a stream with the copy of a datagram that is on its way, if any. */
  datatype Link = Link(x: StreamState, y: StreamState, flying: seq<Datagram>, got: seq<byte>)

  /** What becomes of the copy that is on its way: it is lost, and the timer sends another; it arrives
      and so does its answer; it arrives and is answered, and the network delivers it once more before
      the next; it arrives, and the answer comes so late that the timer has sent another
      copy, which arrives too; or it arrives and the answer is lost, and the timer sends another. */
  datatype Outcome = Lost | Exchanged | Repeated | Late | Unanswered

  ghost function Exchange(l: Link, o: Outcome): Link
    requires |l.flying| == 1
  {
    match o
    case Lost =>
      var fx := SendOne(l.x);
      Link(fx.state, l.y, fx.sent, l.got)
    case Exchanged =>
      var fy := Feed(l.y, l.flying[0]);
      var fx := FeedAnswers(l.x, fy.sent);
      Link(fx.state, fy.state, fx.sent, l.got + Flatten(fy.delivered))
    case Repeated =>
      var fy := Feed(l.y, l.flying[0]);
      var gy := Feed(fy.state, l.flying[0]);
      var fx := FeedAnswers(l.x, fy.sent + gy.sent);
      Link(fx.state, gy.state, fx.sent, l.got + Flatten(fy.delivered) + Flatten(gy.delivered))
    case Late =>
      var fy := Feed(l.y, l.flying[0]);
      var again := SendOne(l.x);
      var gy := FeedCopies(fy.state, again.sent);
      var fx := FeedAnswers(again.state, fy.sent + gy.sent);
      Link(fx.state, gy.state, fx.sent, l.got + Flatten(fy.delivered) + Flatten(gy.delivered))
    case Unanswered =>
      var fy := Feed(l.y, l.flying[0]);
      var fx := SendOne(l.x);
      Link(fx.state, fy.state, fx.sent, l.got + Flatten(fy.delivered))
  }

  /** Feed the answer of the other end; if there is none, the timer sends another copy. */
  ghost function FeedAnswers(s: StreamState, answers: seq<Datagram>): Effect {
    if |answers| == 1 then Feed(s, answers[0]) else SendOne(s)
  }

  ghost function FeedCopies(s: StreamState, copies: seq<Datagram>): Effect {
    if |copies| == 1 then Feed(s, copies[0]) else Effect(s, [], [])
  }

  /** Play the outcomes until they run out or nothing is on its way any more. */
  ghost function Play(l: Link, os: seq<Outcome>): Link
    decreases |os|
  {
    if os == [] || |l.flying| != 1 then l else Play(Exchange(l, os[0]), os[1..])
  }

  /** How many copies are answered, until the first that arrives again or is not answered in time; that
      one counts too if it is answered at all. */
  function Answered(os: seq<Outcome>): nat {
    if os == [] || os[0] == Unanswered then 0
    else if os[0] == Late || os[0] == Repeated then 1
    else (if os[0] == Exchanged then 1 else 0) + Answered(os[1..])
  }

  /** How many segments arrive, until the first that arrives again or is not answered in time. */
  function Reached(os: seq<Outcome>): nat {
    if os == [] then 0
    else if os[0] == Late || os[0] == Repeated || os[0] == Unanswered then 1
    else (if os[0] == Exchanged then 1 else 0) + Reached(os[1..])
  }

  predicate InTime(os: seq<Outcome>) {
    Repeated !in os && Late !in os && Unanswered !in os
  }

  function Successes(os: seq<Outcome>): nat {
    if os == [] then 0 else (if os[0] == Exchanged then 1 else 0) + Successes(os[1..])
  }

  lemma {:induction false} AllInTime(os: seq<Outcome>)
    ensures Answered(os) <= Reached(os) <= Answered(os) + 1
    ensures InTime(os) ==> Answered(os) == Reached(os) == Successes(os)
  {
    if os != [] {
      AllInTime(os[1..]);
      assert InTime(os) ==> InTime(os[1..]);
    }
  }

  /** Both ends agree that the stream is done up to segment `m`, and segment `m` is on its way. */
  ghost predicate Agreed(l: Link, segs: seq<Datagram>, w: seq<byte>, m: nat) {
    && Segmented(segs, w) && m <= |segs|
    && QueueIs(l.x.sendQueue, segs, m)
    && l.x.sendOffset == l.y.recvOffset == Cut(segs, w, m)
    && l.y.recvQueue == map[]
    && !AtHead(l.x.recvQueue, l.x.recvOffset)
    && l.flying == (if m < |segs| then [segs[m]] else [])
    && l.x.timerArmed == (m < |segs|)
    && Cut(segs, w, m) <= |w| && l.got == w[..Cut(segs, w, m)]
  }

  lemma LostKeeps(l: Link, segs: seq<Datagram>, w: seq<byte>, m: nat)
    requires Agreed(l, segs, w, m) && m < |segs|
    ensures Agreed(Exchange(l, Lost), segs, w, m)
  {
    SendOneKeepsQueue(l.x, segs, w, m, m);
  }

  /** The sender is done up to segment `m` and the receiver up to `r`: the same, or one further, and
      then the receiver does not take segment `m` again. */
  ghost predicate Standing(l: Link, segs: seq<Datagram>, w: seq<byte>, m: nat, r: nat) {
    && Segmented(segs, w) && m <= r <= |segs|
    && QueueIs(l.x.sendQueue, segs, m)
    && l.x.sendOffset == Cut(segs, w, m) && l.y.recvOffset == Cut(segs, w, r) <= |w|
    && !AtHead(l.x.recvQueue, l.x.recvOffset)
    && l.flying == (if m < |segs| then [segs[m]] else [])
    && l.x.timerArmed == (m < |segs|)
    && l.got == w[..Cut(segs, w, r)]
  }

  /** The receiver takes nothing that the sender sends. */
  ghost predicate Wedged(l: Link, segs: seq<Datagram>, w: seq<byte>, m: nat, r: nat) {
    Standing(l, segs, w, m, r) && (m < r || Stuck(l.y))
  }

  /** Data that lies before the receive offset is not answered, and blocks what comes after it. */
  lemma OldDataIgnored(s: StreamState, d: Datagram)
    requires d.kind == DATA && (d.offset < s.recvOffset || Stuck(s))
    ensures var f := Feed(s, d);
            f.sent == [] && f.delivered == [] && f.state.recvOffset == s.recvOffset && Stuck(f.state)
  {
    if Stuck(s) {
      StuckStays(s, d);
    } else {
      var q := s.recvQueue[d.offset := d];
      assert d.offset in q.Keys;
      assert d.offset in Feed(s, d).state.recvQueue;
    }
  }

  /** Sending again changes nothing. */
  lemma SentAgain(l: Link, segs: seq<Datagram>, w: seq<byte>, m: nat, r: nat)
    requires Standing(l, segs, w, m, r)
    ensures var f := SendOne(l.x); Standing(Link(f.state, l.y, f.sent, l.got), segs, w, m, r)
  {
    SendOneKeepsQueue(l.x, segs, w, m, m);
  }

  lemma WedgedStays(l: Link, o: Outcome, segs: seq<Datagram>, w: seq<byte>, m: nat, r: nat)
    requires Wedged(l, segs, w, m, r) && m < |segs|
    ensures Wedged(Exchange(l, o), segs, w, m, r)
  {
    var d := segs[m];
    assert IsSegment(segs, w, m);
    if m < r { CutsGrow(segs, w, m, r); }
    OldDataIgnored(l.y, d);
    var y := Feed(l.y, d).state;
    OldDataIgnored(y, d);
    SentAgain(l, segs, w, m, r);
    var once := SendOne(l.x);
    SentAgain(Link(once.state, l.y, once.sent, l.got), segs, w, m, r);
    assert Flatten([]) == [] && l.got + [] == l.got;
    hide Feed, SendOne, Segmented, QueueIs, Cut, Stuck, AtHead;
  }

  lemma {:induction false} WedgedForGood(l: Link, os: seq<Outcome>, segs: seq<Datagram>, w: seq<byte>, m: nat, r: nat)
    requires Wedged(l, segs, w, m, r)
    ensures Wedged(Play(l, os), segs, w, m, r)
    decreases |os|
  {
    hide Exchange, Segmented, QueueIs, Stuck, AtHead, Cut;
    if os != [] && m < |segs| {
      WedgedStays(l, os[0], segs, w, m, r);
      WedgedForGood(Exchange(l, os[0]), os[1..], segs, w, m, r);
    }
  }

  /** The copy arrives, at two ends that agree. */
  lemma SegmentTaken(l: Link, segs: seq<Datagram>, w: seq<byte>, m: nat)
    requires Agreed(l, segs, w, m) && m < |segs|
    ensures var f := Feed(l.y, segs[m]);
            && f.sent == [AckFor(l.y.id, Cut(segs, w, m + 1) % TWO32)] && Cut(segs, w, m + 1) < TWO32
            && f.state.recvOffset == Cut(segs, w, m + 1) <= |w| && f.state.recvQueue == map[]
            && l.got + Flatten(f.delivered) == w[..Cut(segs, w, m + 1)]
  {
    var d := segs[m];
    assert IsSegment(segs, w, m);
    var off := l.y.recvOffset;
    var q: Queue := map[off := d];
    assert l.y.recvQueue[d.offset := d] == q;
    assert AtHead(q, off);
    DrainOfOne(q, off);
    FlattenOne(d.payload);
    assert w[..off] + d.payload == w[..off + d.length];
  }

  lemma UnansweredWedges(l: Link, segs: seq<Datagram>, w: seq<byte>, m: nat)
    requires Agreed(l, segs, w, m) && m < |segs|
    ensures Wedged(Exchange(l, Unanswered), segs, w, m, m + 1)
  {
    hide Feed, SendOne, Segmented, QueueIs, Stuck, AtHead, Flatten, Cut;
    SegmentTaken(l, segs, w, m);
    SendOneKeepsQueue(l.x, segs, w, m, m);
    ReceivingStands(l.x);
  }

  lemma ReceivingStands(s: StreamState)
    ensures var t := SendOne(s).state;
            t.recvQueue == s.recvQueue && t.recvOffset == s.recvOffset && t.sendOffset == s.sendOffset
  {
  }

  lemma SegmentPlace(segs: seq<Datagram>, w: seq<byte>, m: nat)
    requires Segmented(segs, w) && m < |segs|
    ensures segs[m].kind == DATA && segs[m].offset == Cut(segs, w, m) < Cut(segs, w, m + 1)
  {
    assert IsSegment(segs, w, m);
  }

  lemma FlattenNone()
    ensures Flatten([]) == []
  {
  }

  lemma RepeatedWedges(l: Link, segs: seq<Datagram>, w: seq<byte>, m: nat)
    requires Agreed(l, segs, w, m) && m < |segs|
    ensures Wedged(Exchange(l, Repeated), segs, w, m + 1, m + 1)
  {
    hide Feed, SendOne, Segmented, QueueIs, Stuck, AtHead, Flatten, Cut;
    var d := segs[m];
    SegmentPlace(segs, w, m);
    SegmentTaken(l, segs, w, m);
    var fy := Feed(l.y, d);
    OldDataIgnored(fy.state, d);
    AnswerTaken(l.x, fy.sent[0], segs, w, m);
    FlattenNone();
    assert fy.sent + [] == fy.sent;
    assert l.got + Flatten(fy.delivered) + [] == l.got + Flatten(fy.delivered);
  }

  lemma LateWedges(l: Link, segs: seq<Datagram>, w: seq<byte>, m: nat)
    requires Agreed(l, segs, w, m) && m < |segs|
    ensures Wedged(Exchange(l, Late), segs, w, m + 1, m + 1)
  {
    hide Feed, SendOne, Segmented, QueueIs, Stuck, AtHead, Flatten, Cut;
    var d := segs[m];
    SegmentPlace(segs, w, m);
    SegmentTaken(l, segs, w, m);
    SendOneKeepsQueue(l.x, segs, w, m, m);
    ReceivingStands(l.x);
    var again := SendOne(l.x);
    var fy := Feed(l.y, d);
    OldDataIgnored(fy.state, d);
    AnswerTaken(again.state, fy.sent[0], segs, w, m);
    FlattenNone();
    assert fy.sent + [] == fy.sent;
    assert l.got + Flatten(fy.delivered) + [] == l.got + Flatten(fy.delivered);
  }

  /** The answer to segment `m` arrives. */
  lemma AnswerTaken(x: StreamState, ack: Datagram, segs: seq<Datagram>, w: seq<byte>, m: nat)
    requires Segmented(segs, w) && m < |segs| && QueueIs(x.sendQueue, segs, m) && !AtHead(x.recvQueue, x.recvOffset)
    requires ack.kind == DATA_ACK && ack.offset == Cut(segs, w, m + 1)
    ensures var f := Feed(x, ack);
            && QueueIs(f.state.sendQueue, segs, m + 1) && f.state.sendOffset == ack.offset
            && f.sent == (if m + 1 < |segs| then [segs[m + 1]] else [])
            && f.state.timerArmed == (m + 1 < |segs|)
            && f.state.recvQueue == x.recvQueue && f.state.recvOffset == x.recvOffset
  {
    SendOneKeepsQueue(x.(sendOffset := ack.offset), segs, w, m, m + 1);
    var one := SendOne(x.(sendOffset := ack.offset));
    assert one.sent + [] == one.sent;
  }

  lemma ExchangedAdvances(l: Link, segs: seq<Datagram>, w: seq<byte>, m: nat)
    requires Agreed(l, segs, w, m) && m < |segs|
    ensures Agreed(Exchange(l, Exchanged), segs, w, m + 1)
  {
    hide Feed, Segmented, QueueIs, AtHead, Flatten, Cut;
    SegmentTaken(l, segs, w, m);
    NothingAtHead(Feed(l.y, segs[m]).state.recvOffset);
    AnswerTaken(l.x, Feed(l.y, segs[m]).sent[0], segs, w, m);
  }

  lemma AgreedFlying(l: Link, segs: seq<Datagram>, w: seq<byte>, m: nat)
    requires Agreed(l, segs, w, m)
    ensures m <= |segs| && |l.flying| == if m < |segs| then 1 else 0
  {
  }

  lemma AgreedStands(l: Link, segs: seq<Datagram>, w: seq<byte>, m: nat)
    requires Agreed(l, segs, w, m)
    ensures Standing(l, segs, w, m, m)
  {
  }

  lemma WedgedStands(l: Link, segs: seq<Datagram>, w: seq<byte>, m: nat, r: nat)
    requires Wedged(l, segs, w, m, r)
    ensures Standing(l, segs, w, m, r)
  {
  }

  lemma Counts(os: seq<Outcome>)
    ensures os == [] ==> Answered(os) == Reached(os) == 0
    ensures os != [] ==>
              var a, r := Answered(os[1..]), Reached(os[1..]);
              match os[0]
              case Lost => Answered(os) == a && Reached(os) == r && (InTime(os) ==> InTime(os[1..]))
              case Exchanged => Answered(os) == 1 + a && Reached(os) == 1 + r && (InTime(os) ==> InTime(os[1..]))
              case Repeated => Answered(os) == 1 == Reached(os) && !InTime(os)
              case Late => Answered(os) == 1 == Reached(os) && !InTime(os)
              case Unanswered => Answered(os) == 0 && Reached(os) == 1 && !InTime(os)
  {
  }

  lemma PlayBegins(l: Link, os: seq<Outcome>)
    ensures Play(l, os) == if os == [] || |l.flying| != 1 then l else Play(Exchange(l, os[0]), os[1..])
  {
  }

  lemma Shifted(m: nat, k: nat, n: nat)
    requires m <= n
    ensures Min(m + 1 + k, n) == Min(m + (1 + k), n) && Min(m, n) == m && (m < n ==> Min(m + 1, n) == m + 1)
  {
  }

  lemma AtTheEnd(m: nat, k: nat, n: nat)
    requires m == n || k == 0
    ensures m <= n ==> Min(m + k, n) == m
  {
  }

  /** Whatever becomes of the copies: the sender moves on with the answers that come until one does not
      come in time, the receiver with the copies that arrive until then. */
  lemma {:induction false} PlayAdvances(l: Link, os: seq<Outcome>, segs: seq<Datagram>, w: seq<byte>, m: nat)
    requires Agreed(l, segs, w, m)
    ensures Standing(Play(l, os), segs, w, Min(m + Answered(os), |segs|), Min(m + Reached(os), |segs|))
    ensures InTime(os) ==> Play(l, os).y.recvQueue == map[]
    decreases |os|
  {
    hide *;
    AgreedFlying(l, segs, w, m);
    AgreedStands(l, segs, w, m);
    AgreedEmpty(l, segs, w, m);
    Counts(os);
    PlayBegins(l, os);
    if os != [] && m < |segs| {
      var l1, rest := Exchange(l, os[0]), os[1..];
      match os[0]
      case Lost =>
        LostKeeps(l, segs, w, m);
        PlayAdvances(l1, rest, segs, w, m);
      case Exchanged =>
        ExchangedAdvances(l, segs, w, m);
        PlayAdvances(l1, rest, segs, w, m + 1);
        Shifted(m, Answered(rest), |segs|);
        Shifted(m, Reached(rest), |segs|);
      case Repeated =>
        RepeatedWedges(l, segs, w, m);
        WedgedForGood(l1, rest, segs, w, m + 1, m + 1);
        WedgedStands(Play(l1, rest), segs, w, m + 1, m + 1);
        Shifted(m, 0, |segs|);
      case Late =>
        LateWedges(l, segs, w, m);
        WedgedForGood(l1, rest, segs, w, m + 1, m + 1);
        WedgedStands(Play(l1, rest), segs, w, m + 1, m + 1);
        Shifted(m, 0, |segs|);
      case Unanswered =>
        UnansweredWedges(l, segs, w, m);
        WedgedForGood(l1, rest, segs, w, m, m + 1);
        WedgedStands(Play(l1, rest), segs, w, m, m + 1);
        Shifted(m, 0, |segs|);
    } else {
      Shifted(m, 0, |segs|);
      AtTheEnd(m, Answered(os), |segs|);
      AtTheEnd(m, Reached(os), |segs|);
    }
  }

  lemma AgreedEmpty(l: Link, segs: seq<Datagram>, w: seq<byte>, m: nat)
    requires Agreed(l, segs, w, m)
    ensures l.y.recvQueue == map[]
  {
  }

  /** How many segments `n` bytes make. */
  function SegmentCount(n: nat): nat {
    (n + SEGMENT_MAX - 1) / SEGMENT_MAX
  }

  lemma {:induction false} SegmentsCounted(id: u32, base: nat, data: seq<byte>, from: nat, i: nat)
    requires from <= |data| && base + |data| < TWO32
    ensures |Segments(id, base, data, from)| == SegmentCount(|data| - from)
    ensures i < |Segments(id, base, data, from)| ==>
              Segments(id, base, data, from)[i].offset == base + from + SEGMENT_MAX * i
    decreases |data| - from
  {
    if from < |data| {
      var d := SegmentAt(id, base, data, from);
      SegmentsCounted(id, base, data, from + d.length, if i == 0 then 0 else i - 1);
      if d.length == SEGMENT_MAX {
        assert SegmentCount(|data| - from) == 1 + SegmentCount(|data| - from - SEGMENT_MAX);
      }
    }
  }

  /** The link right after an idle sender has been given `data`. */
  ghost function Started(x: StreamState, y: StreamState, data: seq<byte>, got: seq<byte>): Link {
    var f := Send(x, data);
    Link(f.state, y, f.sent, got)
  }

  /** The sender of `data`, on a stream that was done up to `w`, is done with `k` segments of it, and
      the receiver has `r`. */
  ghost predicate Through(l: Link, w: seq<byte>, data: seq<byte>, k: nat, r: nat) {
    && l.got == w + data[..Min(SEGMENT_MAX * r, |data|)]
    && l.y.recvOffset == |w| + Min(SEGMENT_MAX * r, |data|)
    && l.x.sendOffset == |w| + Min(SEGMENT_MAX * k, |data|)
    && (l.x.sendQueue == map[] <==> k >= SegmentCount(|data|))
    && (l.flying == [] <==> k >= SegmentCount(|data|))
    && (l.x.timerArmed <==> k < SegmentCount(|data|))
  }

  /** Where the stream is after `k` of the segments of `data`. */
  lemma CutOfCount(before: seq<Datagram>, id: u32, w: seq<byte>, data: seq<byte>, k: nat)
    requires |w| + |data| < TWO32
    ensures var segs := before + Segments(id, |w|, data, 0);
            && |segs| == |before| + SegmentCount(|data|)
            && Cut(segs, w + data, Min(|before| + k, |segs|)) == |w| + Min(SEGMENT_MAX * k, |data|)
  {
    SegmentsCounted(id, |w|, data, 0, k);
    var more := Segments(id, |w|, data, 0);
    if k < |more| {
      assert (before + more)[|before| + k] == more[k];
    }
  }

  lemma StandingMeans(l: Link, segs: seq<Datagram>, w: seq<byte>, data: seq<byte>, m: nat, r: nat, done: nat)
    requires Standing(l, segs, w + data, m, r)
    requires done <= |data| && Cut(segs, w + data, r) == |w| + done
    ensures l.got == w + data[..done]
    ensures (l.x.sendQueue == map[]) == (l.flying == []) == (m == |segs|) == !l.x.timerArmed
  {
    assert (w + data)[..|w| + done] == w + data[..done];
    QueueHead(l.x.sendQueue, segs, m);
  }

  lemma StandingIsThrough(l: Link, segs: seq<Datagram>, w: seq<byte>, data: seq<byte>, before: nat, k: nat, r: nat)
    requires |segs| == before + SegmentCount(|data|)
    requires Cut(segs, w + data, Min(before + k, |segs|)) == |w| + Min(SEGMENT_MAX * k, |data|)
    requires Cut(segs, w + data, Min(before + r, |segs|)) == |w| + Min(SEGMENT_MAX * r, |data|)
    requires Standing(l, segs, w + data, Min(before + k, |segs|), Min(before + r, |segs|))
    ensures Through(l, w, data, k, r)
  {
    StandingMeans(l, segs, w, data, Min(before + k, |segs|), Min(before + r, |segs|), Min(SEGMENT_MAX * r, |data|));
    hide QueueIs, Segmented, Cut, AtHead;
  }

  lemma ProgressOf(x: End, y: StreamState, t: Track, data: seq<byte>, os: seq<Outcome>)
    requires Sending(x, t) && Idle(x) && |x.written| + |data| < TWO32
    requires !AtHead(x.s.recvQueue, x.s.recvOffset)
    requires y.recvOffset == |x.written| && y.recvQueue == map[]
    ensures var l := Play(Started(x.s, y, data, x.written), os);
            Through(l, x.written, data, Answered(os), Reached(os)) && (InTime(os) ==> l.y.recvQueue == map[])
  {
    hide Agreed, Standing, Play, Started, Sending, Cut, Segments, Through, Idle, Answered, Reached, InTime;
    var w := x.written;
    var segs, m := StartedSegments(x, y, t, data);
    PlayAdvances(Started(x.s, y, data, w), os, segs, w + data, m);
    CutOfCount(t.segs, x.s.id, w, data, Answered(os));
    CutOfCount(t.segs, x.s.id, w, data, Reached(os));
    StandingIsThrough(Play(Started(x.s, y, data, w), os), segs, w, data, m, Answered(os), Reached(os));
  }

  /** Main result: progress. In any reachable state with an idle sender and a receiver that is not
      stuck, and whatever becomes of the copies: the sender is done with exactly as many segments as
      were answered until the first copy that came again or was not answered in time, and the receiver
      has exactly as many as arrived until then. While no copy comes again and every answer comes in
      time these are the exchanges, so that a message of `n` bytes is through after exactly
      `ceil(n / 1000)` of them, however many copies are lost in between. */
  lemma Progress(run: seq<Net>, i: nat, data: seq<byte>, os: seq<Outcome>)
    requires IsRun(run) && i < |run|
    requires Idle(run[i].a) && |run[i].a.written| + |data| < TWO32
    requires !Stuck(run[i].b.s)
    ensures var x, y := run[i].a, run[i].b;
            var l := Play(Started(x.s, y.s, data, y.got), os);
            && y.got == x.written
            && Through(l, y.got, data, Answered(os), Reached(os))
            && (InTime(os) ==> Answered(os) == Reached(os) == Successes(os) && l.y.recvQueue == map[])
  {
    RunKeeps(run, i);
    var x, y := run[i].a, run[i].b;
    var t, u :| Half(x, y, t) && Half(y, x, u);
    OffsetsOrdered(x, y, t);
    QueueHead(x.s.sendQueue, t.segs, t.m);
    NotStuckIsEmpty(x, y, t);
    AllInTime(os);
    assert y.got == x.written;
    hide Play, Started, Through, Answered, Reached, Successes, InTime, Half;
    ProgressOf(x, y.s, t, data, os);
  }

  /** The message gets through, to the receiver and off the sender's queue, if and only if as many
      copies as it has segments are answered before one is not. */
  lemma GetsThroughIff(run: seq<Net>, i: nat, data: seq<byte>, os: seq<Outcome>)
    requires IsRun(run) && i < |run|
    requires Idle(run[i].a) && |run[i].a.written| + |data| < TWO32
    requires !Stuck(run[i].b.s)
    ensures var x, y := run[i].a, run[i].b;
            var l := Play(Started(x.s, y.s, data, y.got), os);
            l.got == x.written + data && l.x.sendQueue == map[] <==> Answered(os) >= SegmentCount(|data|)
  {
    Progress(run, i, data, os);
    AllInTime(os);
    hide Play, Started, Answered, Reached, IsRun;
    if Answered(os) >= SegmentCount(|data|) {
      assert SEGMENT_MAX * Reached(os) >= |data|;
      assert data[..|data|] == data;
    }
  }

  lemma StartedSegments(x: End, y: StreamState, t: Track, data: seq<byte>) returns (segs: seq<Datagram>, m: nat)
    requires Sending(x, t) && Idle(x) && |x.written| + |data| < TWO32
    requires !AtHead(x.s.recvQueue, x.s.recvOffset)
    requires y.recvOffset == |x.written| && y.recvQueue == map[]
    ensures m == |t.segs| && segs == t.segs + Segments(x.s.id, |x.written|, data, 0)
    ensures Agreed(Started(x.s, y, data, x.written), segs, x.written + data, m)
  {
    var w := x.written;
    QueueHead(x.s.sendQueue, t.segs, t.m);
    m := |t.segs|;
    assert w + data[..0] == w;
    EnqueueExtends(x.s.sendQueue, x.s.id, |w|, data, 0, t.segs, w, m);
    segs := t.segs + Segments(x.s.id, |w|, data, 0);
    if data != [] {
      assert segs[m] == SegmentAt(x.s.id, |w|, data, 0);
    }
    SendOneKeepsQueue(Filled(x.s, data), segs, w + data, m, m);
    assert (w + data)[..|w|] == w;
  }
}
