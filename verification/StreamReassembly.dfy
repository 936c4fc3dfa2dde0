/** The receiving end of `client/sml/stream.cpp` on its own: what it delivers when segments arrive
    in any order, and what stops it for good. */
module StreamReassembly {
  import opened Bytes
  import opened Datagrams
  import opened StreamSpec
  import opened StreamRun

  // ---------- segments in any order ----------

  /** A receiver, with all it has delivered and the acknowledgements it has sent. */
  datatype Receiver = Receiver(s: StreamState, got: seq<byte>, acks: seq<Datagram>)

  ghost function FeedOne(v: Receiver, d: Datagram): Receiver {
    var f := Feed(v.s, d);
    Receiver(f.state, v.got + Flatten(f.delivered), v.acks + f.sent)
  }

  /** The numbers in `order` are numbers of segments. */
  ghost predicate Numbers(order: seq<nat>, segs: seq<Datagram>) {
    forall n :: 0 <= n < |order| ==> order[n] < |segs|
  }

  ghost function FeedAll(v: Receiver, segs: seq<Datagram>, order: seq<nat>): Receiver
    requires Numbers(order, segs)
    decreases |order|
  {
    if order == [] then v else FeedAll(FeedOne(v, segs[order[0]]), segs, order[1..])
  }

  function Elements(order: seq<nat>): set<nat> {
    set i | i in order
  }

  /** The first `p` segments have all arrived and the next one has not. */
  ghost predicate GapFree(arrived: set<nat>, p: nat) {
    p !in arrived && forall i :: 0 <= i < p ==> i in arrived
  }

  /** The queue holds the arrived segments from number `p` on. */
  ghost predicate Holds(q: Queue, segs: seq<Datagram>, arrived: set<nat>, p: nat) {
    && (forall i :: p <= i < |segs| && i in arrived ==> segs[i].offset in q && q[segs[i].offset] == segs[i])
    && (forall k :: k in q ==> exists i :: p <= i < |segs| && i in arrived && segs[i].offset == k)
  }

  /** The receiver has delivered the longest gap-free prefix of what has arrived. */
  ghost predicate Reassembled(v: Receiver, segs: seq<Datagram>, w: seq<byte>, arrived: set<nat>, p: nat) {
    && Segmented(segs, w) && p <= |segs| && GapFree(arrived, p)
    && v.s.recvOffset == Cut(segs, w, p) <= |w|
    && v.got == w[..v.s.recvOffset]
    && Holds(v.s.recvQueue, segs, arrived, p)
    && AcksRise(v.acks, v.s.recvOffset)
  }

  /** Acknowledged offsets strictly increase, up to the receive offset. */
  ghost predicate AcksRise(acks: seq<Datagram>, off: u32) {
    && (forall i, j :: 0 <= i < j < |acks| ==> acks[i].offset < acks[j].offset)
    && (forall i :: 0 <= i < |acks| ==> acks[i].kind == DATA_ACK && 0 < acks[i].offset <= off)
  }

  /** The head of such a queue is the expected segment exactly when that segment has arrived. */
  lemma HeadIsNext(q: Queue, segs: seq<Datagram>, w: seq<byte>, arrived: set<nat>, p: nat)
    requires Segmented(segs, w) && p <= |segs| && Holds(q, segs, arrived, p) && |w| < TWO32
    ensures AtHead(q, Cut(segs, w, p)) <==> p < |segs| && p in arrived
    ensures p < |segs| && p in arrived ==>
              q[Cut(segs, w, p)] == segs[p] && Holds(q - {Cut(segs, w, p)}, segs, arrived, p + 1)
  {
    forall i | p < i < |segs|
      ensures segs[i].offset > Cut(segs, w, p)
    {
      CutsGrow(segs, w, p, i);
    }
    if p == |segs| {
      assert forall k :: k !in q;
    }
  }

  /** One step of a drain, in terms of segments. */
  lemma DrainSegment(q: Queue, segs: seq<Datagram>, w: seq<byte>, arrived: set<nat>, p: nat)
    requires Segmented(segs, w) && p < |segs| && Holds(q, segs, arrived, p) && p in arrived
    ensures var off, next := Cut(segs, w, p), Cut(segs, w, p + 1);
            && 0 <= off < next <= |w| && off < TWO32
            && Holds(q - {off}, segs, arrived, p + 1)
            && Drain(q, off) == Drain(q - {off}, next).(payloads := [w[off..next]] + Drain(q - {off}, next).payloads)
  {
    hide Holds, Drain, AtHead;
    HeadIsNext(q, segs, w, arrived, p);
    assert IsSegment(segs, w, p);
    CutInside(segs, w, p + 1);
    DrainStep(q, Cut(segs, w, p));
  }

  /** A drain runs up to the next gap. */
  lemma {:induction false} DrainToGap(q: Queue, segs: seq<Datagram>, w: seq<byte>, arrived: set<nat>, p: nat)
    returns (p': nat)
    requires Segmented(segs, w) && p <= |segs| && Holds(q, segs, arrived, p)
    requires forall i :: i in arrived ==> i < |segs|
    requires forall i :: 0 <= i < p ==> i in arrived
    ensures p <= p' <= |segs| && GapFree(arrived, p') && (p in arrived ==> p' > p)
    ensures 0 <= Cut(segs, w, p) <= Cut(segs, w, p') <= |w|
    ensures var r := Drain(q, Cut(segs, w, p));
            && Holds(r.queue, segs, arrived, p')
            && r.offset == Cut(segs, w, p')
            && Flatten(r.payloads) == w[Cut(segs, w, p)..Cut(segs, w, p')]
    decreases |segs| - p
  {
    hide Holds, Segmented, Drain, Cut, AtHead;
    var off := Cut(segs, w, p);
    CutInside(segs, w, p);
    if p in arrived {
      DrainSegment(q, segs, w, arrived, p);
      var next := Cut(segs, w, p + 1);
      p' := DrainToGap(q - {off}, segs, w, arrived, p + 1);
      var rest := Drain(q - {off}, next).payloads;
      assert ([w[off..next]] + rest)[1..] == rest;
      assert w[off..next] + w[next..Cut(segs, w, p')] == w[off..Cut(segs, w, p')];
    } else {
      HeadIsNext(q, segs, w, arrived, p);
      DrainNothing(q, off);
      assert Flatten([]) == [];
      p' := p;
    }
  }

  lemma CutInside(segs: seq<Datagram>, w: seq<byte>, p: nat)
    requires Segmented(segs, w) && p <= |segs|
    ensures 0 <= Cut(segs, w, p) <= |w| < TWO32
  {
    CutsGrow(segs, w, p, |segs|);
  }

  lemma ReassembleOne(v: Receiver, segs: seq<Datagram>, w: seq<byte>, arrived: set<nat>, p: nat, i: nat)
    returns (p': nat)
    requires Reassembled(v, segs, w, arrived, p) && p <= i < |segs|
    requires forall n :: n in arrived ==> n < |segs|
    ensures p <= p' && Reassembled(FeedOne(v, segs[i]), segs, w, arrived + {i}, p')
  {
    var d := segs[i];
    assert IsSegment(segs, w, i);
    var q := v.s.recvQueue[d.offset := d];
    var seen := arrived + {i};
    assert Holds(q, segs, seen, p) by {
      forall n | p <= n < |segs| && n in seen
        ensures segs[n].offset in q && q[segs[n].offset] == segs[n]
      {
        if n < i { CutsGrow(segs, w, n, i); } else { CutsGrow(segs, w, i, n); }
      }
    }
    HeadIsNext(q, segs, w, seen, p);
    p' := DrainToGap(q, segs, w, seen, p);
    CutsGrow(segs, w, p, p');
    var u := FeedOne(v, d);
    assert Flatten([]) == [];
    if p in seen {
      assert u.acks == v.acks + [AckFor(v.s.id, Cut(segs, w, p'))];
    } else {
      assert u.acks == v.acks;
    }
    assert u.got == w[..u.s.recvOffset];
  }

  /** Each segment fed lies at or after what is delivered when it arrives. */
  ghost predicate NotYetDelivered(v: Receiver, segs: seq<Datagram>, order: seq<nat>)
    requires Numbers(order, segs)
    decreases |order|
  {
    order != [] ==>
      && segs[order[0]].offset >= v.s.recvOffset
      && NotYetDelivered(FeedOne(v, segs[order[0]]), segs, order[1..])
  }

  /** Main result: reassembly. Segments of a stream may arrive in any order, and again as long as
      they are not yet delivered; what has been delivered is always the longest gap-free prefix
      of what has arrived, the acknowledgements strictly increase, and the queue holds the rest. */
  lemma {:induction false} Reassembly(v: Receiver, segs: seq<Datagram>, w: seq<byte>, arrived: set<nat>, p: nat,
                                      order: seq<nat>) returns (p': nat)
    requires Reassembled(v, segs, w, arrived, p)
    requires forall n :: n in arrived ==> n < |segs|
    requires Numbers(order, segs) && NotYetDelivered(v, segs, order)
    ensures Reassembled(FeedAll(v, segs, order), segs, w, arrived + Elements(order), p')
    decreases |order|
  {
    if order == [] {
      p' := p;
      assert arrived + Elements(order) == arrived;
    } else {
      var i, rest := order[0], order[1..];
      assert i >= p by {
        if i < p {
          CutsGrow(segs, w, i, p);
        }
      }
      var p1 := ReassembleOne(v, segs, w, arrived, p, i);
      hide Reassembled, FeedOne;
      p' := Reassembly(FeedOne(v, segs[i]), segs, w, arrived + {i}, p1, rest);
      assert arrived + {i} + Elements(rest) == arrived + Elements(order);
    }
  }

  /** Once every segment has arrived, the whole message has been delivered. */
  lemma ReassemblyComplete(id: u32, segs: seq<Datagram>, w: seq<byte>, order: seq<nat>)
    requires Segmented(segs, w)
    requires Numbers(order, segs) && NotYetDelivered(Receiver(Fresh(id), [], []), segs, order)
    requires forall i :: 0 <= i < |segs| ==> i in order
    ensures var v := FeedAll(Receiver(Fresh(id), [], []), segs, order);
            v.got == w && v.s.recvQueue == map[] && v.s.recvOffset == |w|
  {
    var v0 := Receiver(Fresh(id), [], []);
    assert Reassembled(v0, segs, w, {}, 0);
    var p := Reassembly(v0, segs, w, {}, 0, order);
    var v := FeedAll(v0, segs, order);
    assert p == |segs|;
    assert forall k :: k !in v.s.recvQueue;
  }

  // ---------- what stops a receiver ----------

  /** A datagram that lies before the receive offset is queued. */
  ghost predicate Stuck(s: StreamState) {
    exists k :: k in s.recvQueue && k < s.recvOffset
  }

  /** A stuck receiver stays stuck, delivers nothing, and answers no data. */
  lemma StuckStays(s: StreamState, d: Datagram)
    requires Stuck(s)
    ensures var f := Feed(s, d);
            && Stuck(f.state) && f.delivered == [] && f.state.recvOffset == s.recvOffset
            && (d.kind == DATA ==> f.sent == [])
  {
    var k :| k in s.recvQueue && k < s.recvOffset;
    assert k in s.recvQueue[d.offset := d].Keys && k in s.recvQueue.Keys;
    assert k in Feed(s, d).state.recvQueue;
  }

  /** The expected datagram is delivered exactly when the receiver is not stuck. */
  lemma ExpectedDeliveredIffNotStuck(s: StreamState, d: Datagram)
    requires d.kind == DATA && d.offset == s.recvOffset
    ensures Feed(s, d).delivered != [] <==> !Stuck(s)
    ensures !Stuck(s) ==> Feed(s, d).delivered[0] == d.payload
  {
    var q := s.recvQueue[d.offset := d];
    if Stuck(s) {
      StuckStays(s, d);
    } else {
      assert AtHead(q, d.offset);
    }
  }

  /** In a reachable state a receiver becomes stuck exactly by data it has already delivered, and
      one that is not stuck has nothing queued. */
  lemma StuckExactly(run: seq<Net>, i: nat, d: Datagram)
    requires IsRun(run) && i < |run| && d in run[i].a.out && d.kind == DATA
    ensures var y := run[i].b.s;
            && (Stuck(Feed(y, d).state) <==> Stuck(y) || d.offset < y.recvOffset)
            && (!Stuck(y) <==> y.recvQueue == map[])
  {
    RunKeeps(run, i);
    var x, y := run[i].a, run[i].b;
    var t, u :| Half(x, y, t) && Half(y, x, u);
    hide Half, Stuck, Feed, Inv, IsRun;
    TransmittedBefore(x, y, t, d);
    assert Receiving(x, y, t) by { ReceivingHalf(x, y, t); }
    NotStuckIsEmpty(x, y, t);
    FedBecomesStuck(y.s, d);
  }

  lemma ReceivingHalf(x: End, y: End, t: Track)
    requires Half(x, y, t)
    ensures Receiving(x, y, t)
  {
  }

  lemma TransmittedBefore(x: End, y: End, t: Track, d: Datagram)
    requires Half(x, y, t) && d in x.out && d.kind == DATA
    ensures d.offset <= y.s.recvOffset && d.offset + d.length < TWO32 && d.length > 0
  {
    var n :| 0 <= n <= t.r && n < |t.segs| && t.segs[n] == d;
    assert IsSegment(t.segs, x.written, n);
    CutsGrow(t.segs, x.written, n, t.r);
  }

  lemma FedBecomesStuck(s: StreamState, d: Datagram)
    requires d.kind == DATA && d.offset <= s.recvOffset && d.offset + d.length < TWO32 && d.length > 0
    requires !Stuck(s) ==> s.recvQueue == map[]
    ensures Stuck(Feed(s, d).state) <==> Stuck(s) || d.offset < s.recvOffset
  {
    var q := s.recvQueue[d.offset := d];
    if Stuck(s) {
      StuckStays(s, d);
    } else if d.offset < s.recvOffset {
      assert d.offset in q.Keys && q.Keys == {d.offset};
      assert d.offset in Feed(s, d).state.recvQueue;
    } else {
      assert AtHead(q, d.offset);
      DrainOfOne(q, d.offset);
    }
  }

  lemma NotStuckIsEmpty(x: End, y: End, t: Track)
    requires Receiving(x, y, t)
    ensures !Stuck(y.s) <==> y.s.recvQueue == map[]
  {
    if !Stuck(y.s) {
      forall k | k in y.s.recvQueue
        ensures k == y.s.recvOffset
      {
        var n :| 0 <= n <= t.r && n < |t.segs| && t.segs[n] == y.s.recvQueue[k];
        CutsGrow(t.segs, x.written, n, t.r);
      }
      assert forall k :: k !in y.s.recvQueue;
    }
  }

  lemma StuckStands(y: End, e: Event)
    requires Stuck(y.s)
    ensures Stuck(Act(y, e).s) && Act(y, e).got == y.got
  {
    hide Feed, Stuck;
    if e.Receive? {
      StuckStays(y.s, e.d);
    } else {
      QueueKept(y.s, e);
    }
    assert Flatten([]) == [] && y.got + [] == y.got;
  }

  lemma QueueKept(s: StreamState, e: Event)
    requires Stuck(s) && !e.Receive?
    ensures Stuck(EffectOf(s, e).state) && EffectOf(s, e).delivered == []
  {
  }

  /** Main result: once a delivered datagram has arrived again, nothing is ever delivered any more,
      whatever the network and both users do. */
  lemma {:induction false} StuckForever(run: seq<Net>, i: nat, j: nat)
    requires IsRun(run) && i <= j < |run| && Stuck(run[i].b.s)
    ensures Stuck(run[j].b.s) && run[j].b.got == run[i].b.got
    decreases j - i
  {
    if i < j {
      StuckForever(run, i, j - 1);
      hide Stuck, Act, Enabled;
      var n, n' := run[j - 1], run[j];
      assert Next(n, n');
      if n'.b != n.b {
        var e :| Enabled(n.b, n.a.out, e) && n' == Net(n.a, Act(n.b, e));
        StuckStands(n.b, e);
      }
    }
  }
}
