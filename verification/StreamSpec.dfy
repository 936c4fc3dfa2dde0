/** The reliable stream of `client/sml/stream.cpp` as functions on values: each operation maps the
    state of one end to its new state, the datagrams it hands to the peer, and the payloads it
    puts in the output ring. The class in Transport.dfy is proved to do exactly this. */
module StreamSpec {
  import opened Bytes
  import opened Datagrams

  const SEGMENT_MAX := 1000

  type Queue = map<u32, Datagram>

  datatype StreamState = StreamState(
    id: u32,
    sendOffset: u32,
    recvOffset: u32,
    sendQueue: Queue,
    recvQueue: Queue,
    timerArmed: bool)

  datatype Effect = Effect(state: StreamState, sent: seq<Datagram>, delivered: seq<seq<byte>>)

  function Fresh(id: u32): StreamState {
    StreamState(id, 0, 0, map[], map[], false)
  }

  // ---------- ordered maps ----------

  ghost predicate IsLeast(keys: set<u32>, k: u32) {
    k in keys && forall j | j in keys :: k <= j
  }

  ghost predicate IsGreatest(keys: set<u32>, k: u32) {
    k in keys && forall j | j in keys :: j <= k
  }

  lemma {:induction false} LeastExists(keys: set<u32>)
    requires keys != {}
    ensures exists k: u32 :: IsLeast(keys, k)
  {
    var x :| x in keys;
    var rest := keys - {x};
    if rest == {} {
      assert keys == {x};
      assert IsLeast(keys, x);
    } else {
      LeastExists(rest);
      var y: u32 :| IsLeast(rest, y);
      var m: u32 := if y < x then y else x;
      assert forall j | j in keys :: j == x || j in rest;
      assert IsLeast(keys, m);
    }
  }

  lemma {:induction false} GreatestExists(keys: set<u32>)
    requires keys != {}
    ensures exists k: u32 :: IsGreatest(keys, k)
  {
    var x :| x in keys;
    var rest := keys - {x};
    if rest == {} {
      assert keys == {x};
      assert IsGreatest(keys, x);
    } else {
      GreatestExists(rest);
      var y: u32 :| IsGreatest(rest, y);
      var m: u32 := if x < y then y else x;
      assert forall j | j in keys :: j == x || j in rest;
      assert IsGreatest(keys, m);
    }
  }

  /** The key `begin()` of an ordered map points at. */
  ghost function Least(keys: set<u32>): (k: u32)
    requires keys != {}
    ensures IsLeast(keys, k)
  {
    LeastExists(keys);
    var k: u32 :| IsLeast(keys, k);
    k
  }

  /** The key `rbegin()` of an ordered map points at. */
  ghost function Greatest(keys: set<u32>): (k: u32)
    requires keys != {}
    ensures IsGreatest(keys, k)
  {
    GreatestExists(keys);
    var k: u32 :| IsGreatest(keys, k);
    k
  }

  // ---------- sending ----------

  /** What remains queued once everything before `from` counts as acknowledged. */
  function Unacknowledged(q: Queue, from: u32): Queue {
    map k | k in q && from <= k :: q[k]
  }

  /** `send_one_datagram`: drop what is acknowledged, transmit the first of the rest. */
  ghost function SendOne(s: StreamState): Effect {
    var q := Unacknowledged(s.sendQueue, s.sendOffset);
    var t := s.(sendQueue := q, timerArmed := q != map[]);
    Effect(t, if q == map[] then [] else [q[Least(q.Keys)]], [])
  }

  /** The segment of `data` that starts at `from`, placed at stream offset `base + from`. */
  function SegmentAt(id: u32, base: nat, data: seq<byte>, from: nat): Datagram
    requires from <= |data|
  {
    var n := Min(|data| - from, SEGMENT_MAX);
    Datagram(DATA, id, (base + from) % TWO32, n, data[from..from + n])
  }

  /** `std::map::insert`: a key already present keeps its datagram. */
  function InsertIfAbsent(q: Queue, d: Datagram): Queue {
    if d.offset in q then q else q[d.offset := d]
  }

  /** The queue after the segments of `data[from..]` have been inserted in order. */
  function Enqueue(q: Queue, id: u32, base: nat, data: seq<byte>, from: nat): Queue
    requires from <= |data|
    decreases |data| - from
  {
    if from == |data| then q
    else
      var d := SegmentAt(id, base, data, from);
      Enqueue(InsertIfAbsent(q, d), id, base, data, from + d.length)
  }

  /** The offset `send` counts from: the last queued key, or the send offset of an empty queue. */
  ghost function SendBase(s: StreamState): u32 {
    if s.sendQueue == map[] then s.sendOffset else Greatest(s.sendQueue.Keys)
  }

  ghost function Send(s: StreamState, data: seq<byte>): Effect {
    SendOne(s.(sendQueue := Enqueue(s.sendQueue, s.id, SendBase(s), data, 0)))
  }

  // ---------- receiving ----------

  /** The next expected datagram is at the head of the queue. */
  ghost predicate AtHead(q: Queue, off: u32) {
    IsLeast(q.Keys, off)
  }

  datatype Drained = Drained(queue: Queue, offset: u32, payloads: seq<seq<byte>>)

  /** Take datagrams off the head of the queue while they are the expected ones. */
  ghost function Drain(q: Queue, off: u32): Drained
    decreases |q|
  {
    if AtHead(q, off) then
      var rest := q - {off};
      assert rest.Keys < q.Keys && |rest| < |q| by {
        assert rest.Keys == q.Keys - {off};
      }
      var r := Drain(rest, (off + q[off].length) % TWO32);
      r.(payloads := [q[off].payload] + r.payloads)
    else
      Drained(q, off, [])
  }

  function AckFor(id: u32, off: u32): Datagram {
    Datagram(DATA_ACK, id, off, 0, [])
  }

  /** Deliver what can be delivered and acknowledge it. */
  ghost function DrainAndAck(s: StreamState): Effect {
    if AtHead(s.recvQueue, s.recvOffset) then
      var r := Drain(s.recvQueue, s.recvOffset);
      Effect(s.(recvQueue := r.queue, recvOffset := r.offset), [AckFor(s.id, r.offset)], r.payloads)
    else
      Effect(s, [], [])
  }

  /** `feed`: data and abort are queued, an acknowledgement moves the send offset, anything else
      is ignored; then the head of the receive queue is drained. */
  ghost function Feed(s: StreamState, d: Datagram): Effect {
    if d.kind == DATA || d.kind == ABORT then
      DrainAndAck(s.(recvQueue := s.recvQueue[d.offset := d]))
    else if d.kind == DATA_ACK then
      var one := SendOne(s.(sendOffset := d.offset));
      var two := DrainAndAck(one.state);
      Effect(two.state, one.sent + two.sent, two.delivered)
    else
      Effect(s, [], [])
  }

  // ---------- first consequences ----------

  lemma HeadQueued(q: Queue, off: u32)
    requires AtHead(q, off)
    ensures off in q
  {
  }

  lemma DrainNothing(q: Queue, off: u32)
    requires !AtHead(q, off)
    ensures Drain(q, off) == Drained(q, off, [])
  {
  }

  lemma DrainStep(q: Queue, off: u32)
    requires AtHead(q, off)
    ensures var rest := Drain(q - {off}, (off + q[off].length) % TWO32);
            Drain(q, off) == rest.(payloads := [q[off].payload] + rest.payloads)
  {
  }

  /** A drain stops only where the head of the queue is not the expected datagram, so after any
      feed of a queueable or acknowledging datagram the least queued key is not the receive
      offset. */
  lemma {:induction false} DrainStops(q: Queue, off: u32)
    ensures var r := Drain(q, off); !AtHead(r.queue, r.offset)
    decreases |q|
  {
    if AtHead(q, off) {
      var rest := q - {off};
      assert rest.Keys == q.Keys - {off};
      DrainStops(rest, (off + q[off].length) % TWO32);
    }
  }

  lemma FeedLeavesNoHead(s: StreamState, d: Datagram)
    requires !AtHead(s.recvQueue, s.recvOffset)
    ensures var t := Feed(s, d).state; !AtHead(t.recvQueue, t.recvOffset)
  {
    if d.kind == DATA || d.kind == ABORT {
      DrainStops(s.recvQueue[d.offset := d], s.recvOffset);
    }
  }

  /** Two queues that deliver the same: only the types of what they hold may differ. */
  ghost predicate Alike(q: Queue, q': Queue) {
    q.Keys == q'.Keys && forall k :: k in q ==> q[k].length == q'[k].length && q[k].payload == q'[k].payload
  }

  lemma {:induction false} DrainAlike(q: Queue, q': Queue, off: u32)
    requires Alike(q, q')
    ensures var r, r' := Drain(q, off), Drain(q', off);
            r.payloads == r'.payloads && r.offset == r'.offset && Alike(r.queue, r'.queue)
    decreases |q|
  {
    if AtHead(q, off) {
      var rest, rest' := q - {off}, q' - {off};
      assert rest.Keys == q.Keys - {off} && rest'.Keys == q'.Keys - {off};
      DrainAlike(rest, rest', (off + q[off].length) % TWO32);
    }
  }

  /** A stream does with an abort what it does with data. */
  lemma AbortIsData(s: StreamState, d: Datagram)
    requires d.kind == DATA
    ensures var f, f' := Feed(s, d), Feed(s, d.(kind := ABORT));
            && f'.sent == f.sent && f'.delivered == f.delivered && f'.state.recvOffset == f.state.recvOffset
            && Alike(f.state.recvQueue, f'.state.recvQueue)
            && f'.state == f.state.(recvQueue := f'.state.recvQueue)
  {
    DrainAlike(s.recvQueue[d.offset := d], s.recvQueue[d.offset := d.(kind := ABORT)], s.recvOffset);
  }

  /** An acknowledgement is believed, even if it goes back behind an earlier one: the send offset is
      what it says, exactly what lies before that is dropped, and the first of the rest, if any, is
      transmitted. */
  lemma AckIsBelieved(s: StreamState, d: Datagram)
    requires d.kind == DATA_ACK && !AtHead(s.recvQueue, s.recvOffset)
    ensures var f := Feed(s, d);
            && f.state.sendOffset == d.offset
            && (forall k: u32 :: k in f.state.sendQueue <==> k in s.sendQueue && d.offset <= k)
            && (forall k :: k in f.state.sendQueue ==> f.state.sendQueue[k] == s.sendQueue[k])
            && (f.state.timerArmed <==> f.state.sendQueue != map[])
            && |f.sent| == (if f.state.sendQueue == map[] then 0 else 1)
            && (forall x :: x in f.sent ==>
                  exists k :: IsLeast(f.state.sendQueue.Keys, k) && x == f.state.sendQueue[k])
            && f.delivered == []
  {
  }
}
