/** The objects of `client/sml`: datagrams shared by reference, streams, and peers, updated in
    place. Each method is proved to do what the functions of StreamSpec and HandshakeSpec say. */
module Transport {
  import opened Bytes
  import opened Wrappers
  import opened Cfb
  import opened Datagrams
  import opened KeyAgreement
  import opened HandshakeSpec
  import opened StreamSpec

  // ---------- datagrams held by reference ----------

  /** A datagram behind a shared pointer; its payload is encrypted and decrypted in place. */
  class DatagramBox {
    var value: Datagram

    constructor (value: Datagram)
      ensures this.value == value
    {
      this.value := value;
    }

    method EncryptInPlace(el: Aes128, random: Block)
      requires el.Valid()
      modifies this, el.iv
      ensures value == EncryptPayload(el.cipher, el.key[..], random, old(value))
    {
      if value.payload != [] {
        var cipher := el.EncryptData(value.payload, random);
        value := value.(payload := cipher);
      }
    }

    /** An exception leaves the payload as it was. */
    method DecryptInPlace(el: Aes128) returns (r: Outcome<CipherError>)
      requires el.Valid()
      modifies this, el.iv
      ensures match DecryptPayload(el.cipher, el.key[..], old(value))
              case Success(plain) => r == Pass && value == plain
              case Failure(e) => r == Fail(e) && value == old(value)
    {
      if value.payload != [] {
        var plain := el.DecryptData(value.payload);
        match plain {
          case Failure(e) => return Fail(e);
          case Success(p) => value := value.(payload := p);
        }
      }
      return Pass;
    }
  }

  /** The ring through which the network side hands messages to the user. */
  class Ring {
    var messages: seq<Notice>

    constructor ()
      ensures messages == []
    {
      messages := [];
    }

    method Put(m: Notice)
      modifies this
      ensures messages == old(messages) + [m]
    {
      messages := messages + [m];
    }

    /** Messages come out in the order in which they went in. */
    method Get() returns (m: Option<Notice>)
      modifies this
      ensures old(messages) == [] ==> m == None && messages == []
      ensures old(messages) != [] ==> m.Some? && [m.value] + messages == old(messages)
    {
      if messages == [] {
        return None;
      }
      m := Some(messages[0]);
      messages := messages[1..];
    }
  }

  // ---------- what a peer hands to its socket ----------

  function SerialiseAll(o: ByteOrder, ds: seq<Datagram>): (r: seq<seq<byte>>)
    ensures |r| == |ds|
  {
    seq(|ds|, i requires 0 <= i < |ds| => Serialise(o, ds[i]))
  }

  lemma SerialiseJoins(o: ByteOrder, ds: seq<Datagram>, es: seq<Datagram>)
    ensures SerialiseAll(o, ds + es) == SerialiseAll(o, ds) + SerialiseAll(o, es)
  {
    hide Serialise;
  }

  function SealAll(o: ByteOrder, aes: BlockCipher, key: Block, ivs: seq<Block>, ds: seq<Datagram>): (r: seq<seq<byte>>)
    requires |ivs| == |ds|
    ensures |r| == |ds|
  {
    seq(|ds|, i requires 0 <= i < |ds| => Seal(o, aes, key, ivs[i], ds[i]))
  }

  /** `after` is `before` with the datagrams sealed by an established peer in state `s`; any other
      peer sends nothing. */
  ghost predicate SealedOnto(o: ByteOrder, aes: BlockCipher, s: PeerState, before: seq<seq<byte>>,
                             after: seq<seq<byte>>, ds: seq<Datagram>) {
    if Has(s.bits, ESTABLISHED) && s.layer.Some? then
      exists ivs: seq<Block> :: |ivs| == |ds| && after == before + SealAll(o, aes, s.layer.value, ivs, ds)
    else
      after == before
  }

  lemma SealNothing(o: ByteOrder, aes: BlockCipher, s: PeerState, wire: seq<seq<byte>>)
    ensures SealedOnto(o, aes, s, wire, wire, [])
  {
    if s.layer.Some? {
      var ivs: seq<Block> := [];
      assert wire == wire + SealAll(o, aes, s.layer.value, ivs, []);
    }
  }

  lemma SealOne(o: ByteOrder, aes: BlockCipher, s: PeerState, wire: seq<seq<byte>>, iv: Block, d: Datagram)
    requires Has(s.bits, ESTABLISHED) && s.layer.Some?
    ensures SealedOnto(o, aes, s, wire, wire + [Seal(o, aes, s.layer.value, iv, d)], [d])
  {
    var ivs: seq<Block> := [iv];
    assert SealAll(o, aes, s.layer.value, ivs, [d]) == [Seal(o, aes, s.layer.value, iv, d)];
  }

  lemma SealAllJoins(o: ByteOrder, aes: BlockCipher, key: Block, ivs: seq<Block>, jvs: seq<Block>,
                     ds: seq<Datagram>, es: seq<Datagram>)
    requires |ivs| == |ds| && |jvs| == |es|
    ensures SealAll(o, aes, key, ivs + jvs, ds + es) == SealAll(o, aes, key, ivs, ds) + SealAll(o, aes, key, jvs, es)
  {
    hide Seal;
  }

  lemma SealTwice(o: ByteOrder, aes: BlockCipher, s: PeerState, w0: seq<seq<byte>>, w1: seq<seq<byte>>,
                  w2: seq<seq<byte>>, ds: seq<Datagram>, es: seq<Datagram>)
    requires SealedOnto(o, aes, s, w0, w1, ds) && SealedOnto(o, aes, s, w1, w2, es)
    ensures SealedOnto(o, aes, s, w0, w2, ds + es)
  {
    hide SealAll, Seal;
    if Has(s.bits, ESTABLISHED) && s.layer.Some? {
      var key := s.layer.value;
      var ivs: seq<Block> :| |ivs| == |ds| && w1 == w0 + SealAll(o, aes, key, ivs, ds);
      var jvs: seq<Block> :| |jvs| == |es| && w2 == w1 + SealAll(o, aes, key, jvs, es);
      var all: seq<Block> := ivs + jvs;
      SealAllJoins(o, aes, key, ivs, jvs, ds, es);
      assert w2 == w0 + SealAll(o, aes, key, all, ds + es);
    }
  }

  // ---------- streams ----------

  type BoxQueue = map<u32, DatagramBox>

  lemma SameState(s: StreamState, t: StreamState)
    requires s.id == t.id && s.sendOffset == t.sendOffset && s.recvOffset == t.recvOffset
    requires s.sendQueue == t.sendQueue && s.recvQueue == t.recvQueue && s.timerArmed == t.timerArmed
    ensures s == t
  {
  }

  /** The ring messages for payloads a stream delivers. */
  function Deliveries(id: u32, payloads: seq<seq<byte>>): (r: seq<Notice>)
    ensures |r| == |payloads|
  {
    seq(|payloads|, i requires 0 <= i < |payloads| => RecvData(id, payloads[i]))
  }

  class Stream {
    const id: u32
    const peer: Peer
    var sendOffset: u32
    var recvOffset: u32
    var sendQueue: BoxQueue
    var recvQueue: BoxQueue
    var timerArmed: bool

    ghost function Contents(q: BoxQueue): Queue
      reads q.Values
    {
      map k | k in q :: q[k].value
    }

    ghost function View(): StreamState
      reads this, sendQueue.Values, recvQueue.Values
    {
      StreamState(id, sendOffset, recvOffset, Contents(sendQueue), Contents(recvQueue), timerArmed)
    }

    constructor (peer: Peer, id: u32)
      ensures this.peer == peer && this.id == id && View() == Fresh(id)
    {
      this.peer, this.id := peer, id;
      sendOffset, recvOffset := 0, 0;
      sendQueue, recvQueue := map[], map[];
      timerArmed := false;
    }

    /** The key `begin()` points at, unless that is `end()`. */
    method Begin(q: BoxQueue) returns (found: bool, k: u32)
      ensures found <==> q != map[]
      ensures found ==> IsLeast(q.Keys, k)
    {
      if q == map[] {
        return false, 0;
      }
      assert q.Keys != {};
      LeastExists(q.Keys);
      k :| k in q.Keys && forall j | j in q.Keys :: k <= j;
      found := true;
    }

    /** The first loop of `send_one_datagram`. */
    method DropAcknowledged()
      modifies this`sendQueue
      ensures sendQueue.Values <= old(sendQueue.Values)
      ensures Contents(sendQueue) == Unacknowledged(old(Contents(sendQueue)), sendOffset)
    {
      var found: bool, it: u32 := Begin(sendQueue);
      while found && it < sendOffset
        invariant found <==> sendQueue != map[]
        invariant found ==> IsLeast(sendQueue.Keys, it)
        invariant forall k :: k in sendQueue ==> k in old(sendQueue) && sendQueue[k] == old(sendQueue)[k]
        invariant forall k :: k in old(sendQueue) && sendOffset <= k ==> k in sendQueue
        decreases |sendQueue|
      {
        assert (sendQueue - {it}).Keys == sendQueue.Keys - {it};
        sendQueue := sendQueue - {it};
        found, it := Begin(sendQueue);
      }
      assert forall k :: k in sendQueue ==> k in sendQueue.Keys && it <= k;
    }

    method CancelAndDrop()
      modifies this`sendQueue, this`timerArmed
      ensures sendQueue.Values <= old(sendQueue.Values)
      ensures View() == old(View()).(sendQueue := Unacknowledged(old(View()).sendQueue, sendOffset),
                                     timerArmed := false)
    {
      ghost var s := View();
      timerArmed := false;
      DropAcknowledged();
      SameState(View(), s.(sendQueue := Contents(sendQueue), timerArmed := false));
    }

    /** The peer encrypts the copy it is given; what is queued stays as it is. */
    method TransmitCopy(original: DatagramBox)
      requires peer.Ready()
      modifies peer`wire, peer.IvArrays()
      ensures View() == old(View()) && peer.View() == old(peer.View())
      ensures SealedOnto(peer.order, peer.aes, peer.View(), old(peer.wire), peer.wire, [original.value])
      ensures original.value == old(original.value)
    {
      hide PhaseInv, SealedOnto, Contents;
      var copy := new DatagramBox(original.value);
      peer.SendDatagram(copy);
    }

    lemma FirstOf(s: StreamState, it: u32)
      requires var q := Unacknowledged(s.sendQueue, s.sendOffset); IsLeast(q.Keys, it)
      ensures var q := Unacknowledged(s.sendQueue, s.sendOffset);
              SendOne(s) == Effect(s.(sendQueue := q, timerArmed := true), [q[it]], [])
    {
    }

    lemma NoneOf(s: StreamState)
      requires Unacknowledged(s.sendQueue, s.sendOffset) == map[]
      ensures SendOne(s) == Effect(s.(sendQueue := map[], timerArmed := false), [], [])
    {
    }

    method SendOneDatagram()
      requires peer.Ready()
      modifies this`sendQueue, this`timerArmed, peer`wire, peer.IvArrays()
      ensures View() == SendOne(old(View())).state && peer.View() == old(peer.View())
      ensures SealedOnto(peer.order, peer.aes, peer.View(), old(peer.wire), peer.wire, SendOne(old(View())).sent)
    {
      hide PhaseInv, SealedOnto, SendOne, Unacknowledged;
      ghost var s := View();
      CancelAndDrop();
      ghost var q := Contents(sendQueue);
      assert q.Keys == sendQueue.Keys && q == Unacknowledged(s.sendQueue, s.sendOffset);
      hide Contents;
      var found, it := Begin(sendQueue);
      if !found {
        assert q == map[];
        NoneOf(s);
        SealNothing(peer.order, peer.aes, peer.View(), peer.wire);
        return;
      }
      FirstOf(s, it);
      TransmitAt(it);
    }

    method TransmitAt(k: u32)
      requires peer.Ready() && k in sendQueue
      modifies this`timerArmed, peer`wire, peer.IvArrays()
      ensures View() == old(View()).(timerArmed := true) && peer.Ready() && peer.View() == old(peer.View())
      ensures SealedOnto(peer.order, peer.aes, peer.View(), old(peer.wire), peer.wire, [old(View()).sendQueue[k]])
    {
      hide PhaseInv, SealedOnto;
      ghost var s := View();
      timerArmed := true;
      SameState(View(), s.(timerArmed := true));
      hide Contents;
      TransmitCopy(sendQueue[k]);
    }

    /** The timer calls this. */
    method Retransmit(aborted: bool)
      requires peer.Ready()
      modifies this`sendQueue, this`timerArmed, peer`wire, peer.IvArrays()
      ensures aborted ==> View() == old(View()) && peer.wire == old(peer.wire)
      ensures !aborted ==> View() == SendOne(old(View())).state && peer.View() == old(peer.View())
      ensures !aborted ==>
        SealedOnto(peer.order, peer.aes, peer.View(), old(peer.wire), peer.wire, SendOne(old(View())).sent)
    {
      if !aborted {
        SendOneDatagram();
      }
    }

    method SendAck()
      requires peer.Ready()
      modifies peer`wire, peer.IvArrays()
      ensures View() == old(View()) && peer.View() == old(peer.View())
      ensures SealedOnto(peer.order, peer.aes, peer.View(), old(peer.wire), peer.wire, [AckFor(id, recvOffset)])
    {
      hide PhaseInv, SealedOnto, Contents;
      var ack := new DatagramBox(Datagram(DATA_ACK, id, recvOffset, 0, []));
      peer.SendDatagram(ack);
    }

    /** The end of the queue, or the send offset if the queue is empty, as `send` takes it. */
    method MaxOffset() returns (base: u32)
      ensures base == SendBase(View())
    {
      if sendQueue == map[] {
        return sendOffset;
      }
      GreatestExists(sendQueue.Keys);
      base :| base in sendQueue.Keys && forall j | j in sendQueue.Keys :: j <= base;
      assert View().sendQueue.Keys == sendQueue.Keys;
    }

    /** The loop of `send`: queue the segments of `data`, each unless its key is taken. */
    method QueueSegments(data: seq<byte>, base: u32)
      modifies this`sendQueue
      ensures Contents(sendQueue) == Enqueue(old(Contents(sendQueue)), id, base, data, 0)
      ensures forall b :: b in sendQueue.Values ==> b in old(sendQueue.Values) || fresh(b)
    {
      var offset := 0;
      while offset < |data|
        invariant 0 <= offset <= |data|
        invariant Enqueue(Contents(sendQueue), id, base, data, offset)
               == Enqueue(old(Contents(sendQueue)), id, base, data, 0)
        invariant forall b :: b in sendQueue.Values ==> b in old(sendQueue.Values) || fresh(b)
        modifies this`sendQueue
      {
        var left := |data| - offset;
        var length := if left > SEGMENT_MAX then SEGMENT_MAX else left;
        var d := Datagram(DATA, id, (offset + base) % TWO32, length, data[offset..offset + length]);
        assert d == SegmentAt(id, base, data, offset);
        InsertSegment(d);
        offset := offset + length;
      }
    }

    method InsertSegment(d: Datagram)
      modifies this`sendQueue
      ensures Contents(sendQueue) == InsertIfAbsent(old(Contents(sendQueue)), d)
      ensures forall b :: b in sendQueue.Values ==> b in old(sendQueue.Values) || fresh(b)
    {
      var box := new DatagramBox(d);
      if d.offset !in sendQueue {
        sendQueue := sendQueue[d.offset := box];
      }
    }

    method SendData(data: seq<byte>)
      requires peer.Ready()
      modifies this`sendQueue, this`timerArmed, peer`wire, peer.IvArrays()
      ensures View() == Send(old(View()), data).state && peer.View() == old(peer.View())
      ensures SealedOnto(peer.order, peer.aes, peer.View(), old(peer.wire), peer.wire, Send(old(View()), data).sent)
    {
      hide PhaseInv, SealedOnto, SendOne, Enqueue;
      ghost var s := View();
      var base: u32 := MaxOffset();
      QueueSegments(data, base);
      SameState(View(), s.(sendQueue := Enqueue(s.sendQueue, id, base, data, 0)));
      SendOneDatagram();
    }

    /** One turn of the drain: erase the head and put its payload in the ring. */
    method PopHead()
      requires AtHead(Contents(recvQueue), recvOffset)
      modifies this`recvQueue, this`recvOffset, peer.ring
      ensures recvQueue.Values <= old(recvQueue.Values) && |recvQueue| < |old(recvQueue)|
      ensures var q, off := old(Contents(recvQueue)), old(recvOffset);
              && Contents(recvQueue) == q - {off}
              && recvOffset == (off + q[off].length) % TWO32
              && peer.ring.messages == old(peer.ring.messages) + [RecvData(id, q[off].payload)]
    {
      assert recvOffset in Contents(recvQueue);
      var head := recvQueue[recvOffset].value;
      assert (recvQueue - {recvOffset}).Keys == recvQueue.Keys - {recvOffset};
      recvQueue := recvQueue - {recvOffset};
      recvOffset := (recvOffset + head.length) % TWO32;
      peer.ring.Put(RecvData(id, head.payload));
    }

    method HeadIsNext() returns (b: bool)
      ensures b == AtHead(Contents(recvQueue), recvOffset)
    {
      var found: bool, it: u32 := Begin(recvQueue);
      b := found && it == recvOffset;
      assert Contents(recvQueue).Keys == recvQueue.Keys;
    }

    method DeliverHead()
      requires AtHead(Contents(recvQueue), recvOffset)
      modifies this`recvQueue, this`recvOffset, peer.ring
      ensures recvQueue.Values <= old(recvQueue.Values)
      ensures var r := Drain(old(Contents(recvQueue)), old(recvOffset));
              && Contents(recvQueue) == r.queue && recvOffset == r.offset
              && peer.ring.messages == old(peer.ring.messages) + Deliveries(id, r.payloads)
    {
      hide AtHead, Drain, Deliveries, Contents;
      ghost var ps: seq<seq<byte>> := [];
      ghost var whole := Drain(Contents(recvQueue), recvOffset);
      DeliveriesGrow(id, [], []);
      var more := true;
      while more
        invariant more == AtHead(Contents(recvQueue), recvOffset)
        invariant recvQueue.Values <= old(recvQueue.Values)
        invariant var r := Drain(Contents(recvQueue), recvOffset);
                  whole == Drained(r.queue, r.offset, ps + r.payloads)
        invariant peer.ring.messages == old(peer.ring.messages) + Deliveries(id, ps)
        modifies this`recvQueue, this`recvOffset, peer.ring
        decreases |recvQueue|
      {
        ghost var q, off := Contents(recvQueue), recvOffset;
        HeadQueued(q, off);
        DrainStep(q, off);
        ghost var later := Drain(q - {off}, (off + q[off].length) % TWO32).payloads;
        assert ps + ([q[off].payload] + later) == ps + [q[off].payload] + later;
        PopHead();
        DeliveriesGrow(id, ps, q[off].payload);
        ps := ps + [q[off].payload];
        more := HeadIsNext();
      }
      DrainNothing(Contents(recvQueue), recvOffset);
      assert ps + [] == ps;
    }

    /** What `feed` does once the datagram has been queued or taken as an acknowledgement. */
    method DeliverAndAck()
      requires peer.Ready()
      modifies this`recvQueue, this`recvOffset, peer.ring, peer`wire, peer.IvArrays()
      ensures recvQueue.Values <= old(recvQueue.Values)
      ensures var f := DrainAndAck(old(View()));
              && View() == f.state && peer.View() == old(peer.View())
              && SealedOnto(peer.order, peer.aes, peer.View(), old(peer.wire), peer.wire, f.sent)
              && peer.ring.messages == old(peer.ring.messages) + Deliveries(id, f.delivered)
    {
      hide PhaseInv, SealedOnto, Drain, AtHead, Deliveries;
      ghost var s := View();
      DeliveriesGrow(id, [], []);
      var more := HeadIsNext();
      if more {
        DeliverHead();
        SameState(View(), s.(recvQueue := Drain(s.recvQueue, s.recvOffset).queue,
                             recvOffset := Drain(s.recvQueue, s.recvOffset).offset));
        SendAck();
      } else {
        SealNothing(peer.order, peer.aes, peer.View(), peer.wire);
        assert peer.ring.messages == old(peer.ring.messages) + [];
      }
    }

    /** Queue a datagram, replacing one with the same offset. */
    method QueueReceived(box: DatagramBox)
      modifies this`recvQueue
      ensures View() == old(View()).(recvQueue := old(View()).recvQueue[box.value.offset := box.value])
    {
      ghost var s := View();
      recvQueue := recvQueue[box.value.offset := box];
      SameState(View(), s.(recvQueue := s.recvQueue[box.value.offset := box.value]));
    }

    method TakeAcknowledgement(offset: u32)
      requires peer.Ready()
      modifies this`sendOffset, this`sendQueue, this`timerArmed, peer`wire, peer.IvArrays()
      ensures var f := SendOne(old(View()).(sendOffset := offset));
              && View() == f.state && peer.View() == old(peer.View())
              && SealedOnto(peer.order, peer.aes, peer.View(), old(peer.wire), peer.wire, f.sent)
    {
      hide PhaseInv, SealedOnto, SendOne;
      ghost var s := View();
      sendOffset := offset;
      SameState(View(), s.(sendOffset := offset));
      SendOneDatagram();
    }

    method FeedDatagram(box: DatagramBox)
      requires peer.Ready()
      modifies this, peer.ring, peer`wire, peer.IvArrays()
      ensures var f := Feed(old(View()), old(box.value));
              && View() == f.state && peer.View() == old(peer.View())
              && SealedOnto(peer.order, peer.aes, peer.View(), old(peer.wire), peer.wire, f.sent)
              && peer.ring.messages == old(peer.ring.messages) + Deliveries(id, f.delivered)
    {
      hide PhaseInv, SealedOnto, DrainAndAck, SendOne, Deliveries, View;
      ghost var s, d := View(), box.value;
      if box.value.kind == ABORT || box.value.kind == DATA {
        QueueReceived(box);
        DeliverAndAck();
      } else if box.value.kind == DATA_ACK {
        TakeAcknowledgement(box.value.offset);
        ghost var w1, s1 := peer.wire, View();
        DeliverAndAck();
        SealTwice(peer.order, peer.aes, peer.View(), old(peer.wire), w1, peer.wire,
                  SendOne(s.(sendOffset := d.offset)).sent, DrainAndAck(s1).sent);
      } else {
        DeliveriesGrow(id, [], []);
        SealNothing(peer.order, peer.aes, peer.View(), peer.wire);
        assert peer.ring.messages == old(peer.ring.messages) + [];
      }
    }
  }

  lemma DeliveriesGrow(id: u32, ps: seq<seq<byte>>, p: seq<byte>)
    ensures Deliveries(id, ps + [p]) == Deliveries(id, ps) + [RecvData(id, p)]
    ensures Deliveries(id, []) == []
  {
  }

  // ---------- peers ----------

  class Peer {
    const order: ByteOrder
    const aes: BlockCipher
    const config: Config
    const ring: Ring
    const dh: DhKeyAgreement
    var bits: bv32
    var handler: Handler
    var timer: Option<Datagram>
    var id: seq<byte>
    var peerSpub: seq<byte>
    var layer: Aes128?
    var sentEcho: Option<Datagram>
    var streams: map<u32, Stream>
    var wire: seq<seq<byte>>

    ghost predicate Valid()
      reads this, dh
    {
      && config.group.p > 0 && dh.group == config.group && dh.spriv == config.spriv
      && (layer != null ==> layer.Valid() && layer.cipher == aes)
      && forall k :: k in streams ==> streams[k].id == k && streams[k].peer == this
    }

    /** The buffers that decrypting and encrypting write. */
    ghost function IvArrays(): set<object>
      reads this
    {
      if layer == null then {} else {layer.iv}
    }

    ghost function KeyArrays(): set<object>
      reads this
    {
      if layer == null then {} else {layer.key}
    }

    ghost function View(): PeerState
      requires Valid()
      reads this, dh, KeyArrays()
    {
      PeerState(bits, handler, timer, id, peerSpub, dh.ephemeral, dh.peerKeys,
                if layer == null then None else Some(layer.key[..]), sentEcho, streams.Keys)
    }

    /** Between two calls a peer is in one of the phases of the handshake. */
    ghost predicate Ready()
      reads this, dh, KeyArrays()
    {
      Valid() && PhaseInv(config, View())
    }

    /** A new peer greets the other end at once. */
    constructor (order: ByteOrder, aes: BlockCipher, config: Config, ring: Ring)
      requires config.group.p > 0
      ensures Ready() && this.order == order && this.aes == aes && this.config == config && this.ring == ring
      ensures View() == Start(config).s && wire == SerialiseAll(order, Start(config).sent)
      ensures fresh(dh)
    {
      this.order, this.aes, this.config, this.ring := order, aes, config, ring;
      dh := new DhKeyAgreement(config.group, config.spriv);
      bits, handler, timer := INITIAL, HelloHandler, None;
      id, peerSpub, layer, sentEcho, streams, wire := [], [], null, None, map[], [];
      new;
      dh.SetStaticKeyPairs(config.spriv);
      SendHelloDatagram();
    }

    // ----- transmitting -----

    /** Encrypts the datagram it is given: the caller's object is changed. */
    method SendDatagram(msg: DatagramBox)
      requires Ready()
      modifies this`wire, IvArrays(), msg
      ensures Ready() && View() == old(View())
      ensures SealedOnto(order, aes, View(), old(wire), wire, [old(msg.value)])
    {
      if bits & ESTABLISHED != ESTABLISHED {
        return;
      }
      var random: Block := *;
      ghost var d := msg.value;
      msg.EncryptInPlace(layer, random);
      var bytes := Serialise(order, msg.value);
      wire := wire + [bytes];
      SealOne(order, aes, View(), old(wire), random, d);
    }

    method SendRaw(d: Datagram)
      modifies this`wire
      ensures wire == old(wire) + [Serialise(order, d)]
    {
      var bytes := Serialise(order, d);
      wire := wire + [bytes];
    }

    method SendRawWithRetransmit(d: Datagram)
      modifies this`wire, this`timer
      ensures wire == old(wire) + [Serialise(order, d)] && timer == Some(d)
    {
      timer := None;
      SendRaw(d);
      timer := Some(d);
    }

    /** The timer calls this with the datagram it was armed with. */
    method RetransmitRaw(d: Datagram, aborted: bool)
      modifies this`wire, this`timer
      ensures aborted ==> wire == old(wire) && timer == old(timer)
      ensures !aborted ==> wire == old(wire) + [Serialise(order, d)] && timer == Some(d)
    {
      if !aborted {
        SendRawWithRetransmit(d);
      }
    }

    // ----- the parts of the handlers -----

    /** The peer has done what `r` says, starting from this wire and this ring. */
    ghost predicate Did(r: Reaction, wire0: seq<seq<byte>>, messages0: seq<Notice>)
      reads this, ring, dh, KeyArrays()
    {
      Valid() && View() == r.s && wire == wire0 + SerialiseAll(order, r.sent) && ring.messages == messages0 + r.notices
    }

    method SendHelloDatagram()
      requires Valid()
      modifies this`wire, this`timer, this`bits, this`handler
      ensures Did(SendHello(config, old(View())), old(wire), old(ring.messages))
    {
      SendRawWithRetransmit(CreateHello(config.myId));
      bits := bits | SENT_HELLO;
      handler := HelloHandler;
    }

    method TakeHello(d: Datagram)
      requires Valid()
      modifies this`wire, this`id, this`peerSpub, this`bits
      ensures Did(ReceivedHello(config, old(View()), d), old(wire), old(ring.messages))
    {
      id := d.payload;
      peerSpub := if id in config.trusted then config.trusted[id] else [];
      bits := bits | RECEIVED_HELLO;
      SendRaw(CreateAck(0, 0));
    }

    method SendPublicKeyDatagram(random: nat)
      requires Valid()
      modifies this`wire, this`timer, this`bits, this`handler, dh`ephemeral
      ensures Did(SendPublicKey(config, old(View()), random), old(wire), old(ring.messages))
    {
      hide PublicKeyOf, CreatePublicKey;
      ghost var s := View();
      var sent := bits | SENT_PUBLIC_KEY;
      dh.GenerateEphemeralKeyPairs(random);
      SendRawWithRetransmit(CreatePublicKey(dh.ephemeral.value.pub));
      bits := sent;
      handler := PublicKeyHandler;
      assert View() == s.(ephemeral := dh.ephemeral, timer := timer, bits := sent, handler := PublicKeyHandler);
    }

    method SendEchoDatagram()
      requires Valid()
      modifies this`wire, this`timer, this`bits, this`handler, this`sentEcho
      ensures Did(SendEcho(old(View())), old(wire), old(ring.messages))
    {
      sentEcho := Some(CreateEcho(ECHO_CONTENT));
      SendRawWithRetransmit(CreateEcho(ECHO_CONTENT));
      bits := bits | WAIT_FOR_ECHO;
      handler := EchoHandler;
    }

    /** A cipher with the agreed key; the agreed value is long enough for it. */
    method MakeLayer(shared: seq<byte>) returns (el: Aes128)
      requires |shared| >= BLOCK
      ensures fresh(el) && fresh(el.key) && fresh(el.iv)
      ensures el.Valid() && el.cipher == aes && el.key[..] == FoldKey(shared)
    {
      el := new Aes128(aes);
      var r := el.SetKey(shared);
      assert r.Pass?;
    }

    method ReachAgreement() returns (end: Ending)
      requires Valid()
      modifies this, dh`shared
      ensures end == CompleteKeyExchange(config, old(View())).end
      ensures Did(CompleteKeyExchange(config, old(View())), old(wire), old(ring.messages))
      ensures streams == old(streams)
    {
      hide FoldKey, PublicKeyOf, AgreedValue;
      var r := dh.GenerateSharedKey();
      match r {
        case Fail(MissingKey) => return Threw(NullDereference);
        case Fail(Disagreement) => return Threw(AgreementFailed);
        case Pass =>
          layer := MakeLayer(dh.shared.value);
          bits := bits | SHARED_KEY_AGREEMENT;
          SendEchoDatagram();
          end := Done;
      }
    }

    lemma JoinReactions(r0: Reaction, r: Reaction, wire0: seq<seq<byte>>, messages0: seq<Notice>)
      requires Did(r, wire0 + SerialiseAll(order, r0.sent), messages0 + r0.notices)
      ensures Did(After(r0, r), wire0, messages0)
    {
      SerialiseJoins(order, r0.sent, r.sent);
    }

    lemma NoReaction(end: Ending)
      requires Valid()
      ensures Did(Reaction(View(), [], [], end), wire, ring.messages)
    {
      assert wire + [] == wire && ring.messages + [] == ring.messages;
    }

    // ----- the handlers -----

    method TakeHelloAck()
      requires Valid()
      modifies this`bits, this`timer
      ensures Did(Reaction(old(View()).(bits := old(bits) | RECEIVED_HELLO_ACK, timer := None), [], [], Done),
                  old(wire), old(ring.messages))
    {
      bits := bits | RECEIVED_HELLO_ACK;
      timer := None;
      NoReaction(Done);
    }

    lemma DidMeans(r: Reaction, wire0: seq<seq<byte>>, messages0: seq<Notice>)
      requires Did(r, wire0, messages0)
      ensures Valid() && View() == r.s && bits == r.s.bits
      ensures wire == wire0 + SerialiseAll(order, r.sent) && ring.messages == messages0 + r.notices
    {
    }

    method OnHello(d: Datagram, random: nat)
      requires Valid()
      modifies this`wire, this`timer, this`id, this`peerSpub, this`bits, this`handler, dh`ephemeral
      ensures Did(HandleHello(config, old(View()), d, random), old(wire), old(ring.messages))
    {
      hide SendPublicKey, ReceivedHello, SerialiseAll, After, Did, View;
      ghost var s := View();
      ghost var r0: Reaction;
      if d.kind == HELLO {
        r0 := ReceivedHello(config, s, d);
        TakeHello(d);
      } else if d.kind == ACK {
        FieldsOfView();
        r0 := Reaction(s.(bits := s.bits | RECEIVED_HELLO_ACK, timer := None), [], [], Done);
        TakeHelloAck();
      } else {
        NoReaction(Done);
        return;
      }
      DidMeans(r0, old(wire), old(ring.messages));
      if bits & HELLO_COMPLETE == HELLO_COMPLETE {
        SendPublicKeyDatagram(random);
        JoinReactions(r0, SendPublicKey(config, r0.s, random), old(wire), old(ring.messages));
      }
    }


    /** The other end lost an acknowledgement. */
    method AckAgain()
      requires Valid()
      modifies this`wire
      ensures Did(Reaction(old(View()), [CreateAck(0, 0)], [], Done), old(wire), old(ring.messages))
    {
      SendRaw(CreateAck(0, 0));
    }

    lemma FieldsOfView()
      requires Valid()
      ensures View().bits == bits && View().peerSpub == peerSpub && View().handler == handler && View().id == id
    {
    }

    method TakeInKeyExchange(d: Datagram)
      requires Valid()
      modifies this`wire, this`bits, this`timer, dh`peerKeys
      ensures Did(ReceivedInKeyExchange(old(View()), d), old(wire), old(ring.messages))
    {
      if d.kind == PUBLIC_KEY {
        dh.SetPeerPubKeyPairs(peerSpub, d.payload);
        bits := bits | RECEIVED_PUBLIC_KEY;
        SendRaw(CreateAck(0, 0));
      } else if d.kind == ACK {
        bits := bits | RECEIVED_PUBLIC_KEY_ACK;
        timer := None;
        NoReaction(Done);
      } else if d.kind == HELLO {
        AckAgain();
      } else {
        NoReaction(Done);
      }
    }

    method OnPublicKey(d: Datagram) returns (end: Ending)
      requires Valid()
      modifies this, dh`peerKeys, dh`shared
      ensures Did(HandlePublicKey(config, old(View()), d), old(wire), old(ring.messages))
      ensures end == HandlePublicKey(config, old(View()), d).end
      ensures streams == old(streams)
    {
      hide CompleteKeyExchange, SerialiseAll, Did, View, ReceivedInKeyExchange;
      ghost var r0 := ReceivedInKeyExchange(View(), d);
      TakeInKeyExchange(d);
      DidMeans(r0, old(wire), old(ring.messages));
      KeyExchangeGoesOn(old(View()), d);
      end := Done;
      if bits & PUBLIC_KEY_EXCHANGED == PUBLIC_KEY_EXCHANGED {
        end := ReachAgreement();
        JoinReactions(r0, CompleteKeyExchange(config, r0.s), old(wire), old(ring.messages));
      }
    }

    lemma KeyExchangeGoesOn(s: PeerState, d: Datagram)
      ensures ReceivedInKeyExchange(s, d).end == Done
    {
    }

    /** The echo it is compared with is there whenever one is waited for. */
    method TakeEchoBack(d: Datagram)
      requires Valid()
      requires bits & WAIT_FOR_ECHO != 0 ==> sentEcho.Some?
      modifies this`bits, this`timer
      ensures Did(ReceivedEchoBack(old(View()), d), old(wire), old(ring.messages))
    {
      if bits & WAIT_FOR_ECHO != 0 && d.payload == sentEcho.value.payload {
        StopWaiting();
      } else {
        NoReaction(Done);
      }
    }

    method StopWaiting()
      requires Valid()
      modifies this`bits, this`timer
      ensures Did(Reaction(old(View()).(timer := None, bits := old(bits) & !WAIT_FOR_ECHO), [], [], Done),
                  old(wire), old(ring.messages))
    {
      hide SerialiseAll, PhaseInv, Did;
      ghost var s := View();
      var cleared := bits & !WAIT_FOR_ECHO;
      timer := None;
      bits := cleared;
      assert View() == s.(timer := None, bits := cleared);
      NoReaction(Done);
    }

    lemma EchoBackEnds(s: PeerState, d: Datagram)
      requires s.sentEcho.Some?
      ensures ReceivedEchoBack(s, d).end == Done
    {
    }

    method EchoBack(d: Datagram)
      requires Valid()
      modifies this`wire
      ensures Did(Reaction(old(View()), [CreateEchoBack(d)], [], Done), old(wire), old(ring.messages))
    {
      SendRaw(CreateEchoBack(d));
    }

    method Announce()
      requires Valid() && ring as object != this
      modifies this`handler, ring
      ensures Did(Reaction(old(View()).(handler := EstablishedHandler), [], [NewPeer(old(id))], Done),
                  old(wire), old(ring.messages))
    {
      handler := EstablishedHandler;
      ring.Put(NewPeer(id));
      assert wire + [] == wire;
    }

    method OnEcho(d: Datagram)
      requires Ready() && handler == EchoHandler
      modifies this, ring
      ensures Did(HandleEcho(old(View()), d), old(wire), old(ring.messages))
      ensures streams == old(streams)
    {
      hide SerialiseAll, Did, View, ReceivedEchoBack;
      ghost var s := View();
      ghost var r0: Reaction;
      FieldsOfView();
      EchoIsSent();
      if d.kind == ECHO {
        r0 := Reaction(s, [CreateEchoBack(d)], [], Done);
        EchoBack(d);
      } else if d.kind == ECHO_BACK {
        r0 := ReceivedEchoBack(s, d);
        EchoBackEnds(s, d);
        TakeEchoBack(d);
      } else if d.kind == PUBLIC_KEY {
        r0 := Reaction(s, [CreateAck(0, 0)], [], Done);
        AckAgain();
      } else {
        r0 := Reaction(s, [], [], Done);
        NoReaction(Done);
      }
      DidMeans(r0, old(wire), old(ring.messages));
      FieldsOfView();
      if bits & WAIT_FOR_ECHO == 0 {
        Announce();
        JoinReactions(r0, Reaction(r0.s.(handler := EstablishedHandler), [], [NewPeer(r0.s.id)], Done),
                      old(wire), old(ring.messages));
      }
    }

    lemma EchoIsSent()
      requires Ready() && handler == EchoHandler
      ensures sentEcho.Some? && View().sentEcho.Some?
    {
    }

    method ResetPeer()
      requires Valid()
      modifies this, dh`spriv
      ensures Valid() && View() == Reset(old(View())) && wire == old(wire) && streams == map[]
    {
      bits := INITIAL;
      timer := None;
      dh.SetStaticKeyPairs(config.spriv);
      sentEcho := None;
      layer := null;
      streams := map[];
    }

    /** A hello to an established peer means that the other end has started over. */
    method StartOver(d: Datagram)
      requires Valid()
      modifies this, dh`spriv
      ensures var r := SendHello(config, Reset(old(View())).(bits := RECEIVED_HELLO));
              Did(After(r, ReceivedHello(config, r.s, d)), old(wire), old(ring.messages))
      ensures streams == map[]
    {
      hide SendHello, ReceivedHello, SerialiseAll, Did;
      ghost var s := Reset(View()).(bits := RECEIVED_HELLO);
      ResetPeer();
      bits := RECEIVED_HELLO;
      assert View() == s;
      SendHelloDatagram();
      ghost var r := SendHello(config, s);
      DidMeans(r, old(wire), old(ring.messages));
      TakeHello(d);
      JoinReactions(r, ReceivedHello(config, r.s, d), old(wire), old(ring.messages));
    }

    /** The stream for a datagram, created and announced if there is none. */
    method StreamFor(streamId: u32) returns (st: Stream)
      requires Valid()
      modifies this`streams, ring
      ensures Valid() && View() == old(View()).(streams := old(streams).Keys + {streamId})
      ensures streamId in streams && st == streams[streamId]
      ensures streamId in old(streams) ==> streams == old(streams) && ring.messages == old(ring.messages)
      ensures streamId !in old(streams) ==>
                && streams == old(streams)[streamId := st] && fresh(st) && st.View() == Fresh(streamId)
                && ring.messages == old(ring.messages) + [NewStream(streamId)]
    {
      if streamId !in streams {
        var created := new Stream(this, streamId);
        streams := streams[streamId := created];
        ring.Put(NewStream(streamId));
        assert streams.Keys == old(streams).Keys + {streamId};
      } else {
        assert streams.Keys == old(streams).Keys + {streamId};
      }
      st := streams[streamId];
    }

    /** Where a decrypted datagram went: to the stream with its id, which did what `Feed` says;
        what the stream transmitted has been sealed, and what it delivered is in the ring. */
    ghost predicate Fed(st: Stream, s0: StreamState, plain: Datagram, wire0: seq<seq<byte>>, messages0: seq<Notice>)
      requires Valid()
      reads this, ring, dh, KeyArrays(), st, st.sendQueue.Values, st.recvQueue.Values
    {
      var f := Feed(s0, plain);
      && st.View() == f.state
      && SealedOnto(order, aes, View(), wire0, wire, f.sent)
      && ring.messages == messages0 + Deliveries(plain.id, f.delivered)
    }

    lemma PhaseIgnoresStreams(s: PeerState, ids: set<u32>)
      requires PhaseInv(config, s)
      ensures PhaseInv(config, s.(streams := ids))
    {
    }

    /** What the stream with this id would report before a datagram reaches it. */
    ghost function StreamState0(streamId: u32): StreamState
      reads *
    {
      if streamId in streams then streams[streamId].View() else Fresh(streamId)
    }

    /** Hand a decrypted datagram to its stream; the other streams are left as they are. */
    method Route(box: DatagramBox)
      requires Ready()
      modifies this`streams, this`wire, ring, IvArrays(), streams.Values
      ensures var plain := old(box.value);
              && Valid() && View() == old(View()).(streams := old(streams).Keys + {plain.id})
              && streams.Keys == old(streams).Keys + {plain.id}
              && Fed(streams[plain.id], old(StreamState0(box.value.id)), plain, old(wire),
                     old(ring.messages) + if plain.id in old(streams) then [] else [NewStream(plain.id)])
              && forall k :: k in old(streams) ==> streams[k] == old(streams)[k]
      ensures forall st :: st in old(streams.Values) && st.id != old(box.value.id) ==> unchanged(st)
    {
      hide PhaseInv, SealedOnto, Deliveries, Feed, Fed, Stream.View;
      var streamId := box.value.id;
      PhaseIgnoresStreams(View(), streams.Keys + {streamId});
      assert ring.messages + [] == ring.messages;
      var st := StreamFor(streamId);
      FeedStream(st, box);
    }

    method FeedStream(st: Stream, box: DatagramBox)
      requires Ready() && st.peer == this && st.id == box.value.id
      modifies st, this`wire, ring, IvArrays()
      ensures Valid() && View() == old(View())
      ensures Fed(st, old(st.View()), old(box.value), old(wire), old(ring.messages))
    {
      hide PhaseInv, SealedOnto, Deliveries, Feed;
      st.FeedDatagram(box);
    }

    /** Everything a datagram can do to this peer: its own reaction, or that of one of its streams. */
    twostate predicate Handled(d: Datagram, random: nat, end: Ending)
      requires old(Valid())
      reads *
    {
      var r := Handle(aes, config, old(View()), d, random);
      && Valid() && end == r.end && View() == r.s
      && match r.end
         case Dispatch(plain) =>
           && plain.id in streams
           && Fed(streams[plain.id], old(StreamState0(plain.id)), plain, old(wire), old(ring.messages) + r.notices)
         case _ => Did(r, old(wire), old(ring.messages))
    }

    /** Every stream that was there and still is, except the one that a datagram was for, is the same
        object in the same state. */
    twostate predicate OthersStand(end: Ending)
      reads *
    {
      forall k :: k in streams && k in old(streams) && !(end.Dispatch? && end.d.id == k) ==>
        streams[k] == old(streams)[k] && unchanged(streams[k])
    }

    method OnEstablished(box: DatagramBox, random: nat) returns (end: Ending)
      requires Ready() && handler == EstablishedHandler
      requires forall st :: st in streams.Values ==> box !in st.sendQueue.Values && box !in st.recvQueue.Values
      modifies this, ring, dh, box, IvArrays(), streams.Values
      ensures Handled(old(box.value), random, end) && OthersStand(end)
    {
      hide PhaseInv, SealedOnto, Deliveries, Feed, Fed, SendHello, SerialiseAll;
      EstablishedMeans();
      var d := box.value;
      if d.kind == HELLO {
        StartOver(d);
        end := Done;
      } else if d.kind == ECHO {
        EchoBack(d);
        end := Done;
      } else if d.kind == ECHO_BACK {
        TakeEchoBack(d);
        end := Done;
      } else if d.kind == ABORT {
        NoReaction(RemovePeer);
        end := RemovePeer;
      } else {
        end := OpenAndRoute(box, random);
      }
    }

    /** Everything else is for a stream: decrypted first, then routed to it. */
    method OpenAndRoute(box: DatagramBox, random: nat) returns (end: Ending)
      requires Ready() && handler == EstablishedHandler && layer != null
      requires box.value.kind != HELLO && box.value.kind != ECHO
      requires box.value.kind != ECHO_BACK && box.value.kind != ABORT
      requires forall st :: st in streams.Values ==> box !in st.sendQueue.Values && box !in st.recvQueue.Values
      modifies this, ring, dh, box, IvArrays(), streams.Values
      ensures Handled(old(box.value), random, end) && OthersStand(end)
    {
      hide PhaseInv, SealedOnto, Deliveries, Feed, Fed, SerialiseAll, Handle, DecryptPayload;
      EstablishedMeans();
      OpenedReaction(View(), box.value, random);
      var r := box.DecryptInPlace(layer);
      if r.Fail? {
        NoReaction(Threw(InvalidPayload));
        end := Threw(InvalidPayload);
      } else {
        end := Dispatch(box.value);
        Route(box);
      }
    }

    /** What the last handler makes of such a datagram. */
    lemma OpenedReaction(s: PeerState, d: Datagram, random: nat)
      requires config.group.p > 0
      requires s.handler == EstablishedHandler && Has(s.bits, ESTABLISHED) && s.layer.Some?
      requires d.kind != HELLO && d.kind != ECHO && d.kind != ECHO_BACK && d.kind != ABORT
      ensures Handle(aes, config, s, d, random) ==
              match DecryptPayload(aes, s.layer.value, d)
              case Failure(_) => Reaction(s, [], [], Threw(InvalidPayload))
              case Success(plain) =>
                Reaction(s.(streams := s.streams + {plain.id}), [],
                         if plain.id in s.streams then [] else [NewStream(plain.id)], Dispatch(plain))
    {
      hide DecryptPayload;
    }

    lemma HandlerOfView()
      requires Valid()
      ensures View().handler == handler
    {
    }

    /** Outside the established phase no datagram reaches a stream. */
    lemma HandlersEnd(s: PeerState, d: Datagram, random: nat)
      requires config.group.p > 0 && PhaseInv(config, s)
      ensures HandleHello(config, s, d, random).end == Done
      ensures s.handler == EchoHandler ==> HandleEcho(s, d).end == Done
      ensures !HandlePublicKey(config, s, d).end.Dispatch?
    {
      hide PublicKeyOf, FoldKey, Agree;
    }

    lemma EstablishedMeans()
      requires Ready() && handler == EstablishedHandler
      ensures layer != null && Has(bits, ESTABLISHED) && bits & WAIT_FOR_ECHO == 0
      ensures View().bits == bits && View().layer == Some(layer.key[..]) && View().handler == handler
    {
    }

    /** `feed`: parse, then call the handler the peer is bound to. A string too short to parse
        raises an exception and changes nothing. */
    method FeedBytes(bytes: seq<byte>, random: nat) returns (end: Ending)
      requires Ready()
      modifies this, ring, dh, IvArrays(), streams.Values
      ensures Ready() && OthersStand(end)
      ensures match Parse(order, bytes)
              case Failure(_) =>
                end == Threw(Error.IoError) && View() == old(View())
                && wire == old(wire) && ring.messages == old(ring.messages)
              case Success(d) => Handled(d, random, end)
    {
      hide PhaseInv, SealedOnto, Deliveries, Feed, Fed, Did, Handle, Parse;
      var parsed := Parse(order, bytes);
      if parsed.Failure? {
        return Threw(Error.IoError);
      }
      ghost var s := View();
      HandleKeeps(aes, config, s, parsed.value, random);
      end := CallHandler(parsed.value, random);
    }

    method CallHandler(d: Datagram, random: nat) returns (end: Ending)
      requires Ready()
      modifies this, ring, dh, IvArrays(), streams.Values
      ensures Handled(d, random, end) && OthersStand(end)
    {
      hide PhaseInv, SealedOnto, Deliveries, Feed, Fed;
      hide SerialiseAll, HandleHello, HandlePublicKey, HandleEcho, HandleEstablished;
      HandlerOfView();
      HandlersEnd(View(), d, random);
      end := Done;
      match handler {
        case HelloHandler => OnHello(d, random);
        case PublicKeyHandler => end := OnPublicKey(d);
        case EchoHandler => OnEcho(d);
        case EstablishedHandler =>
          var box := new DatagramBox(d);
          end := OnEstablished(box, random);
      }
    }
  }
}
