/** Two whole peers over one network of byte strings: the handshake in the clear and the sealed
    datagrams of all their streams on the same wire. */
module TransportRun {
  import opened Bytes
  import opened Wrappers
  import opened Cfb
  import opened Datagrams
  import opened KeyAgreement
  import opened HandshakeSpec
  import opened StreamSpec
  import H = HandshakeRun
  import S = StreamRun

  /** What both ends are built with. */
  datatype Setting = Setting(order: ByteOrder, aes: BlockCipher)

  /** A peer, its streams with their histories, and every byte string it has handed to its socket. A
      stream that does not exist yet is one to which nothing has happened. */
  datatype Side = Side(peer: PeerState, ends: map<u32, S.End>, wire: set<seq<byte>>)

  datatype Pair = Pair(a: Side, b: Side)

  datatype Event =
    | Writes(id: u32, data: seq<byte>)
    | StreamTimer(id: u32)
    | PeerTimer
    | Receives(bytes: seq<byte>, priv: nat)

  function EndOf(x: Side, id: u32): S.End {
    if id in x.ends then x.ends[id] else S.End(Fresh(id), {}, [], [], 0)
  }

  // ---------- steps ----------

  /** The peer seals what its streams hand to it, once it has agreed on a key, and drops it before. */
  ghost function Sealed(t: Setting, s: PeerState, ds: seq<Datagram>, ivs: seq<Block>): set<seq<byte>>
    requires |ivs| == |ds|
  {
    if Has(s.bits, ESTABLISHED) && s.layer.Some?
    then set i | 0 <= i < |ds| :: Seal(t.order, t.aes, s.layer.value, ivs[i], ds[i])
    else {}
  }

  /** A stream of this side takes a step, and its peer sends what the stream wants to. */
  ghost predicate StreamActs(t: Setting, x: Side, id: u32, e: S.Event, x': Side) {
    var sent := S.EffectOf(EndOf(x, id).s, e).sent;
    exists ivs: seq<Block> ::
      |ivs| == |sent| && x' == Side(x.peer, x.ends[id := S.Act(EndOf(x, id), e)], x.wire + Sealed(t, x.peer, sent, ivs))
  }

  /** The peer's own part in receiving a datagram. */
  ghost function PeerActs(t: Setting, c: Config, x: Side, d: Datagram, priv: nat): Side
    requires c.group.p > 0
  {
    var r := Handle(t.aes, c, x.peer, d, priv);
    Side(r.s, x.ends, x.wire + (set y | y in r.sent :: Serialise(t.order, y)))
  }

  /** `feed` on whatever the network delivers. An established peer that receives a hello starts over;
      these runs stop before that. */
  ghost predicate Feeds(t: Setting, c: Config, x: Side, bytes: seq<byte>, priv: nat, x': Side)
    requires c.group.p > 0
  {
    match Parse(t.order, bytes)
    case Failure(_) => x' == x
    case Success(d) =>
      && !(x.peer.handler == EstablishedHandler && d.kind == HELLO)
      && match Handle(t.aes, c, x.peer, d, priv).end
         case Dispatch(plain) => StreamActs(t, PeerActs(t, c, x, d, priv), plain.id, S.Receive(plain), x')
         case _ => x' == PeerActs(t, c, x, d, priv)
  }

  ghost predicate SideNext(t: Setting, c: Config, x: Side, inbound: set<seq<byte>>, e: Event, x': Side)
    requires c.group.p > 0
  {
    match e
    case Writes(id, data) =>
      S.Enabled(EndOf(x, id), {}, S.Write(data)) && StreamActs(t, x, id, S.Write(data), x')
    case StreamTimer(id) =>
      S.Enabled(EndOf(x, id), {}, S.Timeout) && StreamActs(t, x, id, S.Timeout, x')
    case PeerTimer =>
      x.peer.timer.Some? && x' == x.(wire := x.wire + {Serialise(t.order, x.peer.timer.value)})
    case Receives(bytes, priv) =>
      bytes in inbound && Feeds(t, c, x, bytes, priv, x')
  }

  ghost function StartSide(t: Setting, c: Config): Side {
    Side(Start(c).s, map[], set d | d in Start(c).sent :: Serialise(t.order, d))
  }

  ghost predicate PairNext(t: Setting, ca: Config, cb: Config, p: Pair, p': Pair)
    requires ca.group.p > 0 && cb.group.p > 0
  {
    || (p'.b == p.b && exists e :: SideNext(t, ca, p.a, p.b.wire, e, p'.a))
    || (p'.a == p.a && exists e :: SideNext(t, cb, p.b, p.a.wire, e, p'.b))
  }

  ghost predicate IsRun(t: Setting, ca: Config, cb: Config, run: seq<Pair>)
    requires ca.group.p > 0 && cb.group.p > 0
  {
    && |run| > 0
    && run[0] == Pair(StartSide(t, ca), StartSide(t, cb))
    && forall i :: 0 <= i < |run| - 1 ==> PairNext(t, ca, cb, run[i], run[i + 1])
  }

  // ---------- the invariant ----------

  /** The datagrams that the byte strings parse to, sealed payloads unopened. */
  ghost function Read(t: Setting, wire: set<seq<byte>>): set<Datagram> {
    set b | b in wire && Parse(t.order, b).Success? :: Parse(t.order, b).value
  }

  ghost function NodeOf(t: Setting, x: Side): H.Node {
    H.Node(x.peer, Read(t, x.wire))
  }

  /** Streams act only on data, its acknowledgements, and aborts. */
  predicate ForStreams(kind: byte) {
    kind == DATA || kind == DATA_ACK || kind == ABORT
  }

  /** A byte string on the wire is part of the handshake, and then names no stream, or a datagram of one
      of the streams under the key of the side that sent it. */
  ghost predicate Told(t: Setting, x: Side, bytes: seq<byte>) {
    && Parse(t.order, bytes).Success?
    && var d := Parse(t.order, bytes).value;
       if ForStreams(d.kind) then SealedFor(t, x, bytes) else d.id == 0
  }

  ghost predicate SealedFor(t: Setting, x: Side, bytes: seq<byte>) {
    x.peer.layer.Some? &&
    exists d, iv :: bytes == Seal(t.order, t.aes, x.peer.layer.value, iv, d) && d in EndOf(x, d.id).out
  }

  ghost predicate AllTold(t: Setting, x: Side) {
    forall bytes :: bytes in x.wire ==> Told(t, x, bytes)
  }

  /** All that a stream holds and has sent bears its id. */
  ghost predicate Named(x: S.End, id: u32) {
    && x.s.id == id
    && QueueNamed(x.s.sendQueue, id)
    && (forall d :: d in x.out ==> d.id == id)
  }

  ghost predicate AllNamed(x: Side) {
    forall id: u32 :: Named(EndOf(x, id), id)
  }

  ghost predicate StreamsInv(x: Side, y: Side) {
    forall id: u32 :: S.Inv(S.Net(EndOf(x, id), EndOf(y, id)))
  }

  /** What the handshake has come to, on both sides. */
  ghost predicate PeersInv(t: Setting, ca: Config, cb: Config, x: Side, y: Side)
    requires ca.group.p > 0 && cb.group.p > 0
  {
    H.PairInv(ca, cb, H.Pair(NodeOf(t, x), NodeOf(t, y)))
  }

  ghost predicate Joint(t: Setting, ca: Config, cb: Config, x: Side, y: Side)
    requires ca.group.p > 0 && cb.group.p > 0
  {
    && PeersInv(t, ca, cb, x, y) && StreamsInv(x, y)
    && AllTold(t, x) && AllTold(t, y) && AllNamed(x) && AllNamed(y)
  }

  lemma JointSwaps(t: Setting, ca: Config, cb: Config, x: Side, y: Side)
    requires ca.group.p > 0 && cb.group.p > 0 && Joint(t, ca, cb, x, y)
    ensures Joint(t, cb, ca, y, x)
  {
    hide AllTold, AllNamed, NodeOf, H.NodeInv, H.KnowInv;
    forall id: u32
      ensures S.Inv(S.Net(EndOf(y, id), EndOf(x, id)))
    {
      InvSwaps(EndOf(x, id), EndOf(y, id));
    }
  }

  lemma InvSwaps(x: S.End, y: S.End)
    requires S.Inv(S.Net(x, y))
    ensures S.Inv(S.Net(y, x))
  {
    hide S.Half;
  }

  // ---------- a stream takes a step ----------

  ghost predicate QueueNamed(q: Queue, id: u32) {
    forall k :: k in q ==> q[k].id == id
  }

  lemma EnqueueNamed(q: Queue, id: u32, base: nat, data: seq<byte>, from: nat)
    requires from <= |data| && QueueNamed(q, id)
    ensures QueueNamed(Enqueue(q, id, base, data, from), id)
    decreases |data| - from
  {
    if from < |data| {
      var d := SegmentAt(id, base, data, from);
      EnqueueNamed(InsertIfAbsent(q, d), id, base, data, from + d.length);
    }
  }

  lemma SendOneNamed(s: StreamState, id: u32)
    requires s.id == id && QueueNamed(s.sendQueue, id)
    ensures var f := SendOne(s);
            f.state.id == id && QueueNamed(f.state.sendQueue, id) && forall d :: d in f.sent ==> d.id == id
  {
  }

  lemma EffectNamed(s: StreamState, id: u32, e: S.Event)
    requires s.id == id && QueueNamed(s.sendQueue, id)
    ensures var f := S.EffectOf(s, e);
            f.state.id == id && QueueNamed(f.state.sendQueue, id) && forall d :: d in f.sent ==> d.id == id
  {
    hide QueueNamed, SendOne, AtHead, Drain;
    match e
    case Write(data) =>
      EnqueueNamed(s.sendQueue, id, SendBase(s), data, 0);
      SendOneNamed(s.(sendQueue := Enqueue(s.sendQueue, s.id, SendBase(s), data, 0)), id);
    case Timeout =>
      SendOneNamed(s, id);
    case Receive(d) =>
      if d.kind == DATA_ACK {
        SendOneNamed(s.(sendOffset := d.offset), id);
      }
  }

  lemma ActNamed(x: S.End, id: u32, e: S.Event)
    requires Named(x, id)
    ensures Named(S.Act(x, e), id)
    ensures forall d :: d in S.EffectOf(x.s, e).sent ==> d.id == id && d in S.Act(x, e).out
    ensures x.out <= S.Act(x, e).out
  {
    hide S.EffectOf, QueueNamed;
    EffectNamed(x.s, id, e);
  }

  /** Streams hand only data and acknowledgements to their peer. */
  lemma StreamKinds(x: S.End, y: S.End)
    requires S.Inv(S.Net(x, y))
    ensures forall d :: d in x.out ==> d.kind == DATA || d.kind == DATA_ACK
  {
    var t, u :| S.Half(x, y, t) && S.Half(y, x, u);
    forall d | d in x.out
      ensures d.kind == DATA || d.kind == DATA_ACK
    {
      if S.UpTo(t.segs, d, t.r) {
        var i :| 0 <= i <= t.r && i < |t.segs| && t.segs[i] == d;
        assert S.IsSegment(t.segs, x.written, i);
      }
    }
  }

  /** What is sealed parses to a datagram of the same kind. */
  lemma SealedKind(t: Setting, key: Block, iv: Block, d: Datagram)
    ensures var r := Parse(t.order, Seal(t.order, t.aes, key, iv, d)); r.Success? && r.value.kind == d.kind
  {
    SerialiseThenParse(t.order, EncryptPayload(t.aes, key, iv, d));
  }

  /** The other streams are not touched. */
  lemma ActStreams(t: Setting, x: Side, y: Side, id: u32, e: S.Event, x': Side)
    requires StreamsInv(x, y) && AllNamed(x) && StreamActs(t, x, id, e, x')
    requires S.Enabled(EndOf(x, id), EndOf(y, id).out, e)
    ensures StreamsInv(x', y) && AllNamed(x')
  {
    hide S.Inv, S.Act, Named, S.EffectOf, S.Enabled, Sealed;
    var net, net' := S.Net(EndOf(x, id), EndOf(y, id)), S.Net(S.Act(EndOf(x, id), e), EndOf(y, id));
    assert S.Next(net, net');
    S.NextKeeps(net, net');
    ActNamed(EndOf(x, id), id, e);
  }

  /** What a stream sends is put on the wire under the key of its side. */
  lemma ActTold(t: Setting, x: Side, y: Side, id: u32, e: S.Event, x': Side)
    requires AllTold(t, x) && AllNamed(x) && StreamActs(t, x, id, e, x') && StreamsInv(x', y)
    ensures AllTold(t, x')
  {
    hide S.Act, S.EffectOf, S.Inv, Named, Seal;
    var sent := S.EffectOf(EndOf(x, id).s, e).sent;
    var ivs: seq<Block> :| |ivs| == |sent|
      && x' == Side(x.peer, x.ends[id := S.Act(EndOf(x, id), e)], x.wire + Sealed(t, x.peer, sent, ivs));
    ActNamed(EndOf(x, id), id, e);
    StreamKinds(EndOf(x', id), EndOf(y, id));
    forall bytes | bytes in x'.wire
      ensures Told(t, x', bytes)
    {
      if bytes in x.wire {
        ToldStays(t, x, x', bytes);
      } else {
        var i :| 0 <= i < |sent| && bytes == Seal(t.order, t.aes, x.peer.layer.value, ivs[i], sent[i]);
        SealedKind(t, x.peer.layer.value, ivs[i], sent[i]);
        assert sent[i] in EndOf(x', sent[i].id).out;
      }
    }
  }

  lemma ToldStays(t: Setting, x: Side, x': Side, bytes: seq<byte>)
    requires Told(t, x, bytes) && forall id: u32 :: EndOf(x, id).out <= EndOf(x', id).out
    requires x.peer.layer.Some? ==> x'.peer.layer == x.peer.layer
    ensures Told(t, x', bytes)
  {
    hide Seal;
    if SealedFor(t, x, bytes) {
      var d, iv: Block :| bytes == Seal(t.order, t.aes, x.peer.layer.value, iv, d) && d in EndOf(x, d.id).out;
      assert d in EndOf(x', d.id).out;
    }
  }

  /** Of what the peers know nothing changes: data on the wire tells nothing. */
  lemma ActPeers(t: Setting, ca: Config, cb: Config, x: Side, y: Side, id: u32, e: S.Event, x': Side)
    requires ca.group.p > 0 && cb.group.p > 0
    requires PeersInv(t, ca, cb, x, y) && StreamsInv(x', y) && StreamActs(t, x, id, e, x') && AllNamed(x)
    ensures PeersInv(t, ca, cb, x', y)
  {
    hide S.Act, S.EffectOf, Named, Seal, S.Inv, H.KnowInv, PhaseInv, PublicKeyOf;
    var sent := S.EffectOf(EndOf(x, id).s, e).sent;
    var ivs: seq<Block> :| |ivs| == |sent|
      && x' == Side(x.peer, x.ends[id := S.Act(EndOf(x, id), e)], x.wire + Sealed(t, x.peer, sent, ivs));
    ActNamed(EndOf(x, id), id, e);
    StreamKinds(EndOf(x', id), EndOf(y, id));
    forall d | d in NodeOf(t, x').out
      ensures H.Truthful(ca, x.peer, d)
    {
      var bytes :| bytes in x'.wire && Parse(t.order, bytes).Success? && Parse(t.order, bytes).value == d;
      if bytes in x.wire {
        assert d in NodeOf(t, x).out;
      } else {
        var i :| 0 <= i < |sent| && bytes == Seal(t.order, t.aes, x.peer.layer.value, ivs[i], sent[i]);
        SealedKind(t, x.peer.layer.value, ivs[i], sent[i]);
      }
    }
  }

  lemma ActKeeps(t: Setting, ca: Config, cb: Config, x: Side, y: Side, id: u32, e: S.Event, x': Side)
    requires ca.group.p > 0 && cb.group.p > 0
    requires Joint(t, ca, cb, x, y) && StreamActs(t, x, id, e, x') && S.Enabled(EndOf(x, id), EndOf(y, id).out, e)
    ensures Joint(t, ca, cb, x', y)
  {
    hide PeersInv, StreamsInv, AllTold, AllNamed, StreamActs, S.Enabled;
    ActStreams(t, x, y, id, e, x');
    ActTold(t, x, y, id, e, x');
    ActPeers(t, ca, cb, x, y, id, e, x');
  }

  // ---------- the peer takes a step ----------

  /** A datagram of the handshake. */
  predicate OfHandshake(d: Datagram) {
    !ForStreams(d.kind) && d.id == 0
  }

  ghost predicate AllOfHandshake(ds: seq<Datagram>) {
    forall d :: d in ds ==> OfHandshake(d)
  }

  /** What a peer sends for itself is part of the handshake; an answer to an echo keeps its id. */
  lemma HandleKinds(t: Setting, c: Config, s: PeerState, d: Datagram, priv: nat)
    requires c.group.p > 0 && (d.kind == ECHO ==> d.id == 0)
    ensures AllOfHandshake(Handle(t.aes, c, s, d, priv).sent)
  {
    hide HandleHello, HandlePublicKey, HandleEcho, HandleEstablished, AllOfHandshake;
    HelloKinds(c, s, d, priv);
    PublicKeyKinds(c, s, d);
    EchoKinds(s, d);
    EstablishedKinds(t, c, s, d);
  }

  lemma HelloKinds(c: Config, s: PeerState, d: Datagram, priv: nat)
    requires c.group.p > 0
    ensures AllOfHandshake(HandleHello(c, s, d, priv).sent)
  {
    hide PublicKeyOf, Has, LookUp;
  }

  lemma PublicKeyKinds(c: Config, s: PeerState, d: Datagram)
    requires c.group.p > 0
    ensures AllOfHandshake(HandlePublicKey(c, s, d).sent)
  {
    hide FoldKey, Agree, Has;
  }

  lemma EchoKinds(s: PeerState, d: Datagram)
    requires d.kind == ECHO ==> d.id == 0
    ensures AllOfHandshake(HandleEcho(s, d).sent)
  {
  }

  lemma EstablishedKinds(t: Setting, c: Config, s: PeerState, d: Datagram)
    requires d.kind == ECHO ==> d.id == 0
    ensures AllOfHandshake(HandleEstablished(t.aes, c, s, d).sent)
  {
    hide DecryptPayload, Has, LookUp;
  }

  /** A key stays until a reset. */
  lemma LayerStays(t: Setting, c: Config, s: PeerState, d: Datagram, priv: nat)
    requires c.group.p > 0 && PhaseInv(c, s) && s.layer.Some? && !(s.handler == EstablishedHandler && d.kind == HELLO)
    ensures Handle(t.aes, c, s, d, priv).s.layer == s.layer
  {
    hide PublicKeyOf, FoldKey, Agree, DecryptPayload, Has;
  }

  lemma ReadBack(t: Setting, wire: set<seq<byte>>, ds: seq<Datagram>)
    ensures Read(t, wire + (set d | d in ds :: Serialise(t.order, d))) == Read(t, wire) + (set d | d in ds)
  {
    hide Serialise, Parse;
    var more := set d | d in ds :: Serialise(t.order, d);
    forall d | d in ds
      ensures Parse(t.order, Serialise(t.order, d)) == Success(d)
    {
      SerialiseThenParse(t.order, d);
    }
    forall d | d in ds
      ensures d in Read(t, wire + more)
    {
      assert Serialise(t.order, d) in wire + more;
    }
  }

  lemma PeerIsNode(t: Setting, c: Config, x: Side, d: Datagram, priv: nat)
    requires c.group.p > 0
    ensures NodeOf(t, PeerActs(t, c, x, d, priv)) == H.NodeAct(t.aes, c, NodeOf(t, x), H.Gets(d, priv))
  {
    hide Handle, Read, Serialise;
    ReadBack(t, x.wire, Handle(t.aes, c, x.peer, d, priv).sent);
  }

  /** The handshake's part in receiving a datagram keeps everything. */
  lemma PeerActKeeps(t: Setting, ca: Config, cb: Config, x: Side, y: Side, d: Datagram, priv: nat)
    requires ca.group.p > 0 && cb.group.p > 0 && Joint(t, ca, cb, x, y)
    requires d in Read(t, y.wire) && !(x.peer.handler == EstablishedHandler && d.kind == HELLO)
    ensures Joint(t, ca, cb, PeerActs(t, ca, x, d, priv), y)
  {
    hide Handle, Read, Serialise, Parse, StreamsInv, AllNamed, H.NodeInv, H.KnowInv, PhaseInv, Told;
    var x' := PeerActs(t, ca, x, d, priv);
    PeerIsNode(t, ca, x, d, priv);
    H.ActKeepsKnowledge(t.aes, ca, cb, NodeOf(t, x), NodeOf(t, y), H.Gets(d, priv));
    SameEnds(x, x', y);
    InPhase(t, ca, cb, x, y);
    EchoesUnnamed(t, y, d);
    HandleKinds(t, ca, x.peer, d, priv);
    if x.peer.layer.Some? {
      LayerStays(t, ca, x.peer, d, priv);
    }
    forall bytes | bytes in x'.wire
      ensures Told(t, x', bytes)
    {
      if bytes in x.wire {
        ToldStays(t, x, x', bytes);
      } else {
        var z :| z in Handle(t.aes, ca, x.peer, d, priv).sent && bytes == Serialise(t.order, z);
        PlainTold(t, x', z);
      }
    }
  }

  lemma EchoesUnnamed(t: Setting, x: Side, d: Datagram)
    requires AllTold(t, x) && d in Read(t, x.wire)
    ensures d.kind == ECHO ==> d.id == 0
  {
    hide Parse, SealedFor;
    var bytes :| bytes in x.wire && Parse(t.order, bytes).Success? && Parse(t.order, bytes).value == d;
    assert Told(t, x, bytes);
  }

  lemma PlainTold(t: Setting, x: Side, d: Datagram)
    requires OfHandshake(d)
    ensures Told(t, x, Serialise(t.order, d))
  {
    hide Serialise, Parse, SealedFor;
    SerialiseThenParse(t.order, d);
  }

  lemma SameEnds(x: Side, x': Side, y: Side)
    requires x'.ends == x.ends
    ensures StreamsInv(x, y) ==> StreamsInv(x', y)
    ensures AllNamed(x) ==> AllNamed(x')
    ensures forall id: u32 :: EndOf(x', id) == EndOf(x, id)
  {
    hide S.Inv, Named;
    assert forall id: u32 :: EndOf(x', id) == EndOf(x, id);
  }

  lemma InPhase(t: Setting, ca: Config, cb: Config, x: Side, y: Side)
    requires ca.group.p > 0 && cb.group.p > 0 && PeersInv(t, ca, cb, x, y)
    ensures PhaseInv(ca, x.peer) && PhaseInv(cb, y.peer)
  {
    hide PhaseInv, H.KnowInv;
  }

  lemma ArmedKind(c: Config, s: PeerState)
    requires PhaseInv(c, s) && s.timer.Some?
    ensures OfHandshake(s.timer.value)
  {
  }

  lemma PeerTimerKeeps(t: Setting, ca: Config, cb: Config, x: Side, y: Side)
    requires ca.group.p > 0 && cb.group.p > 0 && Joint(t, ca, cb, x, y) && x.peer.timer.Some?
    ensures Joint(t, ca, cb, x.(wire := x.wire + {Serialise(t.order, x.peer.timer.value)}), y)
  {
    hide Handle, Read, Serialise, Parse, StreamsInv, AllNamed, H.NodeInv, H.KnowInv, PhaseInv, Told;
    var d := x.peer.timer.value;
    var x' := x.(wire := x.wire + {Serialise(t.order, d)});
    ReadBack(t, x.wire, [d]);
    assert (set z | z in [d] :: Serialise(t.order, z)) == {Serialise(t.order, d)};
    assert (set z | z in [d]) == {d};
    H.ActKeepsKnowledge(t.aes, ca, cb, NodeOf(t, x), NodeOf(t, y), H.Fires);
    SameEnds(x, x', y);
    InPhase(t, ca, cb, x, y);
    ArmedKind(ca, x.peer);
    forall bytes | bytes in x'.wire
      ensures Told(t, x', bytes)
    {
      if bytes in x.wire {
        ToldStays(t, x, x', bytes);
      } else {
        PlainTold(t, x', d);
      }
    }
  }

  // ---------- a datagram reaches a stream ----------

  /** Two keys of one handshake are equal. */
  lemma KeysEqual(t: Setting, ca: Config, cb: Config, x: Side, y: Side)
    requires H.Knows(ca, cb) && H.Knows(cb, ca)
    requires ca.group.p > 0 && cb.group.p > 0 && PeersInv(t, ca, cb, x, y)
    requires x.peer.layer.Some? && y.peer.layer.Some?
    ensures x.peer.layer == y.peer.layer
  {
    hide PublicKeyOf, FoldKey, AgreedValue, PhaseInv, H.Truthful, GoodGroup;
    var a, b := x.peer, y.peer;
    AgreedValuesEqual(ca.group, ca.spriv, a.ephemeral.value.priv, cb.spriv, b.ephemeral.value.priv);
  }

  /** What a peer dispatches to a stream is what the stream of the same id at the other end has sent, or
      nothing that a stream acts on. */
  lemma DispatchedIsSent(t: Setting, ca: Config, cb: Config, x: Side, y: Side, bytes: seq<byte>, d: Datagram,
                         priv: nat, plain: Datagram)
    requires H.Knows(ca, cb) && H.Knows(cb, ca)
    requires ca.group.p > 0 && cb.group.p > 0 && Joint(t, ca, cb, x, y)
    requires bytes in y.wire && Parse(t.order, bytes) == Success(d)
    requires Handle(t.aes, ca, x.peer, d, priv).end == Dispatch(plain)
    ensures ForStreams(plain.kind) ==> plain in EndOf(y, plain.id).out
  {
    hide H.KnowInv, H.NodeInv, StreamsInv, AllNamed, Seal, Parse, DecryptPayload;
    DispatchMeans(t, ca, x.peer, d, priv);
    OpenedKind(t, x.peer.layer.value, d);
    if ForStreams(plain.kind) {
      assert Told(t, y, bytes);
      var e, iv: Block :| bytes == Seal(t.order, t.aes, y.peer.layer.value, iv, e) && e in EndOf(y, e.id).out;
      KeysEqual(t, ca, cb, x, y);
      SealThenOpen(t.order, t.aes, y.peer.layer.value, iv, e);
      assert Open(t.order, t.aes, y.peer.layer.value, bytes) == Some(plain);
    }
  }

  lemma DispatchMeans(t: Setting, c: Config, s: PeerState, d: Datagram, priv: nat)
    requires c.group.p > 0 && Handle(t.aes, c, s, d, priv).end.Dispatch?
    ensures s.layer.Some?
    ensures DecryptPayload(t.aes, s.layer.value, d) == Success(Handle(t.aes, c, s, d, priv).end.d)
  {
    hide PublicKeyOf, FoldKey, Agree, DecryptPayload;
  }

  lemma OpenedKind(t: Setting, key: Block, d: Datagram)
    ensures var r := DecryptPayload(t.aes, key, d); r.Success? ==> r.value.kind == d.kind && r.value.id == d.id
  {
  }

  /** A datagram that streams do not act on leaves every stream as it was. */
  lemma IgnoredKeeps(t: Setting, ca: Config, cb: Config, x: Side, y: Side, plain: Datagram, x': Side)
    requires ca.group.p > 0 && cb.group.p > 0 && Joint(t, ca, cb, x, y)
    requires !ForStreams(plain.kind) && StreamActs(t, x, plain.id, S.Receive(plain), x')
    ensures Joint(t, ca, cb, x', y)
  {
    hide PeersInv, StreamsInv, AllNamed, Told;
    var z := EndOf(x, plain.id);
    assert S.Flatten([]) == [] && z.got + [] == z.got;
    assert S.Act(z, S.Receive(plain)) == z;
    assert x'.wire == x.wire && x'.peer == x.peer;
    assert forall id: u32 :: EndOf(x', id) == EndOf(x, id);
    EqualEnds(x, x', y);
    assert PeersInv(t, ca, cb, x', y) by { EqualPeers(t, ca, cb, x, x', y); }
    forall bytes | bytes in x'.wire
      ensures Told(t, x', bytes)
    {
      ToldStays(t, x, x', bytes);
    }
  }

  lemma EqualEnds(x: Side, x': Side, y: Side)
    requires forall id: u32 :: EndOf(x', id) == EndOf(x, id)
    ensures StreamsInv(x, y) ==> StreamsInv(x', y)
    ensures AllNamed(x) ==> AllNamed(x')
  {
    hide S.Inv, Named;
    if StreamsInv(x, y) {
      forall id: u32
        ensures S.Inv(S.Net(EndOf(x', id), EndOf(y, id)))
      {
        assert S.Inv(S.Net(EndOf(x, id), EndOf(y, id)));
      }
    }
    if AllNamed(x) {
      forall id: u32
        ensures Named(EndOf(x', id), id)
      {
        assert Named(EndOf(x, id), id);
      }
    }
  }

  lemma EqualPeers(t: Setting, ca: Config, cb: Config, x: Side, x': Side, y: Side)
    requires ca.group.p > 0 && cb.group.p > 0 && PeersInv(t, ca, cb, x, y) && x'.peer == x.peer && x'.wire == x.wire
    ensures PeersInv(t, ca, cb, x', y)
  {
    hide H.NodeInv, H.KnowInv;
  }

  // ---------- every step ----------

  lemma FeedKeeps(t: Setting, ca: Config, cb: Config, x: Side, y: Side, bytes: seq<byte>, priv: nat, x': Side)
    requires H.Knows(ca, cb) && H.Knows(cb, ca) && ca.group.p > 0 && cb.group.p > 0
    requires Joint(t, ca, cb, x, y) && bytes in y.wire && Feeds(t, ca, x, bytes, priv, x')
    ensures Joint(t, ca, cb, x', y)
  {
    hide Joint, Handle, StreamActs, PeerActs, Parse;
    if Parse(t.order, bytes).Success? {
      var d := Parse(t.order, bytes).value;
      assert d in Read(t, y.wire);
      PeerActKeeps(t, ca, cb, x, y, d, priv);
      var end := Handle(t.aes, ca, x.peer, d, priv).end;
      if end.Dispatch? {
        var x1 := PeerActs(t, ca, x, d, priv);
        DispatchedIsSent(t, ca, cb, x, y, bytes, d, priv, end.d);
        if ForStreams(end.d.kind) {
          ActKeeps(t, ca, cb, x1, y, end.d.id, S.Receive(end.d), x');
        } else {
          IgnoredKeeps(t, ca, cb, x1, y, end.d, x');
        }
      }
    }
  }

  lemma SideKeeps(t: Setting, ca: Config, cb: Config, x: Side, y: Side, e: Event, x': Side)
    requires H.Knows(ca, cb) && H.Knows(cb, ca) && ca.group.p > 0 && cb.group.p > 0
    requires Joint(t, ca, cb, x, y) && SideNext(t, ca, x, y.wire, e, x')
    ensures Joint(t, ca, cb, x', y)
  {
    hide Joint, StreamActs, Feeds, Serialise, H.Knows;
    match e
    case Writes(id, data) => ActKeeps(t, ca, cb, x, y, id, S.Write(data), x');
    case StreamTimer(id) => ActKeeps(t, ca, cb, x, y, id, S.Timeout, x');
    case PeerTimer => PeerTimerKeeps(t, ca, cb, x, y);
    case Receives(bytes, priv) => FeedKeeps(t, ca, cb, x, y, bytes, priv, x');
  }

  lemma StartJoint(t: Setting, ca: Config, cb: Config)
    requires ca.group.p > 0 && cb.group.p > 0
    ensures Joint(t, ca, cb, StartSide(t, ca), StartSide(t, cb))
  {
    hide Serialise, Parse, H.NodeInv, H.KnowInv, S.Inv;
    var x, y := StartSide(t, ca), StartSide(t, cb);
    ReadBack(t, {}, Start(ca).sent);
    ReadBack(t, {}, Start(cb).sent);
    assert {} + x.wire == x.wire && {} + y.wire == y.wire;
    assert Read(t, {}) == {};
    assert NodeOf(t, x) == H.StartNode(ca) && NodeOf(t, y) == H.StartNode(cb);
    H.PairStarts(ca, cb);
    StartTold(t, ca);
    StartTold(t, cb);
    forall id: u32
      ensures S.Inv(S.Net(EndOf(x, id), EndOf(y, id)))
    {
      S.InitHolds(S.Net(S.End(Fresh(id), {}, [], [], 0), S.End(Fresh(id), {}, [], [], 0)));
    }
  }

  lemma StartTold(t: Setting, c: Config)
    ensures AllTold(t, StartSide(t, c))
  {
    hide Serialise, Parse, Told;
    forall bytes | bytes in StartSide(t, c).wire
      ensures Told(t, StartSide(t, c), bytes)
    {
      PlainTold(t, StartSide(t, c), CreateHello(c.myId));
    }
  }

  lemma {:induction false} RunKeeps(t: Setting, ca: Config, cb: Config, run: seq<Pair>, i: nat)
    requires H.Knows(ca, cb) && H.Knows(cb, ca) && ca.group.p > 0 && cb.group.p > 0
    requires IsRun(t, ca, cb, run) && i < |run|
    ensures Joint(t, ca, cb, run[i].a, run[i].b)
  {
    hide Joint, SideNext, H.Knows, StartSide;
    if i == 0 {
      StartJoint(t, ca, cb);
    } else {
      RunKeeps(t, ca, cb, run, i - 1);
      var p, p' := run[i - 1], run[i];
      assert PairNext(t, ca, cb, p, p');
      if e :| p'.b == p.b && SideNext(t, ca, p.a, p.b.wire, e, p'.a) {
        SideKeeps(t, ca, cb, p.a, p.b, e, p'.a);
      } else {
        var e :| p'.a == p.a && SideNext(t, cb, p.b, p.a.wire, e, p'.b);
        JointSwaps(t, ca, cb, p.a, p.b);
        SideKeeps(t, cb, ca, p.b, p.a, e, p'.b);
        JointSwaps(t, cb, ca, p'.b, p'.a);
      }
    }
  }

  /** Main result, composed: two peers that know each other shake hands and carry any number of streams
      over one network that loses, repeats and reorders. At every moment, for every stream, what each
      user has received is a prefix of what the other has written; and once both peers have agreed on
      a key it is the same one. */
  lemma PairSafety(t: Setting, ca: Config, cb: Config, run: seq<Pair>, i: nat, id: u32)
    requires H.Knows(ca, cb) && H.Knows(cb, ca) && ca.group.p > 0 && cb.group.p > 0
    requires IsRun(t, ca, cb, run) && i < |run|
    ensures var a, b := run[i].a, run[i].b;
            && EndOf(b, id).got <= EndOf(a, id).written && EndOf(a, id).got <= EndOf(b, id).written
            && (a.peer.layer.Some? && b.peer.layer.Some? ==> a.peer.layer == b.peer.layer)
            && (a.peer.handler == EstablishedHandler ==> b.peer.layer.Some?)
            && (b.peer.handler == EstablishedHandler ==> a.peer.layer.Some?)
  {
    hide IsRun, H.Knows, AllTold, AllNamed, PeersInv;
    RunKeeps(t, ca, cb, run, i);
    var a, b := run[i].a, run[i].b;
    InvPrefixes(EndOf(a, id), EndOf(b, id));
    if a.peer.layer.Some? && b.peer.layer.Some? {
      KeysEqual(t, ca, cb, a, b);
    }
    EstablishedKeyed(t, ca, cb, a, b);
  }

  lemma EstablishedKeyed(t: Setting, ca: Config, cb: Config, x: Side, y: Side)
    requires ca.group.p > 0 && cb.group.p > 0 && PeersInv(t, ca, cb, x, y)
    ensures x.peer.handler == EstablishedHandler ==> y.peer.layer.Some?
    ensures y.peer.handler == EstablishedHandler ==> x.peer.layer.Some?
  {
    H.PhaseBits(ca, x.peer);
    H.PhaseBits(cb, y.peer);
    hide H.Truthful, PhaseInv, H.KeyOf;
  }

  lemma InvPrefixes(x: S.End, y: S.End)
    requires S.Inv(S.Net(x, y))
    ensures y.got <= x.written && x.got <= y.written
  {
  }

  // ---------- which streams are announced ----------

  lemma AnnouncedMeans(t: Setting, c: Config, s: PeerState, d: Datagram, priv: nat, id: u32)
    requires c.group.p > 0 && NewStream(id) in Handle(t.aes, c, s, d, priv).notices
    ensures Handle(t.aes, c, s, d, priv).end.Dispatch? && Handle(t.aes, c, s, d, priv).end.d.id == id
    ensures s.handler == EstablishedHandler
  {
    hide PublicKeyOf, FoldKey, Agree, DecryptPayload, Has, LookUp;
  }

  /** A peer announces a stream to its user for any datagram that it can decrypt and whose id is new. The
      datagram is one that the other end's stream of that id has sent if and only if it is of a kind
      that streams act on; any other is a late part of the handshake, and announces stream 0. */
  lemma AnnouncedIff(t: Setting, ca: Config, cb: Config, run: seq<Pair>, i: nat, bytes: seq<byte>, priv: nat, id: u32)
    requires H.Knows(ca, cb) && H.Knows(cb, ca) && ca.group.p > 0 && cb.group.p > 0
    requires IsRun(t, ca, cb, run) && i < |run|
    requires bytes in run[i].b.wire && Parse(t.order, bytes).Success?
    requires NewStream(id) in Handle(t.aes, ca, run[i].a.peer, Parse(t.order, bytes).value, priv).notices
    ensures var d := Parse(t.order, bytes).value;
            var end := Handle(t.aes, ca, run[i].a.peer, d, priv).end;
            && end.Dispatch? && end.d.id == id
            && (end.d in EndOf(run[i].b, id).out <==> ForStreams(d.kind))
            && (!ForStreams(d.kind) ==> id == 0)
  {
    RunKeeps(t, ca, cb, run, i);
    hide IsRun, H.Knows, PeersInv, AllNamed, SealedFor, Handle, Parse, StreamsInv;
    var a, b, d := run[i].a, run[i].b, Parse(t.order, bytes).value;
    AnnouncedMeans(t, ca, a.peer, d, priv, id);
    var end := Handle(t.aes, ca, a.peer, d, priv).end;
    DispatchedIsSent(t, ca, cb, a, b, bytes, d, priv, end.d);
    DispatchMeans(t, ca, a.peer, d, priv);
    OpenedKind(t, a.peer.layer.value, d);
    SentKinds(a, b, id);
    assert Told(t, b, bytes);
  }

  lemma SentKinds(x: Side, y: Side, id: u32)
    requires StreamsInv(x, y)
    ensures forall d :: d in EndOf(y, id).out ==> ForStreams(d.kind)
  {
    hide S.Inv;
    InvSwaps(EndOf(x, id), EndOf(y, id));
    StreamKinds(EndOf(y, id), EndOf(x, id));
  }
}
