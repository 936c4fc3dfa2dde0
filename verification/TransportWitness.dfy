/** Runs of two whole peers that exist: one that delivers a byte to a user, and one that announces a
    stream on which the other end has sent nothing. */
module TransportWitness {
  import opened Bytes
  import opened Wrappers
  import opened Cfb
  import opened Datagrams
  import opened KeyAgreement
  import opened HandshakeSpec
  import opened StreamSpec
  import opened TransportRun
  import C = HandshakeCompletes
  import H = HandshakeRun
  import P = StreamProgress
  import S = StreamRun

  // ---------- runs ----------

  ghost predicate Ends(t: Setting, ca: Config, cb: Config, p: Pair)
    requires ca.group.p > 0 && cb.group.p > 0
  {
    exists run :: IsRun(t, ca, cb, run) && run[|run| - 1] == p
  }

  lemma FirstSteps(t: Setting, ca: Config, cb: Config, p: Pair, e: Event, a': Side)
    requires ca.group.p > 0 && cb.group.p > 0 && Ends(t, ca, cb, p) && SideNext(t, ca, p.a, p.b.wire, e, a')
    ensures Ends(t, ca, cb, Pair(a', p.b))
  {
    hide SideNext;
    var run :| IsRun(t, ca, cb, run) && run[|run| - 1] == p;
    assert PairNext(t, ca, cb, p, Pair(a', p.b));
    assert IsRun(t, ca, cb, run + [Pair(a', p.b)]);
  }

  lemma SecondSteps(t: Setting, ca: Config, cb: Config, p: Pair, e: Event, b': Side)
    requires ca.group.p > 0 && cb.group.p > 0 && Ends(t, ca, cb, p) && SideNext(t, cb, p.b, p.a.wire, e, b')
    ensures Ends(t, ca, cb, Pair(p.a, b'))
  {
    hide SideNext;
    var run :| IsRun(t, ca, cb, run) && run[|run| - 1] == p;
    assert PairNext(t, ca, cb, p, Pair(p.a, b'));
    assert IsRun(t, ca, cb, run + [Pair(p.a, b')]);
  }

  // ---------- a handshake on the wire ----------

  /** The two sides have come as far as the two nodes, and no stream exists yet. */
  ghost predicate Mirrors(t: Setting, x: Side, n: H.Node) {
    NodeOf(t, x) == n && x.ends == map[] && x.peer.streams == {}
  }

  /** Before it is established a peer hands nothing to streams. */
  lemma EarlyHandle(t: Setting, c: Config, s: PeerState, d: Datagram, priv: nat)
    requires c.group.p > 0 && s.handler != EstablishedHandler
    ensures var r := Handle(t.aes, c, s, d, priv); !r.end.Dispatch? && r.s.streams == s.streams
  {
    hide PublicKeyOf, FoldKey, Agree, Has, LookUp;
  }

  lemma ReceiptLifts(t: Setting, c: Config, x: Side, n: H.Node, inbound: set<seq<byte>>, d: Datagram, priv: nat)
    returns (e: Event, x': Side)
    requires c.group.p > 0 && Mirrors(t, x, n) && n.s.handler != EstablishedHandler && d in Read(t, inbound)
    ensures SideNext(t, c, x, inbound, e, x') && Mirrors(t, x', H.NodeAct(t.aes, c, n, H.Gets(d, priv)))
  {
    hide Handle, Parse, Serialise, H.NodeAct, StreamActs;
    var bytes :| bytes in inbound && Parse(t.order, bytes).Success? && Parse(t.order, bytes).value == d;
    e, x' := Receives(bytes, priv), PeerActs(t, c, x, d, priv);
    PeerIsNode(t, c, x, d, priv);
    EarlyHandle(t, c, x.peer, d, priv);
  }

  /** Every run of receipts that the handshake can make is one that the byte strings make. */
  lemma {:induction false} TrailLifts(t: Setting, ca: Config, cb: Config, trail: seq<H.Pair>, i: nat) returns (p: Pair)
    requires ca.group.p > 0 && cb.group.p > 0 && C.IsTrail(t.aes, ca, cb, trail) && i < |trail|
    ensures Ends(t, ca, cb, p) && Mirrors(t, p.a, trail[i].a) && Mirrors(t, p.b, trail[i].b)
  {
    hide Ends, SideNext, H.NodeAct, Read;
    if i == 0 {
      p := StartLifts(t, ca, cb);
    } else {
      var q := TrailLifts(t, ca, cb, trail, i - 1);
      var n, n' := trail[i - 1], trail[i];
      assert C.Receipt(t.aes, ca, cb, n, n');
      if d: Datagram, priv: nat :|
        && d in n.b.out && n.a.s.handler != EstablishedHandler
        && n' == H.Pair(H.NodeAct(t.aes, ca, n.a, H.Gets(d, priv)), n.b) {
        var e, a' := ReceiptLifts(t, ca, q.a, n.a, q.b.wire, d, priv);
        FirstSteps(t, ca, cb, q, e, a');
        p := Pair(a', q.b);
      } else {
        var d: Datagram, priv: nat :|
          && d in n.a.out && n.b.s.handler != EstablishedHandler
          && n' == H.Pair(n.a, H.NodeAct(t.aes, cb, n.b, H.Gets(d, priv)));
        var e, b' := ReceiptLifts(t, cb, q.b, n.b, q.a.wire, d, priv);
        SecondSteps(t, ca, cb, q, e, b');
        p := Pair(q.a, b');
      }
    }
  }

  lemma StartLifts(t: Setting, ca: Config, cb: Config) returns (p: Pair)
    requires ca.group.p > 0 && cb.group.p > 0
    ensures Ends(t, ca, cb, p) && Mirrors(t, p.a, H.StartNode(ca)) && Mirrors(t, p.b, H.StartNode(cb))
  {
    hide Serialise, Parse;
    p := Pair(StartSide(t, ca), StartSide(t, cb));
    assert IsRun(t, ca, cb, [p]) && [p][0] == p;
    StartReads(t, ca);
    StartReads(t, cb);
  }

  lemma StartReads(t: Setting, c: Config)
    ensures NodeOf(t, StartSide(t, c)) == H.StartNode(c)
  {
    hide Serialise, Parse;
    ReadBack(t, {}, Start(c).sent);
    assert {} + StartSide(t, c).wire == StartSide(t, c).wire && Read(t, {}) == {};
  }

  /** A whole handshake over byte strings. */
  lemma BothEstablished(t: Setting, ca: Config, cb: Config, x: nat, y: nat) returns (p: Pair)
    requires H.Knows(ca, cb) && H.Knows(cb, ca) && C.ValidKeys(ca, x) && C.ValidKeys(cb, y)
    ensures Ends(t, ca, cb, p) && p.a.ends == p.b.ends == map[] && p.a.peer.streams == p.b.peer.streams == {}
    ensures p.a.peer.handler == p.b.peer.handler == EstablishedHandler
    ensures p.a.peer.layer.Some? && p.a.peer.layer == p.b.peer.layer
    ensures CreateAck(0, 0) in Read(t, p.b.wire)
  {
    hide Ends, Read, C.Reachable, C.ValidKeys, C.Receipt;
    var n := C.HandshakeCanComplete(t.aes, ca, cb, x, y);
    var trail :| C.IsTrail(t.aes, ca, cb, trail) && trail[|trail| - 1] == n;
    p := TrailLifts(t, ca, cb, trail, |trail| - 1);
  }

  // ---------- a stream that nobody opened ----------

  lemma StrayHandled(t: Setting, c: Config, s: PeerState, d: Datagram, priv: nat)
    requires c.group.p > 0 && PhaseInv(c, s) && s.handler == EstablishedHandler && s.streams == {}
    requires d == CreateAck(0, 0)
    ensures Handle(t.aes, c, s, d, priv) == Reaction(s.(streams := {0}), [], [NewStream(0)], Dispatch(d))
  {
  }

  /** A copy of the acknowledgement of the hello reaches an established peer: it announces stream 0 to
      its user, although no stream exists at the other end. */
  lemma StrayStreamHappens(t: Setting, ca: Config, cb: Config, x: nat, y: nat)
    returns (p: Pair, bytes: seq<byte>, a': Side)
    requires H.Knows(ca, cb) && H.Knows(cb, ca) && C.ValidKeys(ca, x) && C.ValidKeys(cb, y)
    ensures Ends(t, ca, cb, p) && p.a.ends == p.b.ends == map[] && p.b.peer.streams == {}
    ensures bytes in p.b.wire && SideNext(t, ca, p.a, p.b.wire, Receives(bytes, 0), a')
    ensures Parse(t.order, bytes) == Success(CreateAck(0, 0))
    ensures Handle(t.aes, ca, p.a.peer, CreateAck(0, 0), 0).notices == [NewStream(0)]
    ensures a'.peer.streams == {0}
  {
    hide Handle, Parse, Serialise, C.ValidKeys, StreamActs, PhaseInv;
    p := BothEstablished(t, ca, cb, x, y);
    EstablishedPhase(t, ca, cb, p);
    var d := CreateAck(0, 0);
    bytes :| bytes in p.b.wire && Parse(t.order, bytes).Success? && Parse(t.order, bytes).value == d;
    StrayHandled(t, ca, p.a.peer, d, 0);
    var x1 := PeerActs(t, ca, p.a, d, 0);
    a' := StreamStep(t, x1, 0, S.Receive(d), seq(BLOCK, _ => 0));
  }

  lemma EstablishedPhase(t: Setting, ca: Config, cb: Config, p: Pair)
    requires H.Knows(ca, cb) && H.Knows(cb, ca) && ca.group.p > 0 && cb.group.p > 0 && Ends(t, ca, cb, p)
    ensures PhaseInv(ca, p.a.peer) && PhaseInv(cb, p.b.peer)
  {
    hide PairNext, StartSide, PhaseInv, StreamsInv, AllTold, AllNamed, PeersInv, H.Knows;
    var run :| IsRun(t, ca, cb, run) && run[|run| - 1] == p;
    RunKeeps(t, ca, cb, run, |run| - 1);
    InPhase(t, ca, cb, p.a, p.b);
  }

  /** A stream can take any step; here the peer draws the same vector for all that is sent. */
  lemma StreamStep(t: Setting, x: Side, id: u32, e: S.Event, iv: Block) returns (x': Side)
    ensures StreamActs(t, x, id, e, x')
    ensures x'.peer == x.peer && x'.ends == x.ends[id := S.Act(EndOf(x, id), e)]
    ensures Has(x.peer.bits, ESTABLISHED) && x.peer.layer.Some? ==>
              forall d :: d in S.EffectOf(EndOf(x, id).s, e).sent ==>
                Seal(t.order, t.aes, x.peer.layer.value, iv, d) in x'.wire
  {
    hide S.Act, S.EffectOf, Seal;
    var sent := S.EffectOf(EndOf(x, id).s, e).sent;
    var ivs: seq<Block> := seq(|sent|, _ => iv);
    x' := Side(x.peer, x.ends[id := S.Act(EndOf(x, id), e)], x.wire + Sealed(t, x.peer, sent, ivs));
    if Has(x.peer.bits, ESTABLISHED) && x.peer.layer.Some? {
      forall d | d in sent
        ensures Seal(t.order, t.aes, x.peer.layer.value, iv, d) in x'.wire
      {
        var i :| 0 <= i < |sent| && sent[i] == d;
        assert ivs[i] == iv;
        assert Seal(t.order, t.aes, x.peer.layer.value, ivs[i], sent[i]) in Sealed(t, x.peer, sent, ivs);
      }
    }
  }

  // ---------- a byte that is delivered ----------

  lemma DataHandled(t: Setting, c: Config, s: PeerState, key: Block, iv: Block, d: Datagram)
    requires c.group.p > 0 && PhaseInv(c, s) && s.handler == EstablishedHandler && s.layer == Some(key)
    requires d.kind == DATA
    ensures var sealed := EncryptPayload(t.aes, key, iv, d);
            && Parse(t.order, Seal(t.order, t.aes, key, iv, d)) == Success(sealed) && sealed.kind == DATA
            && Handle(t.aes, c, s, sealed, 0).end == Dispatch(d)
            && Handle(t.aes, c, s, sealed, 0).sent == []
            && Handle(t.aes, c, s, sealed, 0).s.handler == EstablishedHandler
  {
    hide Encrypt, Decrypt, Serialise, Parse;
    SerialiseThenParse(t.order, EncryptPayload(t.aes, key, iv, d));
    SealThenOpen(t.order, t.aes, key, iv, d);
  }

  /** Two peers that know each other can shake hands, and then a byte written to any stream of one end
      is handed to the user of the other. */
  lemma ByteDelivered(t: Setting, ca: Config, cb: Config, x: nat, y: nat, id: u32, b: byte) returns (p: Pair)
    requires H.Knows(ca, cb) && H.Knows(cb, ca) && C.ValidKeys(ca, x) && C.ValidKeys(cb, y)
    ensures Ends(t, ca, cb, p)
    ensures p.a.peer.handler == p.b.peer.handler == EstablishedHandler
    ensures EndOf(p.a, id).written == EndOf(p.b, id).got == [b]
  {
    hide Ends, Handle, Parse, Serialise, EncryptPayload, C.ValidKeys, StreamActs, PhaseInv, Read, S.Act, S.EffectOf;
    var q := BothEstablished(t, ca, cb, x, y);
    EstablishedPhase(t, ca, cb, q);
    var d := Datagram(DATA, id, 0, 1, [b]);
    var iv: Block := seq(BLOCK, _ => 0);
    var a' := StreamStep(t, q.a, id, S.Write([b]), iv);
    ByteWritten(id, b);
    EstablishedSends(ca, q.a.peer);
    var key := q.a.peer.layer.value;
    assert SideNext(t, ca, q.a, q.b.wire, Writes(id, [b]), a');
    FirstSteps(t, ca, cb, q, Writes(id, [b]), a');
    var bytes := Seal(t.order, t.aes, key, iv, d);
    DataHandled(t, cb, q.b.peer, key, iv, d);
    var z := EncryptPayload(t.aes, key, iv, d);
    var b' := StreamStep(t, PeerActs(t, cb, q.b, z, 0), id, S.Receive(d), iv);
    P.OneByteGot(id, b);
    SecondSteps(t, ca, cb, Pair(a', q.b), Receives(bytes, 0), b');
    p := Pair(a', b');
  }

  lemma ByteWritten(id: u32, b: byte)
    ensures S.EffectOf(Fresh(id), S.Write([b])).sent == [Datagram(DATA, id, 0, 1, [b])]
    ensures var x := S.End(Fresh(id), {}, [], [], 0);
            S.Enabled(x, {}, S.Write([b])) && S.Act(x, S.Write([b])).written == [b]
  {
    hide Send;
    P.OneByteSent(id, b);
    P.OneByteWritten(id, b);
  }

  lemma EstablishedSends(c: Config, s: PeerState)
    requires PhaseInv(c, s) && s.handler == EstablishedHandler
    ensures Has(s.bits, ESTABLISHED)
  {
  }
}
