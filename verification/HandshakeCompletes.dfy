/** Runs of two peers that exist: a handshake that completes, and one that shows what an
    acknowledgement does not mean. */
module HandshakeCompletes {
  import opened Bytes
  import opened Wrappers
  import opened Cfb
  import opened Datagrams
  import opened KeyAgreement
  import opened HandshakeSpec
  import opened HandshakeRun

  ghost predicate Reachable(aes: BlockCipher, ca: Config, cb: Config, p: Pair)
    requires ca.group.p > 0 && cb.group.p > 0
  {
    exists run :: IsPairRun(aes, ca, cb, run) && run[|run| - 1] == p
  }

  /** One end, not yet established, receives what the other has sent. */
  ghost predicate Receipt(aes: BlockCipher, ca: Config, cb: Config, p: Pair, p': Pair)
    requires ca.group.p > 0 && cb.group.p > 0
  {
    || (exists d: Datagram, priv: nat ::
          d in p.b.out && p.a.s.handler != EstablishedHandler && p' == Pair(NodeAct(aes, ca, p.a, Gets(d, priv)), p.b))
    || (exists d: Datagram, priv: nat ::
          d in p.a.out && p.b.s.handler != EstablishedHandler && p' == Pair(p.a, NodeAct(aes, cb, p.b, Gets(d, priv))))
  }

  /** A run that consists of such receipts: nothing is lost for long and no timer fires. */
  ghost predicate IsTrail(aes: BlockCipher, ca: Config, cb: Config, trail: seq<Pair>)
    requires ca.group.p > 0 && cb.group.p > 0
  {
    && |trail| > 0
    && trail[0] == Pair(StartNode(ca), StartNode(cb))
    && forall i :: 0 <= i < |trail| - 1 ==> Receipt(aes, ca, cb, trail[i], trail[i + 1])
  }

  ghost predicate OnTrail(aes: BlockCipher, ca: Config, cb: Config, p: Pair)
    requires ca.group.p > 0 && cb.group.p > 0
  {
    exists trail :: IsTrail(aes, ca, cb, trail) && trail[|trail| - 1] == p
  }

  lemma ReceiptIsStep(aes: BlockCipher, ca: Config, cb: Config, p: Pair, p': Pair)
    requires ca.group.p > 0 && cb.group.p > 0 && Receipt(aes, ca, cb, p, p')
    ensures PairNext(aes, ca, cb, p, p')
  {
    hide Handle;
    if d: Datagram, priv: nat :|
      d in p.b.out && p.a.s.handler != EstablishedHandler && p' == Pair(NodeAct(aes, ca, p.a, Gets(d, priv)), p.b) {
      assert NodeEnabled(p.a, p.b.out, Gets(d, priv));
    } else {
      var d: Datagram, priv: nat :|
        d in p.a.out && p.b.s.handler != EstablishedHandler && p' == Pair(p.a, NodeAct(aes, cb, p.b, Gets(d, priv)));
      assert NodeEnabled(p.b, p.a.out, Gets(d, priv));
    }
  }

  lemma TrailReaches(aes: BlockCipher, ca: Config, cb: Config, p: Pair)
    requires ca.group.p > 0 && cb.group.p > 0 && OnTrail(aes, ca, cb, p)
    ensures Reachable(aes, ca, cb, p)
  {
    hide Receipt, PairNext;
    var trail :| IsTrail(aes, ca, cb, trail) && trail[|trail| - 1] == p;
    forall i | 0 <= i < |trail| - 1
      ensures PairNext(aes, ca, cb, trail[i], trail[i + 1])
    {
      ReceiptIsStep(aes, ca, cb, trail[i], trail[i + 1]);
    }
    assert IsPairRun(aes, ca, cb, trail);
  }

  lemma StartOnTrail(aes: BlockCipher, ca: Config, cb: Config)
    requires ca.group.p > 0 && cb.group.p > 0
    ensures OnTrail(aes, ca, cb, Pair(StartNode(ca), StartNode(cb)))
  {
    var p := Pair(StartNode(ca), StartNode(cb));
    assert IsTrail(aes, ca, cb, [p]) && [p][0] == p;
  }

  lemma NextOnTrail(aes: BlockCipher, ca: Config, cb: Config, p: Pair, p': Pair)
    requires ca.group.p > 0 && cb.group.p > 0
    requires OnTrail(aes, ca, cb, p) && Receipt(aes, ca, cb, p, p')
    ensures OnTrail(aes, ca, cb, p')
  {
    hide Receipt;
    var trail :| IsTrail(aes, ca, cb, trail) && trail[|trail| - 1] == p;
    assert IsTrail(aes, ca, cb, trail + [p']);
  }

  /** The first end receives a datagram that the second has sent. */
  lemma FirstGets(aes: BlockCipher, ca: Config, cb: Config, p: Pair, d: Datagram, priv: nat) returns (p': Pair)
    requires ca.group.p > 0 && cb.group.p > 0 && OnTrail(aes, ca, cb, p)
    requires d in p.b.out && p.a.s.handler != EstablishedHandler
    ensures OnTrail(aes, ca, cb, p') && p'.b == p.b
    ensures p'.a == NodeAct(aes, ca, p.a, Gets(d, priv))
  {
    hide OnTrail, NodeAct;
    p' := Pair(NodeAct(aes, ca, p.a, Gets(d, priv)), p.b);
    NextOnTrail(aes, ca, cb, p, p');
  }

  lemma SecondGets(aes: BlockCipher, ca: Config, cb: Config, p: Pair, d: Datagram, priv: nat) returns (p': Pair)
    requires ca.group.p > 0 && cb.group.p > 0 && OnTrail(aes, ca, cb, p)
    requires d in p.a.out && p.b.s.handler != EstablishedHandler
    ensures OnTrail(aes, ca, cb, p') && p'.a == p.a
    ensures p'.b == NodeAct(aes, cb, p.b, Gets(d, priv))
  {
    hide OnTrail, NodeAct;
    p' := Pair(p.a, NodeAct(aes, cb, p.b, Gets(d, priv)));
    NextOnTrail(aes, ca, cb, p, p');
  }

  // ---------- the stages of one end ----------

  ghost predicate Greeting(c: Config, n: Node) {
    n.s == Start(c).s && CreateHello(c.myId) in n.out
  }

  ghost predicate Greeted(c: Config, o: Config, n: Node) {
    && n.s.handler == HelloHandler && n.s.bits == SENT_HELLO | RECEIVED_HELLO
    && n.s.peerSpub == LookUp(c, o.myId) && n.s.id == o.myId
    && CreateAck(0, 0) in n.out
  }

  ghost predicate KeySent(c: Config, o: Config, priv: nat, bits: bv32, n: Node)
    requires c.group.p > 0
  {
    && n.s.handler == PublicKeyHandler && n.s.bits == HELLO_COMPLETE | SENT_PUBLIC_KEY | bits
    && n.s.peerSpub == LookUp(c, o.myId) && n.s.id == o.myId
    && n.s.ephemeral == Some(Ephemeral(priv, PublicKeyOf(c.group, priv)))
    && CreateAck(0, 0) in n.out && CreatePublicKey(PublicKeyOf(c.group, priv)) in n.out
  }

  ghost predicate Echoing(c: Config, n: Node, key: seq<byte>) {
    && n.s.handler == EchoHandler && n.s.bits == ESTABLISHED | WAIT_FOR_ECHO
    && |key| == 2 * KEY_BYTES && n.s.layer == Some(FoldKey(key)) && n.s.sentEcho == Some(CreateEcho(ECHO_CONTENT))
    && CreateAck(0, 0) in n.out && CreateEcho(ECHO_CONTENT) in n.out
  }

  lemma Greets(aes: BlockCipher, c: Config, o: Config, n: Node)
    requires c.group.p > 0 && Greeting(c, n)
    ensures Greeted(c, o, NodeAct(aes, c, n, Gets(CreateHello(o.myId), 0)))
  {
  }

  lemma SendsKey(aes: BlockCipher, c: Config, o: Config, n: Node, priv: nat)
    requires c.group.p > 0 && Greeted(c, o, n)
    ensures KeySent(c, o, priv, 0, NodeAct(aes, c, n, Gets(CreateAck(0, 0), priv)))
  {
    hide PublicKeyOf;
  }

  lemma TakesKey(aes: BlockCipher, c: Config, o: Config, n: Node, priv: nat, pub: seq<byte>)
    requires c.group.p > 0 && KeySent(c, o, priv, 0, n)
    ensures var n' := NodeAct(aes, c, n, Gets(CreatePublicKey(pub), 0));
            KeySent(c, o, priv, RECEIVED_PUBLIC_KEY, n') && n'.s.peerKeys == Some((LookUp(c, o.myId), pub))
  {
    hide PublicKeyOf, Agree, FoldKey;
  }

  lemma TakesAck(aes: BlockCipher, c: Config, o: Config, n: Node, priv: nat)
    requires c.group.p > 0 && KeySent(c, o, priv, 0, n)
    ensures var n' := NodeAct(aes, c, n, Gets(CreateAck(0, 0), 0));
            KeySent(c, o, priv, RECEIVED_PUBLIC_KEY_ACK, n')
  {
    hide PublicKeyOf, Agree, FoldKey;
  }

  lemma Agrees(aes: BlockCipher, c: Config, o: Config, n: Node, priv: nat, pub: seq<byte>)
    requires c.group.p > 0 && KeySent(c, o, priv, RECEIVED_PUBLIC_KEY, n)
    requires n.s.peerKeys == Some((LookUp(c, o.myId), pub))
    requires c.group.valid(DecodeNat(LookUp(c, o.myId))) && c.group.valid(DecodeNat(pub))
    ensures Echoing(c, NodeAct(aes, c, n, Gets(CreateAck(0, 0), 0)),
                    AgreedValue(c.group, c.spriv, priv, LookUp(c, o.myId), pub))
  {
    hide PublicKeyOf, FoldKey, AgreedValue, DecodeNat;
  }

  lemma Echoes(aes: BlockCipher, c: Config, n: Node, key: seq<byte>)
    requires c.group.p > 0 && Echoing(c, n, key)
    ensures var n' := NodeAct(aes, c, n, Gets(CreateEcho(ECHO_CONTENT), 0));
            Echoing(c, n', key) && CreateEchoBack(CreateEcho(ECHO_CONTENT)) in n'.out
  {
    hide FoldKey;
  }

  lemma Establishes(aes: BlockCipher, c: Config, n: Node, key: seq<byte>)
    requires c.group.p > 0 && Echoing(c, n, key)
    ensures var n' := NodeAct(aes, c, n, Gets(CreateEchoBack(CreateEcho(ECHO_CONTENT)), 0));
            n'.s.handler == EstablishedHandler && n'.s.layer == Some(FoldKey(key))
  {
    hide FoldKey;
  }

  lemma OutGrows(aes: BlockCipher, c: Config, n: Node, d: Datagram, priv: nat)
    requires c.group.p > 0
    ensures n.out <= NodeAct(aes, c, n, Gets(d, priv)).out
  {
    hide Handle;
  }

  // ---------- the runs ----------

  /** Both ends have greeted each other. */
  lemma BothGreeted(aes: BlockCipher, ca: Config, cb: Config) returns (p: Pair)
    requires ca.group.p > 0 && cb.group.p > 0
    ensures OnTrail(aes, ca, cb, p) && Greeted(ca, cb, p.a) && Greeted(cb, ca, p.b)
  {
    hide Reachable, OnTrail, NodeAct, Greeted, LookUp;
    StartOnTrail(aes, ca, cb);
    var p0 := Pair(StartNode(ca), StartNode(cb));
    StartGreets(ca);
    StartGreets(cb);
    var p1 := FirstGets(aes, ca, cb, p0, CreateHello(cb.myId), 0);
    Greets(aes, ca, cb, p0.a);
    OutGrows(aes, ca, p0.a, CreateHello(cb.myId), 0);
    p := SecondGets(aes, ca, cb, p1, CreateHello(ca.myId), 0);
    Greets(aes, cb, ca, p0.b);
  }

  lemma StartGreets(c: Config)
    ensures Greeting(c, StartNode(c)) && StartNode(c).s.handler != EstablishedHandler
  {
    assert CreateHello(c.myId) in Start(c).sent;
  }

  lemma Stages(c: Config, o: Config, priv: nat, bits: bv32, key: seq<byte>, n: Node)
    requires c.group.p > 0
    ensures Greeted(c, o, n) ==> n.s.handler != EstablishedHandler && CreateAck(0, 0) in n.out
    ensures KeySent(c, o, priv, bits, n) ==>
              && n.s.handler != EstablishedHandler && CreateAck(0, 0) in n.out
              && CreatePublicKey(PublicKeyOf(c.group, priv)) in n.out
    ensures Echoing(c, n, key) ==>
              && n.s.handler != EstablishedHandler
              && CreateAck(0, 0) in n.out && CreateEcho(ECHO_CONTENT) in n.out
  {
  }

  /** An acknowledgement names nothing: a copy of the one that answered the hello is taken for the
      answer to the public key. So the bit that records this answer can be set at one end while the
      other end has no key of the first, and has not even begun its own exchange. */
  lemma AckProvesNothing(aes: BlockCipher, ca: Config, cb: Config, priv: nat) returns (p: Pair)
    requires ca.group.p > 0 && cb.group.p > 0
    ensures OnTrail(aes, ca, cb, p) && Reachable(aes, ca, cb, p)
    ensures Has(p.a.s.bits, RECEIVED_PUBLIC_KEY_ACK)
    ensures p.b.s.handler == HelloHandler && !Has(p.b.s.bits, RECEIVED_PUBLIC_KEY) && !Has(p.b.s.bits, SENT_PUBLIC_KEY)
  {
    hide Reachable, OnTrail, NodeAct, PublicKeyOf;
    var p0 := BothGreeted(aes, ca, cb);
    var p1 := FirstGets(aes, ca, cb, p0, CreateAck(0, 0), priv);
    SendsKey(aes, ca, cb, p0.a, priv);
    p := FirstGets(aes, ca, cb, p1, CreateAck(0, 0), 0);
    TakesAck(aes, ca, cb, p1.a, priv);
    TrailReaches(aes, ca, cb, p);
  }

  ghost predicate ValidKeys(c: Config, priv: nat)
    requires c.group.p > 0
  {
    c.group.valid(DecodeNat(PublicKeyOf(c.group, c.spriv))) && c.group.valid(DecodeNat(PublicKeyOf(c.group, priv)))
  }

  // ---------- when the other end has the key ----------

  /** `b` has recorded the ephemeral public key of `a`'s session. */
  ghost predicate HoldsKeyOf(ca: Config, cb: Config, b: PeerState, a: PeerState) {
    && Has(b.bits, RECEIVED_PUBLIC_KEY) && a.ephemeral.Some?
    && b.peerKeys == Some((LookUp(cb, ca.myId), a.ephemeral.value.pub))
  }

  /** In every reachable state, the handler `h` at the first end means that the other has its key. */
  ghost predicate MeansKeyHeld(aes: BlockCipher, ca: Config, cb: Config, h: Handler)
    requires ca.group.p > 0 && cb.group.p > 0
  {
    forall p :: Reachable(aes, ca, cb, p) && p.a.s.handler == h ==> HoldsKeyOf(ca, cb, p.b.s, p.a.s)
  }

  lemma EstablishedHolds(aes: BlockCipher, ca: Config, cb: Config, p: Pair)
    requires ca.group.p > 0 && cb.group.p > 0 && Reachable(aes, ca, cb, p)
    requires p.a.s.handler == EstablishedHandler
    ensures HoldsKeyOf(ca, cb, p.b.s, p.a.s)
  {
    var run :| IsPairRun(aes, ca, cb, run) && run[|run| - 1] == p;
    PairKeeps(aes, ca, cb, run, |run| - 1);
    hide PublicKeyOf, FoldKey, AgreedValue, IsPairRun, Truthful;
    EstablishedBits(p.b.s.bits);
  }

  lemma EstablishedBits(b: bv32)
    ensures Has(b, ESTABLISHED) ==> Has(b, RECEIVED_PUBLIC_KEY)
  {
  }

  lemma StartedHolds(aes: BlockCipher, ca: Config, cb: Config)
    requires ca.group.p > 0 && cb.group.p > 0
    ensures !MeansKeyHeld(aes, ca, cb, HelloHandler)
  {
    hide Reachable, OnTrail;
    StartOnTrail(aes, ca, cb);
    var p := Pair(StartNode(ca), StartNode(cb));
    TrailReaches(aes, ca, cb, p);
    assert p.a.s.handler == HelloHandler && !HoldsKeyOf(ca, cb, p.b.s, p.a.s);
  }

  lemma KeySentHolds(aes: BlockCipher, ca: Config, cb: Config)
    requires ca.group.p > 0 && cb.group.p > 0
    ensures !MeansKeyHeld(aes, ca, cb, PublicKeyHandler)
  {
    hide Reachable, OnTrail, NodeAct, PublicKeyOf;
    var p0 := BothGreeted(aes, ca, cb);
    var p := FirstGets(aes, ca, cb, p0, CreateAck(0, 0), 0);
    SendsKey(aes, ca, cb, p0.a, 0);
    TrailReaches(aes, ca, cb, p);
    assert p.a.s.handler == PublicKeyHandler && !HoldsKeyOf(ca, cb, p.b.s, p.a.s);
  }

  /** The first end has agreed on a key and waits for its echo, and the other has not received a key:
      the acknowledgement that completed the exchange was the one of the hello. */
  lemma EchoesTooEarly(aes: BlockCipher, ca: Config, cb: Config, x: nat, y: nat) returns (p: Pair)
    requires Knows(ca, cb) && Knows(cb, ca) && ValidKeys(cb, y)
    ensures OnTrail(aes, ca, cb, p) && Reachable(aes, ca, cb, p)
    ensures p.a.s.handler == EchoHandler && p.a.s.layer.Some? && !Has(p.b.s.bits, RECEIVED_PUBLIC_KEY)
  {
    hide Reachable, OnTrail, NodeAct, PublicKeyOf, Greeted, KeySent, Echoing, AgreedValue, FoldKey, DecodeNat;
    var pub := PublicKeyOf(cb.group, y);
    var p0 := BothGreeted(aes, ca, cb);
    Stages(ca, cb, x, 0, [], p0.a);
    Stages(cb, ca, y, 0, [], p0.b);
    var p1 := FirstGets(aes, ca, cb, p0, CreateAck(0, 0), x);
    SendsKey(aes, ca, cb, p0.a, x);
    Stages(ca, cb, x, 0, [], p1.a);
    var p2 := SecondGets(aes, ca, cb, p1, CreateAck(0, 0), y);
    SendsKey(aes, cb, ca, p1.b, y);
    Stages(cb, ca, y, 0, [], p2.b);
    var p3 := FirstGets(aes, ca, cb, p2, CreatePublicKey(pub), 0);
    TakesKey(aes, ca, cb, p2.a, x, pub);
    Stages(ca, cb, x, RECEIVED_PUBLIC_KEY, [], p3.a);
    p := FirstGets(aes, ca, cb, p3, CreateAck(0, 0), 0);
    Agrees(aes, ca, cb, p3.a, x, pub);
    EchoingMeans(ca, p.a, AgreedValue(ca.group, ca.spriv, x, LookUp(ca, cb.myId), pub));
    KeySentBits(cb, ca, y, p2.b);
    TrailReaches(aes, ca, cb, p);
  }

  lemma EchoingMeans(c: Config, n: Node, key: seq<byte>)
    requires Echoing(c, n, key)
    ensures n.s.handler == EchoHandler && n.s.layer.Some?
  {
  }

  lemma KeySentBits(c: Config, o: Config, priv: nat, n: Node)
    requires c.group.p > 0 && KeySent(c, o, priv, 0, n)
    ensures !Has(n.s.bits, RECEIVED_PUBLIC_KEY)
  {
  }

  /** Of the four phases exactly the established one means that the other end has this end's key, in
      all runs without a reset. */
  lemma KeyHeldIffEstablished(aes: BlockCipher, ca: Config, cb: Config, y: nat, h: Handler)
    requires Knows(ca, cb) && Knows(cb, ca) && ValidKeys(cb, y)
    ensures MeansKeyHeld(aes, ca, cb, h) <==> h == EstablishedHandler
  {
    hide Reachable, OnTrail, HoldsKeyOf, PublicKeyOf, DecodeNat, GoodGroup;
    assert ca.group.p > 0 by { GroupsPositive(ca, cb); }
    match h
    case HelloHandler => StartedHolds(aes, ca, cb);
    case PublicKeyHandler => KeySentHolds(aes, ca, cb);
    case EchoHandler =>
      var p := EchoesTooEarly(aes, ca, cb, 0, y);
      assert !HoldsKeyOf(ca, cb, p.b.s, p.a.s) by { NotRecorded(ca, cb, p.b.s, p.a.s); }
    case EstablishedHandler =>
      forall p | Reachable(aes, ca, cb, p) && p.a.s.handler == h
        ensures HoldsKeyOf(ca, cb, p.b.s, p.a.s)
      {
        EstablishedHolds(aes, ca, cb, p);
      }
  }

  lemma GroupsPositive(ca: Config, cb: Config)
    requires Knows(ca, cb)
    ensures ca.group.p > 0
  {
  }

  lemma NotRecorded(ca: Config, cb: Config, b: PeerState, a: PeerState)
    requires !Has(b.bits, RECEIVED_PUBLIC_KEY)
    ensures !HoldsKeyOf(ca, cb, b, a)
  {
  }

  // ---------- a run that completes ----------

  /** Both ends have sent and received a public key. */
  lemma BothHaveKeys(aes: BlockCipher, ca: Config, cb: Config, x: nat, y: nat) returns (p: Pair)
    requires Knows(ca, cb) && Knows(cb, ca)
    ensures OnTrail(aes, ca, cb, p)
    ensures KeySent(ca, cb, x, RECEIVED_PUBLIC_KEY, p.a) && KeySent(cb, ca, y, RECEIVED_PUBLIC_KEY, p.b)
    ensures p.a.s.peerKeys == Some((PublicKeyOf(cb.group, cb.spriv), PublicKeyOf(cb.group, y)))
    ensures p.b.s.peerKeys == Some((PublicKeyOf(ca.group, ca.spriv), PublicKeyOf(ca.group, x)))
  {
    hide Reachable, OnTrail, NodeAct, PublicKeyOf, Greeted, KeySent, Echoing;
    var p0 := BothGreeted(aes, ca, cb);
    Stages(ca, cb, x, 0, [], p0.a);
    Stages(cb, ca, y, 0, [], p0.b);
    var p1 := FirstGets(aes, ca, cb, p0, CreateAck(0, 0), x);
    SendsKey(aes, ca, cb, p0.a, x);
    Stages(ca, cb, x, 0, [], p1.a);
    var p2 := SecondGets(aes, ca, cb, p1, CreateAck(0, 0), y);
    SendsKey(aes, cb, ca, p1.b, y);
    Stages(cb, ca, y, 0, [], p2.b);
    var p3 := FirstGets(aes, ca, cb, p2, CreatePublicKey(PublicKeyOf(cb.group, y)), 0);
    TakesKey(aes, ca, cb, p2.a, x, PublicKeyOf(cb.group, y));
    Stages(ca, cb, x, RECEIVED_PUBLIC_KEY, [], p3.a);
    p := SecondGets(aes, ca, cb, p3, CreatePublicKey(PublicKeyOf(ca.group, x)), 0);
    TakesKey(aes, cb, ca, p3.b, y, PublicKeyOf(ca.group, x));
  }

  /** The handshake can be completed: two peers that know each other, with keys that pass the
      library's test, reach a state in which both are established with the same key. */
  lemma HandshakeCanComplete(aes: BlockCipher, ca: Config, cb: Config, x: nat, y: nat) returns (p: Pair)
    requires Knows(ca, cb) && Knows(cb, ca) && ValidKeys(ca, x) && ValidKeys(cb, y)
    ensures OnTrail(aes, ca, cb, p) && Reachable(aes, ca, cb, p)
    ensures p.a.s.handler == EstablishedHandler && p.b.s.handler == EstablishedHandler
    ensures p.a.s.layer.Some? && p.a.s.layer == p.b.s.layer
    ensures CreateAck(0, 0) in p.a.out && CreateAck(0, 0) in p.b.out
  {
    hide Reachable, OnTrail, NodeAct, PublicKeyOf, Greeted, KeySent, Echoing, AgreedValue, FoldKey;
    var p0 := BothHaveKeys(aes, ca, cb, x, y);
    var ka := AgreedValue(ca.group, ca.spriv, x, LookUp(ca, cb.myId), PublicKeyOf(cb.group, y));
    var kb := AgreedValue(cb.group, cb.spriv, y, LookUp(cb, ca.myId), PublicKeyOf(ca.group, x));
    Stages(ca, cb, x, RECEIVED_PUBLIC_KEY, ka, p0.a);
    Stages(cb, ca, y, RECEIVED_PUBLIC_KEY, kb, p0.b);
    var p1 := FirstGets(aes, ca, cb, p0, CreateAck(0, 0), 0);
    Agrees(aes, ca, cb, p0.a, x, PublicKeyOf(cb.group, y));
    OutGrows(aes, ca, p0.a, CreateAck(0, 0), 0);
    var p2 := SecondGets(aes, ca, cb, p1, CreateAck(0, 0), 0);
    Agrees(aes, cb, ca, p1.b, y, PublicKeyOf(ca.group, x));
    p := EchoesExchanged(aes, ca, cb, p2, ka, kb);
    AgreedValuesEqual(ca.group, ca.spriv, x, cb.spriv, y);
    TrailReaches(aes, ca, cb, p);
  }

  lemma EchoesExchanged(aes: BlockCipher, ca: Config, cb: Config, p0: Pair, ka: seq<byte>, kb: seq<byte>)
    returns (p: Pair)
    requires ca.group.p > 0 && cb.group.p > 0 && OnTrail(aes, ca, cb, p0)
    requires Echoing(ca, p0.a, ka) && Echoing(cb, p0.b, kb)
    ensures OnTrail(aes, ca, cb, p) && |ka| == |kb| == 2 * KEY_BYTES
    ensures p.a.s.handler == EstablishedHandler && p.a.s.layer == Some(FoldKey(ka))
    ensures p.b.s.handler == EstablishedHandler && p.b.s.layer == Some(FoldKey(kb))
    ensures CreateAck(0, 0) in p.a.out && CreateAck(0, 0) in p.b.out
  {
    assert |ka| == |kb| == 2 * KEY_BYTES;
    hide Reachable, OnTrail, NodeAct, Echoing, FoldKey;
    var echo := CreateEcho(ECHO_CONTENT);
    Stages(ca, cb, 0, 0, ka, p0.a);
    Stages(cb, ca, 0, 0, kb, p0.b);
    var p1 := FirstGets(aes, ca, cb, p0, echo, 0);
    Echoes(aes, ca, p0.a, ka);
    Stages(ca, cb, 0, 0, ka, p1.a);
    var p2 := SecondGets(aes, ca, cb, p1, echo, 0);
    Echoes(aes, cb, p1.b, kb);
    Stages(cb, ca, 0, 0, kb, p2.b);
    var p3 := FirstGets(aes, ca, cb, p2, CreateEchoBack(echo), 0);
    Establishes(aes, ca, p2.a, ka);
    OutGrows(aes, ca, p2.a, CreateEchoBack(echo), 0);
    p := SecondGets(aes, ca, cb, p3, CreateEchoBack(echo), 0);
    Establishes(aes, cb, p3.b, kb);
    OutGrows(aes, cb, p3.b, CreateEchoBack(echo), 0);
  }
}
