/** The handshake over whole runs: first one peer against any datagrams at all, then two peers over
    a network that loses, repeats and reorders what they send each other. */
module HandshakeRun {
  import opened Bytes
  import opened Wrappers
  import opened Cfb
  import opened Datagrams
  import opened KeyAgreement
  import opened HandshakeSpec

  // ---------- one peer, any datagrams ----------

  /** A peer with all it has announced, and how often it has entered the established phase. */
  datatype Life = Life(s: PeerState, log: seq<Notice>, entries: nat)

  datatype PeerEvent = Timeout | Receive(d: Datagram, priv: nat)

  ghost predicate EventEnabled(s: PeerState, e: PeerEvent) {
    e.Timeout? ==> s.timer.Some?
  }

  function React(aes: BlockCipher, c: Config, s: PeerState, e: PeerEvent): Reaction
    requires c.group.p > 0 && (e.Timeout? ==> s.timer.Some?)
  {
    match e
    case Timeout => Retransmit(s)
    case Receive(d, priv) => Handle(aes, c, s, d, priv)
  }

  ghost predicate LifeNext(aes: BlockCipher, c: Config, l: Life, l': Life)
    requires c.group.p > 0
  {
    exists e :: EventEnabled(l.s, e) &&
      var r := React(aes, c, l.s, e);
      l' == Life(r.s, l.log + r.notices,
                 if l.s.handler != EstablishedHandler && r.s.handler == EstablishedHandler then l.entries + 1
                 else l.entries)
  }

  ghost predicate IsLife(aes: BlockCipher, c: Config, run: seq<Life>)
    requires c.group.p > 0
  {
    && |run| > 0
    && run[0] == Life(Start(c).s, [], 0)
    && forall i :: 0 <= i < |run| - 1 ==> LifeNext(aes, c, run[i], run[i + 1])
  }

  function CountNewPeers(log: seq<Notice>): nat {
    if log == [] then 0 else CountNewPeers(log[..|log| - 1]) + if log[|log| - 1].NewPeer? then 1 else 0
  }

  lemma {:induction false} CountAppended(log: seq<Notice>, more: seq<Notice>)
    ensures CountNewPeers(log + more) == CountNewPeers(log) + CountNewPeers(more)
  {
    if more == [] {
      assert log + more == log;
    } else {
      var all := log + more;
      assert all[..|all| - 1] == log + more[..|more| - 1];
      CountAppended(log, more[..|more| - 1]);
    }
  }

  lemma {:induction false} NoNewPeers(log: seq<Notice>)
    requires forall i :: 0 <= i < |log| ==> log[i].NewStream?
    ensures CountNewPeers(log) == 0
  {
    if log != [] {
      NoNewPeers(log[..|log| - 1]);
    }
  }

  ghost predicate LifeInv(c: Config, l: Life) {
    PhaseInv(c, l.s) && CountNewPeers(l.log) == l.entries
  }

  lemma LifeNextKeeps(aes: BlockCipher, c: Config, l: Life, l': Life)
    requires c.group.p > 0 && LifeInv(c, l) && LifeNext(aes, c, l, l')
    ensures LifeInv(c, l')
  {
    hide PhaseInv, Handle, CountNewPeers;
    var e :| EventEnabled(l.s, e) && l'.s == React(aes, c, l.s, e).s && l'.log == l.log + React(aes, c, l.s, e).notices;
    var r := React(aes, c, l.s, e);
    CountAppended(l.log, r.notices);
    if e.Receive? {
      HandleKeeps(aes, c, l.s, e.d, e.priv);
    }
    if l.s.handler != EstablishedHandler && r.s.handler == EstablishedHandler {
      OneNewPeer(r.s.id);
    } else {
      NoNewPeers(r.notices);
    }
  }

  lemma OneNewPeer(id: seq<byte>)
    ensures CountNewPeers([NewPeer(id)]) == 1
  {
    assert [NewPeer(id)][..0] == [];
  }

  lemma {:induction false} LifeKeeps(aes: BlockCipher, c: Config, run: seq<Life>, i: nat)
    requires c.group.p > 0 && IsLife(aes, c, run) && i < |run|
    ensures LifeInv(c, run[i])
  {
    if i == 0 {
      StartHolds(c);
    } else {
      LifeKeeps(aes, c, run, i - 1);
      LifeNextKeeps(aes, c, run[i - 1], run[i]);
    }
  }

  /** Main result: whatever datagrams a peer receives, resets included, there is a key exactly if
      the agreement bit is set; the established handler has all the bits it asks for, so its
      exception is never raised and no missing key is ever used; and the peer is announced exactly
      once per entry to the established phase. */
  lemma PhaseSafety(aes: BlockCipher, c: Config, run: seq<Life>, i: nat, d: Datagram, priv: nat)
    requires c.group.p > 0 && IsLife(aes, c, run) && i < |run|
    ensures var s := run[i].s;
            && (s.layer.Some? <==> Has(s.bits, SHARED_KEY_AGREEMENT))
            && (s.handler == EstablishedHandler <==> s.bits == ESTABLISHED)
            && (s.handler == EchoHandler <==> Has(s.bits, WAIT_FOR_ECHO))
            && Handle(aes, c, s, d, priv).end !in {Threw(UnknownError), Threw(NullDereference)}
            && CountNewPeers(run[i].log) == run[i].entries
    ensures forall o, iv :: SendSealed(o, aes, run[i].s, d, iv).Success?
  {
    LifeKeeps(aes, c, run, i);
    HandleKeeps(aes, c, run[i].s, d, priv);
    hide Handle;
    PhaseBits(c, run[i].s);
  }

  lemma PhaseBits(c: Config, s: PeerState)
    requires PhaseInv(c, s)
    ensures s.layer.Some? <==> Has(s.bits, SHARED_KEY_AGREEMENT)
    ensures Has(s.bits, ESTABLISHED) <==> s.handler in {EchoHandler, EstablishedHandler}
    ensures s.handler == EstablishedHandler <==> s.bits == ESTABLISHED
    ensures s.handler == EchoHandler <==> Has(s.bits, WAIT_FOR_ECHO)
  {
  }

  /** The datagram of the current flight, if the other end has not yet answered it. */
  function Unanswered(c: Config, s: PeerState): Option<Datagram> {
    if !Has(s.bits, SENT_PUBLIC_KEY) then
      if Has(s.bits, RECEIVED_HELLO_ACK) then None else Some(CreateHello(c.myId))
    else if !Has(s.bits, SHARED_KEY_AGREEMENT) then
      if Has(s.bits, RECEIVED_PUBLIC_KEY_ACK) || s.ephemeral.None? then None
      else Some(CreatePublicKey(s.ephemeral.value.pub))
    else if Has(s.bits, WAIT_FOR_ECHO) then Some(CreateEcho(ECHO_CONTENT))
    else None
  }

  /** Main result: the timer is armed exactly while the current flight is unanswered, with exactly
      that flight, and its firing sends the flight again and changes nothing; nothing is armed once
      the peer is established. */
  lemma TimerSafety(aes: BlockCipher, c: Config, run: seq<Life>, i: nat)
    requires c.group.p > 0 && IsLife(aes, c, run) && i < |run|
    ensures run[i].s.timer == Unanswered(c, run[i].s)
    ensures run[i].s.timer.Some? ==>
              React(aes, c, run[i].s, Timeout) == Reaction(run[i].s, [Unanswered(c, run[i].s).value], [], Done)
    ensures run[i].s.handler == EstablishedHandler ==> run[i].s.timer == None
  {
    LifeKeeps(aes, c, run, i);
  }

  // ---------- two peers ----------

  /** A peer with the history of what it transmitted. */
  datatype Node = Node(s: PeerState, out: set<Datagram>)

  datatype Pair = Pair(a: Node, b: Node)

  /** Both configurations name the other end's id and its true static key, in the same group. */
  ghost predicate Knows(c: Config, other: Config) {
    && GoodGroup(c.group) && other.group == c.group
    && LookUp(c, other.myId) == PublicKeyOf(c.group, other.spriv)
  }

  datatype NodeEvent =
    | Fires
    | Gets(d: Datagram, priv: nat)
    | Transmits(d: Datagram)

  /** An established peer that receives a hello starts over; these runs stop before that. An
      established peer may also transmit whatever its streams want to. */
  ghost predicate NodeEnabled(n: Node, inbound: set<Datagram>, e: NodeEvent) {
    match e
    case Fires => n.s.timer.Some?
    case Gets(d, _) => d in inbound && !(n.s.handler == EstablishedHandler && d.kind == HELLO)
    case Transmits(d) => Has(n.s.bits, ESTABLISHED) && (d.kind == DATA || d.kind == DATA_ACK)
  }

  ghost function NodeAct(aes: BlockCipher, c: Config, n: Node, e: NodeEvent): Node
    requires c.group.p > 0 && (e.Fires? ==> n.s.timer.Some?)
  {
    match e
    case Fires => Node(n.s, n.out + {n.s.timer.value})
    case Gets(d, priv) =>
      var r := Handle(aes, c, n.s, d, priv);
      Node(r.s, n.out + (set x | x in r.sent))
    case Transmits(d) => Node(n.s, n.out + {d})
  }

  ghost function StartNode(c: Config): Node {
    Node(Start(c).s, set d | d in Start(c).sent)
  }

  ghost predicate PairNext(aes: BlockCipher, ca: Config, cb: Config, p: Pair, p': Pair)
    requires ca.group.p > 0 && cb.group.p > 0
  {
    || (exists e :: NodeEnabled(p.a, p.b.out, e) && p' == Pair(NodeAct(aes, ca, p.a, e), p.b))
    || (exists e :: NodeEnabled(p.b, p.a.out, e) && p' == Pair(p.a, NodeAct(aes, cb, p.b, e)))
  }

  ghost predicate IsPairRun(aes: BlockCipher, ca: Config, cb: Config, run: seq<Pair>)
    requires ca.group.p > 0 && cb.group.p > 0
  {
    && |run| > 0
    && run[0] == Pair(StartNode(ca), StartNode(cb))
    && forall i :: 0 <= i < |run| - 1 ==> PairNext(aes, ca, cb, run[i], run[i + 1])
  }

  // ---------- what a peer has sent says about it ----------

  /** What the datagram tells about the peer that sent it. */
  ghost predicate Truthful(c: Config, s: PeerState, d: Datagram) {
    && (d.kind == HELLO ==> d.payload == c.myId)
    && (d.kind == ACK ==> Has(s.bits, RECEIVED_HELLO))
    && (d.kind == PUBLIC_KEY ==> s.ephemeral.Some? && d.payload == s.ephemeral.value.pub)
    && (d.kind == ECHO_BACK ==> Has(s.bits, ESTABLISHED))
  }

  ghost predicate NodeInv(c: Config, n: Node) {
    && PhaseInv(c, n.s)
    && (n.s.handler == HelloHandler <==> n.s.ephemeral.None?)
    && (n.s.ephemeral.Some? ==>
          c.group.p > 0 && n.s.ephemeral.value.pub == PublicKeyOf(c.group, n.s.ephemeral.value.priv))
    && forall d :: d in n.out ==> Truthful(c, n.s, d)
  }

  /** Nothing a peer has told others is taken back. */
  ghost predicate Grows(s: PeerState, s': PeerState) {
    && (Has(s.bits, RECEIVED_HELLO) ==> Has(s'.bits, RECEIVED_HELLO))
    && (Has(s.bits, ESTABLISHED) ==> Has(s'.bits, ESTABLISHED))
    && (s.ephemeral.Some? ==> s'.ephemeral == s.ephemeral)
  }

  /** What a reaction sends is truthful, and nothing is taken back. */
  ghost predicate Honest(c: Config, s: PeerState, r: Reaction) {
    && Grows(s, r.s)
    && (r.s.handler == HelloHandler <==> r.s.ephemeral.None?)
    && (forall x :: x in r.sent ==> Truthful(c, r.s, x))
    && (s.ephemeral.None? && r.s.ephemeral.Some? ==>
          c.group.p > 0 && r.s.ephemeral.value.pub == PublicKeyOf(c.group, r.s.ephemeral.value.priv))
  }

  lemma HelloTruthful(c: Config, s: PeerState, d: Datagram, priv: nat)
    requires c.group.p > 0 && PhaseInv(c, s) && s.handler == HelloHandler && s.ephemeral.None?
    ensures Honest(c, s, HandleHello(c, s, d, priv))
  {
    HelloBits(s.bits);
    hide PublicKeyOf, PhaseInv, Has, LookUp;
  }

  lemma HelloBits(b: bv32)
    requires b == SENT_HELLO || b == SENT_HELLO | RECEIVED_HELLO_ACK || b == SENT_HELLO | RECEIVED_HELLO
    ensures !Has(b, ESTABLISHED)
    ensures Has(b | RECEIVED_HELLO, RECEIVED_HELLO) && Has(b | RECEIVED_HELLO | SENT_PUBLIC_KEY, RECEIVED_HELLO)
    ensures Has(b, RECEIVED_HELLO) ==> Has(b | RECEIVED_HELLO_ACK, RECEIVED_HELLO)
    ensures Has(b, RECEIVED_HELLO) ==> Has(b | RECEIVED_HELLO_ACK | SENT_PUBLIC_KEY, RECEIVED_HELLO)
  {
  }

  lemma PublicKeyTruthful(c: Config, s: PeerState, d: Datagram)
    requires c.group.p > 0 && PhaseInv(c, s) && s.handler == PublicKeyHandler && s.ephemeral.Some?
    ensures Honest(c, s, HandlePublicKey(c, s, d))
  {
    hide PublicKeyOf, FoldKey, Agree;
  }

  lemma EchoTruthful(c: Config, s: PeerState, d: Datagram)
    requires PhaseInv(c, s) && s.handler == EchoHandler && s.ephemeral.Some?
    ensures Honest(c, s, HandleEcho(s, d))
  {
    hide PublicKeyOf;
  }

  lemma EstablishedTruthful(aes: BlockCipher, c: Config, s: PeerState, d: Datagram)
    requires PhaseInv(c, s) && s.handler == EstablishedHandler && s.ephemeral.Some? && d.kind != HELLO
    ensures Honest(c, s, HandleEstablished(aes, c, s, d))
  {
    hide PublicKeyOf, DecryptPayload;
  }

  lemma HandleTruthful(aes: BlockCipher, c: Config, s: PeerState, d: Datagram, priv: nat)
    requires c.group.p > 0 && PhaseInv(c, s)
    requires s.handler == HelloHandler <==> s.ephemeral.None?
    requires !(s.handler == EstablishedHandler && d.kind == HELLO)
    ensures Honest(c, s, Handle(aes, c, s, d, priv))
  {
    hide PhaseInv, Honest;
    match s.handler
    case HelloHandler => HelloTruthful(c, s, d, priv);
    case PublicKeyHandler => PublicKeyTruthful(c, s, d);
    case EchoHandler => EchoTruthful(c, s, d);
    case EstablishedHandler => EstablishedTruthful(aes, c, s, d);
  }

  lemma NodeActKeeps(aes: BlockCipher, c: Config, n: Node, inbound: set<Datagram>, e: NodeEvent)
    requires c.group.p > 0 && NodeInv(c, n) && NodeEnabled(n, inbound, e)
    ensures NodeInv(c, NodeAct(aes, c, n, e)) && Grows(n.s, NodeAct(aes, c, n, e).s)
  {
    match e
    case Fires =>
      ArmedIsTruthful(c, n.s);
    case Transmits(_) =>
    case Gets(d, priv) =>
      HandleTruthful(aes, c, n.s, d, priv);
      HandleKeeps(aes, c, n.s, d, priv);
      hide Handle, PhaseInv, PublicKeyOf;
      var s' := Handle(aes, c, n.s, d, priv).s;
      forall x | x in n.out
        ensures Truthful(c, s', x)
      {
        assert Truthful(c, n.s, x);
      }
  }

  lemma ArmedIsTruthful(c: Config, s: PeerState)
    requires PhaseInv(c, s) && s.timer.Some?
    ensures Truthful(c, s, s.timer.value)
  {
  }

  // ---------- what a peer knows about the other ----------

  /** The key of `a` is the one derived from its own private keys and the public keys of `b`. */
  ghost predicate KeyOf(ca: Config, cb: Config, a: PeerState, b: PeerState)
    requires ca.group.p > 0
  {
    && a.layer.Some? && a.ephemeral.Some? && b.ephemeral.Some?
    && a.layer.value == FoldKey(AgreedValue(ca.group, ca.spriv, a.ephemeral.value.priv,
                                            LookUp(ca, cb.myId), b.ephemeral.value.pub))
  }

  /** What `a` has recorded is true of `b`. */
  ghost predicate KnowInv(ca: Config, cb: Config, a: PeerState, b: PeerState)
    requires ca.group.p > 0
  {
    && (Has(a.bits, RECEIVED_HELLO_ACK) ==> Has(b.bits, RECEIVED_HELLO))
    && (Has(a.bits, RECEIVED_HELLO) ==> a.id == cb.myId && a.peerSpub == LookUp(ca, cb.myId))
    && (Has(a.bits, RECEIVED_PUBLIC_KEY) ==>
          b.ephemeral.Some? && a.peerKeys == Some((LookUp(ca, cb.myId), b.ephemeral.value.pub)))
    && (a.layer.Some? ==> KeyOf(ca, cb, a, b))
    && (a.handler == EstablishedHandler ==> Has(b.bits, ESTABLISHED))
  }

  /** What `a` knows stays true when `b` moves on. */
  lemma KnowledgeStays(ca: Config, cb: Config, a: PeerState, b: PeerState, b': PeerState)
    requires ca.group.p > 0 && KnowInv(ca, cb, a, b) && Grows(b, b')
    ensures KnowInv(ca, cb, a, b')
  {
    hide FoldKey, AgreedValue;
  }

  // What `a` learns from a truthful datagram of `b` is true, handler by handler.

  lemma LearnedHello(ca: Config, cb: Config, a: PeerState, b: PeerState, d: Datagram, priv: nat)
    requires ca.group.p > 0 && PhaseInv(ca, a) && KnowInv(ca, cb, a, b) && Truthful(cb, b, d)
    requires a.handler == HelloHandler && a.ephemeral.None?
    ensures KnowInv(ca, cb, HandleHello(ca, a, d, priv).s, b)
  {
    hide PublicKeyOf, FoldKey, AgreedValue, DecryptPayload;
  }

  lemma LearnedPublicKey(ca: Config, cb: Config, a: PeerState, b: PeerState, d: Datagram)
    requires ca.group.p > 0 && PhaseInv(ca, a) && KnowInv(ca, cb, a, b) && Truthful(cb, b, d)
    requires a.handler == PublicKeyHandler
    ensures KnowInv(ca, cb, HandlePublicKey(ca, a, d).s, b)
  {
    hide PublicKeyOf, FoldKey, AgreedValue, DecryptPayload, LookUp, DecodeNat;
    KeyExchangeBits(a.bits);
    var r := ReceivedInKeyExchange(a, d);
    assert KnowInv(ca, cb, r.s, b);
  }

  lemma KeyExchangeBits(b: bv32)
    requires b & !(RECEIVED_PUBLIC_KEY_ACK | RECEIVED_PUBLIC_KEY) == HELLO_COMPLETE | SENT_PUBLIC_KEY
    ensures Has(b, RECEIVED_HELLO_ACK) && Has(b, RECEIVED_HELLO)
  {
  }

  lemma LearnedEcho(ca: Config, cb: Config, a: PeerState, b: PeerState, d: Datagram)
    requires ca.group.p > 0 && PhaseInv(ca, a) && KnowInv(ca, cb, a, b) && Truthful(cb, b, d)
    requires a.handler == EchoHandler
    ensures KnowInv(ca, cb, HandleEcho(a, d).s, b)
  {
    hide PublicKeyOf, FoldKey, AgreedValue, DecryptPayload;
  }

  lemma LearnedEstablished(aes: BlockCipher, ca: Config, cb: Config, a: PeerState, b: PeerState, d: Datagram)
    requires ca.group.p > 0 && PhaseInv(ca, a) && KnowInv(ca, cb, a, b) && Truthful(cb, b, d)
    requires a.handler == EstablishedHandler && d.kind != HELLO
    ensures KnowInv(ca, cb, HandleEstablished(aes, ca, a, d).s, b)
  {
    hide PublicKeyOf, FoldKey, AgreedValue, DecryptPayload;
  }

  lemma KnowledgeLearned(aes: BlockCipher, ca: Config, cb: Config, a: PeerState, b: PeerState, d: Datagram, priv: nat)
    requires ca.group.p > 0 && PhaseInv(ca, a) && KnowInv(ca, cb, a, b) && Truthful(cb, b, d)
    requires a.handler == HelloHandler <==> a.ephemeral.None?
    requires !(a.handler == EstablishedHandler && d.kind == HELLO)
    ensures KnowInv(ca, cb, Handle(aes, ca, a, d, priv).s, b)
  {
    hide PhaseInv, KnowInv, Truthful;
    match a.handler
    case HelloHandler => LearnedHello(ca, cb, a, b, d, priv);
    case PublicKeyHandler => LearnedPublicKey(ca, cb, a, b, d);
    case EchoHandler => LearnedEcho(ca, cb, a, b, d);
    case EstablishedHandler => LearnedEstablished(aes, ca, cb, a, b, d);
  }

  ghost predicate PairInv(ca: Config, cb: Config, p: Pair)
    requires ca.group.p > 0 && cb.group.p > 0
  {
    && NodeInv(ca, p.a) && NodeInv(cb, p.b)
    && KnowInv(ca, cb, p.a.s, p.b.s) && KnowInv(cb, ca, p.b.s, p.a.s)
  }

  /** One step of `a`, with what each end knows. */
  lemma ActKeepsKnowledge(aes: BlockCipher, ca: Config, cb: Config, a: Node, b: Node, e: NodeEvent)
    requires ca.group.p > 0 && cb.group.p > 0
    requires NodeInv(ca, a) && NodeInv(cb, b) && KnowInv(ca, cb, a.s, b.s) && KnowInv(cb, ca, b.s, a.s)
    requires NodeEnabled(a, b.out, e)
    ensures var a' := NodeAct(aes, ca, a, e);
            NodeInv(ca, a') && KnowInv(ca, cb, a'.s, b.s) && KnowInv(cb, ca, b.s, a'.s)
  {
    hide Handle, PhaseInv, KnowInv, Grows, Truthful;
    NodeActKeeps(aes, ca, a, b.out, e);
    KnowledgeStays(cb, ca, b.s, a.s, NodeAct(aes, ca, a, e).s);
    if e.Gets? {
      KnowledgeLearned(aes, ca, cb, a.s, b.s, e.d, e.priv);
    }
  }

  lemma PairStarts(ca: Config, cb: Config)
    requires ca.group.p > 0 && cb.group.p > 0
    ensures PairInv(ca, cb, Pair(StartNode(ca), StartNode(cb)))
  {
  }

  lemma {:induction false} PairKeeps(aes: BlockCipher, ca: Config, cb: Config, run: seq<Pair>, i: nat)
    requires ca.group.p > 0 && cb.group.p > 0 && IsPairRun(aes, ca, cb, run) && i < |run|
    ensures PairInv(ca, cb, run[i])
  {
    hide NodeInv, KnowInv, NodeAct;
    if i == 0 {
      PairStarts(ca, cb);
    } else {
      PairKeeps(aes, ca, cb, run, i - 1);
      var p, p' := run[i - 1], run[i];
      assert PairNext(aes, ca, cb, p, p');
      if e :| NodeEnabled(p.a, p.b.out, e) && p' == Pair(NodeAct(aes, ca, p.a, e), p.b) {
        ActKeepsKnowledge(aes, ca, cb, p.a, p.b, e);
      } else {
        var e :| NodeEnabled(p.b, p.a.out, e) && p' == Pair(p.a, NodeAct(aes, cb, p.b, e));
        ActKeepsKnowledge(aes, cb, ca, p.b, p.a, e);
      }
    }
  }

  // ---------- what two peers can rely on ----------

  /** Main result: an established peer's counterpart has agreed on a key. */
  lemma EstablishedMeansKeyed(aes: BlockCipher, ca: Config, cb: Config, run: seq<Pair>, i: nat)
    requires ca.group.p > 0 && cb.group.p > 0 && IsPairRun(aes, ca, cb, run) && i < |run|
    ensures var a, b := run[i].a.s, run[i].b.s;
            && (a.handler == EstablishedHandler ==> Has(b.bits, ESTABLISHED) && b.layer.Some?)
            && (b.handler == EstablishedHandler ==> Has(a.bits, ESTABLISHED) && a.layer.Some?)
  {
    PairKeeps(aes, ca, cb, run, i);
    PhaseBits(ca, run[i].a.s);
    PhaseBits(cb, run[i].b.s);
  }

  /** A peer that has completed the exchange of hellos knows the other's id and true static key, and is
      known to it. */
  ghost predicate Acquainted(ca: Config, cb: Config, a: PeerState, b: PeerState)
    requires ca.group.p > 0 && cb.group.p > 0
  {
    Has(a.bits, HELLO_COMPLETE) ==>
      && a.id == cb.myId && a.peerSpub == PublicKeyOf(ca.group, cb.spriv)
      && Has(b.bits, RECEIVED_HELLO)
      && b.id == ca.myId && b.peerSpub == PublicKeyOf(ca.group, ca.spriv)
  }

  lemma KnownIsAcquainted(ca: Config, cb: Config, a: PeerState, b: PeerState)
    requires Knows(ca, cb) && Knows(cb, ca) && ca.group.p > 0 && cb.group.p > 0
    requires KnowInv(ca, cb, a, b) && KnowInv(cb, ca, b, a)
    ensures Acquainted(ca, cb, a, b)
  {
    hide PublicKeyOf, GoodGroup, KeyOf;
    assert Has(a.bits, HELLO_COMPLETE) ==> Has(a.bits, RECEIVED_HELLO_ACK) && Has(a.bits, RECEIVED_HELLO);
  }

  /** Main result: either peer is acquainted with the other as soon as it has completed the exchange of
      hellos; and any two derived keys are equal. */
  lemma IdentityAndKeyAgreement(aes: BlockCipher, ca: Config, cb: Config, run: seq<Pair>, i: nat)
    requires Knows(ca, cb) && Knows(cb, ca) && IsPairRun(aes, ca, cb, run) && i < |run|
    ensures var a, b := run[i].a.s, run[i].b.s;
            && Acquainted(ca, cb, a, b) && Acquainted(cb, ca, b, a)
            && (a.layer.Some? && b.layer.Some? ==> a.layer == b.layer)
  {
    PairKeeps(aes, ca, cb, run, i);
    var a, b := run[i].a.s, run[i].b.s;
    KnownIsAcquainted(ca, cb, a, b);
    KnownIsAcquainted(cb, ca, b, a);
    hide PublicKeyOf, FoldKey, AgreedValue, PhaseInv, Truthful, IsPairRun, GoodGroup, Acquainted;
    if a.layer.Some? && b.layer.Some? {
      AgreedValuesEqual(ca.group, ca.spriv, a.ephemeral.value.priv, cb.spriv, b.ephemeral.value.priv);
    }
  }

  // ---------- what a premature acknowledgement costs ----------

  /** The public key datagrams that a peer has sent. */
  ghost function KeysSent(n: Node): set<Datagram> {
    set d | d in n.out && d.kind == PUBLIC_KEY
  }

  lemma AckedBits(c: Config, s: PeerState)
    requires PhaseInv(c, s) && Has(s.bits, RECEIVED_PUBLIC_KEY_ACK)
    ensures s.handler != HelloHandler
    ensures s.timer.Some? ==> s.timer.value.kind != PUBLIC_KEY
  {
  }

  /** After the acknowledgement of its public key, genuine or not, a peer never sends the key again. */
  lemma AckedStep(aes: BlockCipher, c: Config, n: Node, inbound: set<Datagram>, e: NodeEvent)
    requires c.group.p > 0 && NodeInv(c, n) && NodeEnabled(n, inbound, e) && Has(n.s.bits, RECEIVED_PUBLIC_KEY_ACK)
    ensures var n' := NodeAct(aes, c, n, e);
            Has(n'.s.bits, RECEIVED_PUBLIC_KEY_ACK) && KeysSent(n') == KeysSent(n)
  {
    AckedBits(c, n.s);
    hide PublicKeyOf, Truthful;
    if e.Gets? {
      match n.s.handler
      case HelloHandler =>
      case PublicKeyHandler => AckedKeyExchange(c, n.s, e.d);
      case EchoHandler => AckedEcho(c, n.s, e.d);
      case EstablishedHandler => AckedEstablished(aes, c, n.s, e.d);
      hide PhaseInv, Handle;
    }
  }

  lemma AckedKeyExchange(c: Config, s: PeerState, d: Datagram)
    requires c.group.p > 0 && Has(s.bits, RECEIVED_PUBLIC_KEY_ACK)
    ensures var r := HandlePublicKey(c, s, d);
            Has(r.s.bits, RECEIVED_PUBLIC_KEY_ACK) && forall x :: x in r.sent ==> x.kind != PUBLIC_KEY
  {
    hide FoldKey, Agree;
  }

  lemma AckedEcho(c: Config, s: PeerState, d: Datagram)
    requires Has(s.bits, RECEIVED_PUBLIC_KEY_ACK)
    ensures var r := HandleEcho(s, d);
            Has(r.s.bits, RECEIVED_PUBLIC_KEY_ACK) && forall x :: x in r.sent ==> x.kind != PUBLIC_KEY
  {
  }

  lemma AckedEstablished(aes: BlockCipher, c: Config, s: PeerState, d: Datagram)
    requires Has(s.bits, RECEIVED_PUBLIC_KEY_ACK) && d.kind != HELLO
    ensures var r := HandleEstablished(aes, c, s, d);
            Has(r.s.bits, RECEIVED_PUBLIC_KEY_ACK) && forall x :: x in r.sent ==> x.kind != PUBLIC_KEY
  {
    hide DecryptPayload;
  }

  /** Once a peer has taken an acknowledgement for that of its public key, no run makes it send a public
      key again: the ones it has sent are all there will be. */
  lemma {:induction false} KeyNeverSentAgain(aes: BlockCipher, ca: Config, cb: Config, run: seq<Pair>, i: nat, j: nat)
    requires ca.group.p > 0 && cb.group.p > 0 && IsPairRun(aes, ca, cb, run) && i <= j < |run|
    requires Has(run[i].a.s.bits, RECEIVED_PUBLIC_KEY_ACK)
    ensures Has(run[j].a.s.bits, RECEIVED_PUBLIC_KEY_ACK) && KeysSent(run[j].a) == KeysSent(run[i].a)
    decreases j - i
  {
    hide NodeInv, KnowInv, NodeAct, Has, KeysSent;
    if i < j {
      KeyNeverSentAgain(aes, ca, cb, run, i, j - 1);
      PairKeeps(aes, ca, cb, run, j - 1);
      var p, p' := run[j - 1], run[j];
      assert PairNext(aes, ca, cb, p, p');
      if p'.a != p.a {
        var e :| NodeEnabled(p.a, p.b.out, e) && p' == Pair(NodeAct(aes, ca, p.a, e), p.b);
        AckedStep(aes, ca, p.a, p.b.out, e);
      }
    }
  }

  /** `b` takes a public key in the step from `p` to `p'`. */
  ghost predicate TakesKeyNow(aes: BlockCipher, cb: Config, p: Pair, p': Pair, d: Datagram)
    requires cb.group.p > 0
  {
    && d in p.a.out && d.kind == PUBLIC_KEY
    && exists priv: nat :: p'.b == NodeAct(aes, cb, p.b, Gets(d, priv))
  }

  lemma BitNeedsKey(aes: BlockCipher, c: Config, n: Node, inbound: set<Datagram>, e: NodeEvent)
    requires c.group.p > 0 && NodeInv(c, n) && NodeEnabled(n, inbound, e)
    requires !Has(n.s.bits, RECEIVED_PUBLIC_KEY) && Has(NodeAct(aes, c, n, e).s.bits, RECEIVED_PUBLIC_KEY)
    ensures e.Gets? && e.d.kind == PUBLIC_KEY
  {
    hide PublicKeyOf, FoldKey, Agree, DecryptPayload, Truthful, LookUp;
  }

  lemma PhaseNeedsKey(c: Config, s: PeerState)
    requires PhaseInv(c, s) && (s.handler == EchoHandler || s.handler == EstablishedHandler)
    ensures Has(s.bits, RECEIVED_PUBLIC_KEY)
  {
  }

  /** Only a public key datagram sets the bit. */
  lemma BitStep(aes: BlockCipher, ca: Config, cb: Config, p: Pair, p': Pair) returns (d: Datagram)
    requires ca.group.p > 0 && cb.group.p > 0 && NodeInv(cb, p.b) && PairNext(aes, ca, cb, p, p')
    requires !Has(p.b.s.bits, RECEIVED_PUBLIC_KEY) && Has(p'.b.s.bits, RECEIVED_PUBLIC_KEY)
    ensures d in KeysSent(p.a) && TakesKeyNow(aes, cb, p, p', d)
  {
    hide NodeInv, NodeAct, Has;
    var e :| NodeEnabled(p.b, p.a.out, e) && p' == Pair(p.a, NodeAct(aes, cb, p.b, e));
    BitNeedsKey(aes, cb, p.b, p.a.out, e);
    d := e.d;
  }

  lemma StepOf(aes: BlockCipher, ca: Config, cb: Config, run: seq<Pair>, j: nat)
    requires ca.group.p > 0 && cb.group.p > 0 && IsPairRun(aes, ca, cb, run) && 0 < j < |run|
    ensures PairNext(aes, ca, cb, run[j - 1], run[j]) && NodeInv(cb, run[j - 1].b)
  {
    hide NodeInv, KnowInv, PairNext;
    PairKeeps(aes, ca, cb, run, j - 1);
  }

  /** The price: if the other end has no key of this one by then, it gets one only by receiving one of
      the copies sent before ... */
  lemma {:induction false} OnlyByAnOldCopy(aes: BlockCipher, ca: Config, cb: Config, run: seq<Pair>, i: nat, j: nat)
    returns (k: nat, d: Datagram)
    requires ca.group.p > 0 && cb.group.p > 0 && IsPairRun(aes, ca, cb, run) && i <= j < |run|
    requires Has(run[i].a.s.bits, RECEIVED_PUBLIC_KEY_ACK) && !Has(run[i].b.s.bits, RECEIVED_PUBLIC_KEY)
    requires Has(run[j].b.s.bits, RECEIVED_PUBLIC_KEY)
    ensures i <= k < j && d in KeysSent(run[i].a) && TakesKeyNow(aes, cb, run[k], run[k + 1], d)
    decreases j - i
  {
    hide IsPairRun, PairNext, NodeInv, Has, KeysSent, TakesKeyNow;
    if Has(run[j - 1].b.s.bits, RECEIVED_PUBLIC_KEY) {
      k, d := OnlyByAnOldCopy(aes, ca, cb, run, i, j - 1);
    } else {
      KeyNeverSentAgain(aes, ca, cb, run, i, j - 1);
      StepOf(aes, ca, cb, run, j);
      d := BitStep(aes, ca, cb, run[j - 1], run[j]);
      k := j - 1;
    }
  }

  /** ... so that it leaves the key exchange by such a copy or not at all. */
  lemma StalledWithoutIt(aes: BlockCipher, ca: Config, cb: Config, run: seq<Pair>, i: nat, j: nat)
    requires ca.group.p > 0 && cb.group.p > 0 && IsPairRun(aes, ca, cb, run) && i <= j < |run|
    requires Has(run[i].a.s.bits, RECEIVED_PUBLIC_KEY_ACK) && !Has(run[i].b.s.bits, RECEIVED_PUBLIC_KEY)
    requires forall k, d :: i <= k < j && d in KeysSent(run[i].a) ==> !TakesKeyNow(aes, cb, run[k], run[k + 1], d)
    ensures run[j].b.s.handler == HelloHandler || run[j].b.s.handler == PublicKeyHandler
  {
    hide IsPairRun, Has, KeysSent, TakesKeyNow, PhaseInv, KnowInv, Truthful;
    PairKeeps(aes, ca, cb, run, j);
    if run[j].b.s.handler == EchoHandler || run[j].b.s.handler == EstablishedHandler {
      PhaseNeedsKey(cb, run[j].b.s);
      var k, d := OnlyByAnOldCopy(aes, ca, cb, run, i, j);
      assert false;
    }
  }
}
