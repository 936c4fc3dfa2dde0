/** What a peer does with any datagram in any phase, over all handlers at once. */
module HandshakeLaws {
  import opened Bytes
  import opened Wrappers
  import opened Cfb
  import opened Datagrams
  import opened KeyAgreement
  import opened HandshakeSpec

  // ---------- what is sent ----------

  /** What must be answered, and how: hellos and public keys are acknowledged as long as the other end
      may be waiting for it, and echoes are echoed. */
  function Answers(phase: Handler, d: Datagram): seq<Datagram> {
    var ack := Datagram(ACK, 0, 0, 0, []);
    if d.kind == HELLO && (phase == HelloHandler || phase == PublicKeyHandler) then [ack]
    else if d.kind == PUBLIC_KEY && (phase == PublicKeyHandler || phase == EchoHandler) then [ack]
    else if d.kind == ECHO && (phase == EchoHandler || phase == EstablishedHandler) then [d.(kind := ECHO_BACK)]
    else []
  }

  /** A peer starts over when it is established and receives a hello. */
  predicate StartsOver(s: PeerState, d: Datagram) {
    s.handler == EstablishedHandler && d.kind == HELLO
  }

  /** Everything a peer sends is an answer, or what it arms its timer with on entering a phase. */
  ghost predicate SendsRight(s: PeerState, d: Datagram, r: Reaction) {
    r.sent == Answers(s.handler, d)
            + if r.s.handler != s.handler && r.s.timer.Some? then [r.s.timer.value] else []
  }

  lemma HelloSends(c: Config, s: PeerState, d: Datagram, priv: nat)
    requires c.group.p > 0 && PhaseInv(c, s) && s.handler == HelloHandler
    ensures SendsRight(s, d, HandleHello(c, s, d, priv))
  {
    hide PublicKeyOf;
  }

  lemma PublicKeySends(c: Config, s: PeerState, d: Datagram)
    requires c.group.p > 0 && PhaseInv(c, s) && s.handler == PublicKeyHandler
    ensures SendsRight(s, d, HandlePublicKey(c, s, d))
  {
    hide FoldKey, Agree;
  }

  lemma EchoSends(c: Config, s: PeerState, d: Datagram)
    requires PhaseInv(c, s) && s.handler == EchoHandler
    ensures SendsRight(s, d, HandleEcho(s, d))
  {
  }

  lemma EstablishedSends(aes: BlockCipher, c: Config, s: PeerState, d: Datagram)
    requires PhaseInv(c, s) && s.handler == EstablishedHandler && d.kind != HELLO
    ensures SendsRight(s, d, HandleEstablished(aes, c, s, d))
  {
    hide DecryptPayload;
  }

  /** What a peer sends, for every state in a phase and every datagram but the one that makes it start
      over. */
  lemma HandleSends(aes: BlockCipher, c: Config, s: PeerState, d: Datagram, priv: nat)
    requires c.group.p > 0 && PhaseInv(c, s) && !StartsOver(s, d)
    ensures SendsRight(s, d, Handle(aes, c, s, d, priv))
  {
    hide PhaseInv, SendsRight, HandleHello, HandlePublicKey, HandleEcho, HandleEstablished;
    match s.handler
    case HelloHandler => HelloSends(c, s, d, priv);
    case PublicKeyHandler => PublicKeySends(c, s, d);
    case EchoHandler => EchoSends(c, s, d);
    case EstablishedHandler => EstablishedSends(aes, c, s, d);
  }

  // ---------- which phase comes next ----------

  /** The two public keys of the other end, as this datagram leaves them. */
  function KeysAfter(s: PeerState, d: Datagram): Option<(seq<byte>, seq<byte>)> {
    if s.handler == PublicKeyHandler && d.kind == PUBLIC_KEY then Some((s.peerSpub, d.payload)) else s.peerKeys
  }

  /** The datagram leaves nothing missing in the exchange of public keys. */
  predicate KeysExchanged(s: PeerState, d: Datagram) {
    && s.handler == PublicKeyHandler && KeysAfter(s, d).Some?
    && (d.kind == PUBLIC_KEY || Has(s.bits, RECEIVED_PUBLIC_KEY))
    && (d.kind == ACK || Has(s.bits, RECEIVED_PUBLIC_KEY_ACK))
  }

  predicate KeysValid(c: Config, s: PeerState, d: Datagram) {
    && KeysAfter(s, d).Some?
    && c.group.valid(DecodeNat(KeysAfter(s, d).value.0)) && c.group.valid(DecodeNat(KeysAfter(s, d).value.1))
  }

  /** The first phase ends when hello and acknowledgement have both arrived, the second when public key
      and acknowledgement have and the keys are valid, the third when the echo has come back, and the
      last when the other end starts over. */
  function NextPhase(c: Config, s: PeerState, d: Datagram): Handler {
    match s.handler
    case HelloHandler =>
      if (d.kind == HELLO && Has(s.bits, RECEIVED_HELLO_ACK)) || (d.kind == ACK && Has(s.bits, RECEIVED_HELLO))
      then PublicKeyHandler else HelloHandler
    case PublicKeyHandler =>
      if KeysExchanged(s, d) && KeysValid(c, s, d) then EchoHandler else PublicKeyHandler
    case EchoHandler =>
      if d.kind == ECHO_BACK && d.payload == ECHO_CONTENT then EstablishedHandler else EchoHandler
    case EstablishedHandler =>
      if d.kind == HELLO then HelloHandler else EstablishedHandler
  }

  /** How the handling ends. */
  ghost predicate EndsRight(aes: BlockCipher, c: Config, s: PeerState, d: Datagram, end: Ending) {
    if s.handler != EstablishedHandler then
      end == if KeysExchanged(s, d) && !KeysValid(c, s, d) then Threw(AgreementFailed) else Done
    else if d.kind == ABORT then end == RemovePeer
    else if d.kind == HELLO || d.kind == ECHO || d.kind == ECHO_BACK then end == Done
    else if s.layer.None? then false
    else
      match DecryptPayload(aes, s.layer.value, d)
      case Success(plain) => end == Dispatch(plain)
      case Failure(_) => end == Threw(InvalidPayload)
  }

  /** The key of the cipher that follows from both pairs of keys. */
  function AgreedKey(c: Config, own: Option<Ephemeral>, other: Option<(seq<byte>, seq<byte>)>): Option<Block>
    requires c.group.p > 0 && own.Some? && other.Some?
  {
    Some(FoldKey(AgreedValue(c.group, c.spriv, own.value.priv, other.value.0, other.value.1)))
  }

  /** What the peer knows afterwards: who the other end is, what its keys are, and the agreed key. */
  ghost predicate LearnsRight(c: Config, s: PeerState, d: Datagram, priv: nat, t: PeerState)
    requires c.group.p > 0
  {
    var greeted := d.kind == HELLO && (s.handler == HelloHandler || s.handler == EstablishedHandler);
    var agreed := s.handler == PublicKeyHandler && t.handler == EchoHandler;
    && t.id == (if greeted then d.payload else s.id)
    && t.peerSpub == (if greeted then LookUp(c, d.payload) else s.peerSpub)
    && t.peerKeys == KeysAfter(s, d)
    && t.ephemeral == (if s.handler == HelloHandler && t.handler == PublicKeyHandler
                       then Some(Ephemeral(priv, PublicKeyOf(c.group, priv))) else s.ephemeral)
    && (agreed ==> s.ephemeral.Some? && t.peerKeys.Some? && t.layer == AgreedKey(c, s.ephemeral, t.peerKeys))
    && (!agreed ==> t.layer == if StartsOver(s, d) then None else s.layer)
  }

  ghost predicate MovesRight(aes: BlockCipher, c: Config, s: PeerState, d: Datagram, priv: nat, r: Reaction)
    requires c.group.p > 0
  {
    && r.s.handler == NextPhase(c, s, d)
    && EndsRight(aes, c, s, d, r.end)
    && LearnsRight(c, s, d, priv, r.s)
  }

  lemma HelloMoves(aes: BlockCipher, c: Config, s: PeerState, d: Datagram, priv: nat)
    requires c.group.p > 0 && PhaseInv(c, s) && s.handler == HelloHandler
    ensures MovesRight(aes, c, s, d, priv, HandleHello(c, s, d, priv))
  {
    hide PublicKeyOf;
  }

  lemma PublicKeyMoves(aes: BlockCipher, c: Config, s: PeerState, d: Datagram, priv: nat)
    requires c.group.p > 0 && PhaseInv(c, s) && s.handler == PublicKeyHandler
    ensures MovesRight(aes, c, s, d, priv, HandlePublicKey(c, s, d))
  {
    hide FoldKey, AgreedValue, PublicKeyOf, DecodeNat;
  }

  lemma EchoMoves(aes: BlockCipher, c: Config, s: PeerState, d: Datagram, priv: nat)
    requires c.group.p > 0 && PhaseInv(c, s) && s.handler == EchoHandler
    ensures MovesRight(aes, c, s, d, priv, HandleEcho(s, d))
  {
    hide FoldKey, PublicKeyOf, DecodeNat;
  }

  lemma EstablishedMoves(aes: BlockCipher, c: Config, s: PeerState, d: Datagram, priv: nat)
    requires c.group.p > 0 && PhaseInv(c, s) && s.handler == EstablishedHandler
    ensures MovesRight(aes, c, s, d, priv, HandleEstablished(aes, c, s, d))
  {
    hide FoldKey, PublicKeyOf, DecodeNat, DecryptPayload;
  }

  /** Where a datagram leads, for every state in a phase: the next phase, how the handling ends, and
      what has been learned. */
  lemma HandleMoves(aes: BlockCipher, c: Config, s: PeerState, d: Datagram, priv: nat)
    requires c.group.p > 0 && PhaseInv(c, s)
    ensures MovesRight(aes, c, s, d, priv, Handle(aes, c, s, d, priv))
  {
    hide PhaseInv, MovesRight, HandleHello, HandlePublicKey, HandleEcho, HandleEstablished;
    match s.handler
    case HelloHandler => HelloMoves(aes, c, s, d, priv);
    case PublicKeyHandler => PublicKeyMoves(aes, c, s, d, priv);
    case EchoHandler => EchoMoves(aes, c, s, d, priv);
    case EstablishedHandler => EstablishedMoves(aes, c, s, d, priv);
  }

  // ---------- once established ----------

  /** A hello to an established peer puts it where a new peer is that has just received this hello,
      except for the keys of the exchange, which stay until they are replaced; it greets, and then
      acknowledges. */
  lemma HelloStartsOver(aes: BlockCipher, c: Config, s: PeerState, d: Datagram, priv: nat)
    requires c.group.p > 0 && PhaseInv(c, s) && StartsOver(s, d)
    ensures var r := Handle(aes, c, s, d, priv);
            var greeted := Handle(aes, c, Start(c).s, d, priv);
            && r.s == greeted.s.(ephemeral := s.ephemeral, peerKeys := s.peerKeys)
            && r.sent == Start(c).sent + greeted.sent
            && r.sent == [CreateHello(c.myId), Datagram(ACK, 0, 0, 0, [])]
            && r.s.streams == {} && r.s.layer == None && r.notices == [] && r.end == Done
  {
  }

  /** Any other datagram leaves an established peer as it is, except for the stream it may open. */
  lemma EstablishedStays(aes: BlockCipher, c: Config, s: PeerState, d: Datagram, priv: nat)
    requires c.group.p > 0 && PhaseInv(c, s) && s.handler == EstablishedHandler && d.kind != HELLO
    ensures var r := Handle(aes, c, s, d, priv);
            && r.s == s.(streams := s.streams + if r.end.Dispatch? then {r.end.d.id} else {})
            && r.notices == (if r.s.streams == s.streams then [] else [NewStream(r.end.d.id)])
            && (d.kind == ECHO ==> r.sent == [d.(kind := ECHO_BACK)]) && (d.kind != ECHO ==> r.sent == [])
  {
    hide DecryptPayload;
  }

  /** What a peer seals for a stream: nothing before there is a key, and afterwards one string, which
      opens to the datagram at an end with the same key. */
  lemma SealsOnceKeyed(o: ByteOrder, aes: BlockCipher, c: Config, s: PeerState, d: Datagram, iv: Block)
    requires PhaseInv(c, s)
    ensures var r := SendSealed(o, aes, s, d, iv);
            && r.Success?
            && (s.layer.None? ==> r.value == [])
            && (s.layer.Some? ==> |r.value| == 1 && Open(o, aes, s.layer.value, r.value[0]) == Some(d))
  {
    hide Seal, Open;
    if s.layer.Some? {
      SealThenOpen(o, aes, s.layer.value, iv, d);
    }
  }
}
