/** The handshake of `client/sml/peer.cpp` as functions on values: what one peer does with a
    datagram, and what its retransmit timer does. The class in Transport.dfy is proved to do
    exactly this. */
module HandshakeSpec {
  import opened Bytes
  import opened Wrappers
  import opened Cfb
  import opened Datagrams
  import opened KeyAgreement

  // The state bits and masks.
  const INITIAL: bv32 := 0
  const SENT_HELLO: bv32 := 1
  const RECEIVED_HELLO_ACK: bv32 := 2
  const RECEIVED_HELLO: bv32 := 4
  const HELLO_COMPLETE: bv32 := SENT_HELLO | RECEIVED_HELLO_ACK | RECEIVED_HELLO
  const SENT_PUBLIC_KEY: bv32 := 8
  const RECEIVED_PUBLIC_KEY_ACK: bv32 := 16
  const RECEIVED_PUBLIC_KEY: bv32 := 32
  const PUBLIC_KEY_EXCHANGED: bv32 := SENT_PUBLIC_KEY | RECEIVED_PUBLIC_KEY | RECEIVED_PUBLIC_KEY_ACK
  const SHARED_KEY_AGREEMENT: bv32 := 64
  const ESTABLISHED: bv32 := HELLO_COMPLETE | PUBLIC_KEY_EXCHANGED | SHARED_KEY_AGREEMENT
  const WAIT_FOR_ECHO: bv32 := 128

  predicate Has(bits: bv32, mask: bv32) {
    bits & mask == mask
  }

  /** The content of the echo, "1234567890". */
  const ECHO_CONTENT: seq<byte> := [49, 50, 51, 52, 53, 54, 55, 56, 57, 48]

  /** The function `datagram_handler_` is bound to. */
  datatype Handler = HelloHandler | PublicKeyHandler | EchoHandler | EstablishedHandler

  /** What a peer reads from its configuration; keys of other peers are looked up by their id. */
  datatype Config = Config(
    myId: seq<byte>,
    spriv: nat,
    trusted: map<seq<byte>, seq<byte>>,
    group: Group)

  datatype PeerState = PeerState(
    bits: bv32,
    handler: Handler,
    timer: Option<Datagram>,
    id: seq<byte>,
    peerSpub: seq<byte>,
    ephemeral: Option<Ephemeral>,
    peerKeys: Option<(seq<byte>, seq<byte>)>,
    layer: Option<Block>,
    sentEcho: Option<Datagram>,
    streams: set<u32>)

  /** A message for the output ring. */
  datatype Notice = NewPeer(id: seq<byte>) | NewStream(streamId: u32) | RecvData(streamId: u32, data: seq<byte>)

  datatype Error = UnknownError | AgreementFailed | InvalidPayload | NullDereference | IoError

  /** How the handling of a datagram ends: nothing more, a decrypted datagram for one of the
      streams, the removal of the peer, or an exception. */
  datatype Ending = Done | Dispatch(d: Datagram) | RemovePeer | Threw(error: Error)

  datatype Reaction = Reaction(s: PeerState, sent: seq<Datagram>, notices: seq<Notice>, end: Ending)

  function LookUp(c: Config, id: seq<byte>): seq<byte> {
    if id in c.trusted then c.trusted[id] else []
  }

  // ---------- the parts of the handlers ----------

  function SendHello(c: Config, s: PeerState): Reaction {
    var hello := CreateHello(c.myId);
    Reaction(s.(timer := Some(hello), bits := s.bits | SENT_HELLO, handler := HelloHandler), [hello], [], Done)
  }

  /** A peer as its constructor leaves it. */
  function Start(c: Config): Reaction {
    SendHello(c, PeerState(INITIAL, HelloHandler, None, [], [], None, None, None, None, {}))
  }

  function ReceivedHello(c: Config, s: PeerState, d: Datagram): Reaction {
    Reaction(s.(id := d.payload, peerSpub := LookUp(c, d.payload), bits := s.bits | RECEIVED_HELLO),
             [CreateAck(0, 0)], [], Done)
  }

  function SendPublicKey(c: Config, s: PeerState, priv: nat): Reaction
    requires c.group.p > 0
  {
    var pub := PublicKeyOf(c.group, priv);
    var d := CreatePublicKey(pub);
    Reaction(s.(ephemeral := Some(Ephemeral(priv, pub)), timer := Some(d), bits := s.bits | SENT_PUBLIC_KEY,
                handler := PublicKeyHandler), [d], [], Done)
  }

  function SendEcho(s: PeerState): Reaction {
    var echo := CreateEcho(ECHO_CONTENT);
    Reaction(s.(sentEcho := Some(echo), timer := Some(echo), bits := s.bits | WAIT_FOR_ECHO,
                handler := EchoHandler), [echo], [], Done)
  }

  /** `r` after `r0`: what both transmit and announce, and where `r` ends. */
  function After(r0: Reaction, r: Reaction): Reaction {
    Reaction(r.s, r0.sent + r.sent, r0.notices + r.notices, r.end)
  }

  // ---------- the handlers ----------

  function HandleHello(c: Config, s: PeerState, d: Datagram, priv: nat): Reaction
    requires c.group.p > 0
  {
    if d.kind != HELLO && d.kind != ACK then Reaction(s, [], [], Done)
    else
      var r := if d.kind == HELLO then ReceivedHello(c, s, d)
               else Reaction(s.(bits := s.bits | RECEIVED_HELLO_ACK, timer := None), [], [], Done);
      if Has(r.s.bits, HELLO_COMPLETE) then After(r, SendPublicKey(c, r.s, priv)) else r
  }

  /** The agreement reads four keys; the two of the other end may fail the library's test. */
  function CompleteKeyExchange(c: Config, s: PeerState): Reaction
    requires c.group.p > 0
  {
    if s.ephemeral.None? || s.peerKeys.None? then Reaction(s, [], [], Threw(NullDereference))
    else
      match Agree(c.group, c.spriv, s.ephemeral.value.priv, s.peerKeys.value.0, s.peerKeys.value.1)
      case None => Reaction(s, [], [], Threw(AgreementFailed))
      case Some(value) => SendEcho(s.(layer := Some(FoldKey(value)), bits := s.bits | SHARED_KEY_AGREEMENT))
  }

  /** A hello or a public key seen again means that the other end lost an acknowledgement. */
  function ReceivedInKeyExchange(s: PeerState, d: Datagram): Reaction {
    if d.kind == PUBLIC_KEY then
      Reaction(s.(peerKeys := Some((s.peerSpub, d.payload)), bits := s.bits | RECEIVED_PUBLIC_KEY),
               [CreateAck(0, 0)], [], Done)
    else if d.kind == ACK then
      Reaction(s.(bits := s.bits | RECEIVED_PUBLIC_KEY_ACK, timer := None), [], [], Done)
    else if d.kind == HELLO then
      Reaction(s, [CreateAck(0, 0)], [], Done)
    else
      Reaction(s, [], [], Done)
  }

  function HandlePublicKey(c: Config, s: PeerState, d: Datagram): Reaction
    requires c.group.p > 0
  {
    var r := ReceivedInKeyExchange(s, d);
    if Has(r.s.bits, PUBLIC_KEY_EXCHANGED) then After(r, CompleteKeyExchange(c, r.s)) else r
  }

  function ReceivedEchoBack(s: PeerState, d: Datagram): Reaction {
    if s.bits & WAIT_FOR_ECHO == 0 then Reaction(s, [], [], Done)
    else if s.sentEcho.None? then Reaction(s, [], [], Threw(NullDereference))
    else if d.payload != s.sentEcho.value.payload then Reaction(s, [], [], Done)
    else Reaction(s.(timer := None, bits := s.bits & !WAIT_FOR_ECHO), [], [], Done)
  }

  function HandleEcho(s: PeerState, d: Datagram): Reaction {
    var r :=
      if d.kind == ECHO then Reaction(s, [CreateEchoBack(d)], [], Done)
      else if d.kind == ECHO_BACK then ReceivedEchoBack(s, d)
      else if d.kind == PUBLIC_KEY then Reaction(s, [CreateAck(0, 0)], [], Done)
      else Reaction(s, [], [], Done);
    if r.end == Done && r.s.bits & WAIT_FOR_ECHO == 0 then
      After(r, Reaction(r.s.(handler := EstablishedHandler), [], [NewPeer(r.s.id)], Done))
    else r
  }

  function Reset(s: PeerState): PeerState {
    s.(bits := INITIAL, timer := None, sentEcho := None, layer := None, streams := {})
  }

  function HandleEstablished(aes: BlockCipher, c: Config, s: PeerState, d: Datagram): Reaction {
    if !Has(s.bits, ESTABLISHED) then Reaction(s, [], [], Threw(UnknownError))
    else if d.kind == HELLO then
      var r := SendHello(c, Reset(s).(bits := RECEIVED_HELLO));
      After(r, ReceivedHello(c, r.s, d))
    else if d.kind == ECHO then Reaction(s, [CreateEchoBack(d)], [], Done)
    else if d.kind == ECHO_BACK then ReceivedEchoBack(s, d)
    else if d.kind == ABORT then Reaction(s, [], [], RemovePeer)
    else if s.layer.None? then Reaction(s, [], [], Threw(NullDereference))
    else
      match DecryptPayload(aes, s.layer.value, d)
      case Failure(_) => Reaction(s, [], [], Threw(InvalidPayload))
      case Success(plain) =>
        Reaction(s.(streams := s.streams + {plain.id}), [],
                 if plain.id in s.streams then [] else [NewStream(plain.id)], Dispatch(plain))
  }

  /** `feed`, once the datagram has been parsed. `priv` is the ephemeral private key drawn if this
      datagram completes the exchange of hellos. */
  function Handle(aes: BlockCipher, c: Config, s: PeerState, d: Datagram, priv: nat): Reaction
    requires c.group.p > 0
  {
    match s.handler
    case HelloHandler => HandleHello(c, s, d, priv)
    case PublicKeyHandler => HandlePublicKey(c, s, d)
    case EchoHandler => HandleEcho(s, d)
    case EstablishedHandler => HandleEstablished(aes, c, s, d)
  }

  /** The timer fires: the armed datagram is sent again and the timer stays armed with it. */
  function Retransmit(s: PeerState): Reaction
    requires s.timer.Some?
  {
    Reaction(s, [s.timer.value], [], Done)
  }

  /** `send_datagram`: nothing before the keys are agreed, and a sealed datagram afterwards. */
  function SendSealed(o: ByteOrder, aes: BlockCipher, s: PeerState, d: Datagram, iv: Block)
    : Result<seq<seq<byte>>, Error>
  {
    if !Has(s.bits, ESTABLISHED) then Success([])
    else if s.layer.None? then Failure(NullDereference)
    else Success([Seal(o, aes, s.layer.value, iv, d)])
  }

  // ---------- the phases ----------

  /** What each handler fixes: the bits that can be set under it, what the timer is armed with, and
      whether there is a key. Agreement may fail in the second phase, which then keeps all its bits. */
  ghost predicate PhaseInv(c: Config, s: PeerState) {
    match s.handler
    case HelloHandler =>
      && (s.bits == SENT_HELLO || s.bits == SENT_HELLO | RECEIVED_HELLO_ACK || s.bits == SENT_HELLO | RECEIVED_HELLO)
      && s.layer == None
      && s.timer == (if Has(s.bits, RECEIVED_HELLO_ACK) then None else Some(CreateHello(c.myId)))
    case PublicKeyHandler =>
      && s.bits & !(RECEIVED_PUBLIC_KEY_ACK | RECEIVED_PUBLIC_KEY) == HELLO_COMPLETE | SENT_PUBLIC_KEY
      && s.layer == None
      && s.ephemeral.Some?
      && (Has(s.bits, RECEIVED_PUBLIC_KEY) ==> s.peerKeys.Some?)
      && s.timer == (if Has(s.bits, RECEIVED_PUBLIC_KEY_ACK) then None
                     else Some(CreatePublicKey(s.ephemeral.value.pub)))
    case EchoHandler =>
      && s.bits == ESTABLISHED | WAIT_FOR_ECHO
      && s.layer.Some?
      && s.sentEcho == Some(CreateEcho(ECHO_CONTENT)) == s.timer
    case EstablishedHandler =>
      && s.bits == ESTABLISHED
      && s.layer.Some?
      && s.timer == None
  }

  lemma StartHolds(c: Config)
    ensures PhaseInv(c, Start(c).s)
  {
  }

  /** A reaction that keeps the phases, cannot throw for a reason of the peer's own making, and
      announces the peer exactly when it enters the established phase. */
  ghost predicate KeepsPhases(c: Config, s: PeerState, r: Reaction) {
    && PhaseInv(c, r.s)
    && r.end != Threw(UnknownError) && r.end != Threw(NullDereference)
    && (s.handler != EstablishedHandler && r.s.handler == EstablishedHandler ==> r.notices == [NewPeer(r.s.id)])
    && (s.handler == EstablishedHandler || r.s.handler != EstablishedHandler ==>
          forall i :: 0 <= i < |r.notices| ==> r.notices[i].NewStream?)
  }

  lemma HandleHelloKeeps(c: Config, s: PeerState, d: Datagram, priv: nat)
    requires c.group.p > 0 && PhaseInv(c, s) && s.handler == HelloHandler
    ensures KeepsPhases(c, s, HandleHello(c, s, d, priv))
  {
    hide PublicKeyOf;
  }

  lemma HandlePublicKeyKeeps(c: Config, s: PeerState, d: Datagram)
    requires c.group.p > 0 && PhaseInv(c, s) && s.handler == PublicKeyHandler
    ensures KeepsPhases(c, s, HandlePublicKey(c, s, d))
  {
    hide PublicKeyOf, FoldKey, Agree;
  }

  lemma HandleEchoKeeps(c: Config, s: PeerState, d: Datagram)
    requires PhaseInv(c, s) && s.handler == EchoHandler
    ensures KeepsPhases(c, s, HandleEcho(s, d))
  {
  }

  lemma HandleEstablishedKeeps(aes: BlockCipher, c: Config, s: PeerState, d: Datagram)
    requires PhaseInv(c, s) && s.handler == EstablishedHandler
    ensures KeepsPhases(c, s, HandleEstablished(aes, c, s, d))
  {
  }

  lemma HandleKeeps(aes: BlockCipher, c: Config, s: PeerState, d: Datagram, priv: nat)
    requires c.group.p > 0 && PhaseInv(c, s)
    ensures KeepsPhases(c, s, Handle(aes, c, s, d, priv))
  {
    hide PhaseInv, KeepsPhases;
    match s.handler
    case HelloHandler => HandleHelloKeeps(c, s, d, priv);
    case PublicKeyHandler => HandlePublicKeyKeeps(c, s, d);
    case EchoHandler => HandleEchoKeeps(c, s, d);
    case EstablishedHandler => HandleEstablishedKeeps(aes, c, s, d);
  }
}
