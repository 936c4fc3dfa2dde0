/** Datagrams of `client/sml/datagram.cpp`: their fields, their factories, their wire form, and
    the sealed form in which an established peer sends them. */
module Datagrams {
  import opened Bytes
  import opened Wrappers
  import opened Cfb

  // The message types, in the order of the enumeration.
  const KEEP_ALIVE: byte := 0
  const ACK: byte := 1
  const HELLO: byte := 2
  const PUBLIC_KEY: byte := 3
  const PARTIAL_SHARED_KEY: byte := 4
  const ECHO: byte := 5
  const ECHO_BACK: byte := 6
  const DATA: byte := 7
  const DATA_ACK: byte := 8
  const ABORT: byte := 9

  /** The type is kept as a byte: the parser accepts values outside the enumeration. */
  datatype Datagram = Datagram(kind: byte, id: u32, offset: u32, length: u32, payload: seq<byte>)

  function CreateHello(myId: seq<byte>): Datagram {
    Datagram(HELLO, 0, 0, |myId| % TWO32, myId)
  }

  function CreatePublicKey(key: seq<byte>): Datagram {
    Datagram(PUBLIC_KEY, 0, 0, |key| % TWO32, key)
  }

  /** The `id` argument of the factory is not used, as in the program. */
  function CreateAck(id: u32, offset: u32): Datagram {
    Datagram(ACK, 0, offset, 0, [])
  }

  function CreateEcho(content: seq<byte>): Datagram {
    Datagram(ECHO, 0, 0, |content| % TWO32, content)
  }

  function CreateEchoBack(echo: Datagram): Datagram {
    echo.(kind := ECHO_BACK)
  }

  // ---------- wire form ----------

  const HEADER := 13
  const RECEIVE_BUFFER := 1500

  function Serialise(o: ByteOrder, d: Datagram): (r: seq<byte>)
    ensures |r| == HEADER + |d.payload|
  {
    [d.kind] + U32Bytes(o, d.id) + U32Bytes(o, d.offset) + U32Bytes(o, d.length) + d.payload
  }

  datatype ParseError = IoError

  function Parse(o: ByteOrder, bytes: seq<byte>): Result<Datagram, ParseError> {
    if |bytes| < HEADER then Failure(IoError)
    else Success(Datagram(bytes[0], BytesU32(o, bytes[1..5]), BytesU32(o, bytes[5..9]),
                          BytesU32(o, bytes[9..13]), bytes[13..]))
  }

  lemma SerialisedFields(o: ByteOrder, d: Datagram)
    ensures var s := Serialise(o, d);
            && s[0] == d.kind && s[1..5] == U32Bytes(o, d.id) && s[5..9] == U32Bytes(o, d.offset)
            && s[9..13] == U32Bytes(o, d.length) && s[13..] == d.payload
  {
  }

  /** The datagrams of the handshake, byte by byte: a type, no stream, no offset, the length of what
      follows, and what follows. */
  lemma WireForms(o: ByteOrder, content: seq<byte>)
    ensures var zeros: seq<byte> := [0, 0, 0, 0];
            var rest := zeros + zeros + U32Bytes(o, |content| % TWO32) + content;
            && Serialise(o, CreateHello(content)) == [2] + rest
            && Serialise(o, CreatePublicKey(content)) == [3] + rest
            && Serialise(o, CreateEcho(content)) == [5] + rest
            && Serialise(o, CreateEchoBack(CreateEcho(content))) == [6] + rest
            && Serialise(o, CreateAck(0, 0)) == [1] + zeros + zeros + zeros
  {
    PlainForm(o, HELLO, content);
    PlainForm(o, PUBLIC_KEY, content);
    PlainForm(o, ECHO, content);
    PlainForm(o, ECHO_BACK, content);
    PlainForm(o, ACK, []);
    hide Serialise;
    assert U32Bytes(o, 0) == [0, 0, 0, 0];
    var zeros: seq<byte> := [0, 0, 0, 0];
    assert [1] + (zeros + zeros + zeros + []) == [1] + zeros + zeros + zeros;
  }

  lemma PlainForm(o: ByteOrder, kind: byte, content: seq<byte>)
    ensures var zeros: seq<byte> := [0, 0, 0, 0];
            var length := |content| % TWO32;
            Serialise(o, Datagram(kind, 0, 0, length, content))
            == [kind] + (zeros + zeros + U32Bytes(o, length) + content)
  {
    assert U32Bytes(o, 0) == [0, 0, 0, 0];
  }

  /** Parsing gives back every serialised datagram. */
  lemma SerialiseThenParse(o: ByteOrder, d: Datagram)
    ensures Parse(o, Serialise(o, d)) == Success(d)
  {
    SerialisedFields(o, d);
    U32RoundTrip(o, d.id);
    U32RoundTrip(o, d.offset);
    U32RoundTrip(o, d.length);
  }

  /** Exactly the strings of at least thirteen bytes parse, and serialising gives them back. */
  lemma ParseThenSerialise(o: ByteOrder, bytes: seq<byte>)
    ensures Parse(o, bytes).Success? <==> |bytes| >= HEADER
    ensures Parse(o, bytes).Success? ==> Serialise(o, Parse(o, bytes).value) == bytes
  {
    if |bytes| >= HEADER {
      BytesRoundTrip(o, bytes[1..5]);
      BytesRoundTrip(o, bytes[5..9]);
      BytesRoundTrip(o, bytes[9..13]);
      assert bytes == [bytes[0]] + bytes[1..5] + bytes[5..9] + bytes[9..13] + bytes[13..];
    }
  }

  // ---------- payload encryption ----------

  function EncryptPayload(aes: BlockCipher, key: Block, iv: Block, d: Datagram): Datagram {
    if d.payload == [] then d else d.(payload := Encrypt(aes, key, iv, d.payload))
  }

  function DecryptPayload(aes: BlockCipher, key: Block, d: Datagram): Result<Datagram, CipherError> {
    if d.payload == [] then Success(d)
    else match Decrypt(aes, key, d.payload)
      case Success(plain) => Success(d.(payload := plain))
      case Failure(e) => Failure(e)
  }

  /** What an established peer hands to the socket for a datagram. */
  function Seal(o: ByteOrder, aes: BlockCipher, key: Block, iv: Block, d: Datagram): seq<byte> {
    Serialise(o, EncryptPayload(aes, key, iv, d))
  }

  /** What an established peer reads from a received string. */
  function Open(o: ByteOrder, aes: BlockCipher, key: Block, bytes: seq<byte>): Option<Datagram> {
    match Parse(o, bytes)
    case Failure(_) => None
    case Success(d) =>
      match DecryptPayload(aes, key, d)
      case Failure(_) => None
      case Success(plain) => Some(plain)
  }

  /** The whole pipeline is the identity, also for an empty payload, for every vector. */
  lemma SealThenOpen(o: ByteOrder, aes: BlockCipher, key: Block, iv: Block, d: Datagram)
    ensures Open(o, aes, key, Seal(o, aes, key, iv, d)) == Some(d)
  {
    SerialiseThenParse(o, EncryptPayload(aes, key, iv, d));
    EncryptThenDecrypt(aes, key, iv, d.payload);
  }

  /** The header travels in the clear; every bit of the payload is masked. */
  lemma SealedBits(o: ByteOrder, aes: BlockCipher, key: Block, iv: Block, d: Datagram, i: nat, j: nat)
    requires i < |d.payload| && j < 8
    ensures var out := Seal(o, aes, key, iv, d);
            var from := 13 + i / 16 * 16;
            && out[..13] == Serialise(o, d)[..13] && out[13..29] == iv
            && (Bit(out[29 + i], j) <==> Bit(d.payload[i], j) != Bit(aes(key, out[from..from + 16])[i % 16], j))
  {
    hide Bit, Encrypt;
    EncryptedBits(aes, key, iv, d.payload, i, j);
    var sent := Encrypt(aes, key, iv, d.payload);
    var out := Seal(o, aes, key, iv, d);
    var from := i / 16 * 16;
    SerialisedFields(o, EncryptPayload(aes, key, iv, d));
    assert out[13..] == sent;
    assert out[13..29] == out[13..][..16] && out[29 + i] == out[13..][16 + i];
    assert out[13 + from..13 + from + 16] == out[13..][from..from + 16];
  }

  /** A sealed datagram with at most `max` payload bytes fits the receive buffer. */
  lemma SealedSize(o: ByteOrder, aes: BlockCipher, key: Block, iv: Block, d: Datagram)
    ensures |Seal(o, aes, key, iv, d)| ==
            HEADER + |d.payload| + if d.payload == [] then 0 else BLOCK
    ensures |d.payload| <= RECEIVE_BUFFER - HEADER - BLOCK ==>
            |Seal(o, aes, key, iv, d)| <= RECEIVE_BUFFER
  {
  }
}
