# ShadowTalk, modelled in Dafny

Three parts of ShadowTalk are modelled here and proved correct as far as the code is correct:

* **The secure datagram transport of `client/sml`.** A peer greets the other end, exchanges
  Diffie-Hellman keys with it, checks the agreed key with an echo, and from then on carries any number
  of streams. A stream cuts what its user writes into segments of at most 1000 bytes, sends one at a
  time, repeats it until it is acknowledged, and puts arriving segments back in order. Datagrams are
  encrypted in CFB mode, serialised with a cursor buffer, and sent over UDP, which loses, repeats and
  reorders them.
* **The message switch of `grpc-server`**, an event loop whose call handlers and stream writers are heap
  objects that are named by completion tags and delete themselves, with the matching write pump of the
  client.
* **The UDP registry of `server`**, a bimap and a set of live peers that a timeout sweep must keep in
  agreement.

Each part has a specification on values (`*Spec`, and the functions of `Datagrams`, `Cfb`,
`KeyAgreement`, `ByteStrings`), classes whose methods update their fields in place as the program does and are
proved to do exactly what the specification says, and theorems about every run of the specification.
The bytes of integers follow a byte order that is a parameter, because the program writes them as the
machine stores them (`client/sml/byte_string.h:67-73`). The block cipher, the private keys and
vectors that the program draws at random, the digest behind the switch's tokens, the way asio reads and
writes addresses, and the clock are parameters too.

| file | what it holds |
|---|---|
| `Bytes.dfy`, `Wrappers.dfy` | bytes, 32-bit integers, exclusive or; options and results |
| `ByteStrings.dfy` | the growable buffer, and the datagram codec written with it |
| `Cfb.dfy`, `Datagrams.dfy` | encryption in CFB mode; datagrams and their wire form |
| `KeyAgreement.dfy` | modular exponentiation, the group, the agreed value |
| `StreamSpec.dfy`, `StreamRun.dfy` | one stream; two ends over a bad network: safety and the window |
| `StreamReassembly.dfy`, `StreamProgress.dfy` | segments in any order; what blocks a stream; progress |
| `StreamWire.dfy`, `TransportRun.dfy` | the same network carrying encrypted bytes; two whole peers on one wire, handshake and all streams |
| `TransportWitness.dfy` | runs of two whole peers that exist |
| `HandshakeSpec.dfy`, `HandshakeLaws.dfy` | the handshake; what a peer does with any datagram in any phase |
| `HandshakeRun.dfy`, `HandshakeLine.dfy`, `HandshakeCompletes.dfy` | one peer and two peers over whole runs; every run over lossless lines; runs that exist |
| `Transport.dfy`, `TransportRefines.dfy` | the classes: datagrams behind pointers, ring, streams, peers; their calls are steps of `TransportRun.dfy` |
| `SwitchSpec.dfy`, `SwitchRun.dfy`, `SwitchCalls.dfy`, `SwitchStale.dfy`, `SwitchTokens.dfy`, `MessageSwitch.dfy` | the message switch: functions, runs, the life of handlers, replaced writers, tokens, class |
| `ClientPump.dfy` | the client's write pump: functions, runs, classes |
| `UdpRegistry.dfy`, `UdpService.dfy` | the UDP registry: functions and runs, class |

## Where the code does not do what it is for

Each of these is a theorem about the code as it is: the exact condition, and an input at which it fails.

* `send` on a stream that is not idle loses data: the queue then holds the unacknowledged rest of what was
  written exactly if the stream was idle (`StreamProgress.SendTilesIffIdle`). Of two bytes sent in a row
  the second is never queued (`StreamProgress.SecondSendDropped`).
* A segment that arrives again after it was delivered stops its receiver for good
  (`StreamReassembly.StuckExactly`, `StreamReassembly.StuckForever`); one byte and a repeated datagram are
  enough (`StreamProgress.StuckHappens`). Safety survives; progress does not: a message gets through
  exactly if each of its segments is answered before some copy is repeated or some answer is late or
  lost (`StreamProgress.GetsThroughIff`).
* The bit for an acknowledged public key does not mean that the other end has the key
  (`HandshakeCompletes.AckProvesNothing`), and neither does having agreed on a key. Of the four phases
  exactly the established one means it (`HandshakeCompletes.KeyHeldIffEstablished`). Once that bit is set
  the public key is never sent again (`HandshakeRun.KeyNeverSentAgain`): an end that has not received it
  leaves the key exchange by a copy sent before, or never (`HandshakeRun.StalledWithoutIt`).
* An established peer announces a stream to its user for every datagram with a new id that it can decrypt,
  without a look at its kind. The other end has sent that datagram on a stream exactly if its kind is one
  that streams act on; any other is a late part of the handshake and announces stream 0
  (`TransportRun.AnnouncedIff`). A copy of the acknowledgement of the hello is enough
  (`TransportWitness.StrayStreamHappens`).
* The client's pump keeps one write in flight exactly if nothing is queued when the stream becomes ready
  (`PumpSpec.SafeIffQuiet`); otherwise two writes overlap (`PumpSpec.TwoInFlight`), or a deleted sender is
  called (`PumpSpec.CallAfterDelete`).
* A peer of the switch loses its writer exactly if some writer of that peer fails, be it one that a later
  stream has replaced (`SwitchStale.LosesWriterIff`). The new writer then stays alive, but nothing is
  routed to it as long as it lives (`SwitchStale.ForgottenForGood`); five completions lead there
  (`SwitchStale.StaleFailureHappens`).
* Tokens are digests written without leading zeros: different digests can have the same token
  (`SwitchTokens.RenderCollides`), and tokens find the right peers exactly if the written digests of the
  registered names differ (`SwitchTokens.DigestsIdentify`). Two logins under names whose digests collide
  leave the second with a token that leads to the first (`SwitchTokens.CollisionHappens`).
* Sending to a peer whose address is spelled differently from a registered one makes the bimap and the
  live set disagree (`RegistrySpec.TwoSpellingsDisagree`, `UdpService.SendToTwoSpellings`); sending keeps
  the agreement exactly in the other cases (`RegistrySpec.SendAgreesIff`).

The comment in the header of `byte_string` speaks of big-endian integers; the operators that datagrams
use write native order, and the model follows them.

## Model

| member | source | states |
|---|---|---|
| Bytes.XorTwice | client/sml/aes_128.cpp:18-20 | masking a byte twice with the same byte gives it back |
| Bytes.XorSeqBits | client/sml/aes_128.cpp:19 | every bit of the exclusive or is set exactly if it is set in one of the two |
| Bytes.U32RoundTrip | client/sml/byte_string.h:67-81 | in either byte order, the four bytes of a 32-bit value read back as that value |
| Bytes.BytesRoundTrip | client/sml/byte_string.h:67-81 | in either byte order, any four bytes are the bytes of the value they read as |
| Bytes.U32ByteAt | client/sml/byte_string.h:67-73 | the byte of weight 256^k stands at place k, or 3 - k, by the machine's order |
| Cfb.CfbRoundTrip | client/sml/aes_128.cpp:28-31 | CFB decryption with an arbitrary block function inverts CFB encryption for every length, whole blocks or not |
| Cfb.EncryptedBits | client/sml/aes_128.cpp:23-33 | what is sent is the vector and then, bit for bit, the data masked with the encryption of the sixteen bytes sent before each block |
| Cfb.DecryptThenEncrypt | client/sml/aes_128.cpp:35-47 | exactly the strings longer than 16 bytes decrypt, and each is the encryption of its plaintext under the vector in front |
| Cfb.EncryptThenDecrypt | client/sml/aes_128.cpp:23-47 | decryption recovers what was encrypted under any vector, except that the encrypted empty string is refused as invalid data |
| Cfb.Aes128.SetKey | client/sml/aes_128.cpp:12-21 | a key shorter than 16 bytes is refused and changes nothing; otherwise byte j of the key buffer is the exclusive or of all key bytes whose position is j modulo 16 |
| Cfb.ColumnXorFirst | client/sml/aes_128.cpp:17 | before anything is folded in, the column values are the first 16 bytes of the key |
| Cfb.FoldedBits | client/sml/aes_128.cpp:17-20 | each bit of the folded key is the parity of that bit over every sixteenth byte of the key |
| Cfb.FoldedFlip | client/sml/aes_128.cpp:18-20 | changing any one bit of the key changes that bit of byte i mod 16 of the folded key, and nothing else |
| Cfb.Aes128.EncryptData | client/sml/aes_128.cpp:23-33 | the vector buffer holds the drawn vector, and the result is vector and body as specified |
| Cfb.Aes128.DecryptData | client/sml/aes_128.cpp:35-47 | input of at most 16 bytes is refused; otherwise the plaintext under the vector in front |
| Datagrams.SerialiseThenParse | client/sml/datagram.cpp:15-22 | every datagram survives serialising and parsing |
| Datagrams.ParseThenSerialise | client/sml/datagram.cpp:42-50 | exactly the strings of at least 13 bytes parse, and serialising what was parsed gives the string back |
| Datagrams.SealThenOpen | client/sml/datagram.cpp:57-67 | encrypt, serialise, parse, decrypt is the identity on every datagram, with or without a payload |
| Datagrams.SealedBits | client/sml/datagram.cpp:42-61 | in what is sent the header is in the clear, the vector follows, and every bit of the payload is masked |
| Datagrams.WireForms | client/sml/datagram.cpp:75-110 | the datagrams of the handshake byte for byte: type number, no stream, no offset, length, content |
| Datagrams.SealedSize | client/sml/udp_layer.h:54 | the exact length of a sealed datagram, and that payloads up to the rest of the receive buffer fit it |
| ByteStrings.WriteThenRead | client/sml/byte_string.cpp:48-72 | reading where one wrote gives the bytes written, everything outside them is as before, and the cursor stays within the data |
| ByteStrings.WritesJoin | client/sml/byte_string.cpp:48-58 | two writes in a row are one write of both |
| ByteStrings.TakenAt | client/sml/byte_string.cpp:60-72 | a read takes the bytes from the cursor on, as many as asked for or as there are |
| ByteStrings.SeekFromEnds | client/sml/byte_string.cpp:79-84 | a seek from the start leaves so many bytes behind the cursor, one from the end so many before it |
| ByteStrings.SeekForward | client/sml/byte_string.cpp:76-78 | a seek from the cursor passes over exactly what a read would have taken |
| ByteStrings.SeekBack | client/sml/byte_string.cpp:76-78 | a seek back makes the same bytes be read again |
| ByteStrings.AlignPower | client/sml/byte_string.cpp:161-167 | rounding a power of two up to a multiple of 16 gives a power of two that is at least 16 |
| ByteStrings.AlignUpIsLeast | client/sml/byte_string.cpp:161-167 | the aligned size is the least multiple of 16 that is large enough |
| ByteStrings.ByteString.constructor | client/sml/byte_string.h:22-26 | an empty string with no capacity, where the growth bound holds |
| ByteStrings.ByteString.ChangeBufferSizeTo | client/sml/byte_string.cpp:161-180 | the capacity is the aligned size, and as much of the data as fits moves into a new buffer: all of it, with the cursor, unless the buffer is shrunk below its data |
| ByteStrings.ByteString.AdjustBufferSize | client/sml/byte_string.cpp:182-191 | the new capacity is a power of two, enough, at least 16 and less than max(17, 2 * need); the data moved is counted |
| ByteStrings.ByteString.GuaranteeSpace | client/sml/byte_string.cpp:193-198 | nothing changes if there is room; otherwise there is room and the contents are unchanged |
| ByteStrings.ByteString.Write | client/sml/byte_string.cpp:48-58 | all bytes are written over or behind the data at the cursor, across reallocations, and the growth bound is kept |
| ByteStrings.ByteString.Read | client/sml/byte_string.cpp:64-72 | as many bytes as there are, at most those asked for; the cursor moves by that many |
| ByteStrings.ByteString.Seek | client/sml/byte_string.cpp:74-93 | within the data, the cursor moves to the target of each of the three kinds and nothing else changes |
| ByteStrings.ByteString.Append | client/sml/byte_string.cpp:95-102 | the content of another buffer is added behind the data, whatever the cursor was, and the growth bound is kept |
| ByteStrings.GrowthIsAmortised | client/sml/byte_string.cpp:161-198 | if one reallocation to a power of two below max(17, 2 * length) moves at most the old data, all bytes ever moved stay fewer than the capacity |
| ByteStrings.Perform | client/sml/byte_string.cpp:48-102 | over any run of writes, reads, in-range seeks and appends from an empty buffer: what is read and held is what a string with a cursor gives, capacity is nothing or a power of two of at least 16 below max(17, 2 * length), and all bytes ever moved by reallocations are fewer than it |
| ByteStrings.SerialiseDatagram | client/sml/datagram.cpp:42-50 | writing the fields one by one into a buffer gives the wire form |
| ByteStrings.ParseDatagram | client/sml/datagram.cpp:15-22 | reading the fields one by one gives the parsed datagram, and an input error exactly for strings that do not parse |
| KeyAgreement.ModPowCommutes | client/sml/dh_key_agreement.cpp:113-118 | raising to both private exponents gives the same value in either order, in any modulus |
| KeyAgreement.ModPowGrows | client/sml/dh_key_agreement.cpp:66-71 | a power in a modulus is one, and a factor more for each step of the exponent |
| KeyAgreement.PublicKeyGrows | client/sml/dh_key_agreement.cpp:66-71 | the public key of 0 is one, and that of x + 1 is that of x times the generator, in the modulus |
| KeyAgreement.AgreedValueGrows | client/sml/dh_key_agreement.cpp:113-118 | the first half of the agreed value grows by the other end's static public key with the own static private key, the second half likewise with the ephemeral keys |
| KeyAgreement.DecodeEncode | client/sml/dh_key_agreement.cpp:33-37 | a number below 256^n is read back from its n bytes |
| KeyAgreement.EncodedBytes | client/sml/dh_key_agreement.cpp:33-37 | keys are written with the most significant byte first |
| KeyAgreement.AgreedValuesEqual | client/sml/dh_key_agreement.cpp:113-118 | the two ends derive the same value from their own private and the other's public keys, static and ephemeral |
| KeyAgreement.Rfc5114IsGood | client/sml/dh_key_agreement.cpp:4-20 | the modulus of section 2.1 of RFC 5114 fits the key length, so the agreement theorems apply to it |
| KeyAgreement.DhKeyAgreement.GenerateEphemeralKeyPairs | client/sml/dh_key_agreement.cpp:66-71 | both halves of the ephemeral pair are replaced, the public one belonging to the private one |
| KeyAgreement.DhKeyAgreement.GenerateSharedKey | client/sml/dh_key_agreement.cpp:113-118 | fails for a missing key exactly if one is missing, fails to agree exactly if a public key of the other end is not valid, and otherwise stores the agreed value |
| StreamSpec.FeedLeavesNoHead | client/sml/stream.cpp:34-49 | after every feed the least queued key differs from the receive offset |
| StreamSpec.DrainStops | client/sml/stream.cpp:34-45 | a drain goes on until the head of the queue is not the expected datagram |
| StreamSpec.AckIsBelieved | client/sml/stream.cpp:23-27 | an acknowledgement, even one that goes back, sets the send offset, drops exactly what lies before it and transmits the first of the rest |
| StreamSpec.AbortIsData | client/sml/stream.cpp:18-22 | a stream does with an abort what it does with data |
| StreamRun.SendOneKeepsQueue | client/sml/stream.cpp:101-125 | dropping what lies before a segment boundary leaves exactly the segments from the later boundary on, transmits the first of them and arms the timer, and neither if none is left |
| StreamRun.EnqueueExtends | client/sml/stream.cpp:76-94 | on a queue that reaches to its base, the loop of send queues exactly the segments of the data, each at most 1000 bytes, and the whole stays a segmentation of the stream |
| StreamRun.SenderAcknowledged | client/sml/stream.cpp:23-27 | any acknowledgement, late ones included, keeps the queue at the segments from the largest acknowledged boundary on |
| StreamRun.ReceiverFed | client/sml/stream.cpp:16-50 | any segment up to the expected one, repeated or not, keeps what was delivered a prefix of what was written, and the answers at segment boundaries |
| StreamRun.NextKeeps | client/sml/stream.cpp:16-140 | the invariant of both directions survives every step of either end |
| StreamRun.StreamSafety | client/sml/stream.cpp:16-140 | in every run over a network that loses, repeats and reorders, what each user has received is a prefix of what the other has written |
| StreamRun.OneSegmentWindow | client/sml/stream.cpp:101-125 | every data datagram ever transmitted carries the bytes written at its offset, begins at or before the receive offset and ends at most 1000 bytes after it; the send queue is exactly the rest of the stream from the largest acknowledgement processed |
| StreamReassembly.Reassembly | client/sml/stream.cpp:16-50 | segments in any order, repeated at will before delivery: the data delivered is always the longest gap-free prefix of what has arrived, the queue holds the rest, and acknowledgements strictly increase |
| StreamReassembly.ReassemblyComplete | client/sml/stream.cpp:16-50 | once every segment has arrived, the whole message has been delivered and nothing is queued |
| StreamReassembly.StuckExactly | client/sml/stream.cpp:20-21 | in every reachable state a receiver becomes stuck exactly by a datagram it has already delivered, and one that is not stuck has nothing queued |
| StreamReassembly.ExpectedDeliveredIffNotStuck | client/sml/stream.cpp:34-45 | the expected datagram is delivered if and only if the receiver is not stuck |
| StreamReassembly.StuckStays | client/sml/stream.cpp:34-49 | a stuck receiver delivers nothing, answers no data and stays stuck, whatever it is fed |
| StreamReassembly.StuckForever | client/sml/stream.cpp:34-49 | once a receiver is stuck nothing is delivered to it in the rest of the run |
| StreamProgress.SendTilesIffIdle | client/sml/stream.cpp:68-94 | in every reachable state, after send with data the queue tiles the unacknowledged rest of everything written if and only if the stream was idle |
| StreamProgress.SendAdds | client/sml/stream.cpp:69-94 | in every reachable state, busy or not: data is counted from the last queued key, or from the send offset of an empty queue; at every thousandth place from there stands its segment, except where a key is taken, and nothing else changes |
| StreamProgress.SecondSendDropped | client/sml/stream.cpp:70-74 | two single bytes sent in a row: the second is never queued |
| StreamProgress.StuckHappens | client/sml/stream.cpp:20-21 | a run of three steps that ends with a stuck receiver: one byte written, its segment received, and received again |
| StreamProgress.ExchangedAdvances | client/sml/stream.cpp:16-50 | a copy that arrives and whose answer arrives moves both ends exactly one segment on and puts the next on its way |
| StreamProgress.Progress | client/sml/stream.cpp:52-131 | whether copies are lost, repeated by the network, answered late or not at all, the sender is done with exactly as many segments as were answered until the first repeated copy or late or missing answer, that repeated or late one included, and the receiver has exactly as many as arrived until then; with losses alone, n bytes take exactly ceil(n / 1000) successful exchanges, after which the queue is empty, the send offset has advanced by n and the timer is off |
| StreamProgress.GetsThroughIff | client/sml/stream.cpp:101-131 | all bytes are delivered and the sender's queue is empty if and only if ceil(n / 1000) copies are answered, of which only the last may be repeated or answered late, before one is not; after a repeated copy or a late or missing answer nothing gets through any more |
| StreamWire.RawStepRefines | client/sml/peer.cpp:253-286 | a step that carries sealed bytes is a step that carries datagrams, whatever vectors were drawn |
| StreamWire.EndToEndSafety | client/sml/peer.cpp:253-286 | over the byte network too, each user has received a prefix of what the other has written |
| StreamWire.FitsReceiveBuffer | client/sml/udp_layer.h:54 | every byte string that either end ever transmits for a stream fits the 1500-byte receive buffer |
| TransportRun.DispatchedIsSent | client/sml/peer.cpp:253-269 | what an established peer decrypts and gives to a stream is what the stream of the same id at the other end has sent, or no datagram that streams act on but a late part of the handshake, which changes no stream's state (a stream 0 may be created and announced for it: `TransportRun.AnnouncedIff`) |
| TransportRun.AnnouncedIff | client/sml/peer.cpp:253-268 | in every run without a reset, a stream is announced for a datagram that the other end's stream of the same id has sent if and only if the datagram is of a kind that streams act on; for any other, the stream announced is stream 0 |
| TransportRun.SideKeeps | client/sml/peer.cpp:71-286 | every write, timer and received byte string keeps the invariant of both handshakes, of all streams and of the wire |
| TransportRun.PairSafety | client/sml/peer.cpp:71-286 | two peers that know each other, with the handshake and all streams on one wire: in every run without a reset and for every stream id, each user has received a prefix of what the other has written, two agreed keys are equal, and an established peer's counterpart has one |
| TransportWitness.TrailLifts | client/sml/peer.cpp:71-76 | every run of receipts that two handshaking ends can make is one that the two peers make over byte strings |
| TransportWitness.StrayStreamHappens | client/sml/peer.cpp:253-268 | for any two peers with valid keys, a run after which a late copy of the hello's acknowledgement makes an established peer announce stream 0, while the other end has no stream at all |
| TransportWitness.ByteDelivered | client/sml/peer.cpp:71-286 | for any two peers with valid keys, any stream id and any byte, a run of whole peers from the start in which the byte is written at one end and received at the other |
| HandshakeSpec.HandleKeeps | client/sml/peer.cpp:128-351 | every handler, on any datagram, keeps the phase invariant, raises neither of the errors of the peer's own making, and announces the peer exactly on entry to the established phase |
| HandshakeLaws.HandleSends | client/sml/peer.cpp:124-351 | for every phase and datagram, what is sent: an acknowledgement for each hello in the first two phases and each public key in the second and third, an echo for each echo in the last two, then what the timer is armed with on entering a phase; nothing else |
| HandshakeLaws.HandleMoves | client/sml/peer.cpp:124-351 | for every phase and datagram, which phase is next, how the handling ends, and what is known of the other end, its keys and the agreed key |
| HandshakeLaws.HelloStartsOver | client/sml/peer.cpp:231-237 | a hello puts an established peer where a new one is that has received it, but for the keys of the exchange; it greets and then acknowledges |
| HandshakeLaws.EstablishedStays | client/sml/peer.cpp:238-269 | any other datagram leaves an established peer as it is but for the stream it may open; an echo is echoed |
| HandshakeLaws.SealsOnceKeyed | client/sml/peer.cpp:272-286 | nothing is sent for a stream before there is a key, and then one string that opens to the datagram |
| HandshakeRun.PhaseSafety | client/sml/peer.cpp:225-280 | whatever is received, resets included: there is a key exactly if the agreement bit is set, the established handler's exception is unreachable, no missing key is used when receiving or sending, and the peer is announced once per entry |
| HandshakeRun.TimerSafety | client/sml/peer.cpp:294-308 | the timer is armed exactly while the current flight is unanswered, with exactly that flight, which is what a timeout sends again, and never once established |
| HandshakeRun.HandleTruthful | client/sml/peer.cpp:124-223 | every datagram a peer sends tells the truth about it: acknowledgements that it has a hello, public keys that it is the one of its session, echo answers that it has agreed on a key; and none of this is taken back |
| HandshakeRun.KnowledgeLearned | client/sml/peer.cpp:135-202 | what a peer records from a truthful datagram is true of the other end |
| HandshakeRun.EstablishedMeansKeyed | client/sml/peer.cpp:174-223 | in every run of two peers without a reset, if one is established the other has agreed on a key |
| HandshakeRun.IdentityAndKeyAgreement | client/sml/peer.cpp:80-85 | in such runs either peer, once it has completed the hellos, knows the other's id and true static key and is known to it, and any two derived keys are equal |
| HandshakeRun.KeyNeverSentAgain | client/sml/peer.cpp:169-172 | in runs without a reset, once the bit for an acknowledged public key is set at one end, no public key is added to what it has sent |
| HandshakeRun.OnlyByAnOldCopy | client/sml/peer.cpp:169-172 | if the other end had no key then and has one later, it took it in between, from a copy sent before the bit was set |
| HandshakeRun.StalledWithoutIt | client/sml/peer.cpp:169-172 | if no such copy is delivered to it, the other end stays in the first two phases |
| HandshakeCompletes.HandshakeCanComplete | client/sml/peer.cpp:128-223 | two peers that know each other and have valid keys can reach the established state with the same key, for any private keys |
| HandshakeLine.TwelveDeliveries | client/sml/peer.cpp:124-223 | over lines that lose, repeat and reorder nothing, two peers that know each other and have valid keys always complete: in every order of deliveries something is on its way until twelve copies have been delivered, and then both are established with the same key |
| HandshakeCompletes.AckProvesNothing | client/sml/peer.cpp:124-126 | a run in which a peer holds the bit for an acknowledged public key while the other has received no key and not begun its own exchange |
| HandshakeCompletes.EchoesTooEarly | client/sml/peer.cpp:174-186 | a run in which a peer has agreed on a key and waits for its echo while the other has received no key |
| HandshakeCompletes.KeyHeldIffEstablished | client/sml/peer.cpp:124-223 | of the four phases, a phase implies in all runs that the other end has recorded this end's ephemeral key if and only if it is the established one |
| Transport.DatagramBox.EncryptInPlace | client/sml/datagram.cpp:57-61 | the payload behind the pointer is replaced by its encryption, an empty one stays |
| Transport.DatagramBox.DecryptInPlace | client/sml/datagram.cpp:63-67 | the payload is replaced by the plaintext, or left as it was when the cipher refuses it |
| Transport.Stream.DropAcknowledged | client/sml/stream.cpp:106-109 | the loop over the ordered queue removes exactly the keys below the send offset |
| Transport.Stream.TransmitCopy | client/sml/stream.cpp:116-121 | a sealed copy goes out and the queued datagram keeps its plaintext, so that a retransmission carries it again |
| Transport.Stream.SendOneDatagram | client/sml/stream.cpp:101-125 | the new state, the timer and the bytes handed to the socket are those of the specification the run theorems are about |
| Transport.Stream.Retransmit | client/sml/stream.cpp:127-131 | a timeout transmits again, a cancelled timer does nothing |
| Transport.Stream.SendAck | client/sml/stream.cpp:133-140 | one sealed acknowledgement of the receive offset, nothing else changes |
| Transport.Stream.QueueSegments | client/sml/stream.cpp:76-94 | the loop queues the segments of the data in new datagrams, and keeps what was queued under a taken key |
| Transport.Stream.SendData | client/sml/stream.cpp:52-99 | send does exactly what its specification says, to the state and to the socket |
| Transport.Stream.DeliverHead | client/sml/stream.cpp:35-45 | the drain loop leaves the queue and offset of a drain, and appends the payloads to the ring in order |
| Transport.Stream.DeliverAndAck | client/sml/stream.cpp:34-49 | drain and answer together: one acknowledgement exactly if something was delivered |
| Transport.Stream.FeedDatagram | client/sml/stream.cpp:16-50 | feed does exactly what its specification says: state, answers on the socket, deliveries in the ring |
| Transport.Ring.Get | client/sml/service.cpp:21-23 | messages leave the ring in the order in which they were put in |
| Transport.Peer.constructor | client/sml/peer.cpp:4-41 | a new peer has greeted the other end, waits for the answer and is in the first phase |
| Transport.Peer.SendDatagram | client/sml/peer.cpp:272-286 | before agreement nothing is sent; afterwards exactly the sealed datagram, and the phase is kept |
| Transport.Peer.SendRawWithRetransmit | client/sml/peer.cpp:294-302 | the plain datagram goes out and the timer is armed with it |
| Transport.Peer.RetransmitRaw | client/sml/peer.cpp:303-308 | a timeout sends the armed datagram again and stays armed with it; a cancelled timer does nothing |
| Transport.Peer.ReachAgreement | client/sml/peer.cpp:174-180 | the peer has a key and waits for its echo, or the agreement has thrown and nothing was sent |
| Transport.Peer.OnHello | client/sml/peer.cpp:321-334 | the first handler does what the specification says |
| Transport.Peer.OnPublicKey | client/sml/peer.cpp:336-351 | the second handler does what the specification says, exceptions included |
| Transport.Peer.OnEcho | client/sml/peer.cpp:204-223 | the third handler does what the specification says |
| Transport.Peer.OnEstablished | client/sml/peer.cpp:225-270 | the last handler does what the specification says, down to the stream that is fed and what that stream sends and delivers; every other stream is left as it is |
| Transport.Peer.StartOver | client/sml/peer.cpp:231-237 | a hello to an established peer clears its state and greets the other end again |
| Transport.Peer.FeedBytes | client/sml/peer.cpp:71-76 | a string that does not parse raises an input error and changes nothing; any other is handled by the handler of the current phase; streams it is not for are left as they are, and the peer is in a phase again afterwards |
| TransportRefines.Begin | client/sml/peer.cpp:4-41 | a constructed peer object is in the state in which runs begin |
| TransportRefines.WriteData | client/sml/stream.cpp:52-99 | a call of send on an idle stream of a peer object is the write step of the runs, and leaves every other stream as it was |
| TransportRefines.StreamTimesOut | client/sml/stream.cpp:127-131 | a stream's timer on the objects is the stream timer step of the runs |
| TransportRefines.PeerTimesOut | client/sml/peer.cpp:303-308 | the handshake's timer on the object is the peer timer step of the runs |
| TransportRefines.ReceiveBytes | client/sml/peer.cpp:71-76 | feeding any byte string to a peer object, unless it resets it, is the receiving step of the runs: handshake, stream, socket and ring together |
| TransportRefines.TakeMessage | client/sml/service.cpp:21-23 | taking a message from the ring loses and reorders nothing of what the user hears |
| TransportRefines.HeardIsPrefix | client/sml/stream.cpp:16-50 | for a peer object in a reachable state, what its user has taken from the ring or finds in it is, for each stream, a prefix of what was written at the other end |
| SwitchRun.StepKeeps | grpc-server/GRPCServer.cpp:401-409 | whatever the queue returns can be followed without meeting a deleted object or a null pointer, and the invariant survives it |
| SwitchRun.NoDanglingTags | grpc-server/GRPCServer.cpp:97-126 | in every reachable state each live handler has exactly one outstanding operation, each writer one exactly while it runs, every outstanding tag names a live object, every writer a peer points to is live |
| SwitchRun.AcceptorAccounting | grpc-server/GRPCServer.cpp:97-126 | in every run, of each kind, the handlers waiting for a request are one plus the failed completions, counted over the events, that a handler of the kind saw in a later state; so never none |
| SwitchCalls.HandlersLive | grpc-server/GRPCServer.cpp:97-126 | at every completion of every run: which handler ends, which one is new, and what one that goes on waits for and reads for; all others are as they were |
| SwitchRun.HistoriesAreTrue | grpc-server/GRPCServer.cpp:362-370 | what a writer has been given and has handed to its stream is what the events of the run say |
| SwitchRun.PairsAreFifo | grpc-server/GRPCServer.cpp:290-318 | for each writer and sender, the messages handed to the stream are a prefix of those routed since the writer was created, in order and without repetition, each under its sender's registered name; an idle writer has handed over all |
| SwitchStale.StepPointers | grpc-server/GRPCServer.cpp:290-295 | a peer's pointer to its writer is cleared by a failure of any of its writers, set to the new writer by an opened stream, and otherwise left alone |
| SwitchStale.LosesWriterIff | grpc-server/GRPCServer.cpp:290-295 | in any reachable state a peer that leads to a writer leads to none after a step if and only if the step is the failure of a writer of that peer |
| SwitchStale.StaleFailureSilences | grpc-server/GRPCServer.cpp:290-295 | after such a failure messages for the peer are dropped, and the writer it led to, if it is another one, stays alive with nothing leading to it |
| SwitchStale.ForgottenForGood | grpc-server/GRPCServer.cpp:346-368 | once no peer leads to a writer, none does as long as it lives, and nothing is ever routed to it again |
| SwitchStale.StaleFailureHappens | grpc-server/GRPCServer.cpp:290-346 | a run of five completions in which a replaced writer fails and its peer loses the new one |
| SwitchTokens.TokensIdentify | grpc-server/GRPCServer.cpp:161-170 | for any way of making tokens, every registered name's token leads to its own peer if and only if no two registered names share a token |
| SwitchTokens.DigestsIdentify | grpc-server/GRPCServer.cpp:161-170 | with the program's tokens: if and only if the digests of any two registered names are written differently |
| SwitchTokens.HexReads | grpc-server/GRPCServer.cpp:161-166 | what is written for a byte reads as the byte, with a second digit only from 16 on |
| SwitchTokens.RenderJoins | grpc-server/GRPCServer.cpp:161-166 | a digest is written byte after byte |
| SwitchTokens.CollidingLogins | grpc-server/GRPCServer.cpp:156-173 | two logins under names with one token, after which the token of the second leads to the peer of the first |
| SwitchTokens.CollisionHappens | grpc-server/GRPCServer.cpp:156-173 | that run with the program's tokens, for names whose digests begin with 01 11 and 11 01 and are otherwise equal |
| SwitchTokens.RenderDiffers | grpc-server/GRPCServer.cpp:161-166 | digests with their small bytes in the same places have different tokens unless they are equal |
| SwitchTokens.RenderCollides | grpc-server/GRPCServer.cpp:161-166 | different digests with the same token, for any continuation |
| MessageSwitch.Switch.constructor | grpc-server/GRPCServer.cpp:395-397 | when the loop begins, one handler of each kind waits for a request |
| MessageSwitch.Switch.Proceed | grpc-server/GRPCServer.cpp:399-409 | in any reachable state a turn of the loop follows only live addresses and leaves the state of the specification, with the invariant |
| MessageSwitch.Switch.ProceedHandler | grpc-server/GRPCServer.cpp:97-126 | a call handler's turn leaves the state of the specification |
| MessageSwitch.Switch.Register | grpc-server/GRPCServer.cpp:168-170 | a peer enters each registry only where its key is free |
| MessageSwitch.Switch.HandleMessages | grpc-server/GRPCServer.cpp:338-372 | opening a stream, refusing it and routing a message leave the state of the specification, without meeting a null pointer |
| MessageSwitch.Switch.WriteMessage | grpc-server/GRPCServer.cpp:307-318 | the message is queued, and a write is started exactly if the writer was idle |
| MessageSwitch.Switch.ProceedPeerWriter | grpc-server/GRPCServer.cpp:290-305 | a running writer never pops an empty queue; it goes on with the next message, rests, or is forgotten by its peer and deleted |
| PumpSpec.Conservation | client/GRPCClient.cpp:274-294 | in every run what was written followed by what is queued is what was enqueued |
| PumpSpec.PumpSafety | client/GRPCClient.cpp:123-150 | if nothing was queued when the stream became ready: at most one write in flight, sleep only with an empty queue and nothing in flight, and a deleted sender is never called |
| PumpSpec.DeletedForGood | client/GRPCClient.cpp:128-132 | after a failed completion the sender stays deleted and nothing more is written |
| PumpSpec.SafeIffQuiet | client/GRPCClient.cpp:182-184 | every continuation is safe if and only if nothing is queued at the moment the sender is created |
| PumpSpec.TwoInFlight | client/GRPCClient.cpp:274-283 | with a message queued too early, the next one enqueued makes two writes in flight |
| PumpSpec.CallAfterDelete | client/GRPCClient.cpp:274-283 | with a message queued too early, a failed write lets the next message call the deleted sender |
| PumpSpec.PumpDrains | client/GRPCClient.cpp:127-150 | a running pump writes everything enqueued, in order, in exactly one completion for each message and one for the write in flight, and then sleeps |
| Pump.Context.Enqueue | client/GRPCClient.cpp:274-283 | the message is queued and a sleeping sender woken, as specified |
| Pump.Context.Dequeue | client/GRPCClient.cpp:285-294 | the front message, or nothing and the pump no longer running |
| Pump.Context.CreateSender | client/GRPCClient.cpp:115-121 | the sender takes its first look at the queue before the context knows it |
| Pump.Context.Completed | client/GRPCClient.cpp:127-150 | a completion reaches only a sender that is alive, and leaves the state of the specification |
| Pump.MessageSender.Proceed | client/GRPCClient.cpp:123-150 | a failure deletes the sender and touches nothing else; a success writes the front message, if there is one |
| RegistrySpec.LessIsTotal | server/peer.cpp:35-62 | the order of peers is strict and total, peers it does not separate are equal, and greater is its converse |
| RegistrySpec.CompareFirstDifference | server/peer.cpp:49-50 | addresses are compared at their first difference, and come before the longer ones that they begin |
| RegistrySpec.PortsWrap | server/sml.cpp:22-24 | ports of 32 bits that differ by 65536 name one endpoint |
| RegistrySpec.SendAgreesIff | server/sml.cpp:16-32 | sending keeps bimap and live set in agreement if and only if the peer is registered, or its address cannot be read, or its endpoint is free |
| RegistrySpec.TwoSpellingsDisagree | server/sml.cpp:20-28 | a run of two messages to peers that spell one endpoint differently: afterwards the live set holds both and the bimap one |
| RegistrySpec.RegistryIsOneMap | server/sml.cpp:16-85 | over any run with canonical addresses the bimap's two sides and the live set hold the same peer objects, each with its own endpoint, and are together the map from endpoints to last beats that the events tell |
| RegistrySpec.SweepIsExact | server/sml.cpp:72-85 | after a sweep both containers hold exactly those of their peers whose last beat is at most 30 seconds old |
| RegistrySpec.BimapIsSound | server/sml.cpp:19-82 | in every run, however the peers sent to are spelled, the two sides of the bimap are inverse and pair each peer with its own endpoint |
| RegistrySpec.NothingReplaced | server/sml.cpp:16-62 | whoever is registered in a container stays when messages are sent and received |
| RegistrySpec.SentToItsOwn | server/sml.cpp:19-31 | in every run a message goes to the endpoint that its own peer names |
| RegistrySpec.SentIsRemembered | server/sml.cpp:17-70 | in every run the service has a note of a content exactly if it was sent since its last report, and of the peer of the first such sending |
| RegistrySpec.WithoutOneMore | server/sml.cpp:73-81 | erasing dead peers one by one is erasing them all |
| UdpService.Service.SendMessage | server/sml.cpp:16-32 | the new registry and the target endpoint are those of the specification, also when the address cannot be read |
| UdpService.Service.ReceiveFrom | server/sml.cpp:42-62 | a known endpoint's own peer is returned with its beat renewed; an unknown one gets a new peer under its rendered address |
| UdpService.Service.SendDone | server/sml.cpp:63-71 | a message is reported once, and forgotten |
| UdpService.Service.LivePeers | server/sml.cpp:72-85 | the loop over the live set erases exactly the dead peers from both containers and returns the rest |
| UdpService.SendToTwoSpellings | server/sml.cpp:20-28 | a service in which bimap and live set disagree, reached by two messages under a faithful way of reading and writing addresses |

## Left out

- ByteStrings.ByteString.Seek: targets outside the data are not modelled; the program moves the cursor there and then throws, or does not notice a negative one.
- ByteStrings.ByteString.Append: appending a buffer to itself is not modelled; the reallocation would free what is being read.
- ByteStrings.ByteString.AdjustBufferSize: sizes above 2^30 are not modelled, where the doubling of a 32-bit integer overflows.
- ByteStrings.ByteString.GuaranteeSpace: the same limit.
- ByteStrings.ByteString.Write: the same limit, on where the data ends.
- ByteStrings.SerialiseDatagram: the same limit, on the whole string.
- ByteStrings.ParseDatagram: the same limit; the program keeps lengths in 32-bit integers.
- ByteStrings.Perform: the same limits, seeks within the data, and buffers appended that are other than the one appended to.
- StreamRun.StreamSafety: users call send only on an idle stream and write fewer than 2^32 bytes; `StreamProgress.SendTilesIffIdle` says what happens otherwise.
- StreamProgress.Progress: the other direction rests meanwhile; of a late answer the model keeps the case in which the copy sent before it arrives too, since otherwise the answer is as good as one in time. The copies that the network repeats are of the segment under way; an earlier segment that comes back stops the receiver too (`StreamReassembly.StuckExactly`).
- HandshakeRun.EstablishedMeansKeyed: runs end where an established peer would receive a hello; datagrams of an earlier session break the claim after that.
- TransportRefines.ReceiveBytes: a hello to an established peer is not among the steps; `Transport.Peer.FeedBytes` covers it.
- TransportRefines.WriteData: `Transport.Stream.SendData` covers a stream that is not idle.
- HandshakeLine.TwelveDeliveries: nothing is lost and no timer fires; `HandshakeRun.StalledWithoutIt` says what a loss can do.
- TransportRun.PairSafety: the same, with the assumptions of `StreamRun.StreamSafety` on the users.
- HandshakeRun.IdentityAndKeyAgreement: the same, and the network carries only what the two peers sent; forged datagrams are not considered.
- RegistrySpec.RegistryIsOneMap: peers sent to are spelled as their endpoints are rendered, or cannot be read at all; `RegistrySpec.SendAgreesIff` covers the rest.
- UdpService.Service.LivePeers: visits the peers in no fixed order, where the program follows the order of peers; the result does not depend on it.
- Sockets, asio, threads and gRPC itself: each handler is one step, and cancelling a timer takes effect at once, so a callback already queued when its timer is cancelled is not modelled.
- The C++ heap: in the switch, addresses are keys of maps, so that a dangling one can be told from a live one; freed memory that is never reached again, such as a replaced idle writer, stays in the map.
- Crypto++: AES is any block function, agreement is modular exponentiation with any test of public keys, and SHA-1 any function of names; key generation is a parameter.
- `peer::add_stream`, `get_stream` and `del_stream`: map look-ups for the user; streams created again under an id used before are not considered.
- Destroyed streams' timers after a reset; a peer's `key_`, which only passes the agreed value on to the cipher, and `to_send_`, which is never set.
- `byte_string`'s comparisons, assignment, copies and `sub_byte_string`, which datagrams do not use.
- The `endian_buffer` template of `byte_string::append`, which nothing calls.
- The handler of pings, which the server never starts, and the contents of the replies to list requests.
- Log output, the Qt client, configuration files, `common`, `ws` and `server/server.cpp`.
