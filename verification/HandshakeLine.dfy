/** The handshake over two lines that lose, repeat and reorder nothing, so that each copy arrives at
    most once: every schedule of deliveries completes it. */
module HandshakeLine {
  import opened Bytes
  import opened Wrappers
  import opened Cfb
  import opened Datagrams
  import opened KeyAgreement
  import opened HandshakeSpec
  import opened HandshakeLaws
  import H = HandshakeRun
  import C = HandshakeCompletes

  /** Two peers, and the copies that are on their way to each. */
  datatype Line = Line(a: PeerState, toA: seq<Datagram>, b: PeerState, toB: seq<Datagram>)

  /** The configurations, and the ephemeral private keys that will be drawn. */
  datatype Ends = Ends(aes: BlockCipher, ca: Config, cb: Config, x: nat, y: nat)

  ghost predicate Fit(e: Ends) {
    H.Knows(e.ca, e.cb) && H.Knows(e.cb, e.ca) && C.ValidKeys(e.ca, e.x) && C.ValidKeys(e.cb, e.y)
  }

  ghost function StartLine(e: Ends): Line {
    Line(Start(e.ca).s, Start(e.cb).sent, Start(e.cb).s, Start(e.ca).sent)
  }

  /** One end receives the copy at the head of its line, which is gone then. */
  ghost predicate Delivered(e: Ends, l: Line, l': Line)
    requires e.ca.group.p > 0 && e.cb.group.p > 0
  {
    || (l.toA != [] &&
        var r := Handle(e.aes, e.ca, l.a, l.toA[0], e.x);
        l' == Line(r.s, l.toA[1..], l.b, l.toB + r.sent))
    || (l.toB != [] &&
        var r := Handle(e.aes, e.cb, l.b, l.toB[0], e.y);
        l' == Line(l.a, l.toA + r.sent, r.s, l.toB[1..]))
  }

  ghost predicate IsLineRun(e: Ends, run: seq<Line>)
    requires e.ca.group.p > 0 && e.cb.group.p > 0
  {
    && |run| > 0
    && run[0] == StartLine(e)
    && forall i :: 0 <= i < |run| - 1 ==> Delivered(e, run[i], run[i + 1])
  }

  // ---------- one end ----------

  /** What an end sends in the course of the handshake. */
  function Script(c: Config, priv: nat): (r: seq<Datagram>)
    requires c.group.p > 0
    ensures |r| == 6
  {
    [CreateHello(c.myId), CreateAck(0, 0), CreatePublicKey(PublicKeyOf(c.group, priv)), CreateAck(0, 0),
     CreateEcho(ECHO_CONTENT), CreateEchoBack(CreateEcho(ECHO_CONTENT))]
  }

  /** How much of it has been sent when `i` datagrams of the other end have arrived. */
  function Sent(i: nat): nat {
    if i < 6 then i + 1 else 6
  }

  /** The state of an end at which the first `i` datagrams of the other end's script have arrived. */
  ghost predicate At(c: Config, o: Config, x: nat, y: nat, i: nat, s: PeerState)
    requires c.group.p > 0 && o.group.p > 0
  {
    && PhaseInv(c, s)
    && (1 <= i <= 3 ==> s.peerSpub == LookUp(c, o.myId))
    && (2 <= i <= 3 ==> s.ephemeral == Some(Ephemeral(x, PublicKeyOf(c.group, x))))
    && (4 <= i <= 6 ==>
          s.layer == AgreedKey(c, Some(Ephemeral(x, [])), Some((LookUp(c, o.myId), PublicKeyOf(o.group, y)))))
    && match i
       case 0 => s.handler == HelloHandler && s.bits == SENT_HELLO
       case 1 => s.handler == HelloHandler && s.bits == SENT_HELLO | RECEIVED_HELLO
       case 2 => s.handler == PublicKeyHandler && s.bits == HELLO_COMPLETE | SENT_PUBLIC_KEY
       case 3 =>
         && s.handler == PublicKeyHandler && s.bits == HELLO_COMPLETE | SENT_PUBLIC_KEY | RECEIVED_PUBLIC_KEY
         && s.peerKeys == Some((LookUp(c, o.myId), PublicKeyOf(o.group, y)))
       case 4 => s.handler == EchoHandler
       case 5 => s.handler == EchoHandler
       case 6 => s.handler == EstablishedHandler
       case _ => false
  }

  /** The arrival of the next datagram does what the script says. */
  ghost predicate Onward(aes: BlockCipher, c: Config, o: Config, x: nat, y: nat, i: nat, s: PeerState)
    requires c.group.p > 0 && o.group.p > 0 && i < 6
  {
    var r := Handle(aes, c, s, Script(o, y)[i], x);
    At(c, o, x, y, i + 1, r.s) && r.sent == Script(c, x)[Sent(i)..Sent(i + 1)]
  }

  lemma TakesHello(aes: BlockCipher, c: Config, o: Config, x: nat, y: nat, s: PeerState)
    requires c.group.p > 0 && o.group.p > 0 && At(c, o, x, y, 0, s)
    ensures Onward(aes, c, o, x, y, 0, s)
  {
    hide PublicKeyOf, AgreedKey;
    assert Script(c, x)[1..2] == [CreateAck(0, 0)];
  }

  lemma TakesHelloAck(aes: BlockCipher, c: Config, o: Config, x: nat, y: nat, s: PeerState)
    requires c.group.p > 0 && o.group.p > 0 && At(c, o, x, y, 1, s)
    ensures Onward(aes, c, o, x, y, 1, s)
  {
    hide PublicKeyOf, AgreedKey;
    assert Script(c, x)[2..3] == [CreatePublicKey(PublicKeyOf(c.group, x))];
  }

  lemma TakesKey(aes: BlockCipher, c: Config, o: Config, x: nat, y: nat, s: PeerState)
    requires c.group.p > 0 && o.group.p > 0 && At(c, o, x, y, 2, s)
    ensures Onward(aes, c, o, x, y, 2, s)
  {
    hide PublicKeyOf, AgreedKey, Agree, FoldKey;
    assert Script(c, x)[3..4] == [CreateAck(0, 0)];
  }

  lemma TakesKeyAck(aes: BlockCipher, c: Config, o: Config, x: nat, y: nat, s: PeerState)
    requires c.group.p > 0 && o.group.p > 0 && At(c, o, x, y, 3, s)
    requires c.group.valid(DecodeNat(LookUp(c, o.myId))) && c.group.valid(DecodeNat(PublicKeyOf(o.group, y)))
    ensures Onward(aes, c, o, x, y, 3, s)
  {
    hide PublicKeyOf, FoldKey, AgreedValue, DecodeNat;
    assert Script(c, x)[4..5] == [CreateEcho(ECHO_CONTENT)];
  }

  lemma TakesEcho(aes: BlockCipher, c: Config, o: Config, x: nat, y: nat, s: PeerState)
    requires c.group.p > 0 && o.group.p > 0 && At(c, o, x, y, 4, s)
    ensures Onward(aes, c, o, x, y, 4, s)
  {
    hide PublicKeyOf, AgreedKey;
    assert Script(c, x)[5..6] == [CreateEchoBack(CreateEcho(ECHO_CONTENT))];
  }

  lemma TakesEchoBack(aes: BlockCipher, c: Config, o: Config, x: nat, y: nat, s: PeerState)
    requires c.group.p > 0 && o.group.p > 0 && At(c, o, x, y, 5, s)
    ensures Onward(aes, c, o, x, y, 5, s)
  {
    hide PublicKeyOf, AgreedKey;
    assert Script(c, x)[6..6] == [];
  }

  lemma Advances(aes: BlockCipher, c: Config, o: Config, x: nat, y: nat, i: nat, s: PeerState)
    requires H.Knows(c, o) && o.group.p > 0 && C.ValidKeys(o, y) && At(c, o, x, y, i, s) && i < 6
    ensures Onward(aes, c, o, x, y, i, s)
  {
    hide At, Onward, PublicKeyOf, DecodeNat;
    if i == 0 { TakesHello(aes, c, o, x, y, s); }
    else if i == 1 { TakesHelloAck(aes, c, o, x, y, s); }
    else if i == 2 { TakesKey(aes, c, o, x, y, s); }
    else if i == 3 { TakesKeyAck(aes, c, o, x, y, s); }
    else if i == 4 { TakesEcho(aes, c, o, x, y, s); }
    else { TakesEchoBack(aes, c, o, x, y, s); }
  }

  // ---------- both ends ----------

  /** So many datagrams have arrived at either end, and what has been sent beyond them is on its way. */
  ghost predicate Stands(e: Ends, l: Line, i: nat, j: nat)
    requires e.ca.group.p > 0 && e.cb.group.p > 0
  {
    && i <= Sent(j) && j <= Sent(i)
    && At(e.ca, e.cb, e.x, e.y, i, l.a) && At(e.cb, e.ca, e.y, e.x, j, l.b)
    && l.toA == Script(e.cb, e.y)[i..Sent(j)] && l.toB == Script(e.ca, e.x)[j..Sent(i)]
  }

  lemma AtMostSix(c: Config, o: Config, x: nat, y: nat, i: nat, s: PeerState)
    requires c.group.p > 0 && o.group.p > 0 && At(c, o, x, y, i, s)
    ensures i <= 6
  {
  }

  lemma StartStands(e: Ends)
    requires Fit(e) && e.ca.group.p > 0 && e.cb.group.p > 0
    ensures Stands(e, StartLine(e), 0, 0)
  {
    hide PublicKeyOf;
    assert Script(e.ca, e.x)[0..1] == Start(e.ca).sent && Script(e.cb, e.y)[0..1] == Start(e.cb).sent;
  }

  /** A script that goes on is read on. */
  lemma ReadOn(script: seq<Datagram>, i: nat, j: nat, k: nat)
    requires i <= j <= k <= |script|
    ensures script[i..j] + script[j..k] == script[i..k]
    ensures i < j ==> script[i..j][0] == script[i] && script[i..j][1..] == script[i + 1..j]
  {
  }

  lemma FirstStands(e: Ends, l: Line, i: nat, j: nat)
    requires Fit(e) && e.ca.group.p > 0 && e.cb.group.p > 0 && Stands(e, l, i, j) && l.toA != []
    ensures var r := Handle(e.aes, e.ca, l.a, l.toA[0], e.x);
            i < 6 && Stands(e, Line(r.s, l.toA[1..], l.b, l.toB + r.sent), i + 1, j)
  {
    AtMostSix(e.cb, e.ca, e.y, e.x, j, l.b);
    hide At, H.Knows, C.ValidKeys, Script, Handle;
    Advances(e.aes, e.ca, e.cb, e.x, e.y, i, l.a);
    ReadOn(Script(e.cb, e.y), i, Sent(j), Sent(j));
    ReadOn(Script(e.ca, e.x), j, Sent(i), Sent(i + 1));
  }

  lemma SecondStands(e: Ends, l: Line, i: nat, j: nat)
    requires Fit(e) && e.ca.group.p > 0 && e.cb.group.p > 0 && Stands(e, l, i, j) && l.toB != []
    ensures var r := Handle(e.aes, e.cb, l.b, l.toB[0], e.y);
            j < 6 && Stands(e, Line(l.a, l.toA + r.sent, r.s, l.toB[1..]), i, j + 1)
  {
    AtMostSix(e.ca, e.cb, e.x, e.y, i, l.a);
    hide At, H.Knows, C.ValidKeys, Script, Handle;
    Advances(e.aes, e.cb, e.ca, e.y, e.x, j, l.b);
    ReadOn(Script(e.ca, e.x), j, Sent(i), Sent(i));
    ReadOn(Script(e.cb, e.y), i, Sent(j), Sent(j + 1));
  }

  lemma StepStands(e: Ends, l: Line, l': Line, i: nat, j: nat)
    requires Fit(e) && e.ca.group.p > 0 && e.cb.group.p > 0 && Stands(e, l, i, j) && Delivered(e, l, l')
    ensures (i < 6 && Stands(e, l', i + 1, j)) || (j < 6 && Stands(e, l', i, j + 1))
  {
    hide Fit, Stands, Handle;
    if l.toA != [] {
      FirstStands(e, l, i, j);
    }
    if l.toB != [] {
      SecondStands(e, l, i, j);
    }
  }

  lemma {:induction false} RunStands(e: Ends, run: seq<Line>, n: nat) returns (i: nat, j: nat)
    requires Fit(e) && e.ca.group.p > 0 && e.cb.group.p > 0 && IsLineRun(e, run) && n < |run|
    ensures i <= 6 && j <= 6 && i + j == n && Stands(e, run[n], i, j)
  {
    hide Fit, Stands, StartLine, Delivered;
    if n == 0 {
      i, j := 0, 0;
      StartStands(e);
    } else {
      i, j := RunStands(e, run, n - 1);
      StepStands(e, run[n - 1], run[n], i, j);
      if i < 6 && Stands(e, run[n], i + 1, j) {
        i := i + 1;
      } else {
        j := j + 1;
      }
    }
  }

  /** Over such lines the handshake of two peers that know each other and have valid keys cannot fail:
      whatever is delivered first, there is something on its way until twelve datagrams have been
      delivered; then nothing is, and both ends are established with the same key. */
  lemma TwelveDeliveries(e: Ends, run: seq<Line>)
    requires Fit(e) && e.ca.group.p > 0 && e.cb.group.p > 0 && IsLineRun(e, run)
    ensures |run| <= 13
    ensures var l := run[|run| - 1];
            && (|run| < 13 ==> l.toA != [] || l.toB != [])
            && (|run| == 13 ==>
                  && l.toA == l.toB == []
                  && l.a.handler == l.b.handler == EstablishedHandler
                  && l.a.layer.Some? && l.a.layer == l.b.layer)
  {
    hide Fit, IsLineRun;
    assert |run| > 0 by { RunNotEmpty(e, run); }
    var i, j := RunStands(e, run, |run| - 1);
    var l := run[|run| - 1];
    if l.toA == [] && l.toB == [] {
      assert i == Sent(j) && j == Sent(i);
    }
    if |run| == 13 {
      SameKeys(e, l);
    }
  }

  lemma RunNotEmpty(e: Ends, run: seq<Line>)
    requires e.ca.group.p > 0 && e.cb.group.p > 0 && IsLineRun(e, run)
    ensures |run| > 0
  {
  }

  lemma SameKeys(e: Ends, l: Line)
    requires Fit(e) && e.ca.group.p > 0 && e.cb.group.p > 0 && Stands(e, l, 6, 6)
    ensures l.toA == l.toB == [] && l.a.handler == l.b.handler == EstablishedHandler
    ensures l.a.layer.Some? && l.a.layer == l.b.layer
  {
    hide PublicKeyOf, FoldKey, AgreedValue, DecodeNat, PhaseInv, C.ValidKeys;
    AgreedValuesEqual(e.ca.group, e.ca.spriv, e.x, e.cb.spriv, e.y);
  }
}
