/** The objects of Transport.dfy take the steps that the runs of TransportRun.dfy are made of: each
    method here makes one call that the program makes, and tells the step that it is. */
module TransportRefines {
  import opened Bytes
  import opened Wrappers
  import opened Cfb
  import opened Datagrams
  import opened KeyAgreement
  import opened HandshakeSpec
  import opened StreamSpec
  import opened Transport
  import opened TransportRun
  import H = HandshakeRun
  import S = StreamRun

  function Elements(wire: seq<seq<byte>>): set<seq<byte>> {
    set b | b in wire
  }

  function HeardIn(id: u32, m: Notice): seq<byte> {
    if m.RecvData? && m.streamId == id then m.data else []
  }

  /** What the user of a stream hears in a list of messages. */
  function Heard(id: u32, messages: seq<Notice>): seq<byte> {
    if messages == [] then [] else HeardIn(id, messages[0]) + Heard(id, messages[1..])
  }

  ghost function SettingOf(p: Peer): Setting {
    Setting(p.order, p.aes)
  }

  /** The object `p` is in the state `x`; `taken` is what its user has already got from the ring. */
  ghost predicate Shows(p: Peer, x: Side, taken: seq<Notice>)
    reads *
  {
    && p.Ready() && p.View() == x.peer && Elements(p.wire) == x.wire
    && (forall id: u32 :: EndOf(x, id).s == p.StreamState0(id))
    && (forall id: u32 :: EndOf(x, id).got == Heard(id, taken + p.ring.messages))
  }

  // ---------- messages for the user ----------

  lemma {:induction false} HeardJoins(id: u32, ms: seq<Notice>, ns: seq<Notice>)
    ensures Heard(id, ms + ns) == Heard(id, ms) + Heard(id, ns)
  {
    hide HeardIn;
    if ms == [] {
      assert ms + ns == ns;
    } else {
      HeardJoins(id, ms[1..], ns);
      assert (ms + ns)[0] == ms[0] && (ms + ns)[1..] == ms[1..] + ns;
    }
  }

  lemma {:induction false} HeardNothing(id: u32, ms: seq<Notice>)
    requires forall i :: 0 <= i < |ms| ==> !ms[i].RecvData?
    ensures Heard(id, ms) == []
  {
    if ms != [] {
      HeardNothing(id, ms[1..]);
    }
  }

  /** The messages for what a stream delivers say exactly that, to the user of that stream. */
  lemma {:induction false} HeardDeliveries(id: u32, k: u32, ps: seq<seq<byte>>)
    ensures Heard(id, Deliveries(k, ps)) == if id == k then S.Flatten(ps) else []
  {
    if ps != [] {
      HeardDeliveries(id, k, ps[1..]);
      assert Deliveries(k, ps)[0] == RecvData(k, ps[0]) && Deliveries(k, ps)[1..] == Deliveries(k, ps[1..]);
    }
  }

  lemma HandleSaysNothing(t: Setting, c: Config, s: PeerState, d: Datagram, priv: nat)
    requires c.group.p > 0
    ensures var r := Handle(t.aes, c, s, d, priv); forall i :: 0 <= i < |r.notices| ==> !r.notices[i].RecvData?
  {
    hide PublicKeyOf, Agree, FoldKey, DecryptPayload, Has, LookUp;
  }

  // ---------- what reaches the socket ----------

  lemma SerialisedElements(o: ByteOrder, wire: seq<seq<byte>>, ds: seq<Datagram>)
    ensures Elements(wire + SerialiseAll(o, ds)) == Elements(wire) + (set d | d in ds :: Serialise(o, d))
  {
    hide Serialise;
    var all := SerialiseAll(o, ds);
    assert forall i :: 0 <= i < |ds| ==> all[i] == Serialise(o, ds[i]) && all[i] in all;
  }

  lemma SealedElements(o: ByteOrder, aes: BlockCipher, key: Block, ivs: seq<Block>, ds: seq<Datagram>)
    requires |ivs| == |ds|
    ensures Elements(SealAll(o, aes, key, ivs, ds)) == set i | 0 <= i < |ds| :: Seal(o, aes, key, ivs[i], ds[i])
  {
    hide Seal;
    var all := SealAll(o, aes, key, ivs, ds);
    assert forall i :: 0 <= i < |ds| ==> all[i] == Seal(o, aes, key, ivs[i], ds[i]) && all[i] in all;
  }

  /** What a stream has sent is on the wire, under vectors that the peer has drawn. */
  lemma ActOnWire(t: Setting, x: Side, id: u32, e: S.Event, before: seq<seq<byte>>, after: seq<seq<byte>>)
    returns (x': Side)
    requires Elements(before) == x.wire
    requires SealedOnto(t.order, t.aes, x.peer, before, after, S.EffectOf(EndOf(x, id).s, e).sent)
    ensures StreamActs(t, x, id, e, x')
    ensures x' == Side(x.peer, x.ends[id := S.Act(EndOf(x, id), e)], Elements(after))
  {
    hide S.Act, S.EffectOf, Seal, SealAll;
    var sent := S.EffectOf(EndOf(x, id).s, e).sent;
    x' := Side(x.peer, x.ends[id := S.Act(EndOf(x, id), e)], Elements(after));
    if Has(x.peer.bits, ESTABLISHED) && x.peer.layer.Some? {
      var key := x.peer.layer.value;
      var ivs: seq<Block> :| |ivs| == |sent| && after == before + SealAll(t.order, t.aes, key, ivs, sent);
      SealedElements(t.order, t.aes, key, ivs, sent);
      assert x'.wire == x.wire + Sealed(t, x.peer, sent, ivs);
    } else {
      var iv: Block := seq(BLOCK, _ => 0);
      var ivs: seq<Block> := seq(|sent|, _ => iv);
      assert x'.wire == x.wire + Sealed(t, x.peer, sent, ivs);
    }
  }

  // ---------- the calls ----------

  /** A new peer is in the state in which runs begin. */
  method Begin(order: ByteOrder, aes: BlockCipher, config: Config, ring: Ring) returns (p: Peer)
    requires config.group.p > 0 && ring.messages == []
    ensures p.ring == ring && p.config == config && SettingOf(p) == Setting(order, aes)
    ensures Shows(p, StartSide(Setting(order, aes), config), [])
  {
    hide Serialise, PhaseInv;
    p := new Peer(order, aes, config, ring);
    SerialisedElements(order, [], Start(config).sent);
    assert [] + SerialiseAll(order, Start(config).sent) == SerialiseAll(order, Start(config).sent);
  }

  /** The user takes a message from the ring. */
  method TakeMessage(p: Peer, ghost x: Side, ghost taken: seq<Notice>) returns (m: Option<Notice>)
    requires Shows(p, x, taken)
    modifies p.ring
    ensures Shows(p, x, taken + if m.Some? then [m.value] else [])
  {
    hide PhaseInv, Heard;
    m := p.ring.Get();
    if m.Some? {
      assert taken + [m.value] + p.ring.messages == taken + ([m.value] + p.ring.messages);
    } else {
      assert taken + [] == taken;
    }
  }

  /** A stream and the datagrams in its queues are untouched. */
  twostate predicate Stands(st: Stream)
    reads *
  {
    && unchanged(st)
    && (forall b :: b in st.sendQueue.Values ==> b.value == old(b.value))
    && (forall b :: b in st.recvQueue.Values ==> b.value == old(b.value))
  }

  /** The stream with this id, if there is one, is the one that was there, untouched. */
  twostate predicate StandsAt(p: Peer, k: u32)
    reads *
  {
    && (k in p.streams <==> k in old(p.streams))
    && (k in p.streams ==> p.streams[k] == old(p.streams[k]) && Stands(p.streams[k]))
  }

  twostate lemma StandsStill(st: Stream)
    requires Stands(st)
    ensures st.View() == old(st.View())
  {
    assert forall k :: k in st.sendQueue ==> st.sendQueue[k] in st.sendQueue.Values;
    assert forall k :: k in st.recvQueue ==> st.recvQueue[k] in st.recvQueue.Values;
    assert st.Contents(st.sendQueue) == old(st.Contents(st.sendQueue));
    assert st.Contents(st.recvQueue) == old(st.Contents(st.recvQueue));
  }

  twostate lemma KeepsState(p: Peer, new k: u32)
    requires StandsAt(p, k)
    ensures p.StreamState0(k) == old(p.StreamState0(k))
  {
    hide Stream.View, Stands;
    if k in p.streams {
      StandsStill(p.streams[k]);
    }
  }

  /** A stream has taken a step; nobody has got anything by it. */
  twostate lemma StreamMoved(p: Peer, new id: u32, new x: Side, new taken: seq<Notice>, new e: S.Event, new x': Side)
    requires old(Shows(p, x, taken)) && forall k :: k != id ==> StandsAt(p, k)
    requires p.Ready() && p.View() == old(p.View()) && p.ring.messages == old(p.ring.messages)
    requires var f := S.EffectOf(old(p.StreamState0(id)), e); p.StreamState0(id) == f.state && f.delivered == []
    requires x' == Side(x.peer, x.ends[id := S.Act(EndOf(x, id), e)], Elements(p.wire))
    ensures Shows(p, x', taken)
  {
    hide PhaseInv, Heard, S.EffectOf, Stream.View, StandsAt;
    var z := EndOf(x, id);
    assert z.s == old(p.StreamState0(id));
    assert S.Flatten([]) == [] && z.got + [] == z.got;
    assert EndOf(x', id) == S.Act(z, e);
    forall k: u32 | k != id
      ensures EndOf(x', k) == EndOf(x, k) && p.StreamState0(k) == old(p.StreamState0(k))
    {
      KeepsState(p, k);
    }
  }

  /** A user writes to one of the streams. */
  method WriteData(p: Peer, st: Stream, data: seq<byte>, ghost x: Side, ghost taken: seq<Notice>)
    returns (ghost x': Side)
    requires Shows(p, x, taken) && st.id in p.streams && p.streams[st.id] == st
    requires S.Enabled(EndOf(x, st.id), {}, S.Write(data))
    modifies st`sendQueue, st`timerArmed, p`wire, p.IvArrays()
    ensures Shows(p, x', taken)
    ensures forall inbound: set<seq<byte>> :: SideNext(SettingOf(p), p.config, x, inbound, Writes(st.id, data), x')
  {
    hide PhaseInv, SealedOnto, Heard, Send, S.Act, StreamActs;
    ghost var s := st.View();
    st.SendData(data);
    SendsOnly(s, data);
    x' := ActOnWire(SettingOf(p), x, st.id, S.Write(data), old(p.wire), p.wire);
    StreamMoved(p, st.id, x, taken, S.Write(data), x');
  }

  lemma SendsOnly(s: StreamState, data: seq<byte>)
    ensures Send(s, data).delivered == [] && SendOne(s).delivered == []
  {
  }

  /** The retransmit timer of a stream fires. */
  method StreamTimesOut(p: Peer, st: Stream, ghost x: Side, ghost taken: seq<Notice>) returns (ghost x': Side)
    requires Shows(p, x, taken) && st.id in p.streams && p.streams[st.id] == st && st.timerArmed
    modifies st`sendQueue, st`timerArmed, p`wire, p.IvArrays()
    ensures Shows(p, x', taken)
    ensures forall inbound: set<seq<byte>> :: SideNext(SettingOf(p), p.config, x, inbound, StreamTimer(st.id), x')
  {
    hide PhaseInv, SealedOnto, Heard, SendOne, S.Act, StreamActs;
    ghost var s := st.View();
    st.Retransmit(false);
    SendsOnly(s, []);
    x' := ActOnWire(SettingOf(p), x, st.id, S.Timeout, old(p.wire), p.wire);
    StreamMoved(p, st.id, x, taken, S.Timeout, x');
  }

  /** The retransmit timer of the handshake fires. */
  method PeerTimesOut(p: Peer, ghost x: Side, ghost taken: seq<Notice>) returns (ghost x': Side)
    requires Shows(p, x, taken) && p.timer.Some?
    modifies p`wire, p`timer
    ensures Shows(p, x', taken)
    ensures forall inbound: set<seq<byte>> :: SideNext(SettingOf(p), p.config, x, inbound, PeerTimer, x')
  {
    hide PhaseInv, Serialise, Heard, Peer.StreamState0;
    var d := p.timer.value;
    p.RetransmitRaw(d, false);
    x' := x.(wire := Elements(p.wire));
    assert [Serialise(p.order, d)] == SerialiseAll(p.order, [d]);
    SerialisedElements(p.order, old(p.wire), [d]);
    forall k: u32
      ensures p.StreamState0(k) == old(p.StreamState0(k))
    {
      KeepsState(p, k);
    }
  }

  // ---------- a datagram arrives ----------

  lemma HandleStreams(t: Setting, c: Config, s: PeerState, d: Datagram, priv: nat)
    requires c.group.p > 0 && !(s.handler == EstablishedHandler && d.kind == HELLO)
    ensures var r := Handle(t.aes, c, s, d, priv);
            if r.end.Dispatch? then r.s.streams == s.streams + {r.end.d.id} && r.sent == []
            else r.s.streams == s.streams
  {
    hide PublicKeyOf, Agree, FoldKey, DecryptPayload, Has, LookUp;
  }

  /** Every stream that was there and still is, and that the datagram was not for, is untouched. */
  twostate predicate Others(p: Peer, end: Ending)
    reads *
  {
    forall k :: k in p.streams && k in old(p.streams) && !(end.Dispatch? && end.d.id == k) ==>
      p.streams[k] == old(p.streams)[k] && Stands(p.streams[k])
  }

  /** The peer itself has handled the datagram. */
  twostate lemma ShownHandled(p: Peer, new d: Datagram, new random: nat, new end: Ending, new x: Side,
                              new taken: seq<Notice>) returns (x': Side)
    requires old(Shows(p, x, taken)) && !(x.peer.handler == EstablishedHandler && d.kind == HELLO)
    requires p.Ready() && p.Handled(d, random, end) && Others(p, end) && !end.Dispatch?
    ensures x' == PeerActs(SettingOf(p), p.config, x, d, random) && Shows(p, x', taken)
  {
    hide Handle, PhaseInv, SerialiseAll, Heard, Peer.StreamState0, Stands;
    var t := SettingOf(p);
    var r := Handle(t.aes, p.config, x.peer, d, random);
    x' := PeerActs(t, p.config, x, d, random);
    HandleStreams(t, p.config, x.peer, d, random);
    HandleSaysNothing(t, p.config, x.peer, d, random);
    SerialisedElements(p.order, old(p.wire), r.sent);
    forall k: u32
      ensures EndOf(x', k) == EndOf(x, k) && p.StreamState0(k) == old(p.StreamState0(k))
      ensures Heard(k, taken + p.ring.messages) == Heard(k, taken + old(p.ring.messages))
    {
      assert k in p.View().streams <==> k in old(p.View().streams);
      KeepsState(p, k);
      HeardMore(k, taken, old(p.ring.messages), r.notices, []);
    }
  }

  /** New messages are heard after the earlier ones, and announcements say nothing. */
  lemma HeardMore(id: u32, taken: seq<Notice>, before: seq<Notice>, announced: seq<Notice>, more: seq<Notice>)
    requires forall i :: 0 <= i < |announced| ==> !announced[i].RecvData?
    ensures Heard(id, taken + (before + announced + more)) == Heard(id, taken + before) + Heard(id, more)
    ensures Heard(id, taken + (before + announced)) == Heard(id, taken + before)
  {
    hide Heard;
    HeardNothing(id, announced);
    HeardJoins(id, taken + before, announced);
    HeardJoins(id, taken + before + announced, more);
    assert taken + (before + announced) == taken + before + announced;
    assert taken + (before + announced + more) == taken + before + announced + more;
  }

  /** The peer has opened the datagram and its stream has been fed. */
  twostate lemma ShownFed(p: Peer, new d: Datagram, new random: nat, new end: Ending, new x: Side,
                          new taken: seq<Notice>) returns (x': Side)
    requires old(Shows(p, x, taken)) && !(x.peer.handler == EstablishedHandler && d.kind == HELLO)
    requires p.Ready() && p.Handled(d, random, end) && Others(p, end) && end.Dispatch?
    ensures StreamActs(SettingOf(p), PeerActs(SettingOf(p), p.config, x, d, random), end.d.id, S.Receive(end.d), x')
    ensures Shows(p, x', taken)
  {
    hide Handle, PhaseInv, SealedOnto, Heard, Peer.StreamState0, Stands, Feed, Deliveries, StreamActs;
    var t, plain, id := SettingOf(p), end.d, end.d.id;
    var r := Handle(t.aes, p.config, x.peer, d, random);
    HandleStreams(t, p.config, x.peer, d, random);
    HandleSaysNothing(t, p.config, x.peer, d, random);
    var x1 := PeerActs(t, p.config, x, d, random);
    assert x1.wire == x.wire && x1.peer == p.View();
    var f := Feed(EndOf(x, id).s, plain);
    x' := ActOnWire(t, x1, id, S.Receive(plain), old(p.wire), p.wire);
    forall k: u32
      ensures EndOf(x', k).s == p.StreamState0(k) && EndOf(x', k).got == Heard(k, taken + p.ring.messages)
    {
      HeardMore(k, taken, old(p.ring.messages), r.notices, Deliveries(id, f.delivered));
      HeardDeliveries(k, id, f.delivered);
      if k == id {
        FedState(p, id);
      } else {
        assert k in p.View().streams <==> k in old(p.View().streams);
        KeepsState(p, k);
      }
    }
  }

  lemma FedState(p: Peer, id: u32)
    requires id in p.streams
    ensures p.StreamState0(id) == p.streams[id].View()
  {
  }

  lemma ShownState(p: Peer, x: Side, taken: seq<Notice>)
    requires Shows(p, x, taken)
    ensures p.Ready() && p.View() == x.peer && p.handler == x.peer.handler
  {
  }

  twostate lemma HandledEnd(p: Peer, new d: Datagram, new random: nat, new end: Ending)
    requires old(p.Ready()) && p.Handled(d, random, end)
    ensures end == Handle(p.aes, p.config, old(p.View()), d, random).end
  {
    hide Handle, PhaseInv;
  }

  /** A string that does not parse changes nothing. */
  twostate lemma ShownUntouched(p: Peer, new end: Ending, new x: Side, new taken: seq<Notice>)
    requires old(Shows(p, x, taken)) && p.Ready() && Others(p, end) && !end.Dispatch?
    requires p.View() == old(p.View()) && p.wire == old(p.wire) && p.ring.messages == old(p.ring.messages)
    ensures Shows(p, x, taken)
  {
    hide PhaseInv, Heard, Peer.StreamState0, Stands;
    forall k: u32
      ensures p.StreamState0(k) == old(p.StreamState0(k))
    {
      assert k in p.View().streams <==> k in old(p.View().streams);
      KeepsState(p, k);
    }
  }

  /** The socket delivers a byte string. */
  method ReceiveBytes(p: Peer, bytes: seq<byte>, random: nat, ghost inbound: set<seq<byte>>, ghost x: Side,
                      ghost taken: seq<Notice>) returns (ghost x': Side)
    requires Shows(p, x, taken) && bytes in inbound
    requires var r := Parse(p.order, bytes);
             r.Success? ==> !(p.handler == EstablishedHandler && r.value.kind == HELLO)
    modifies p, p.ring, p.dh, p.IvArrays(), p.streams.Values
    ensures Shows(p, x', taken) && SideNext(SettingOf(p), p.config, x, inbound, Receives(bytes, random), x')
  {
    hide Shows, Handle, PhaseInv, Parse, PeerActs, StreamActs, Peer.Handled, Peer.StreamState0;
    ShownState(p, x, taken);
    var end := p.FeedBytes(bytes, random);
    assert Others(p, end);
    hide Stands, Others;
    var parsed := Parse(p.order, bytes);
    if parsed.Failure? {
      ShownUntouched(p, end, x, taken);
      x' := x;
    } else {
      HandledEnd(p, parsed.value, random, end);
      if end.Dispatch? {
        x' := ShownFed(p, parsed.value, random, end, x, taken);
      } else {
        x' := ShownHandled(p, parsed.value, random, end, x, taken);
      }
    }
  }

  /** What the run theorems say of a state holds of the objects that are in it: what a user has taken
      from the ring or finds in it is, for each stream, a prefix of what was written at the other end. */
  lemma HeardIsPrefix(p: Peer, t: Setting, ca: Config, cb: Config, run: seq<Pair>, i: nat, taken: seq<Notice>, id: u32)
    requires H.Knows(ca, cb) && H.Knows(cb, ca) && ca.group.p > 0 && cb.group.p > 0
    requires IsRun(t, ca, cb, run) && i < |run| && Shows(p, run[i].a, taken)
    ensures Heard(id, taken + p.ring.messages) <= EndOf(run[i].b, id).written
  {
    hide IsRun, Heard, Peer.StreamState0, PhaseInv, H.Knows;
    PairSafety(t, ca, cb, run, i, id);
  }
}
