/** The order that `server/peer.cpp` puts on peers, and the registry of `server/sml.cpp` as functions
    on values. */
module RegistrySpec {
  import opened Wrappers

  // ---------- the order of peers ----------

  datatype PeerKey = PeerKey(address: string, port: nat)

  /** `std::string::compare`. */
  function Compare(a: string, b: string): int {
    if a == [] && b == [] then 0
    else if a == [] then -1
    else if b == [] then 1
    else if a[0] != b[0] then if a[0] < b[0] then -1 else 1
    else Compare(a[1..], b[1..])
  }

  predicate Less(a: PeerKey, b: PeerKey) {
    if a == b then false
    else Compare(a.address, b.address) < 0 || (Compare(a.address, b.address) == 0 && a.port < b.port)
  }

  predicate Greater(a: PeerKey, b: PeerKey) {
    if a == b then false else !Less(a, b)
  }

  lemma {:induction false} CompareLaws(a: string, b: string)
    ensures Compare(a, b) == 0 <==> a == b
    ensures Compare(a, b) < 0 <==> Compare(b, a) > 0
  {
    if a != [] && b != [] && a[0] == b[0] {
      CompareLaws(a[1..], b[1..]);
      assert a == [a[0]] + a[1..] && b == [b[0]] + b[1..];
    }
  }

  lemma {:induction false} CompareTransitive(a: string, b: string, c: string)
    requires Compare(a, b) < 0 && Compare(b, c) < 0
    ensures Compare(a, c) < 0
  {
    if a != [] && a[0] == b[0] == c[0] {
      CompareTransitive(a[1..], b[1..], c[1..]);
    }
  }

  /** Strings are compared at the first character in which they differ; a string comes before the longer
      ones that it begins. */
  lemma {:induction false} CompareFirstDifference(a: string, b: string, n: nat)
    requires n <= |a| && n <= |b| && a[..n] == b[..n]
    requires n == |a| || n == |b| || a[n] != b[n]
    ensures Compare(a, b) < 0 <==> n < |b| && (n == |a| || a[n] < b[n])
    ensures Compare(a, b) == 0 <==> n == |a| == |b|
  {
    if n > 0 {
      assert a[0] == a[..n][0] && b[0] == b[..n][0];
      assert a[1..][..n - 1] == a[..n][1..] && b[1..][..n - 1] == b[..n][1..];
      CompareFirstDifference(a[1..], b[1..], n - 1);
    }
  }

  /** The order is strict and total, and peers that it does not separate are equal, so that a set or
      bimap keyed by it holds one peer for each address and port. */
  lemma LessIsTotal(a: PeerKey, b: PeerKey, c: PeerKey)
    ensures !Less(a, a)
    ensures Less(a, b) && Less(b, c) ==> Less(a, c)
    ensures !Less(a, b) && !Less(b, a) <==> a == b
    ensures Greater(a, b) <==> Less(b, a)
  {
    CompareLaws(a.address, b.address);
    CompareLaws(b.address, a.address);
    CompareLaws(b.address, c.address);
    CompareLaws(a.address, c.address);
    if Compare(a.address, b.address) < 0 && Compare(b.address, c.address) < 0 {
      CompareTransitive(a.address, b.address, c.address);
    }
    assert a == PeerKey(a.address, a.port) && b == PeerKey(b.address, b.port);
  }

  // ---------- the registry ----------

  /** A peer is an object: it has an identity, a fixed name, and a heart beat that changes. */
  class Peer {
    const address: string
    const port: nat
    var lastBeat: int

    constructor (address: string, port: nat, now: int)
      ensures this.address == address && this.port == port && lastBeat == now
    {
      this.address, this.port, lastBeat := address, port, now;
    }

    method Update(now: int)
      modifies this
      ensures lastBeat == now
    {
      lastBeat := now;
    }

    predicate Dead(now: int)
      reads this
    {
      now - lastBeat > TIMEOUT
    }

    function Key(): PeerKey {
      PeerKey(address, port)
    }
  }

  const TIMEOUT := 30
  const PORTS := 65536

  type Ip = nat
  datatype Endpoint = Endpoint(ip: Ip, port: nat)

  /** Reading and writing addresses, which asio does. */
  datatype Addresses = Addresses(parse: string -> Option<Ip>, render: Ip -> string)

  ghost predicate Faithful(names: Addresses) {
    forall ip: Ip :: names.parse(names.render(ip)) == Some(ip)
  }

  /** The endpoint that a peer names; a port is cut to sixteen bits. */
  function EndpointOf(names: Addresses, k: PeerKey): Option<Endpoint> {
    match names.parse(k.address)
    case None => None
    case Some(ip) => Some(Endpoint(ip, k.port % PORTS))
  }

  function KeyOf(names: Addresses, ep: Endpoint): PeerKey {
    PeerKey(names.render(ep.ip), ep.port)
  }

  /** Ports that differ by a multiple of 65536 name the same endpoint. */
  lemma PortsWrap(names: Addresses, k: PeerKey)
    ensures EndpointOf(names, k.(port := k.port + 65536)) == EndpointOf(names, k)
    ensures EndpointOf(names, k).Some? ==> 0 <= EndpointOf(names, k).value.port <= 65535
    ensures EndpointOf(names, k).Some? && k.port <= 65535 ==> EndpointOf(names, k).value.port == k.port
  {
  }

  /** The peer is spelled as the service itself would spell its endpoint. */
  predicate Canonical(names: Addresses, k: PeerKey) {
    EndpointOf(names, k).Some? && KeyOf(names, EndpointOf(names, k).value) == k
  }

  datatype Paired = Paired(peer: Peer, endpoint: Endpoint)

  /** The two sides of `peer_endpoint_bm_`, `live_peers_`, the beats of the registered peers, and
      `to_be_sent_`, keyed by the address of the content. */
  datatype Registry = Registry(
    left: map<Endpoint, Peer>,
    right: map<PeerKey, Paired>,
    live: map<PeerKey, Peer>,
    beats: map<Peer, int>,
    toBeSent: map<nat, Peer>)

  const EMPTY := Registry(map[], map[], map[], map[], map[])

  /** `beat` is the last beat of the peer sent to; `peer` is the object that the service makes for an
      endpoint it does not know. */
  datatype Event =
    | Send(content: nat, dst: Peer, beat: int)
    | Receive(from: Endpoint, peer: Peer, now: int)
    | SendDone(content: nat)
    | Sweep(now: int)

  ghost predicate Enabled(names: Addresses, r: Registry, e: Event) {
    match e
    case Send(_, dst, _) => true
    case Receive(from, peer, _) =>
      from.port < PORTS && (from !in r.left ==> peer !in r.beats && peer.Key() == KeyOf(names, from))
    case SendDone(_) => true
    case Sweep(_) => true
  }

  /** A bimap takes a pair only if both sides of it are new. */
  function BimapInsert(r: Registry, ep: Endpoint, p: Peer): Registry {
    if ep in r.left || p.Key() in r.right then r
    else r.(left := r.left[ep := p], right := r.right[p.Key() := Paired(p, ep)])
  }

  function LiveInsert(r: Registry, p: Peer, beat: int): Registry {
    if p.Key() in r.live then r
    else r.(live := r.live[p.Key() := p], beats := r.beats[p := beat])
  }

  function NoteSent(r: Registry, content: nat, dst: Peer): Registry {
    if content in r.toBeSent then r else r.(toBeSent := r.toBeSent[content := dst])
  }

  /** `send_message`, which throws before it registers anything if it cannot read the address. */
  function SendMessage(names: Addresses, r: Registry, content: nat, dst: Peer, beat: int): Registry {
    var r1 := NoteSent(r, content, dst);
    if dst.Key() in r.right then r1
    else
      match EndpointOf(names, dst.Key())
      case None => r1
      case Some(ep) => LiveInsert(BimapInsert(r1, ep, dst), dst, beat)
  }

  /** Where the message goes. */
  function Target(names: Addresses, r: Registry, dst: Peer): Option<Endpoint> {
    if dst.Key() in r.right then Some(r.right[dst.Key()].endpoint) else EndpointOf(names, dst.Key())
  }

  function ReceiveFrom(r: Registry, from: Endpoint, peer: Peer, now: int): Registry {
    if from !in r.left then LiveInsert(BimapInsert(r, from, peer), peer, now)
    else if r.left[from] in r.beats then r.(beats := r.beats[r.left[from] := now])
    else r
  }

  ghost predicate Late(r: Registry, k: PeerKey, now: int) {
    k in r.live && r.live[k] in r.beats && now - r.beats[r.live[k]] > TIMEOUT
  }

  /** The peers with these keys are erased from the live set and, by key, from the bimap. */
  ghost function Without(r: Registry, dead: set<PeerKey>): Registry {
    var gone := set ep | ep in r.left && (exists k :: k in dead && k in r.right && r.right[k].endpoint == ep);
    Registry(r.left - gone, r.right - dead, r.live - dead,
             r.beats - (set p | p in r.beats && (exists k :: k in dead && k in r.live && r.live[k] == p)), r.toBeSent)
  }

  lemma WithoutNone(r: Registry)
    ensures Without(r, {}) == r
  {
    var r1 := Without(r, {});
    assert r1.left == r.left && r1.right == r.right && r1.live == r.live && r1.beats == r.beats;
  }

  lemma WithoutOne(r: Registry, k: PeerKey)
    requires k in r.live && r.live[k] in r.beats
    ensures Without(r, {k}) == Registry(if k in r.right then r.left - {r.right[k].endpoint} else r.left,
                                        r.right - {k}, r.live - {k}, r.beats - {r.live[k]}, r.toBeSent)
  {
    var r1 := Without(r, {k});
    assert r1.left == if k in r.right then r.left - {r.right[k].endpoint} else r.left;
    assert r1.beats == r.beats - {r.live[k]};
  }

  lemma StillLate(r: Registry, dead: set<PeerKey>, k: PeerKey, now: int)
    requires k in r.live && k !in dead && forall j :: j in r.live ==> r.live[j].Key() == j
    ensures Late(Without(r, dead), k, now) <==> Late(r, k, now)
  {
  }

  lemma LeftOneMore(r: Registry, dead: set<PeerKey>, k: PeerKey)
    ensures Without(Without(r, dead), {k}).left == Without(r, dead + {k}).left
  {
  }

  /** Peers can be erased one by one. */
  lemma WithoutOneMore(r: Registry, dead: set<PeerKey>, k: PeerKey)
    requires k in r.live && forall j :: j in r.live ==> r.live[j].Key() == j
    ensures Without(Without(r, dead), {k}) == Without(r, dead + {k})
  {
    var a, b := Without(Without(r, dead), {k}), Without(r, dead + {k});
    assert a.left == b.left by { LeftOneMore(r, dead, k); }
    assert a.right == b.right;
    assert a.live == b.live;
    assert a.beats == b.beats;
  }

  ghost function SweepAll(r: Registry, now: int): Registry {
    Without(r, set k | k in r.live && Late(r, k, now))
  }

  ghost function Step(names: Addresses, r: Registry, e: Event): Registry {
    match e
    case Send(content, dst, beat) => SendMessage(names, r, content, dst, beat)
    case Receive(from, peer, now) => ReceiveFrom(r, from, peer, now)
    case SendDone(content) => r.(toBeSent := r.toBeSent - {content})
    case Sweep(now) => SweepAll(r, now)
  }

  // ---------- agreement ----------

  /** The two sides of the bimap are inverse, the live set holds the very objects of its right side,
      and each is paired with its own endpoint. */
  ghost predicate Linked(names: Addresses, left: map<Endpoint, Peer>, right: map<PeerKey, Paired>,
                         live: map<PeerKey, Peer>)
  {
    && (forall ep :: ep in left ==> left[ep].Key() in right && right[left[ep].Key()] == Paired(left[ep], ep))
    && (forall k :: k in right ==> right[k].endpoint in left && left[right[k].endpoint] == right[k].peer)
    && (forall k :: k in right ==> right[k].peer.Key() == k && Some(right[k].endpoint) == EndpointOf(names, k))
    && live.Keys == right.Keys
    && (forall k :: k in live ==> live[k] == right[k].peer)
  }

  /** Exactly the live peers have beats. */
  ghost predicate Beating(live: map<PeerKey, Peer>, beats: map<Peer, int>) {
    && (forall p :: p in beats ==> p.Key() in live && live[p.Key()] == p)
    && (forall k :: k in live ==> live[k] in beats)
  }

  ghost predicate Agree(names: Addresses, r: Registry) {
    Linked(names, r.left, r.right, r.live) && Beating(r.live, r.beats)
  }

  ghost predicate AllCanonical(names: Addresses, r: Registry) {
    forall k :: k in r.right ==> Canonical(names, k)
  }

  // ---------- the registry is one map from endpoints to last beats ----------

  ghost function Beats(r: Registry): map<Endpoint, int>
  {
    map ep | ep in r.left && r.left[ep] in r.beats :: r.beats[r.left[ep]]
  }

  ghost function BeatStep(names: Addresses, m: map<Endpoint, int>, e: Event): map<Endpoint, int> {
    match e
    case Send(_, dst, beat) =>
      (match EndpointOf(names, dst.Key())
       case None => m
       case Some(ep) => if ep in m then m else m[ep := beat])
    case Receive(from, _, now) => m[from := now]
    case SendDone(_) => m
    case Sweep(now) => map ep | ep in m && now - m[ep] <= TIMEOUT :: m[ep]
  }

  lemma SentAside(names: Addresses, r: Registry, sent: map<nat, Peer>)
    ensures Agree(names, r.(toBeSent := sent)) <==> Agree(names, r)
    ensures AllCanonical(names, r.(toBeSent := sent)) <==> AllCanonical(names, r)
    ensures Beats(r.(toBeSent := sent)) == Beats(r)
  {
  }

  /** A peer and its endpoint, both new, are registered. */
  lemma NewPairAgrees(names: Addresses, r: Registry, ep: Endpoint, p: Peer, beat: int)
    requires Agree(names, r) && ep !in r.left && p.Key() !in r.right && EndpointOf(names, p.Key()) == Some(ep)
    ensures var r1 := LiveInsert(BimapInsert(r, ep, p), p, beat);
            && Agree(names, r1) && Beats(r1) == Beats(r)[ep := beat]
            && r1.right.Keys == r.right.Keys + {p.Key()}
  {
    hide EndpointOf, Agree, Beats;
    var r1 := LiveInsert(BimapInsert(r, ep, p), p, beat);
    assert r.live.Keys == r.right.Keys && p !in r.beats && (forall e :: e in r.left ==> r.left[e] != p) by {
      NotRegistered(names, r, p);
    }
    assert r1 == Extended(r, ep, p, beat);
    ExtendedAgrees(names, r, ep, p, beat);
    ExtendedBeats(names, r, ep, p, beat);
  }

  ghost function Extended(r: Registry, ep: Endpoint, p: Peer, beat: int): Registry {
    Registry(r.left[ep := p], r.right[p.Key() := Paired(p, ep)], r.live[p.Key() := p], r.beats[p := beat], r.toBeSent)
  }

  lemma NotRegistered(names: Addresses, r: Registry, p: Peer)
    requires Agree(names, r) && p.Key() !in r.right
    ensures r.live.Keys == r.right.Keys && p !in r.beats
    ensures forall e :: e in r.left ==> r.left[e] != p
  {
  }

  lemma ExtendedAgrees(names: Addresses, r: Registry, ep: Endpoint, p: Peer, beat: int)
    requires Agree(names, r) && ep !in r.left && p.Key() !in r.right && EndpointOf(names, p.Key()) == Some(ep)
    ensures Agree(names, Extended(r, ep, p, beat))
  {
    hide Linked, Beating;
    ExtendedLinked(names, r, ep, p);
    assert p.Key() !in r.live by { NotRegistered(names, r, p); }
    ExtendedBeating(r, p, beat);
  }

  lemma ExtendedLinked(names: Addresses, r: Registry, ep: Endpoint, p: Peer)
    requires Linked(names, r.left, r.right, r.live)
    requires ep !in r.left && p.Key() !in r.right && EndpointOf(names, p.Key()) == Some(ep)
    ensures Linked(names, r.left[ep := p], r.right[p.Key() := Paired(p, ep)], r.live[p.Key() := p])
  {
    hide EndpointOf;
  }

  lemma ExtendedBeating(r: Registry, p: Peer, beat: int)
    requires Beating(r.live, r.beats) && p.Key() !in r.live
    ensures Beating(r.live[p.Key() := p], r.beats[p := beat])
  {
  }

  lemma ExtendedBeats(names: Addresses, r: Registry, ep: Endpoint, p: Peer, beat: int)
    requires Agree(names, r) && ep !in r.left && p.Key() !in r.right
    ensures Beats(Extended(r, ep, p, beat)) == Beats(r)[ep := beat]
  {
    NotRegistered(names, r, p);
  }

  /** Sending keeps the agreement, if and only if the peer is registered already, or its address
      cannot be read, or the endpoint it names is not taken by a peer that is spelled differently. */
  lemma SendAgreesIff(names: Addresses, r: Registry, content: nat, dst: Peer, beat: int)
    requires Agree(names, r)
    ensures Agree(names, SendMessage(names, r, content, dst, beat)) <==>
              || dst.Key() in r.right
              || EndpointOf(names, dst.Key()) == None
              || EndpointOf(names, dst.Key()).value !in r.left
  {
    hide Agree, AllCanonical, EndpointOf, LiveInsert, BimapInsert, Beats;
    var r1 := NoteSent(r, content, dst);
    SentAside(names, r, r1.toBeSent);
    assert r1 == r.(toBeSent := r1.toBeSent);
    if dst.Key() !in r.right && EndpointOf(names, dst.Key()).Some? {
      var ep := EndpointOf(names, dst.Key()).value;
      if ep !in r.left {
        NewPairAgrees(names, r1, ep, dst, beat);
      } else {
        TakenEndpoint(names, r1, ep, dst, beat);
      }
    }
  }

  /** The live set takes the peer although the bimap does not. */
  lemma TakenEndpoint(names: Addresses, r: Registry, ep: Endpoint, p: Peer, beat: int)
    requires Agree(names, r) && ep in r.left && p.Key() !in r.right
    ensures !Agree(names, LiveInsert(BimapInsert(r, ep, p), p, beat))
  {
    var r1 := LiveInsert(BimapInsert(r, ep, p), p, beat);
    assert p.Key() in r1.live.Keys && p.Key() !in r1.right.Keys;
  }

  /** Addresses written in strokes, where any two strings of the same length name the same one. */
  const STROKES := Addresses((s: string) => Some(|s|), (ip: Ip) => seq(ip, _ => '|'))

  lemma StrokesFaithful()
    ensures Faithful(STROKES)
  {
    forall ip: Ip
      ensures STROKES.parse(STROKES.render(ip)) == Some(ip)
    {
      assert |STROKES.render(ip)| == ip;
    }
  }

  /** Two peers with one endpoint and two spellings: after a message to each, which any run may begin
      with, the live set holds both and the bimap only the first. */
  lemma TwoSpellingsDisagree(names: Addresses, p: Peer, q: Peer, beat: int)
    requires p.Key() != q.Key() && EndpointOf(names, p.Key()).Some?
    requires EndpointOf(names, q.Key()) == EndpointOf(names, p.Key())
    ensures var first := Step(names, EMPTY, Send(0, p, beat));
            var second := Step(names, first, Send(1, q, beat));
            && IsRun(names, [EMPTY, first, second], [Send(0, p, beat), Send(1, q, beat)])
            && Agree(names, first) && !Agree(names, second)
            && q.Key() in second.live && q.Key() !in second.right
  {
    hide EndpointOf, Agree;
    EmptyAgrees(names);
    SendAgreesIff(names, EMPTY, 0, p, beat);
    var first := Step(names, EMPTY, Send(0, p, beat));
    SendAgreesIff(names, first, 1, q, beat);
  }

  /** Sending to a peer that is spelled as its endpoint is, or whose address cannot be read. */
  lemma SendKeeps(names: Addresses, r: Registry, content: nat, dst: Peer, beat: int)
    requires Agree(names, r) && AllCanonical(names, r)
    requires EndpointOf(names, dst.Key()).Some? ==> Canonical(names, dst.Key())
    ensures var r1 := SendMessage(names, r, content, dst, beat);
            && Agree(names, r1) && AllCanonical(names, r1)
            && Beats(r1) == BeatStep(names, Beats(r), Send(content, dst, beat))
  {
    hide Agree, EndpointOf, LiveInsert, BimapInsert, Beats;
    var r1 := NoteSent(r, content, dst);
    SentAside(names, r, r1.toBeSent);
    assert r1 == r.(toBeSent := r1.toBeSent);
    if EndpointOf(names, dst.Key()).Some? {
      var ep := EndpointOf(names, dst.Key()).value;
      RegisteredEndpoints(names, r, dst.Key());
      if dst.Key() !in r.right {
        NewPairAgrees(names, r1, ep, dst, beat);
      }
    }
  }

  /** A peer is registered exactly if its endpoint is. */
  lemma RegisteredEndpoints(names: Addresses, r: Registry, k: PeerKey)
    requires Agree(names, r) && AllCanonical(names, r) && Canonical(names, k)
    ensures k in r.right <==> EndpointOf(names, k).value in r.left
    ensures k in r.right <==> EndpointOf(names, k).value in Beats(r)
  {
    var ep := EndpointOf(names, k).value;
    if ep in r.left {
      assert Canonical(names, r.left[ep].Key());
    }
  }

  lemma ReceiveKeeps(names: Addresses, r: Registry, from: Endpoint, peer: Peer, now: int)
    requires Faithful(names) && Agree(names, r) && AllCanonical(names, r)
    requires Enabled(names, r, Receive(from, peer, now))
    ensures var r1 := ReceiveFrom(r, from, peer, now);
            && Agree(names, r1) && AllCanonical(names, r1)
            && Beats(r1) == BeatStep(names, Beats(r), Receive(from, peer, now))
  {
    if from in r.left {
      KnownBeats(names, r, from, now);
    } else {
      assert EndpointOf(names, KeyOf(names, from)) == Some(from);
      RegisteredEndpoints(names, r, KeyOf(names, from));
      NewPairAgrees(names, r, from, peer, now);
    }
  }

  lemma KnownBeats(names: Addresses, r: Registry, from: Endpoint, now: int)
    requires Agree(names, r) && from in r.left
    ensures var p := r.left[from];
            && p in r.beats
            && Agree(names, r.(beats := r.beats[p := now]))
            && Beats(r.(beats := r.beats[p := now])) == Beats(r)[from := now]
  {
    hide EndpointOf, Agree;
    OneEndpointEach(names, r, from);
    SameKeysAgree(names, r, r.beats[r.left[from] := now]);
  }

  lemma SameKeysAgree(names: Addresses, r: Registry, beats: map<Peer, int>)
    requires Agree(names, r) && beats.Keys == r.beats.Keys
    ensures Agree(names, r.(beats := beats))
  {
    hide Linked;
    assert forall p :: p in beats ==> p in r.beats.Keys;
    assert forall p :: p in r.beats ==> p in beats.Keys;
  }

  lemma OneEndpointEach(names: Addresses, r: Registry, from: Endpoint)
    requires Agree(names, r) && from in r.left
    ensures forall ep :: ep in r.left ==> r.left[ep] in r.beats && (r.left[ep] == r.left[from] <==> ep == from)
  {
    forall ep | ep in r.left
      ensures r.left[ep] in r.beats && (r.left[ep] == r.left[from] <==> ep == from)
    {
      assert r.right[r.left[ep].Key()].endpoint == ep;
    }
  }

  lemma SweepAgrees(names: Addresses, r: Registry, now: int)
    requires Agree(names, r) && AllCanonical(names, r)
    ensures Agree(names, SweepAll(r, now)) && AllCanonical(names, SweepAll(r, now))
  {
  }

  lemma SweepBeats(names: Addresses, r: Registry, now: int)
    requires Agree(names, r)
    ensures Beats(SweepAll(r, now)) == BeatStep(names, Beats(r), Sweep(now))
  {
    hide Agree, SweepAll;
    forall ep | ep in r.left
      ensures r.left[ep] in r.beats && (ep in SweepAll(r, now).left <==> now - r.beats[r.left[ep]] <= TIMEOUT)
      ensures ep in SweepAll(r, now).left ==>
                SweepAll(r, now).left[ep] == r.left[ep] && r.left[ep] in SweepAll(r, now).beats
      ensures forall p :: p in SweepAll(r, now).beats ==> p in r.beats && SweepAll(r, now).beats[p] == r.beats[p]
    {
      SweptEndpoint(names, r, now, ep);
    }
    assert SweepAll(r, now).left.Keys <= r.left.Keys by { NothingAdded(r, now); }
  }

  lemma NothingAdded(r: Registry, now: int)
    ensures SweepAll(r, now).left.Keys <= r.left.Keys
  {
  }

  lemma SweptEndpoint(names: Addresses, r: Registry, now: int, ep: Endpoint)
    requires Agree(names, r) && ep in r.left
    ensures var r1, p := SweepAll(r, now), r.left[ep];
            && p in r.beats && (ep in r1.left <==> now - r.beats[p] <= TIMEOUT)
            && (ep in r1.left ==> r1.left[ep] == p && p in r1.beats)
            && forall q :: q in r1.beats ==> q in r.beats && r1.beats[q] == r.beats[q]
  {
    hide EndpointOf;
    var k := r.left[ep].Key();
    assert r.right[k] == Paired(r.left[ep], ep) && r.live[k] == r.left[ep];
  }

  // ---------- runs ----------

  ghost predicate IsRun(names: Addresses, run: seq<Registry>, events: seq<Event>) {
    && |run| == |events| + 1
    && run[0] == EMPTY
    && forall i :: 0 <= i < |events| ==>
         Enabled(names, run[i], events[i]) && run[i + 1] == Step(names, run[i], events[i])
  }

  /** Every peer sent to is spelled as the service would spell it, or names no address at all. */
  ghost predicate CanonicalSends(names: Addresses, events: seq<Event>) {
    forall i :: 0 <= i < |events| && events[i].Send? && EndpointOf(names, events[i].dst.Key()).Some? ==>
      Canonical(names, events[i].dst.Key())
  }

  /** The last beat of every endpoint that is still alive, told from the events alone. */
  ghost function Heard(names: Addresses, events: seq<Event>): map<Endpoint, int> {
    if events == [] then map[]
    else BeatStep(names, Heard(names, events[..|events| - 1]), events[|events| - 1])
  }

  lemma StepKeeps(names: Addresses, r: Registry, e: Event)
    requires Faithful(names) && Agree(names, r) && AllCanonical(names, r) && Enabled(names, r, e)
    requires e.Send? && EndpointOf(names, e.dst.Key()).Some? ==> Canonical(names, e.dst.Key())
    ensures var r1 := Step(names, r, e);
            Agree(names, r1) && AllCanonical(names, r1) && Beats(r1) == BeatStep(names, Beats(r), e)
  {
    hide Agree, AllCanonical, Beats, BeatStep, Canonical, EndpointOf, SendMessage, ReceiveFrom, SweepAll, Faithful;
    match e {
      case Send(content, dst, beat) => SendKeeps(names, r, content, dst, beat);
      case Receive(from, peer, now) => ReceiveKeeps(names, r, from, peer, now);
      case SendDone(content) =>
        SentAside(names, r, r.toBeSent - {content});
        assert BeatStep(names, Beats(r), e) == Beats(r) by { NothingHeard(names, Beats(r), content); }
      case Sweep(now) =>
        SweepAgrees(names, r, now);
        SweepBeats(names, r, now);
    }
  }

  lemma NothingHeard(names: Addresses, m: map<Endpoint, int>, content: nat)
    ensures BeatStep(names, m, SendDone(content)) == m
  {
  }

  /** In every run the two sides of the bimap and the live set hold the same peer objects, each paired
      with its own endpoint, and together they are the map from endpoints to last beats that the
      events tell. */
  lemma {:induction false} RegistryIsOneMap(names: Addresses, run: seq<Registry>, events: seq<Event>)
    requires Faithful(names) && IsRun(names, run, events) && CanonicalSends(names, events)
    ensures var r := run[|run| - 1];
            Agree(names, r) && AllCanonical(names, r) && Beats(r) == Heard(names, events)
    decreases |run|
  {
    hide Agree, AllCanonical, Beats, BeatStep, Enabled, Step, Canonical, EndpointOf, Faithful;
    if events == [] {
      EmptyAgrees(names);
    } else {
      var n := |events| - 1;
      RegistryIsOneMap(names, run[..n + 1], events[..n]);
      StepKeeps(names, run[n], events[n]);
    }
  }

  lemma EmptyAgrees(names: Addresses)
    ensures Agree(names, EMPTY) && AllCanonical(names, EMPTY) && Beats(EMPTY) == map[]
  {
  }

  /** After a sweep both containers hold exactly the peers, of those they held before, whose last beat
      is at most thirty seconds old. */
  lemma SweepIsExact(names: Addresses, run: seq<Registry>, events: seq<Event>, now: int, k: PeerKey)
    requires Faithful(names) && IsRun(names, run, events) && CanonicalSends(names, events)
    ensures var r := run[|run| - 1];
            var r1 := Step(names, r, Sweep(now));
            && (k in r1.live <==> k in r.live && r.live[k] in r.beats && now - r.beats[r.live[k]] <= 30)
            && (k in r1.live <==> k in r1.right)
            && (k in r1.live ==> r1.live[k] == r.live[k] && r1.right[k] == r.right[k] && r1.right[k].peer == r1.live[k])
  {
    hide Beats, Heard, IsRun, Faithful, EndpointOf, AllCanonical, CanonicalSends, SweepAll, Agree;
    RunNotEmpty(names, run, events);
    RegistryIsOneMap(names, run, events);
    SweepAgrees(names, run[|run| - 1], now);
    SweptOne(names, run[|run| - 1], now, k);
  }

  lemma SweptOne(names: Addresses, r: Registry, now: int, k: PeerKey)
    requires Agree(names, r) && Agree(names, SweepAll(r, now))
    ensures var r1 := SweepAll(r, now);
            && (k in r1.live <==> k in r.live && r.live[k] in r.beats && now - r.beats[r.live[k]] <= 30)
            && (k in r1.live <==> k in r1.right)
            && (k in r1.live ==> r1.live[k] == r.live[k] && r1.right[k] == r.right[k] && r1.right[k].peer == r1.live[k])
  {
    hide EndpointOf;
  }

  lemma RunNotEmpty(names: Addresses, run: seq<Registry>, events: seq<Event>)
    requires IsRun(names, run, events)
    ensures |run| > 0
  {
  }

  // ---------- runs with any spelling ----------

  /** The two sides of the bimap are inverse, and each peer in it is paired with its own endpoint. */
  ghost predicate BimapSound(names: Addresses, left: map<Endpoint, Peer>, right: map<PeerKey, Paired>) {
    && (forall ep :: ep in left ==> left[ep].Key() in right && right[left[ep].Key()] == Paired(left[ep], ep))
    && (forall k :: k in right ==> right[k].endpoint in left && left[right[k].endpoint] == right[k].peer)
    && (forall k :: k in right ==> right[k].peer.Key() == k && Some(right[k].endpoint) == EndpointOf(names, k))
  }

  lemma InsertSound(names: Addresses, r: Registry, ep: Endpoint, p: Peer, beat: int)
    requires BimapSound(names, r.left, r.right) && EndpointOf(names, p.Key()) == Some(ep)
    ensures var r1 := LiveInsert(BimapInsert(r, ep, p), p, beat); BimapSound(names, r1.left, r1.right)
  {
    hide EndpointOf, LiveInsert;
    LiveInsertKeeps(BimapInsert(r, ep, p), p, beat);
  }

  /** Whoever is registered stays as he is, in each container. */
  ghost predicate Kept(r: Registry, r1: Registry) {
    && (forall ep :: ep in r.left ==> ep in r1.left && r1.left[ep] == r.left[ep])
    && (forall k :: k in r.right ==> k in r1.right && r1.right[k] == r.right[k])
    && (forall k :: k in r.live ==> k in r1.live && r1.live[k] == r.live[k])
  }

  lemma KeptThrough(r: Registry, r1: Registry, r2: Registry)
    requires Kept(r, r1) && Kept(r1, r2)
    ensures Kept(r, r2)
  {
  }

  lemma LiveInsertKeeps(r: Registry, p: Peer, beat: int)
    ensures var r1 := LiveInsert(r, p, beat); Kept(r, r1) && r1.left == r.left && r1.right == r.right
  {
  }

  lemma InsertKeeps(r: Registry, ep: Endpoint, p: Peer, beat: int)
    ensures Kept(r, LiveInsert(BimapInsert(r, ep, p), p, beat))
  {
    assert Kept(r, BimapInsert(r, ep, p));
    LiveInsertKeeps(BimapInsert(r, ep, p), p, beat);
    KeptThrough(r, BimapInsert(r, ep, p), LiveInsert(BimapInsert(r, ep, p), p, beat));
  }

  lemma SweepSound(names: Addresses, r: Registry, now: int)
    requires BimapSound(names, r.left, r.right)
    ensures BimapSound(names, SweepAll(r, now).left, SweepAll(r, now).right)
  {
    hide EndpointOf;
  }

  lemma StepSound(names: Addresses, r: Registry, e: Event)
    requires Faithful(names) && Enabled(names, r, e) && BimapSound(names, r.left, r.right)
    ensures var r1 := Step(names, r, e); BimapSound(names, r1.left, r1.right)
  {
    hide BimapSound, LiveInsert, BimapInsert, SweepAll;
    match e
    case Send(content, dst, beat) =>
      if dst.Key() !in r.right && EndpointOf(names, dst.Key()).Some? {
        InsertSound(names, NoteSent(r, content, dst), EndpointOf(names, dst.Key()).value, dst, beat);
      }
    case Receive(from, peer, now) =>
      if from !in r.left {
        assert EndpointOf(names, KeyOf(names, from)) == Some(from);
        InsertSound(names, r, from, peer, now);
      }
    case SendDone(_) =>
    case Sweep(now) => SweepSound(names, r, now);
  }

  /** However the peers sent to are spelled, the bimap is one in every run. */
  lemma {:induction false} BimapIsSound(names: Addresses, run: seq<Registry>, events: seq<Event>)
    requires Faithful(names) && IsRun(names, run, events)
    ensures BimapSound(names, run[|run| - 1].left, run[|run| - 1].right)
    decreases |run|
  {
    hide BimapSound, Enabled, Step, Faithful;
    if events == [] {
      assert BimapSound(names, run[0].left, run[0].right) by { EmptySound(names); }
    } else {
      var n := |events| - 1;
      BimapIsSound(names, run[..n + 1], events[..n]);
      StepSound(names, run[n], events[n]);
    }
  }

  lemma EmptySound(names: Addresses)
    ensures BimapSound(names, EMPTY.left, EMPTY.right)
  {
  }

  /** A message always goes to the endpoint that its own peer names. */
  lemma SentToItsOwn(names: Addresses, run: seq<Registry>, events: seq<Event>, dst: Peer)
    requires Faithful(names) && IsRun(names, run, events)
    ensures Target(names, run[|run| - 1], dst) == EndpointOf(names, dst.Key())
  {
    hide Faithful, Step, Enabled, EndpointOf;
    BimapIsSound(names, run, events);
  }

  /** Nobody is replaced when messages are sent and received, however peers are spelled. */
  lemma NothingReplaced(names: Addresses, r: Registry, e: Event)
    requires e.Send? || e.Receive?
    ensures Kept(r, Step(names, r, e))
  {
    hide EndpointOf, LiveInsert, BimapInsert, Kept;
    assert Kept(r, r) && forall beats, sent :: Kept(r, r.(beats := beats, toBeSent := sent)) by { SameKept(r); }
    match e
    case Send(content, dst, beat) =>
      if dst.Key() !in r.right && EndpointOf(names, dst.Key()).Some? {
        var r1, ep := NoteSent(r, content, dst), EndpointOf(names, dst.Key()).value;
        InsertKeeps(r1, ep, dst, beat);
        KeptThrough(r, r1, LiveInsert(BimapInsert(r1, ep, dst), dst, beat));
      }
    case Receive(from, peer, now) =>
      InsertKeeps(r, from, peer, now);
  }

  lemma SameKept(r: Registry)
    ensures Kept(r, r) && forall beats, sent :: Kept(r, r.(beats := beats, toBeSent := sent))
  {
  }

  // ---------- messages that have been sent ----------

  ghost predicate Sends(events: seq<Event>, content: nat, i: nat) {
    i < |events| && events[i].Send? && events[i].content == content
  }

  /** The sending of this content is reported between these two events. */
  ghost predicate Reported(events: seq<Event>, content: nat, i: nat, j: nat) {
    exists k :: i < k < j && k < |events| && events[k] == SendDone(content)
  }

  /** The first sending of this content since the last report of it. */
  ghost predicate FirstUnreported(events: seq<Event>, content: nat, i: nat) {
    && Sends(events, content, i) && !Reported(events, content, i, |events|)
    && forall k: nat :: k < i && Sends(events, content, k) ==> Reported(events, content, k, i)
  }

  ghost predicate AllReported(events: seq<Event>, content: nat) {
    forall k: nat :: Sends(events, content, k) ==> Reported(events, content, k, |events|)
  }

  /** The note of what was sent. */
  ghost predicate Noted(r: Registry, events: seq<Event>, content: nat) {
    if content in r.toBeSent then
      exists i: nat :: FirstUnreported(events, content, i) && r.toBeSent[content] == events[i].dst
    else AllReported(events, content)
  }

  lemma NoteStep(names: Addresses, r: Registry, e: Event, content: nat)
    ensures var before, after := r.toBeSent, Step(names, r, e).toBeSent;
            if e == SendDone(content) then content !in after
            else if e.Send? && e.content == content && content !in before
            then content in after && after[content] == e.dst
            else (content in after <==> content in before) && (content in before ==> after[content] == before[content])
  {
    hide SendMessage, ReceiveFrom, SweepAll;
    match e
    case Send(sent, dst, beat) => SendNotes(names, r, sent, dst, beat);
    case Receive(from, peer, now) => ReceiveDoesNotNote(r, from, peer, now);
    case SendDone(_) =>
    case Sweep(now) => SweepDoesNotNote(r, now);
  }

  lemma InsertsDoNotNote(r: Registry, ep: Endpoint, p: Peer, beat: int)
    ensures LiveInsert(BimapInsert(r, ep, p), p, beat).toBeSent == r.toBeSent
  {
  }

  lemma SendNotes(names: Addresses, r: Registry, content: nat, dst: Peer, beat: int)
    ensures SendMessage(names, r, content, dst, beat).toBeSent
         == if content in r.toBeSent then r.toBeSent else r.toBeSent[content := dst]
  {
    hide EndpointOf, LiveInsert, BimapInsert;
    if dst.Key() !in r.right && EndpointOf(names, dst.Key()).Some? {
      InsertsDoNotNote(NoteSent(r, content, dst), EndpointOf(names, dst.Key()).value, dst, beat);
    }
  }

  lemma ReceiveDoesNotNote(r: Registry, from: Endpoint, peer: Peer, now: int)
    ensures ReceiveFrom(r, from, peer, now).toBeSent == r.toBeSent
  {
    hide LiveInsert, BimapInsert;
    InsertsDoNotNote(r, from, peer, now);
  }

  lemma SweepDoesNotNote(r: Registry, now: int)
    ensures SweepAll(r, now).toBeSent == r.toBeSent
  {
  }

  /** One more event that neither sends nor reports the content. */
  lemma UnreportedStays(events: seq<Event>, e: Event, content: nat, i: nat)
    requires e != SendDone(content) && FirstUnreported(events, content, i)
    ensures FirstUnreported(events + [e], content, i)
  {
    var more := events + [e];
    forall k: nat | k < i && Sends(more, content, k)
      ensures Reported(more, content, k, i)
    {
      assert Sends(events, content, k);
      var m :| k < m < i && m < |events| && events[m] == SendDone(content);
      assert more[m] == SendDone(content);
    }
  }

  lemma ReportedStays(events: seq<Event>, e: Event, content: nat, k: nat)
    requires AllReported(events, content) && k < |events| && Sends(events + [e], content, k)
    ensures Reported(events + [e], content, k, |events|) && Reported(events + [e], content, k, |events| + 1)
  {
    assert Sends(events, content, k);
    var m :| k < m < |events| && events[m] == SendDone(content);
    assert (events + [e])[m] == SendDone(content);
  }

  lemma NotedStep(names: Addresses, r: Registry, events: seq<Event>, e: Event, content: nat)
    requires Noted(r, events, content)
    ensures Noted(Step(names, r, e), events + [e], content)
  {
    hide Step, Reported;
    NoteStep(names, r, e, content);
    var more := events + [e];
    if e == SendDone(content) {
      forall k: nat | Sends(more, content, k)
        ensures Reported(more, content, k, |more|)
      {
        ReportedLast(events, content, k);
      }
    } else if content in r.toBeSent {
      var i: nat :| FirstUnreported(events, content, i) && r.toBeSent[content] == events[i].dst;
      UnreportedStays(events, e, content, i);
    } else {
      forall k: nat | k < |events| && Sends(more, content, k)
        ensures Reported(more, content, k, |events|) && Reported(more, content, k, |more|)
      {
        ReportedStays(events, e, content, k);
      }
      if e.Send? && e.content == content {
        NotReportedLast(more, content);
        assert FirstUnreported(more, content, |events|);
      }
    }
  }

  lemma ReportedLast(events: seq<Event>, content: nat, k: nat)
    requires k < |events|
    ensures Reported(events + [SendDone(content)], content, k, |events| + 1)
  {
    assert (events + [SendDone(content)])[|events|] == SendDone(content);
  }

  lemma NotReportedLast(events: seq<Event>, content: nat)
    requires events != []
    ensures !Reported(events, content, |events| - 1, |events|)
  {
  }

  /** What is remembered of a message until its sending is reported: in every run the service has a note
      of a content exactly if it has been sent since the last report, and the note is of the peer of the
      first sending since then. */
  lemma {:induction false} SentIsRemembered(names: Addresses, run: seq<Registry>, events: seq<Event>, content: nat)
    requires IsRun(names, run, events)
    ensures Noted(run[|run| - 1], events, content)
    decreases |run|
  {
    hide Step, Enabled, Noted;
    if events == [] {
      NothingNoted(run[0], content);
    } else {
      var n := |events| - 1;
      SentIsRemembered(names, run[..n + 1], events[..n], content);
      NotedStep(names, run[n], events[..n], events[n], content);
      assert events[..n] + [events[n]] == events;
    }
  }

  lemma NothingNoted(r: Registry, content: nat)
    requires r == EMPTY
    ensures Noted(r, [], content)
  {
  }
}
