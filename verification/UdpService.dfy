/** The registry of `server/sml.cpp` as an object: the bimap, the live set and the peers change in
    place. */
module UdpService {
  import opened Wrappers
  import opened RegistrySpec

  class Service {
    const names: Addresses
    var left: map<Endpoint, Peer>
    var right: map<PeerKey, Paired>
    var live: map<PeerKey, Peer>
    var toBeSent: map<nat, Peer>

    ghost predicate Valid()
      reads this
    {
      forall k :: k in live ==> live[k].Key() == k
    }

    ghost function View(): Registry
      reads this, live.Values
    {
      Registry(left, right, live, map p | p in live.Values :: p.lastBeat, toBeSent)
    }

    constructor (names: Addresses)
      ensures Valid() && View() == EMPTY && this.names == names
    {
      this.names := names;
      left, right, live, toBeSent := map[], map[], map[], map[];
    }

    /** `peer_endpoint_bm_.insert`. */
    method BimapInsert(ep: Endpoint, p: Peer)
      modifies `left, `right
      ensures View() == RegistrySpec.BimapInsert(old(View()), ep, p)
    {
      if ep !in left && p.Key() !in right {
        left, right := left[ep := p], right[p.Key() := Paired(p, ep)];
      }
    }

    /** `live_peers_.insert`. */
    method LiveInsert(p: Peer)
      requires Valid()
      modifies `live
      ensures Valid() && View() == RegistrySpec.LiveInsert(old(View()), p, p.lastBeat)
    {
      if p.Key() !in live {
        InsertedBeats(live, p.Key(), p);
        live := live[p.Key() := p];
        assert View().beats == old(View()).beats[p := p.lastBeat];
      }
    }

    static lemma InsertedBeats(live: map<PeerKey, Peer>, k: PeerKey, p: Peer)
      requires k !in live
      ensures live[k := p].Values == live.Values + {p}
    {
      assert live[k := p][k] == p;
      forall q | q in live.Values
        ensures q in live[k := p].Values
      {
        var j :| j in live && live[j] == q;
        assert live[k := p][j] == q;
      }
    }

    /** `send_message`. There is no target if the address cannot be read: the call throws. */
    method SendMessage(content: nat, dst: Peer) returns (target: Option<Endpoint>)
      requires Valid()
      modifies this
      ensures Valid() && View() == RegistrySpec.SendMessage(names, old(View()), content, dst, dst.lastBeat)
      ensures target == Target(names, old(View()), dst)
    {
      hide RegistrySpec.BimapInsert, RegistrySpec.LiveInsert;
      NoteSent(content, dst);
      if dst.Key() in right {
        return Some(right[dst.Key()].endpoint);
      }
      target := EndpointOf(names, dst.Key());
      if target.Some? {
        BimapInsert(target.value, dst);
        LiveInsert(dst);
      }
    }

    method NoteSent(content: nat, dst: Peer)
      modifies `toBeSent
      ensures View() == RegistrySpec.NoteSent(old(View()), content, dst)
    {
      if content !in toBeSent {
        toBeSent := toBeSent[content := dst];
      }
    }

    /** `receive_handler`: the peer that the message is said to come from. */
    method ReceiveFrom(from: Endpoint, now: int) returns (source: Peer)
      requires Valid()
      modifies this, left.Values
      ensures Valid() && View() == RegistrySpec.ReceiveFrom(old(View()), from, source, now)
      ensures if from in old(left) then source == old(left[from])
              else fresh(source) && source.Key() == KeyOf(names, from)
      ensures source.lastBeat == now
    {
      if from in left {
        source := left[from];
        source.Update(now);
        return;
      }
      source := new Peer(names.render(from.ip), from.port, now);
      BimapInsert(from, source);
      LiveInsert(source);
    }

    /** `send_handler`: the message whose sending is reported, if it has not been reported before. */
    method SendDone(content: nat) returns (reported: Option<Peer>)
      requires Valid()
      modifies this
      ensures Valid() && View() == Step(names, old(View()), RegistrySpec.SendDone(content))
      ensures reported == if content in old(toBeSent) then Some(old(toBeSent[content])) else None
    {
      if content !in toBeSent {
        assert toBeSent - {content} == toBeSent;
        return None;
      }
      reported := Some(toBeSent[content]);
      toBeSent := toBeSent - {content};
    }

    /** A peer is erased from both containers. */
    method Erase(k: PeerKey)
      requires Valid() && k in live
      modifies `left, `right, `live
      ensures Valid() && View() == Without(old(View()), {k}) && live == old(live) - {k}
    {
      hide Without;
      WithoutOne(View(), k);
      ErasedBeats(live, k);
      if k in right {
        left, right := left - {right[k].endpoint}, right - {k};
      }
      assert right == old(right) - {k};
      live := live - {k};
      assert View().beats == old(View().beats - {live[k]});
    }

    static lemma ErasedBeats(live: map<PeerKey, Peer>, k: PeerKey)
      requires k in live && forall j :: j in live ==> live[j].Key() == j
      ensures (live - {k}).Values == live.Values - {live[k]}
    {
      forall q | q in live.Values && q != live[k]
        ensures q in (live - {k}).Values
      {
        var j :| j in live && live[j] == q;
        assert (live - {k})[j] == q;
      }
    }

    /** `live_peers`: every dead peer is erased from both containers. */
    method LivePeers(now: int) returns (peers: map<PeerKey, Peer>)
      requires Valid()
      modifies this
      ensures Valid() && View() == SweepAll(old(View()), now)
      ensures peers == live
    {
      hide Without, Late;
      ghost var before := View();
      ghost var dead: set<PeerKey> := {};
      WithoutNone(before);
      var todo := live.Keys;
      while todo != {}
        invariant Valid() && todo <= live.Keys <= before.live.Keys
        invariant dead <= before.live.Keys
        invariant forall k :: k in before.live && k !in todo ==> (k in dead <==> Late(before, k, now))
        invariant forall k :: k in todo ==> k !in dead
        invariant View() == Without(before, dead)
        decreases |todo|
      {
        var k :| k in todo;
        todo := todo - {k};
        DeadIsLate(k, now);
        StillLate(before, dead, k, now);
        if live[k].Dead(now) {
          WithoutOneMore(before, dead, k);
          Erase(k);
          dead := dead + {k};
        }
      }
      assert dead == set k | k in before.live && Late(before, k, now);
      peers := live;
    }

    lemma DeadIsLate(k: PeerKey, now: int)
      requires k in live
      ensures Late(View(), k, now) <==> live[k].Dead(now)
    {
    }
  }

  /** The service gets there: two peers that spell one address differently are sent a message each. */
  method SendToTwoSpellings() returns (service: Service)
    ensures service.Valid() && Faithful(service.names) && !Agree(service.names, service.View())
  {
    hide EndpointOf, Agree, Faithful, IsRun, Target, RegistrySpec.SendMessage;
    StrokesFaithful();
    service := new Service(STROKES);
    var p := new Peer("|", 0, 0);
    var q := new Peer("-", 0, 0);
    assert EndpointOf(STROKES, p.Key()) == Some(Endpoint(1, 0)) == EndpointOf(STROKES, q.Key()) by {
      OneStroke("|");
      OneStroke("-");
    }
    assert "|"[0] != "-"[0];
    TwoSpellingsDisagree(STROKES, p, q, 0);
    ghost var first := RegistrySpec.SendMessage(STROKES, EMPTY, 0, p, 0);
    var target := service.SendMessage(0, p);
    assert service.View() == first;
    target := service.SendMessage(1, q);
  }

  lemma OneStroke(s: string)
    requires |s| == 1
    ensures EndpointOf(STROKES, PeerKey(s, 0)) == Some(Endpoint(1, 0))
  {
  }
}
