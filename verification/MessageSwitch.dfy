/** The message switch as an object that changes in place: the heap of `grpc-server/GRPCServer.cpp`,
    its two registries and its completion queue are fields, and an operation that follows an address
    looks it up, so that every look-up proved here is a pointer that was not dangling. */
module MessageSwitch {
  import opened Wrappers
  import opened SwitchSpec
  import opened SwitchRun

  class Switch {
    const tokenOf: TokenOf
    var calls: map<Tag, Call>
    var writers: map<Tag, Writer>
    var peers: map<Ref, PeerInfo>
    var byId: map<Token, Ref>
    var byName: map<Name, Ref>
    var pending: multiset<Tag>
    ghost var routed: map<Tag, seq<Entry>>
    ghost var handed: map<Tag, seq<Entry>>

    ghost function View(): Server
      reads this
    {
      Server(calls, writers, peers, byId, byName, pending, routed, handed)
    }

    /** `RunServer`, up to its loop. */
    constructor (tokenOf: TokenOf, login: Tag, list: Tag, switch: Tag)
      ensures View() == Started(login, list, switch) && this.tokenOf == tokenOf
    {
      this.tokenOf := tokenOf;
      calls, writers, peers, byId, byName := map[], map[], map[], map[], map[];
      pending := multiset{};
      routed, handed := map[], map[];
      new;
      CreateInstance(Login, login);
      CreateInstance(ListPeers, list);
      CreateInstance(SwitchMessages, switch);
    }

    /** A new handler, driven on to wait for its request. */
    method CreateInstance(kind: Kind, address: Tag)
      modifies this
      ensures View() == Accept(old(View()), kind, address)
    {
      calls := calls[address := Call(kind, ReceivedRequest, None)];
      pending := pending + multiset{address};
    }

    /** One turn of the event loop: whatever the queue returns, in a state that any run may have
        reached, is followed without error. */
    method Proceed(e: Event)
      requires Inv(tokenOf, View()) && Enabled(View(), e)
      modifies this
      ensures Some(View()) == Step(tokenOf, old(View()), e)
      ensures Inv(tokenOf, View())
    {
      hide Inv, Driving, TagsInv, CallsInv, CanHandle;
      hide RegistryInv, WritersInv, QueuesInv, ProceedCall, ProceedWriter;
      StepKeeps(tokenOf, View(), e);
      TagLives(tokenOf, View(), e);
      TakenFromQueue(tokenOf, View(), e.tag);
      ghost var before := View();
      pending := pending - multiset{e.tag};
      if e.tag in calls {
        if calls[e.tag].status != Finalize {
          CallsKnown(tokenOf, before);
          CanHandleOrDone(tokenOf, before, e.tag);
        }
        ProceedHandler(e);
      } else {
        ProceedPeerWriter(e);
      }
    }

    /** `HandleCall::Proceed`. */
    method ProceedHandler(e: Event)
      requires Driving(View(), e.tag) && Rest(tokenOf, View(), e.tag) && e.tag in calls
      requires calls[e.tag].status != Finalize ==> CanHandle(View(), e.tag)
      requires !Live(View(), e.newCall) && !Live(View(), e.newWriter) && e.newCall != e.newWriter && e.newPeer !in peers
      modifies this
      ensures Some(View()) == ProceedCall(tokenOf, old(View()), e)
    {
      hide Driving, Rest, CanHandle, HandleRequest;
      var call := calls[e.tag];
      if !e.ok {
        CreateInstance(call.kind, e.newCall);
        calls := calls - {e.tag};
        return;
      }
      match call.status {
        case ReceivedRequest =>
          AcceptKeeps(tokenOf, View(), call.kind, e.newCall, e.tag);
          AcceptedCanHandle(View(), call.kind, e.newCall, e.tag);
          CreateInstance(call.kind, e.newCall);
          Handle(e);
        case Process =>
          Handle(e);
        case Finalize =>
          calls := calls - {e.tag};
      }
    }

    /** `HandleRequest`, and the status that its result leads to. */
    method Handle(e: Event)
      requires Driving(View(), e.tag) && Rest(tokenOf, View(), e.tag) && CanHandle(View(), e.tag)
      requires !Live(View(), e.newWriter) && e.newPeer !in peers
      modifies this
      ensures Some(View()) == AfterRequest(HandleRequest(tokenOf, old(View()), e), e.tag)
    {
      hide Driving, Rest, AttachWriter, SwitchSpec.Route, SwitchSpec.Register;
      var finished;
      AfterRequestKeeps(tokenOf, View(), e);
      match calls[e.tag].kind {
        case Login =>
          Register(e.name, e.newPeer);
          pending := pending + multiset{e.tag};
          finished := true;
        case ListPeers =>
          pending := pending + multiset{e.tag};
          finished := true;
        case SwitchMessages =>
          finished := HandleMessages(e);
      }
      calls := calls[e.tag := calls[e.tag].(status := if finished then Finalize else Process)];
    }

    /** The registration part of `HandleLogin::HandleRequest`. */
    method Register(name: Name, ref: Ref)
      modifies this
      ensures View() == SwitchSpec.Register(tokenOf, old(View()), name, ref)
    {
      var token := tokenOf(name);
      if token !in byId || name !in byName {
        peers := peers[ref := PeerInfo(name, None)];
      }
      if token !in byId {
        byId := byId[token := ref];
      }
      if name !in byName {
        byName := byName[name := ref];
      }
    }

    /** `HandleSwitchMessages::HandleRequest`. */
    method HandleMessages(e: Event) returns (finished: bool)
      requires Rest(tokenOf, View(), e.tag) && CanHandle(View(), e.tag) && calls[e.tag].kind == SwitchMessages
      modifies this
      ensures HandleRequest(tokenOf, old(View()), e) == Some(Handled(View(), finished))
    {
      hide QueuesInv, RegistryInv, WritersInv, SwitchSpec.Route, CallsButOne;
      if calls[e.tag].peer == None {
        if e.token !in byId {
          pending := pending + multiset{e.tag};
          return true;
        }
        var ref := byId[e.token];
        IdsKnown(tokenOf, View(), e.tag, e.token);
        calls := calls[e.tag := calls[e.tag].(peer := Some(ref))];
        writers := writers[e.newWriter := Writer(ref, false, [])];
        peers := peers[ref := peers[ref].(writer := Some(e.newWriter))];
        routed, handed := routed[e.newWriter := []], handed[e.newWriter := []];
      } else {
        RouteMessage(calls[e.tag].peer.value, e.msg);
      }
      pending := pending + multiset{e.tag};
      return false;
    }

    /** A message that has been read goes to the writer of the peer it names. */
    method RouteMessage(sender: Ref, msg: Message)
      requires sender in peers && RegistryInv(tokenOf, View()) && WritersInv(View()) && QueuesInv(View())
      modifies this
      ensures Some(View()) == SwitchSpec.Route(old(View()), sender, msg)
      ensures calls == old(calls)
    {
      hide QueueInv;
      QueuesKnown(View());
      if msg.peer in byName {
        var writer := peers[byName[msg.peer]].writer;
        if writer.Some? {
          WriteMessage(writer.value, Entry(sender, msg.(peer := peers[sender].name)));
        }
      }
    }

    /** `PeerMessageWriter::Write`. */
    method WriteMessage(w: Tag, entry: Entry)
      requires w in writers && w in routed && w in handed
      modifies this
      ensures Some(View()) == SwitchSpec.Write(old(View()), w, entry)
      ensures calls == old(calls)
    {
      writers := writers[w := writers[w].(toWrite := writers[w].toWrite + [entry])];
      routed := routed[w := routed[w] + [entry]];
      if !writers[w].running {
        handed := handed[w := handed[w] + [writers[w].toWrite[0]]];
        pending := pending + multiset{w};
        writers := writers[w := writers[w].(running := true)];
      }
      assert writers == old(writers)[w := writers[w]];
    }

    /** `PeerMessageWriter::Proceed`. */
    method ProceedPeerWriter(e: Event)
      requires WritersInv(View()) && QueuesInv(View()) && e.tag in writers && writers[e.tag].running
      modifies this
      ensures Some(View()) == ProceedWriter(old(View()), e)
    {
      var w := e.tag;
      assert QueueInv(View(), w);
      if !e.ok {
        var ref := writers[w].peer;
        peers := peers[ref := peers[ref].(writer := None)];
        writers := writers - {w};
        routed, handed := routed - {w}, handed - {w};
        return;
      }
      writers := writers[w := writers[w].(toWrite := writers[w].toWrite[1..])];
      if writers[w].toWrite != [] {
        handed := handed[w := handed[w] + [writers[w].toWrite[0]]];
        pending := pending + multiset{w};
      } else {
        writers := writers[w := writers[w].(running := false)];
      }
      assert writers == old(writers)[w := writers[w]];
    }
  }
}
