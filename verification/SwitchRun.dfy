/** What holds in every reachable state of the message switch. */
module SwitchRun {
  import opened Wrappers
  import opened SwitchSpec

  ghost predicate Init(s: Server) {
    exists a, b, c :: a != b && b != c && a != c && s == Started(a, b, c)
  }

  ghost predicate Next(tokenOf: TokenOf, s: Server, s': Server) {
    exists e :: Enabled(s, e) && Step(tokenOf, s, e) == Some(s')
  }

  ghost predicate IsRun(tokenOf: TokenOf, run: seq<Server>) {
    && |run| > 0
    && Init(run[0])
    && forall i :: 0 <= i < |run| - 1 ==> Next(tokenOf, run[i], run[i + 1])
  }

  // ---------- the invariant ----------

  /** Each live handler has one outstanding operation, each writer one exactly while it runs, and
      nothing else is outstanding. */
  ghost predicate TagsInv(s: Server) {
    && (forall t :: t in s.calls ==> t !in s.writers)
    && (forall t :: t in s.calls ==> s.pending[t] == 1)
    && (forall t :: t in s.writers ==> s.pending[t] == if s.writers[t].running then 1 else 0)
    && (forall t :: t in s.pending ==> t in s.calls || t in s.writers)
  }

  /** Writers belong to registered peers, and a peer's writer is live and its own. */
  ghost predicate WritersInv(s: Server) {
    && (forall w :: w in s.writers ==> s.writers[w].peer in s.peers)
    && (forall r :: r in s.peers && s.peers[r].writer.Some? ==>
          s.peers[r].writer.value in s.writers && s.writers[s.peers[r].writer.value].peer == r)
  }

  /** A call waits without a peer, and reads messages only for a registered one. */
  ghost predicate CallsInv(s: Server) {
    && (forall t :: t in s.calls && s.calls[t].status == ReceivedRequest ==> s.calls[t].peer == None)
    && (forall t :: t in s.calls && s.calls[t].status == Process ==>
          s.calls[t].kind == SwitchMessages && s.calls[t].peer.Some? && s.calls[t].peer.value in s.peers)
  }

  /** Both registries lead to peers under their own keys, every peer has its name to itself, and every
      registered name has a token that leads to some peer. */
  ghost predicate RegistryInv(tokenOf: TokenOf, s: Server) {
    && (forall k :: k in s.byId ==> s.byId[k] in s.peers && tokenOf(s.peers[s.byId[k]].name) == k)
    && (forall n :: n in s.byName ==> s.byName[n] in s.peers && s.peers[s.byName[n]].name == n && tokenOf(n) in s.byId)
    && (forall r :: r in s.peers ==> s.peers[r].name in s.byName && s.byName[s.peers[r].name] == r)
  }

  /** A writer runs exactly while it has something to write; what it has handed to its stream,
      followed by what still waits behind that, is what was routed to it. */
  ghost predicate QueueInv(s: Server, w: Tag)
    requires w in s.writers
  {
    var writer := s.writers[w];
    && w in s.routed && w in s.handed
    && (writer.running <==> writer.toWrite != [])
    && s.routed[w] == s.handed[w] + (if writer.running then writer.toWrite[1..] else [])
    && (writer.running ==> s.handed[w] != [] && s.handed[w][|s.handed[w]| - 1] == writer.toWrite[0])
    && forall i :: 0 <= i < |s.routed[w]| ==> Stamped(s, s.routed[w][i])
  }

  /** A routed message carries its sender's registered name. */
  ghost predicate Stamped(s: Server, entry: Entry) {
    entry.sender in s.peers && entry.msg.peer == s.peers[entry.sender].name
  }

  ghost predicate QueuesInv(s: Server) {
    forall w :: w in s.writers ==> QueueInv(s, w)
  }

  /** The handlers of a kind that wait for a request. */
  ghost function Waiting(s: Server, k: Kind): set<Tag> {
    set t | t in s.calls && s.calls[t].kind == k && s.calls[t].status == ReceivedRequest
  }

  ghost predicate Inv(tokenOf: TokenOf, s: Server) {
    TagsInv(s) && WritersInv(s) && CallsInv(s) && RegistryInv(tokenOf, s) && QueuesInv(s)
  }

  // ---------- what the parts of a step keep ----------

  /** The tags while handler `tag` is being driven: its own operation has just been taken from the
      queue, everything else is in order. */
  ghost predicate Driving(s: Server, tag: Tag) {
    && (forall t :: t in s.calls ==> t !in s.writers)
    && (forall t :: t in s.calls && t != tag ==> s.pending[t] == 1)
    && (forall t :: t in s.writers && t != tag ==> s.pending[t] == if s.writers[t].running then 1 else 0)
    && (forall t :: t in s.pending ==> t in s.calls || t in s.writers)
    && s.pending[tag] == 0
  }

  ghost predicate CallsButOne(s: Server, tag: Tag) {
    && (forall t :: t in s.calls && t != tag && s.calls[t].status == ReceivedRequest ==> s.calls[t].peer == None)
    && (forall t :: t in s.calls && t != tag && s.calls[t].status == Process ==>
          s.calls[t].kind == SwitchMessages && s.calls[t].peer.Some? && s.calls[t].peer.value in s.peers)
  }

  /** Everything but the tags and the call being driven. */
  ghost predicate Rest(tokenOf: TokenOf, s: Server, tag: Tag) {
    WritersInv(s) && CallsButOne(s, tag) && RegistryInv(tokenOf, s) && QueuesInv(s)
  }

  ghost predicate NamesKept(s: Server, s': Server) {
    forall r :: r in s.peers ==> r in s'.peers && s'.peers[r].name == s.peers[r].name
  }

  /** A step that registers nobody leaves the registries in order. */
  lemma RegistryStands(tokenOf: TokenOf, s: Server, s': Server)
    requires RegistryInv(tokenOf, s) && NamesKept(s, s') && s'.peers.Keys == s.peers.Keys
    requires s'.byId == s.byId && s'.byName == s.byName
    ensures RegistryInv(tokenOf, s')
  {
  }

  /** A queue that a step does not touch stays in order. */
  lemma QueueUntouched(s: Server, s': Server, w: Tag)
    requires w in s.writers && QueueInv(s, w) && NamesKept(s, s')
    requires w in s'.writers && s'.writers[w] == s.writers[w]
    requires w in s'.routed && w in s'.handed && s'.routed[w] == s.routed[w] && s'.handed[w] == s.handed[w]
    ensures QueueInv(s', w)
  {
    forall i | 0 <= i < |s.routed[w]|
      ensures Stamped(s', s.routed[w][i])
    {
      assert Stamped(s, s.routed[w][i]);
    }
  }

  /** The tags and histories of writers, read off without looking into the queues. */
  lemma QueuesKnown(s: Server)
    requires QueuesInv(s)
    ensures forall w :: w in s.writers ==> w in s.routed && w in s.handed
  {
    forall w | w in s.writers
      ensures w in s.routed && w in s.handed
    {
      assert QueueInv(s, w);
    }
  }

  lemma QueuesUntouched(s: Server, s': Server)
    requires QueuesInv(s) && NamesKept(s, s') && s'.writers == s.writers
    requires s'.routed == s.routed && s'.handed == s.handed
    ensures QueuesInv(s')
  {
    hide QueueInv;
    QueuesKnown(s);
    forall w | w in s'.writers
      ensures QueueInv(s', w)
    {
      QueueUntouched(s, s', w);
    }
  }

  lemma CallsStand(s: Server, s': Server, tag: Tag)
    requires CallsButOne(s, tag) && s'.peers.Keys == s.peers.Keys
    requires forall t :: t in s'.calls && t != tag ==>
               || (t in s.calls && s'.calls[t] == s.calls[t])
               || (s'.calls[t].status == ReceivedRequest && s'.calls[t].peer == None)
    ensures CallsButOne(s', tag)
  {
  }

  lemma WritersStay(s: Server, s': Server)
    requires WritersInv(s) && s'.writers == s.writers && s'.peers == s.peers
    ensures WritersInv(s')
  {
  }

  /** A step that touches nothing but the call being driven, and perhaps adds a waiting handler. */
  lemma RestStands(tokenOf: TokenOf, s: Server, s': Server, tag: Tag)
    requires Rest(tokenOf, s, tag)
    requires s'.writers == s.writers && s'.routed == s.routed && s'.handed == s.handed
    requires s'.peers == s.peers && s'.byId == s.byId && s'.byName == s.byName
    requires forall t :: t in s'.calls && t != tag ==>
               || (t in s.calls && s'.calls[t] == s.calls[t])
               || (s'.calls[t].status == ReceivedRequest && s'.calls[t].peer == None)
    ensures Rest(tokenOf, s', tag)
  {
    hide QueuesInv, RegistryInv, WritersInv, CallsButOne;
    WritersStay(s, s');
    CallsStand(s, s', tag);
    RegistryStands(tokenOf, s, s');
    QueuesUntouched(s, s');
  }

  lemma TakenTags(s: Server, tag: Tag)
    requires TagsInv(s) && tag in s.pending
    ensures Live(s, tag) && Driving(s.(pending := s.pending - multiset{tag}), tag)
    ensures tag in s.writers ==> s.writers[tag].running
  {
  }

  lemma PendingAside(tokenOf: TokenOf, s: Server, p: multiset<Tag>)
    requires WritersInv(s) && CallsInv(s) && RegistryInv(tokenOf, s)
    ensures var s1 := s.(pending := p); WritersInv(s1) && CallsInv(s1) && RegistryInv(tokenOf, s1)
  {
    hide RegistryInv;
    RegistryStands(tokenOf, s, s.(pending := p));
  }

  lemma CallsAllButOne(s: Server, tag: Tag)
    requires CallsInv(s)
    ensures CallsButOne(s, tag)
  {
  }

  lemma TakenFromQueue(tokenOf: TokenOf, s: Server, tag: Tag)
    requires Inv(tokenOf, s) && tag in s.pending
    ensures var s0 := s.(pending := s.pending - multiset{tag});
            && Live(s, tag) && Driving(s0, tag) && Rest(tokenOf, s0, tag)
            && (tag in s.writers ==> s.writers[tag].running)
  {
    hide QueuesInv, TagsInv, Driving, Live, WritersInv, CallsInv, RegistryInv, CallsButOne;
    var s0 := s.(pending := s.pending - multiset{tag});
    TakenTags(s, tag);
    PendingAside(tokenOf, s, s0.pending);
    CallsAllButOne(s0, tag);
    QueuesUntouched(s, s0);
  }

  /** The call handler being driven starts an operation of its own. */
  lemma AwaitSettles(tokenOf: TokenOf, s: Server, tag: Tag)
    requires Driving(s, tag) && Rest(tokenOf, s, tag) && tag in s.calls
    ensures TagsInv(Await(s, tag)) && Rest(tokenOf, Await(s, tag), tag)
  {
    hide Rest;
    RestStands(tokenOf, s, Await(s, tag), tag);
  }

  lemma AcceptKeepsTags(s: Server, kind: Kind, address: Tag, tag: Tag)
    requires Driving(s, tag) && Live(s, tag) && !Live(s, address)
    ensures Driving(Accept(s, kind, address), tag)
  {
    assert s.pending[address] == 0;
  }

  lemma AcceptKeeps(tokenOf: TokenOf, s: Server, kind: Kind, address: Tag, tag: Tag)
    requires Driving(s, tag) && Rest(tokenOf, s, tag) && Live(s, tag) && !Live(s, address)
    ensures var s1 := Accept(s, kind, address); Driving(s1, tag) && Rest(tokenOf, s1, tag)
  {
    hide Rest, Driving;
    AcceptKeepsTags(s, kind, address, tag);
    RestStands(tokenOf, s, Accept(s, kind, address), tag);
  }

  /** Either nothing is registered, or the peer enters the registries where its keys are free. */
  lemma RegisterShape(tokenOf: TokenOf, s: Server, name: Name, ref: Ref)
    ensures var s1, token := Register(tokenOf, s, name, ref), tokenOf(name);
            || s1 == s
            || (s1 == s.(peers := s.peers[ref := PeerInfo(name, None)],
                         byId := if token in s.byId then s.byId else s.byId[token := ref],
                         byName := if name in s.byName then s.byName else s.byName[name := ref])
                && !(token in s.byId && name in s.byName))
  {
  }

  lemma RegisterKeepsPeers(s: Server, tokenOf: TokenOf, name: Name, ref: Ref, tag: Tag)
    requires WritersInv(s) && CallsButOne(s, tag) && ref !in s.peers
    ensures var s1 := Register(tokenOf, s, name, ref); WritersInv(s1) && CallsButOne(s1, tag) && NamesKept(s, s1)
  {
    hide Register;
    RegisterShape(tokenOf, s, name, ref);
  }

  lemma RegisterKeepsRegistry(tokenOf: TokenOf, s: Server, name: Name, ref: Ref)
    requires RegistryInv(tokenOf, s) && ref !in s.peers
    ensures RegistryInv(tokenOf, Register(tokenOf, s, name, ref))
  {
    hide Register;
    RegisterShape(tokenOf, s, name, ref);
    if Register(tokenOf, s, name, ref) != s {
      RegistryExtends(tokenOf, s, Register(tokenOf, s, name, ref), name, ref);
    }
  }

  /** A name that is not registered gets a peer to itself. */
  lemma RegistryExtends(tokenOf: TokenOf, s: Server, s': Server, name: Name, ref: Ref)
    requires RegistryInv(tokenOf, s) && ref !in s.peers && name !in s.byName
    requires s'.peers == s.peers[ref := PeerInfo(name, None)] && s'.byName == s.byName[name := ref]
    requires s'.byId == if tokenOf(name) in s.byId then s.byId else s.byId[tokenOf(name) := ref]
    ensures RegistryInv(tokenOf, s')
  {
  }

  lemma RegisterKeepsTags(tokenOf: TokenOf, s: Server, name: Name, ref: Ref, tag: Tag)
    requires Driving(s, tag)
    ensures Driving(Register(tokenOf, s, name, ref), tag)
  {
  }

  lemma RegisterKeeps(tokenOf: TokenOf, s: Server, name: Name, ref: Ref, tag: Tag)
    requires Driving(s, tag) && Rest(tokenOf, s, tag) && ref !in s.peers
    ensures var s1 := Register(tokenOf, s, name, ref);
            Driving(s1, tag) && Rest(tokenOf, s1, tag) && s1.calls == s.calls
  {
    hide QueuesInv, WritersInv, CallsButOne, RegistryInv, NamesKept, Driving;
    RegisterKeepsPeers(s, tokenOf, name, ref, tag);
    RegisterKeepsRegistry(tokenOf, s, name, ref);
    RegisterKeepsTags(tokenOf, s, name, ref, tag);
    QueuesUntouched(s, Register(tokenOf, s, name, ref));
  }

  /** The queue written to. */
  lemma WrittenQueue(s: Server, w: Tag, entry: Entry)
    requires w in s.writers && QueueInv(s, w) && Stamped(s, entry)
    ensures Write(s, w, entry).Some? && QueueInv(Write(s, w, entry).value, w)
  {
    var s1 := Write(s, w, entry).value;
    forall i | 0 <= i < |s1.routed[w]|
      ensures Stamped(s1, s1.routed[w][i])
    {
      if i < |s.routed[w]| {
        assert Stamped(s, s.routed[w][i]);
      }
    }
  }

  lemma WriteKeepsQueues(s: Server, w: Tag, entry: Entry)
    requires QueuesInv(s) && w in s.writers && Stamped(s, entry)
    ensures Write(s, w, entry).Some? && QueuesInv(Write(s, w, entry).value)
  {
    hide QueueInv, Stamped;
    QueuesKnown(s);
    WrittenQueue(s, w, entry);
    var s1 := Write(s, w, entry).value;
    forall v | v in s1.writers
      ensures QueueInv(s1, v)
    {
      if v != w {
        QueueUntouched(s, s1, v);
      }
    }
  }

  lemma WriteKeepsTags(s: Server, w: Tag, entry: Entry, tag: Tag)
    requires Driving(s, tag) && w in s.writers && w != tag && Write(s, w, entry).Some?
    ensures Driving(Write(s, w, entry).value, tag)
  {
    assert s.pending[w] == if s.writers[w].running then 1 else 0;
  }

  lemma WriteKeepsWriters(s: Server, w: Tag, entry: Entry)
    requires WritersInv(s) && w in s.writers && Write(s, w, entry).Some?
    ensures WritersInv(Write(s, w, entry).value)
  {
  }

  lemma WriteKeepsPeers(tokenOf: TokenOf, s: Server, w: Tag, entry: Entry, tag: Tag)
    requires WritersInv(s) && CallsButOne(s, tag) && RegistryInv(tokenOf, s)
    requires w in s.writers && Write(s, w, entry).Some?
    ensures var s1 := Write(s, w, entry).value;
            WritersInv(s1) && CallsButOne(s1, tag) && RegistryInv(tokenOf, s1) && s1.calls == s.calls
  {
    hide RegistryInv, WritersInv, CallsButOne;
    var s1 := Write(s, w, entry).value;
    assert s1.peers == s.peers && s1.calls == s.calls && s1.byId == s.byId && s1.byName == s.byName;
    RegistryStands(tokenOf, s, s1);
    CallsStand(s, s1, tag);
    WriteKeepsWriters(s, w, entry);
  }

  /** Writing to a live writer. */
  lemma WriteKeeps(tokenOf: TokenOf, s: Server, w: Tag, entry: Entry, tag: Tag)
    requires Driving(s, tag) && Rest(tokenOf, s, tag) && w in s.writers && w != tag && Stamped(s, entry)
    ensures var r := Write(s, w, entry);
            r.Some? && Driving(r.value, tag) && Rest(tokenOf, r.value, tag) && r.value.calls == s.calls
  {
    hide QueuesInv, Stamped, Driving, WritersInv, CallsButOne, RegistryInv, Write;
    WriteKeepsQueues(s, w, entry);
    WriteKeepsTags(s, w, entry, tag);
    WriteKeepsPeers(tokenOf, s, w, entry, tag);
  }

  lemma RouteKeeps(tokenOf: TokenOf, s: Server, sender: Ref, msg: Message, tag: Tag)
    requires Driving(s, tag) && Rest(tokenOf, s, tag) && tag in s.calls && sender in s.peers
    ensures var r := Route(s, sender, msg);
            r.Some? && Driving(r.value, tag) && Rest(tokenOf, r.value, tag) && r.value.calls == s.calls
  {
    if msg.peer in s.byName && s.peers[s.byName[msg.peer]].writer.Some? {
      WriteKeeps(tokenOf, s, s.peers[s.byName[msg.peer]].writer.value,
                 Entry(sender, msg.(peer := s.peers[sender].name)), tag);
    }
  }

  lemma AttachKeepsTags(s: Server, tag: Tag, ref: Ref, w: Tag)
    requires Driving(s, tag) && tag in s.calls && ref in s.peers && !Live(s, w)
    ensures var r := AttachWriter(s, tag, ref, w);
            && r.Some? && Driving(r.value, tag)
            && r.value.calls == s.calls[tag := s.calls[tag].(peer := Some(ref))]
            && ref in r.value.peers
  {
    assert s.pending[w] == 0;
  }

  lemma AttachKeepsWriters(s: Server, tag: Tag, ref: Ref, w: Tag)
    requires WritersInv(s) && tag in s.calls && ref in s.peers && w !in s.writers
    ensures var r := AttachWriter(s, tag, ref, w); r.Some? && WritersInv(r.value)
  {
  }

  lemma AttachKeepsPeers(tokenOf: TokenOf, s: Server, tag: Tag, ref: Ref, w: Tag)
    requires WritersInv(s) && CallsButOne(s, tag) && RegistryInv(tokenOf, s)
    requires tag in s.calls && ref in s.peers && w !in s.writers
    ensures var r := AttachWriter(s, tag, ref, w);
            r.Some? && WritersInv(r.value) && CallsButOne(r.value, tag) && RegistryInv(tokenOf, r.value)
  {
    hide RegistryInv, WritersInv, CallsButOne;
    var s1 := AttachWriter(s, tag, ref, w).value;
    RegistryStands(tokenOf, s, s1);
    CallsStand(s, s1, tag);
    AttachKeepsWriters(s, tag, ref, w);
  }

  lemma AttachKeeps(tokenOf: TokenOf, s: Server, tag: Tag, ref: Ref, w: Tag)
    requires Driving(s, tag) && Rest(tokenOf, s, tag) && tag in s.calls && ref in s.peers && !Live(s, w)
    ensures var r := AttachWriter(s, tag, ref, w);
            && r.Some? && Driving(r.value, tag) && Rest(tokenOf, r.value, tag)
            && r.value.calls == s.calls[tag := s.calls[tag].(peer := Some(ref))]
            && ref in r.value.peers
  {
    hide QueuesInv, Driving, WritersInv, CallsButOne, RegistryInv, AttachWriter;
    AttachKeepsTags(s, tag, ref, w);
    AttachKeepsPeers(tokenOf, s, tag, ref, w);
    AttachKeepsQueues(s, tag, ref, w);
  }

  lemma AttachKeepsQueues(s: Server, tag: Tag, ref: Ref, w: Tag)
    requires QueuesInv(s) && tag in s.calls && ref in s.peers && w !in s.writers
    ensures var r := AttachWriter(s, tag, ref, w); r.Some? && QueuesInv(r.value)
  {
    QueuesKnown(s);
    var s1 := AttachWriter(s, tag, ref, w).value;
    forall v | v in s1.writers
      ensures QueueInv(s1, v)
    {
      if v != w {
        QueueUntouched(s, s1, v);
      }
    }
  }

  // ---------- a call handler is driven ----------

  /** The handler being driven is in a state in which it can handle a request. */
  ghost predicate CanHandle(s: Server, tag: Tag) {
    && tag in s.calls && s.calls[tag].status != Finalize
    && (s.calls[tag].status == ReceivedRequest ==> s.calls[tag].peer == None)
    && (s.calls[tag].status == Process ==>
          s.calls[tag].kind == SwitchMessages && s.calls[tag].peer.Some? && s.calls[tag].peer.value in s.peers)
  }

  /** The handler goes on, and only as the reader of a registered peer. */
  ghost predicate ReadsOn(s: Server, tag: Tag) {
    && tag in s.calls && s.calls[tag].kind == SwitchMessages
    && s.calls[tag].peer.Some? && s.calls[tag].peer.value in s.peers
  }

  /** At most the peer of this one call has changed. */
  ghost predicate OnlyPeerSet(s: Server, s': Server, tag: Tag) {
    && tag in s.calls
    && exists p :: s'.calls == s.calls[tag := s.calls[tag].(peer := p)]
  }

  /** After a request has been handled the handler has its one operation again, and goes on only as
      the reader of a registered peer; no other call has changed. */
  ghost predicate HandledWell(tokenOf: TokenOf, s: Server, h: Option<Handled>, tag: Tag) {
    && h.Some?
    && TagsInv(h.value.s) && Rest(tokenOf, h.value.s, tag) && OnlyPeerSet(s, h.value.s, tag)
    && (!h.value.finished ==> ReadsOn(h.value.s, tag))
  }

  lemma SameCalls(s: Server, s': Server, tag: Tag)
    requires tag in s.calls && s'.calls == s.calls
    ensures OnlyPeerSet(s, s', tag)
  {
    assert s'.calls == s.calls[tag := s.calls[tag].(peer := s.calls[tag].peer)];
  }

  lemma LoginKeeps(tokenOf: TokenOf, s: Server, e: Event)
    requires Driving(s, e.tag) && Rest(tokenOf, s, e.tag) && e.tag in s.calls && e.newPeer !in s.peers
    ensures HandledWell(tokenOf, s, Some(Handled(Await(Register(tokenOf, s, e.name, e.newPeer), e.tag), true)), e.tag)
  {
    hide Driving, Rest, TagsInv, Register, OnlyPeerSet;
    RegisterKeeps(tokenOf, s, e.name, e.newPeer, e.tag);
    AwaitSettles(tokenOf, Register(tokenOf, s, e.name, e.newPeer), e.tag);
    SameCalls(s, Await(Register(tokenOf, s, e.name, e.newPeer), e.tag), e.tag);
  }

  lemma ReplyKeeps(tokenOf: TokenOf, s: Server, tag: Tag)
    requires Driving(s, tag) && Rest(tokenOf, s, tag) && tag in s.calls
    ensures HandledWell(tokenOf, s, Some(Handled(Await(s, tag), true)), tag)
  {
    hide Driving, Rest, TagsInv, OnlyPeerSet;
    AwaitSettles(tokenOf, s, tag);
    SameCalls(s, Await(s, tag), tag);
  }

  lemma OpenKeeps(tokenOf: TokenOf, s: Server, e: Event)
    requires Driving(s, e.tag) && Rest(tokenOf, s, e.tag) && e.tag in s.calls && s.calls[e.tag].kind == SwitchMessages
    requires !Live(s, e.newWriter) && e.token in s.byId
    ensures var r := AttachWriter(s, e.tag, s.byId[e.token], e.newWriter);
            r.Some? && HandledWell(tokenOf, s, Some(Handled(Await(r.value, e.tag), false)), e.tag)
  {
    hide Driving, Rest, TagsInv, AttachWriter;
    IdsKnown(tokenOf, s, e.tag, e.token);
    AttachKeeps(tokenOf, s, e.tag, s.byId[e.token], e.newWriter);
    AwaitSettles(tokenOf, AttachWriter(s, e.tag, s.byId[e.token], e.newWriter).value, e.tag);
  }

  lemma ReadKeeps(tokenOf: TokenOf, s: Server, e: Event, sender: Ref)
    requires Driving(s, e.tag) && Rest(tokenOf, s, e.tag) && ReadsOn(s, e.tag) && s.calls[e.tag].peer == Some(sender)
    ensures var r := Route(s, sender, e.msg);
            r.Some? && HandledWell(tokenOf, s, Some(Handled(Await(r.value, e.tag), false)), e.tag)
  {
    hide Driving, Rest, TagsInv, Route, OnlyPeerSet;
    RouteKeeps(tokenOf, s, sender, e.msg, e.tag);
    PeersStay(s, sender, e.msg);
    AwaitSettles(tokenOf, Route(s, sender, e.msg).value, e.tag);
    SameCalls(s, Await(Route(s, sender, e.msg).value, e.tag), e.tag);
  }

  lemma HandleRequestKeeps(tokenOf: TokenOf, s: Server, e: Event)
    requires Driving(s, e.tag) && Rest(tokenOf, s, e.tag) && CanHandle(s, e.tag)
    requires !Live(s, e.newWriter) && e.newPeer !in s.peers
    ensures HandledWell(tokenOf, s, HandleRequest(tokenOf, s, e), e.tag)
  {
    hide Driving, Rest, HandledWell, Register, AttachWriter, Route, Await;
    var call := s.calls[e.tag];
    match call.kind
    case Login => LoginKeeps(tokenOf, s, e);
    case ListPeers => ReplyKeeps(tokenOf, s, e.tag);
    case SwitchMessages =>
      if call.peer == None {
        if e.token in s.byId {
          OpenKeeps(tokenOf, s, e);
        } else {
          ReplyKeeps(tokenOf, s, e.tag);
        }
      } else {
        ReadKeeps(tokenOf, s, e, call.peer.value);
      }
  }

  lemma IdsKnown(tokenOf: TokenOf, s: Server, tag: Tag, token: Token)
    requires Rest(tokenOf, s, tag) && token in s.byId
    ensures s.byId[token] in s.peers
  {
  }

  lemma PeersStay(s: Server, sender: Ref, msg: Message)
    ensures var r := Route(s, sender, msg); r.Some? ==> r.value.peers == s.peers
  {
  }

  lemma StatusTags(s: Server, tag: Tag, status: Status)
    requires TagsInv(s) && tag in s.calls
    ensures TagsInv(SetStatus(s, tag, status))
  {
  }

  /** With its operation started and its next status set, the handler is in order again. */
  lemma StatusSettles(tokenOf: TokenOf, s: Server, tag: Tag, finished: bool)
    requires TagsInv(s) && Rest(tokenOf, s, tag) && tag in s.calls
    requires !finished ==>
               var c := s.calls[tag]; c.kind == SwitchMessages && c.peer.Some? && c.peer.value in s.peers
    ensures var s1 := SetStatus(s, tag, if finished then Finalize else Process);
            Inv(tokenOf, s1)
  {
    hide TagsInv, QueuesInv, RegistryInv, WritersInv;
    StatusTags(s, tag, if finished then Finalize else Process);
    RestStands(tokenOf, s, SetStatus(s, tag, if finished then Finalize else Process), tag);
  }

  lemma DeleteTags(s: Server, tag: Tag)
    requires Driving(s, tag) && tag in s.calls
    ensures TagsInv(DeleteCall(s, tag))
  {
  }

  lemma DeleteSettles(tokenOf: TokenOf, s: Server, tag: Tag)
    requires Driving(s, tag) && Rest(tokenOf, s, tag) && tag in s.calls
    ensures var s1 := DeleteCall(s, tag);
            Inv(tokenOf, s1)
  {
    hide TagsInv, Driving, QueuesInv, RegistryInv, WritersInv;
    DeleteTags(s, tag);
    RestStands(tokenOf, s, DeleteCall(s, tag), tag);
  }

  // ---------- waiting handlers ----------

  lemma AcceptWaits(s: Server, kind: Kind, address: Tag, k: Kind)
    requires address !in s.calls
    ensures Waiting(Accept(s, kind, address), k) == Waiting(s, k) + (if k == kind then {address} else {})
  {
  }

  lemma DeleteWaits(s: Server, tag: Tag, k: Kind)
    ensures Waiting(DeleteCall(s, tag), k) == Waiting(s, k) - {tag}
  {
  }

  /** `s'` has the calls of `s`, except that `tag` no longer waits. */
  ghost predicate OneMovesOn(s: Server, s': Server, tag: Tag) {
    && tag in s.calls
    && exists p, st :: st != ReceivedRequest && s'.calls == s.calls[tag := s.calls[tag].(peer := p, status := st)]
  }

  lemma MovedOnWaits(s: Server, s': Server, tag: Tag, k: Kind)
    requires OneMovesOn(s, s', tag)
    ensures Waiting(s', k) == Waiting(s, k) - {tag}
  {
  }

  /** A request has been handled: the whole state is in order, and the handler has moved on. */
  lemma AfterRequestKeeps(tokenOf: TokenOf, s: Server, e: Event)
    requires Driving(s, e.tag) && Rest(tokenOf, s, e.tag) && CanHandle(s, e.tag)
    requires !Live(s, e.newWriter) && e.newPeer !in s.peers
    ensures var r := AfterRequest(HandleRequest(tokenOf, s, e), e.tag);
            && r.Some? && OneMovesOn(s, r.value, e.tag)
            && Inv(tokenOf, r.value)
  {
    hide Driving, TagsInv, WritersInv, CallsInv, RegistryInv, QueuesInv, CallsButOne, HandleRequest;
    HandleRequestKeeps(tokenOf, s, e);
    var h := HandleRequest(tokenOf, s, e).value;
    var p :| h.s.calls == s.calls[e.tag := s.calls[e.tag].(peer := p)];
    StatusSettles(tokenOf, h.s, e.tag, h.finished);
    var st := if h.finished then Finalize else Process;
    assert SetStatus(h.s, e.tag, st).calls == s.calls[e.tag := s.calls[e.tag].(peer := p, status := st)];
  }

  // ---------- every completion keeps the invariant ----------

  lemma FailureKeeps(tokenOf: TokenOf, s: Server, e: Event)
    requires Driving(s, e.tag) && Rest(tokenOf, s, e.tag) && e.tag in s.calls && !Live(s, e.newCall)
    ensures Inv(tokenOf, DeleteCall(Accept(s, s.calls[e.tag].kind, e.newCall), e.tag))
  {
    hide Driving, TagsInv, WritersInv, CallsInv, RegistryInv, QueuesInv, CallsButOne;
    AcceptKeeps(tokenOf, s, s.calls[e.tag].kind, e.newCall, e.tag);
    DeleteSettles(tokenOf, Accept(s, s.calls[e.tag].kind, e.newCall), e.tag);
  }

  /** The handler being driven was in order before its operation completed. */
  lemma CanHandleOrDone(tokenOf: TokenOf, s: Server, tag: Tag)
    requires CallsInv(s) && tag in s.calls && s.calls[tag].status != Finalize
    ensures CanHandle(s.(pending := s.pending - multiset{tag}), tag)
  {
  }

  lemma AcceptedCanHandle(s: Server, kind: Kind, address: Tag, tag: Tag)
    requires CanHandle(s, tag) && address != tag
    ensures CanHandle(Accept(s, kind, address), tag)
  {
  }

  lemma FreshFor(s: Server, s0: Server, e: Event)
    requires Enabled(s, e) && e.tag in s.calls && s0 == s.(pending := s.pending - multiset{e.tag})
    ensures Live(s0, e.tag) && !Live(s0, e.newCall) && !Live(s0, e.newWriter)
    ensures e.newCall != e.newWriter && e.newPeer !in s0.peers
  {
  }

  lemma DrivenCallKeeps(tokenOf: TokenOf, s: Server, e: Event)
    requires Driving(s, e.tag) && Rest(tokenOf, s, e.tag) && e.tag in s.calls && Live(s, e.tag)
    requires e.ok && s.calls[e.tag].status != Finalize ==> CanHandle(s, e.tag)
    requires !Live(s, e.newCall) && !Live(s, e.newWriter) && e.newCall != e.newWriter && e.newPeer !in s.peers
    ensures var r := ProceedCall(tokenOf, s, e); r.Some? && Inv(tokenOf, r.value)
  {
    hide Driving, Rest, CanHandle, HandleRequest, AfterRequest, Inv;
    var call := s.calls[e.tag];
    if !e.ok {
      FailureKeeps(tokenOf, s, e);
    } else if call.status == Finalize {
      DeleteSettles(tokenOf, s, e.tag);
    } else if call.status == ReceivedRequest {
      AcceptKeeps(tokenOf, s, call.kind, e.newCall, e.tag);
      AcceptedCanHandle(s, call.kind, e.newCall, e.tag);
      AfterRequestKeeps(tokenOf, Accept(s, call.kind, e.newCall), e);
    } else {
      AfterRequestKeeps(tokenOf, s, e);
    }
  }

  lemma CallKeeps(tokenOf: TokenOf, s: Server, e: Event)
    requires Inv(tokenOf, s) && Enabled(s, e) && e.tag in s.calls
    ensures var r := Step(tokenOf, s, e); r.Some? && Inv(tokenOf, r.value)
  {
    hide Driving, Rest, CallsInv, CanHandle, HandleRequest, AfterRequest, Waiting, Live;
    TakenFromQueue(tokenOf, s, e.tag);
    CallsKnown(tokenOf, s);
    hide Inv;
    var s0 := s.(pending := s.pending - multiset{e.tag});
    var call := s.calls[e.tag];
    if e.ok && call.status != Finalize {
      CanHandleOrDone(tokenOf, s, e.tag);
    }
    FreshFor(s, s0, e);
    DrivenCallKeeps(tokenOf, s0, e);
  }

  /** A failed completion that a handler of the kind sees after its first state. */
  ghost predicate LateFailure(s: Server, e: Event, k: Kind) {
    !e.ok && e.tag in s.calls && s.calls[e.tag].kind == k && s.calls[e.tag].status != ReceivedRequest
  }

  /** How many handlers of a kind wait is changed by such a failure only: by other failures it is not ... */
  lemma FailureWaits(s: Server, e: Event, k: Kind)
    requires e.tag in s.calls && e.newCall !in s.calls && !e.ok
    ensures |Waiting(DeleteCall(Accept(s, s.calls[e.tag].kind, e.newCall), e.tag), k)|
         == |Waiting(s, k)| + if LateFailure(s, e, k) then 1 else 0
  {
    hide Waiting, Accept, DeleteCall;
    var kind := s.calls[e.tag].kind;
    WaitingMembers(s, k, e.tag);
    WaitingMembers(s, k, e.newCall);
    AcceptWaits(s, kind, e.newCall, k);
    DeleteWaits(Accept(s, kind, e.newCall), e.tag, k);
  }

  /** ... nor by a request that arrives at a waiting handler ... */
  lemma RequestWaits(s: Server, s': Server, e: Event, k: Kind)
    requires e.tag in s.calls && e.newCall !in s.calls && s.calls[e.tag].status == ReceivedRequest
    requires OneMovesOn(Accept(s, s.calls[e.tag].kind, e.newCall), s', e.tag)
    ensures |Waiting(s', k)| == |Waiting(s, k)|
  {
    hide Waiting, OneMovesOn;
    var kind := s.calls[e.tag].kind;
    WaitingMembers(s, k, e.tag);
    WaitingMembers(s, k, e.newCall);
    AcceptWaits(s, kind, e.newCall, k);
    MovedOnWaits(Accept(s, kind, e.newCall), s', e.tag, k);
  }

  /** ... nor by any other success. */
  lemma SuccessWaits(s: Server, s': Server, e: Event, k: Kind)
    requires e.tag in s.calls && s.calls[e.tag].status != ReceivedRequest
    requires OneMovesOn(s, s', e.tag) || s' == DeleteCall(s, e.tag)
    ensures |Waiting(s', k)| == |Waiting(s, k)|
  {
    hide Waiting, OneMovesOn;
    WaitingMembers(s, k, e.tag);
    if OneMovesOn(s, s', e.tag) {
      MovedOnWaits(s, s', e.tag, k);
    } else {
      DeleteWaits(s, e.tag, k);
    }
  }

  lemma HandledWaits(tokenOf: TokenOf, s: Server, e: Event, k: Kind)
    requires Driving(s, e.tag) && Rest(tokenOf, s, e.tag) && CanHandle(s, e.tag)
    requires !Live(s, e.newCall) && !Live(s, e.newWriter) && e.newCall != e.newWriter && e.newPeer !in s.peers
    requires e.ok && ProceedCall(tokenOf, s, e).Some?
    ensures var s' := ProceedCall(tokenOf, s, e).value;
            |Waiting(s', k)| == |Waiting(s, k)|
  {
    hide Driving, Rest, WritersInv, RegistryInv, QueuesInv;
    hide TagsInv, CallsInv, Waiting, HandleRequest, AfterRequest, OneMovesOn;
    var s' := ProceedCall(tokenOf, s, e).value;
    var call := s.calls[e.tag];
    if call.status == ReceivedRequest {
      AcceptKeeps(tokenOf, s, call.kind, e.newCall, e.tag);
      AcceptedCanHandle(s, call.kind, e.newCall, e.tag);
      AfterRequestKeeps(tokenOf, Accept(s, call.kind, e.newCall), e);
      RequestWaits(s, s', e, k);
    } else {
      AfterRequestKeeps(tokenOf, s, e);
      SuccessWaits(s, s', e, k);
    }
  }

  lemma FailedWaits(tokenOf: TokenOf, s: Server, e: Event, k: Kind)
    requires e.tag in s.calls && e.newCall !in s.calls && !e.ok
    ensures var r := ProceedCall(tokenOf, s, e);
            r.Some? && |Waiting(r.value, k)| == |Waiting(s, k)| + if LateFailure(s, e, k) then 1 else 0
  {
    hide Waiting;
    FailureWaits(s, e, k);
  }

  lemma CallWaits(tokenOf: TokenOf, s: Server, e: Event, k: Kind)
    requires Inv(tokenOf, s) && Enabled(s, e) && e.tag in s.calls && Step(tokenOf, s, e).Some?
    ensures |Waiting(Step(tokenOf, s, e).value, k)| == |Waiting(s, k)| + if LateFailure(s, e, k) then 1 else 0
  {
    hide Driving, Rest, WritersInv, RegistryInv, QueuesInv, TagsInv, CallsInv, Waiting, ProceedCall, CanHandle;
    TakenFromQueue(tokenOf, s, e.tag);
    var s0 := s.(pending := s.pending - multiset{e.tag});
    WaitingMembers(s, k, e.tag);
    if !e.ok {
      FailedWaits(tokenOf, s0, e, k);
    } else if s.calls[e.tag].status == Finalize {
      FinalWaits(tokenOf, s0, e, k);
    } else {
      CanHandleOrDone(tokenOf, s, e.tag);
      HandledWaits(tokenOf, s0, e, k);
    }
  }

  lemma FinalWaits(tokenOf: TokenOf, s: Server, e: Event, k: Kind)
    requires e.tag in s.calls && e.ok && s.calls[e.tag].status == Finalize
    ensures var r := ProceedCall(tokenOf, s, e); r.Some? && |Waiting(r.value, k)| == |Waiting(s, k)|
  {
    hide Waiting;
    SuccessWaits(s, DeleteCall(s, e.tag), e, k);
  }

  lemma WaitingMembers(s: Server, k: Kind, tag: Tag)
    ensures tag in Waiting(s, k) <==> tag in s.calls && s.calls[tag].kind == k && s.calls[tag].status == ReceivedRequest
    ensures forall p :: Waiting(s.(pending := p), k) == Waiting(s, k)
  {
  }

  // ---------- a writer is driven ----------

  /** What a success does: the next message goes out, or the writer rests. */
  lemma WriterAdvances(s: Server, e: Event)
    requires e.tag in s.writers && e.ok && s.writers[e.tag].toWrite != [] && e.tag in s.handed
    ensures var w, r := e.tag, ProceedWriter(s, e);
            var rest := s.writers[w].toWrite[1..];
            && r.Some?
            && r.value == s.(
                 writers := s.writers[w := Writer(s.writers[w].peer, s.writers[w].running && rest != [], rest)],
                 handed := if rest == [] then s.handed else s.handed[w := s.handed[w] + [rest[0]]],
                 pending := if rest == [] then s.pending else s.pending + multiset{w})
  {
  }

  lemma WriterQueue(s: Server, e: Event)
    requires e.tag in s.writers && QueueInv(s, e.tag) && s.writers[e.tag].running && e.ok
    ensures var r := ProceedWriter(s, e); r.Some? && QueueInv(r.value, e.tag)
  {
    hide ProceedWriter;
    WriterAdvances(s, e);
    var s1 := ProceedWriter(s, e).value;
    forall i | 0 <= i < |s1.routed[e.tag]|
      ensures Stamped(s1, s1.routed[e.tag][i])
    {
      assert Stamped(s, s.routed[e.tag][i]);
    }
  }

  lemma RunningHasWork(s: Server, w: Tag)
    requires QueuesInv(s) && w in s.writers && s.writers[w].running
    ensures s.writers[w].toWrite != []
  {
    assert QueueInv(s, w);
  }

  /** Only the queue of `w` has been touched, and that one is in order, if it is still there. */
  lemma OthersUntouched(s: Server, s': Server, w: Tag)
    requires QueuesInv(s) && NamesKept(s, s') && (w in s'.writers ==> QueueInv(s', w))
    requires forall v :: v in s.writers ==> v in s.routed && v in s.handed
    requires forall v :: v in s'.writers && v != w ==>
               && v in s.writers && s'.writers[v] == s.writers[v]
               && v in s'.routed && s'.routed[v] == s.routed[v] && v in s'.handed && s'.handed[v] == s.handed[v]
    ensures QueuesInv(s')
  {
    hide QueueInv;
    forall v | v in s'.writers
      ensures QueueInv(s', v)
    {
      if v != w {
        QueueUntouched(s, s', v);
      }
    }
  }

  lemma WriterKeepsQueues(s: Server, e: Event)
    requires QueuesInv(s) && WritersInv(s) && e.tag in s.writers && s.writers[e.tag].running
    ensures var r := ProceedWriter(s, e); r.Some? && QueuesInv(r.value)
  {
    hide QueueInv, Stamped;
    QueuesKnown(s);
    if e.ok {
      assert s.writers[e.tag].toWrite != [] by { RunningHasWork(s, e.tag); }
      WriterQueue(s, e);
      WriterAdvances(s, e);
      hide ProceedWriter;
      OthersUntouched(s, ProceedWriter(s, e).value, e.tag);
    } else {
      OthersUntouched(s, ProceedWriter(s, e).value, e.tag);
    }
  }

  lemma WriterTags(s: Server, s': Server, tag: Tag, writer: Writer)
    requires Driving(s, tag) && tag in s.writers
    requires s'.calls == s.calls && s'.writers == s.writers[tag := writer]
    requires s'.pending == if writer.running then s.pending + multiset{tag} else s.pending
    ensures TagsInv(s')
  {
  }

  lemma DeletedWriterTags(s: Server, s': Server, tag: Tag)
    requires Driving(s, tag) && tag in s.writers
    requires s'.calls == s.calls && s'.writers == s.writers - {tag} && s'.pending == s.pending
    ensures TagsInv(s')
  {
  }

  lemma WriterHadWork(s: Server, e: Event)
    requires e.tag in s.writers && ProceedWriter(s, e).Some?
    ensures e.ok ==> s.writers[e.tag].toWrite != [] && e.tag in s.handed
  {
  }

  lemma WriterKeepsTags(s: Server, e: Event)
    requires Driving(s, e.tag) && e.tag in s.writers && s.writers[e.tag].running
    requires ProceedWriter(s, e).Some?
    ensures TagsInv(ProceedWriter(s, e).value)
  {
    hide Driving, TagsInv;
    var s1 := ProceedWriter(s, e).value;
    if e.ok {
      WriterHadWork(s, e);
      hide ProceedWriter;
      WriterAdvances(s, e);
      WriterTags(s, s1, e.tag, s1.writers[e.tag]);
    } else {
      assert s1.calls == s.calls;
      DeletedWriterTags(s, s1, e.tag);
    }
  }

  /** A writer that fails is forgotten by its peer, whichever writer the peer had. */
  lemma WriterKeepsPeers(tokenOf: TokenOf, s: Server, e: Event)
    requires WritersInv(s) && CallsInv(s) && RegistryInv(tokenOf, s) && e.tag in s.writers
    requires ProceedWriter(s, e).Some?
    ensures var s1 := ProceedWriter(s, e).value;
            && WritersInv(s1) && CallsInv(s1) && RegistryInv(tokenOf, s1)
            && s1.calls == s.calls
  {
    hide WritersInv, CallsInv, RegistryInv, NamesKept;
    var s1 := ProceedWriter(s, e).value;
    if e.ok {
      WriterHadWork(s, e);
      hide ProceedWriter;
      WriterAdvances(s, e);
      PeersUntouched(tokenOf, s, s1, e.tag);
    } else {
      WriterFails(s, e);
      RegistryStands(tokenOf, s, s1);
    }
  }

  lemma PeersUntouched(tokenOf: TokenOf, s: Server, s': Server, w: Tag)
    requires WritersInv(s) && CallsInv(s) && RegistryInv(tokenOf, s)
    requires s'.peers == s.peers && s'.calls == s.calls && s'.byId == s.byId && s'.byName == s.byName
    requires w in s.writers && w in s'.writers && s'.writers == s.writers[w := s'.writers[w]]
    requires s'.writers[w].peer == s.writers[w].peer
    ensures WritersInv(s') && CallsInv(s') && RegistryInv(tokenOf, s')
  {
    hide RegistryInv;
    RegistryStands(tokenOf, s, s');
  }

  lemma WriterFails(s: Server, e: Event)
    requires WritersInv(s) && CallsInv(s) && e.tag in s.writers && !e.ok
    ensures var r := ProceedWriter(s, e);
            && r.Some? && WritersInv(r.value) && CallsInv(r.value)
            && NamesKept(s, r.value) && r.value.peers.Keys == s.peers.Keys
  {
    var s1 := ProceedWriter(s, e).value;
    assert s1.writers == s.writers - {e.tag};
  }

  lemma WriterKeeps(tokenOf: TokenOf, s: Server, e: Event)
    requires Inv(tokenOf, s) && Enabled(s, e) && e.tag in s.writers
    ensures var r := Step(tokenOf, s, e);
            r.Some? && Inv(tokenOf, r.value) && r.value.calls == s.calls
  {
    hide Driving, WritersInv, RegistryInv, QueuesInv, CallsInv, ProceedWriter;
    TakenFromQueue(tokenOf, s, e.tag);
    var s0 := s.(pending := s.pending - multiset{e.tag});
    PendingAside(tokenOf, s, s0.pending);
    WriterKeepsQueues(s0, e);
    WriterKeepsTags(s0, e);
    WriterKeepsPeers(tokenOf, s0, e);
  }

  // ---------- every reachable state ----------

  /** An event that the completion queue may return leads to a state, never to a deleted object or a
      null pointer, and what holds of the state goes on holding. */
  lemma StepKeeps(tokenOf: TokenOf, s: Server, e: Event)
    requires Inv(tokenOf, s) && Enabled(s, e)
    ensures var r := Step(tokenOf, s, e); r.Some? && Inv(tokenOf, r.value)
  {
    hide Enabled, TagsInv, WritersInv, CallsInv, RegistryInv, QueuesInv, Step;
    TagLives(tokenOf, s, e);
    if e.tag in s.calls {
      CallKeeps(tokenOf, s, e);
    } else {
      WriterKeeps(tokenOf, s, e);
    }
  }

  lemma CallsKnown(tokenOf: TokenOf, s: Server)
    requires Inv(tokenOf, s)
    ensures CallsInv(s)
  {
  }

  lemma TagLives(tokenOf: TokenOf, s: Server, e: Event)
    requires Inv(tokenOf, s) && Enabled(s, e)
    ensures e.tag in s.calls || e.tag in s.writers
  {
  }

  lemma StartedShape(a: Tag, b: Tag, c: Tag)
    requires a != b && b != c && a != c
    ensures var s := Started(a, b, c);
            && s.calls == map[a := Call(Login, ReceivedRequest, None), b := Call(ListPeers, ReceivedRequest, None),
                              c := Call(SwitchMessages, ReceivedRequest, None)]
            && s.writers == map[] && s.peers == map[] && s.byId == map[] && s.byName == map[]
            && s.pending == multiset{a, b, c}
  {
  }

  lemma ThreeTags(s: Server, a: Tag, b: Tag, c: Tag)
    requires a != b && b != c && a != c
    requires s.calls.Keys == {a, b, c} && s.writers == map[] && s.pending == multiset{a, b, c}
    ensures TagsInv(s)
  {
  }

  lemma InitHolds(tokenOf: TokenOf, s: Server)
    requires Init(s)
    ensures Inv(tokenOf, s)
  {
    hide Started, TagsInv;
    var a, b, c :| a != b && b != c && a != c && s == Started(a, b, c);
    StartedShape(a, b, c);
    ThreeTags(s, a, b, c);
  }

  lemma {:induction false} RunKeeps(tokenOf: TokenOf, run: seq<Server>)
    requires IsRun(tokenOf, run)
    ensures Inv(tokenOf, run[|run| - 1])
    decreases |run|
  {
    hide Init, Enabled, Inv;
    if |run| == 1 {
      InitHolds(tokenOf, run[0]);
    } else {
      var last := |run| - 1;
      assert Next(tokenOf, run[last - 1], run[last]);
      RunKeeps(tokenOf, run[..last]);
      var e :| Enabled(run[last - 1], e) && Step(tokenOf, run[last - 1], e) == Some(run[last]);
      StepKeeps(tokenOf, run[last - 1], e);
    }
  }

  // ---------- the main results ----------

  /** No dangling completion tags. In every reachable state each live handler has exactly one
      outstanding operation, each writer one exactly while it runs, every outstanding tag names one
      live object, every writer that a peer points to is live, and whatever the queue returns next
      can be followed. */
  lemma NoDanglingTags(tokenOf: TokenOf, run: seq<Server>, t: Tag, r: Ref, e: Event)
    requires IsRun(tokenOf, run)
    ensures var s := run[|run| - 1];
            && (t in s.calls ==> s.pending[t] == 1 && t !in s.writers)
            && (t in s.writers ==> s.pending[t] == if s.writers[t].running then 1 else 0)
            && (t in s.pending ==> Live(s, t))
            && (r in s.peers && s.peers[r].writer.Some? ==> s.peers[r].writer.value in s.writers)
            && (Enabled(s, e) ==> Step(tokenOf, s, e).Some?)
  {
    hide Init, Next, QueuesInv, RegistryInv, CallsInv, Step, Enabled;
    RunKeeps(tokenOf, run);
    var s := run[|run| - 1];
    if Enabled(s, e) {
      StepKeeps(tokenOf, s, e);
    }
  }

  /** The entries of one sender. */
  ghost function From(sender: Ref, entries: seq<Entry>): seq<Entry> {
    if entries == [] then []
    else (if entries[0].sender == sender then [entries[0]] else []) + From(sender, entries[1..])
  }

  lemma {:induction false} FromJoin(sender: Ref, a: seq<Entry>, b: seq<Entry>)
    ensures From(sender, a + b) == From(sender, a) + From(sender, b)
  {
    if a == [] {
      assert a + b == b;
    } else {
      var first := if a[0].sender == sender then [a[0]] else [];
      assert (a + b)[0] == a[0] && (a + b)[1..] == a[1..] + b;
      FromJoin(sender, a[1..], b);
      assert From(sender, a) == first + From(sender, a[1..]);
      assert From(sender, a + b) == first + (From(sender, a[1..]) + From(sender, b));
    }
  }

  lemma {:induction false} FromMembers(sender: Ref, entries: seq<Entry>, i: nat)
    requires i < |From(sender, entries)|
    ensures From(sender, entries)[i].sender == sender && From(sender, entries)[i] in entries
  {
    if entries[0].sender == sender && i == 0 {
    } else {
      FromMembers(sender, entries[1..], if entries[0].sender == sender then i - 1 else i);
    }
  }

  /** Sent by one registered peer, under its name. */
  ghost predicate AllFrom(s: Server, sender: Ref, entries: seq<Entry>) {
    forall entry :: entry in entries ==>
      sender in s.peers && entry.sender == sender && entry.msg.peer == s.peers[sender].name
  }

  lemma StampedFrom(s: Server, w: Tag, sender: Ref)
    requires w in s.writers && QueueInv(s, w)
    ensures AllFrom(s, sender, From(sender, s.routed[w]))
  {
    var entries := From(sender, s.routed[w]);
    forall entry | entry in entries
      ensures sender in s.peers && entry.sender == sender && entry.msg.peer == s.peers[sender].name
    {
      var i :| 0 <= i < |entries| && entries[i] == entry;
      FromMembers(sender, s.routed[w], i);
      var j :| 0 <= j < |s.routed[w]| && s.routed[w][j] == entry;
      assert Stamped(s, s.routed[w][j]);
    }
  }

  // ---------- what was routed and what was handed over, told from the events ----------

  /** A run together with the events that drove it. */
  ghost predicate IsTrace(tokenOf: TokenOf, run: seq<Server>, events: seq<Event>) {
    && |run| == |events| + 1
    && Init(run[0])
    && forall i :: 0 <= i < |events| ==>
         Enabled(run[i], events[i]) && Step(tokenOf, run[i], events[i]) == Some(run[i + 1])
  }

  /** What a completion routes to the writer `w`: a message that a reader of a registered peer has
      read, if it names the peer whose writer `w` now is, under its sender's name. */
  ghost function RoutedNow(s: Server, e: Event, w: Tag): seq<Entry> {
    if e.ok && e.tag in s.calls && s.calls[e.tag].status == Process
       && s.calls[e.tag].peer.Some? && s.calls[e.tag].peer.value in s.peers
       && e.msg.peer in s.byName && s.byName[e.msg.peer] in s.peers
       && s.peers[s.byName[e.msg.peer]].writer == Some(w)
    then var sender := s.calls[e.tag].peer.value; [Entry(sender, Message(s.peers[sender].name, e.msg.content))]
    else []
  }

  /** What the step hands to the stream of `w`: the front of its queue, whenever a write with its tag
      has been started. */
  ghost function HandedNow(s: Server, e: Event, s': Server, w: Tag): seq<Entry> {
    if w in s'.writers && s'.writers[w].toWrite != [] && s'.pending[w] > (s.pending - multiset{e.tag})[w]
    then [s'.writers[w].toWrite[0]]
    else []
  }

  /** Everything routed to `w` since it was created. */
  ghost function RoutedAlong(run: seq<Server>, events: seq<Event>, w: Tag): seq<Entry>
    requires |run| == |events| + 1
  {
    if events == [] then []
    else
      var n := |events| - 1;
      if w !in run[n].writers then [] else RoutedAlong(run[..n + 1], events[..n], w) + RoutedNow(run[n], events[n], w)
  }

  ghost function HandedAlong(run: seq<Server>, events: seq<Event>, w: Tag): seq<Entry>
    requires |run| == |events| + 1
  {
    if events == [] then []
    else
      var n := |events| - 1;
      if w !in run[n].writers then []
      else HandedAlong(run[..n + 1], events[..n], w) + HandedNow(run[n], events[n], run[n + 1], w)
  }

  /** What has happened to the histories of `w` on the way from `s` to `s'`. */
  ghost predicate Moves(s: Server, s': Server, w: Tag, routed: seq<Entry>, handed: seq<Entry>) {
    && w in s.writers && w in s'.writers
    && w in s.routed && w in s'.routed && s'.routed[w] == s.routed[w] + routed
    && w in s.handed && w in s'.handed && s'.handed[w] == s.handed[w] + handed
  }

  /** The writers, their histories and their outstanding operations are as they were. */
  ghost predicate WritersStand(s: Server, s': Server) {
    && s'.writers == s.writers && s'.routed == s.routed && s'.handed == s.handed
    && forall w :: w in s.writers ==> s'.pending[w] == s.pending[w]
  }

  /** Reading a message routes it, and starts a write exactly if the writer was idle. */
  lemma WriteMoves(s: Server, v: Tag, entry: Entry, w: Tag)
    requires v in s.writers && w in s.writers && QueueInv(s, v) && QueueInv(s, w)
    ensures var r := Write(s, v, entry);
            && r.Some? && w in r.value.writers
            && Moves(s, r.value, w, if w == v then [entry] else [],
                     if w == v && !s.writers[v].running then [r.value.writers[w].toWrite[0]] else [])
            && (r.value.pending[w] > s.pending[w] <==> w == v && !s.writers[v].running)
            && (w == v ==> r.value.writers[w].toWrite != [])
  {
  }

  lemma WriterMoves(s: Server, e: Event, w: Tag)
    requires e.tag in s.writers && s.writers[e.tag].running && QueueInv(s, e.tag) && e.ok
    requires w in s.writers && QueueInv(s, w)
    ensures var r := ProceedWriter(s, e);
            && r.Some? && w in r.value.writers
            && Moves(s, r.value, w, [],
                     if w == e.tag && r.value.writers[w].toWrite != [] then [r.value.writers[w].toWrite[0]] else [])
            && (r.value.pending[w] > s.pending[w] <==> w == e.tag && r.value.writers[w].toWrite != [])
  {
    hide ProceedWriter, Stamped;
    WriterAdvances(s, e);
  }

  /** What a step adds to the histories of `w`. */
  ghost predicate HistoryMoves(s: Server, e: Event, s': Server, w: Tag) {
    if w in s.writers then Moves(s, s', w, RoutedNow(s, e, w), HandedNow(s, e, s', w))
    else w in s'.routed && s'.routed[w] == [] && w in s'.handed && s'.handed[w] == []
  }

  lemma ReaderKnown(tokenOf: TokenOf, s: Server, e: Event)
    requires Inv(tokenOf, s) && e.tag in s.calls && s.calls[e.tag].status == Process
    ensures s.calls[e.tag].kind == SwitchMessages && e.tag !in s.writers && QueuesInv(s)
    ensures s.calls[e.tag].peer.Some? && s.calls[e.tag].peer.value in s.peers
    ensures e.msg.peer in s.byName ==> s.byName[e.msg.peer] in s.peers
    ensures forall r :: r in s.peers && s.peers[r].writer.Some? ==> s.peers[r].writer.value in s.writers
  {
    hide QueuesInv;
  }

  /** A message is read. */
  lemma ReadMoves(tokenOf: TokenOf, s: Server, e: Event, w: Tag)
    requires Inv(tokenOf, s) && Enabled(s, e) && e.ok
    requires e.tag in s.calls && s.calls[e.tag].status == Process && w in s.writers
    requires Step(tokenOf, s, e).Some? && w in Step(tokenOf, s, e).value.writers
    ensures HistoryMoves(s, e, Step(tokenOf, s, e).value, w)
  {
    hide QueueInv, Stamped, Write, Inv, QueuesInv, WritersStand;
    ReaderKnown(tokenOf, s, e);
    QueueOf(s, w);
    QueueHistories(s, w);
    var s0 := s.(pending := s.pending - multiset{e.tag});
    var sender := s.calls[e.tag].peer.value;
    var s1 := Route(s0, sender, e.msg).value;
    var s' := Step(tokenOf, s, e).value;
    RouteCalls(s0, sender, e.msg);
    assert s' == SetStatus(Await(s1, e.tag), e.tag, Process);
    SettledStands(s1, e.tag, Process);
    StandsKeeps(s1, s');
    hide Step, SetStatus, Await;
    if e.msg.peer in s.byName && s.peers[s.byName[e.msg.peer]].writer.Some? {
      var v := s.peers[s.byName[e.msg.peer]].writer.value;
      QueueOf(s, v);
      QueueUntouched(s, s0, v);
      QueueUntouched(s, s0, w);
      WriteMoves(s0, v, Entry(sender, e.msg.(peer := s.peers[sender].name)), w);
    }
  }

  lemma RouteCalls(s: Server, sender: Ref, msg: Message)
    ensures var r := Route(s, sender, msg);
            r.Some? ==> r.value.calls == s.calls && r.value.writers.Keys == s.writers.Keys
  {
  }

  /** A call handler starts an operation and changes state. */
  lemma SettledStands(s: Server, tag: Tag, status: Status)
    requires tag in s.calls && tag !in s.writers
    ensures WritersStand(s, SetStatus(Await(s, tag), tag, status))
  {
  }

  lemma QueueOf(s: Server, w: Tag)
    requires QueuesInv(s) && w in s.writers
    ensures QueueInv(s, w)
  {
  }

  lemma QueueHistories(s: Server, w: Tag)
    requires w in s.writers && QueueInv(s, w)
    ensures w in s.routed && w in s.handed
  {
  }

  lemma QuietMoves(s: Server, e: Event, s': Server, w: Tag)
    requires WritersStand(s.(pending := s.pending - multiset{e.tag}), s') && QueuesInv(s)
    requires w in s'.writers && !(e.ok && e.tag in s.calls && s.calls[e.tag].status == Process)
    ensures HistoryMoves(s, e, s', w)
  {
    hide QueueInv;
    QueueOf(s, w);
    QueueHistories(s, w);
  }

  lemma AcceptStands(s: Server, kind: Kind, address: Tag, tag: Tag)
    requires address !in s.writers
    ensures var s1 := Accept(s, kind, address);
            && WritersStand(s, s1) && WritersStand(s, DeleteCall(s1, tag))
            && s1.peers == s.peers && s1.byId == s.byId
            && forall t :: t in s.calls && t != address ==> t in s1.calls && s1.calls[t] == s.calls[t]
  {
  }

  lemma RegisterStands(tokenOf: TokenOf, s: Server, name: Name, ref: Ref, tag: Tag)
    requires tag in s.calls && tag !in s.writers
    ensures var s1 := Register(tokenOf, s, name, ref);
            s1.calls == s.calls && WritersStand(s, SetStatus(Await(s1, tag), tag, Finalize))
  {
  }

  /** A stream is opened: the new writer starts with empty histories. */
  lemma AttachMoves(s: Server, tag: Tag, ref: Ref, v: Tag, w: Tag)
    requires tag in s.calls && tag !in s.writers && ref in s.peers && v !in s.writers && v != tag
    ensures var r := AttachWriter(s, tag, ref, v);
            && r.Some? && tag in r.value.calls
            && var s' := SetStatus(Await(r.value, tag), tag, Process);
               && (w in s.writers && w in s.routed && w in s.handed ==>
                     Moves(s, s', w, [], []) && s'.pending[w] == s.pending[w])
               && (w in s'.writers && w !in s.writers ==>
                     w in s'.routed && s'.routed[w] == [] && w in s'.handed && s'.handed[w] == [])
  {
  }

  /** The first request of a handler arrives. */
  lemma RequestMoves(tokenOf: TokenOf, s: Server, e: Event, w: Tag)
    requires QueuesInv(s) && CallsInv(s) && RegistryInv(tokenOf, s) && e.tag !in s.writers
    requires Enabled(s, e) && e.ok
    requires e.tag in s.calls && s.calls[e.tag].status == ReceivedRequest
    requires Step(tokenOf, s, e).Some? && w in Step(tokenOf, s, e).value.writers
    ensures HistoryMoves(s, e, Step(tokenOf, s, e).value, w)
  {
    hide QueueInv, QueuesInv, Accept, Register, AttachWriter, SetStatus, Await, WritersStand;
    var s0 := s.(pending := s.pending - multiset{e.tag});
    var call := s.calls[e.tag];
    AcceptStands(s0, call.kind, e.newCall, e.tag);
    var s1 := Accept(s0, call.kind, e.newCall);
    var s' := Step(tokenOf, s, e).value;
    StandsKeeps(s0, s1);
    if call.kind == Login {
      RegisterStands(tokenOf, s1, e.name, e.newPeer, e.tag);
      StandsThrough(s0, s1, s');
      QuietMoves(s, e, s', w);
    } else if call.kind == ListPeers || e.token !in s.byId {
      SettledStands(s1, e.tag, Finalize);
      StandsThrough(s0, s1, s');
      QuietMoves(s, e, s', w);
    } else {
      if w in s.writers {
        QueueOf(s, w);
        QueueHistories(s, w);
      }
      AttachMoves(s1, e.tag, s.byId[e.token], e.newWriter, w);
    }
  }

  lemma StandsKeeps(s: Server, s': Server)
    requires WritersStand(s, s')
    ensures s'.writers == s.writers && s'.routed == s.routed && s'.handed == s.handed
    ensures forall w :: w in s.writers ==> s'.pending[w] == s.pending[w]
  {
  }

  lemma StandsThrough(s: Server, s1: Server, s2: Server)
    requires WritersStand(s, s1) && WritersStand(s1, s2)
    ensures WritersStand(s, s2)
  {
  }

  lemma StepMoves(tokenOf: TokenOf, s: Server, e: Event, w: Tag)
    requires Inv(tokenOf, s) && Enabled(s, e)
    requires Step(tokenOf, s, e).Some? && w in Step(tokenOf, s, e).value.writers
    ensures HistoryMoves(s, e, Step(tokenOf, s, e).value, w)
  {
    hide QueueInv, QueuesInv, HistoryMoves, ProceedWriter, HandleRequest;
    hide AfterRequest, WritersStand, Accept, WritersInv, CallsInv, RegistryInv;
    TagLives(tokenOf, s, e);
    var s0 := s.(pending := s.pending - multiset{e.tag});
    var s' := Step(tokenOf, s, e).value;
    if e.tag in s.writers {
      TakenFromQueue(tokenOf, s, e.tag);
      DrivenMoves(s, e, w);
    } else if e.ok && s.calls[e.tag].status == Process {
      KeysKept(tokenOf, s, e, w);
      ReadMoves(tokenOf, s, e, w);
    } else if e.ok && s.calls[e.tag].status == ReceivedRequest {
      RequestMoves(tokenOf, s, e, w);
    } else {
      FailureOrEndStands(tokenOf, s0, e);
      QuietMoves(s, e, s', w);
    }
  }

  lemma DrivenKeys(s: Server, e: Event, w: Tag)
    requires e.tag in s.writers
    ensures var r := ProceedWriter(s, e); r.Some? && w in r.value.writers ==> w in s.writers
  {
  }

  lemma WriterEnds(s: Server, e: Event, w: Tag)
    requires e.tag in s.writers && !e.ok && w in s.writers && w in s.routed && w in s.handed
    ensures var r := ProceedWriter(s, e);
            r.Some? && w in r.value.writers ==> Moves(s, r.value, w, [], []) && r.value.pending == s.pending
  {
  }

  lemma DrivenMoves(s: Server, e: Event, w: Tag)
    requires QueuesInv(s) && e.tag !in s.calls && e.tag in s.writers && s.writers[e.tag].running
    requires var r := ProceedWriter(s.(pending := s.pending - multiset{e.tag}), e); r.Some? && w in r.value.writers
    ensures HistoryMoves(s, e, ProceedWriter(s.(pending := s.pending - multiset{e.tag}), e).value, w)
  {
    hide QueueInv, QueuesInv, ProceedWriter;
    var s0 := s.(pending := s.pending - multiset{e.tag});
    QueuesUntouched(s, s0);
    DrivenKeys(s0, e, w);
    QueueOf(s0, w);
    QueueHistories(s0, w);
    QueueOf(s0, e.tag);
    if e.ok {
      WriterMoves(s0, e, w);
    } else {
      WriterEnds(s0, e, w);
    }
  }

  lemma FailureOrEndStands(tokenOf: TokenOf, s: Server, e: Event)
    requires e.tag in s.calls && e.newCall !in s.writers && (!e.ok || s.calls[e.tag].status == Finalize)
    ensures var r := ProceedCall(tokenOf, s, e); r.Some? && WritersStand(s, r.value)
  {
  }

  lemma KeysKept(tokenOf: TokenOf, s: Server, e: Event, w: Tag)
    requires Inv(tokenOf, s) && Enabled(s, e) && e.ok
    requires e.tag in s.calls && s.calls[e.tag].status == Process
    requires Step(tokenOf, s, e).Some? && w in Step(tokenOf, s, e).value.writers
    ensures w in s.writers
  {
    hide QueueInv, QueuesInv, TagsInv, WritersInv, RegistryInv;
    RouteCalls(s.(pending := s.pending - multiset{e.tag}), s.calls[e.tag].peer.value, e.msg);
  }

  lemma TraceIsRun(tokenOf: TokenOf, run: seq<Server>, events: seq<Event>, i: nat)
    requires IsTrace(tokenOf, run, events) && i < |run|
    ensures IsRun(tokenOf, run[..i + 1]) && Inv(tokenOf, run[i])
  {
    hide Init, Enabled, Inv;
    RunKeeps(tokenOf, run[..i + 1]);
  }

  /** The recorded histories are what the events say. */
  lemma {:induction false} HistoriesAreTrue(tokenOf: TokenOf, run: seq<Server>, events: seq<Event>, w: Tag)
    requires IsTrace(tokenOf, run, events) && w in run[|run| - 1].writers
    ensures var s := run[|run| - 1];
            && w in s.routed && s.routed[w] == RoutedAlong(run, events, w)
            && w in s.handed && s.handed[w] == HandedAlong(run, events, w)
    decreases |run|
  {
    hide Init, Enabled, Inv, Step, RoutedNow, HandedNow;
    var n := |events| - 1;
    if n < 0 {
      NoWriterAtFirst(run[0]);
    } else {
      TraceIsRun(tokenOf, run, events, n);
      StepMoves(tokenOf, run[n], events[n], w);
      if w in run[n].writers {
        HistoriesAreTrue(tokenOf, run[..n + 1], events[..n], w);
      }
    }
  }

  lemma NoWriterAtFirst(s: Server)
    requires Init(s)
    ensures s.writers == map[]
  {
  }

  // ---------- handlers that wait, counted over the events ----------

  lemma SameCallsWait(s: Server, s': Server, k: Kind)
    requires s'.calls == s.calls
    ensures Waiting(s', k) == Waiting(s, k)
  {
  }

  lemma StartedWaits(a: Tag, b: Tag, c: Tag, k: Kind)
    requires a != b && b != c && a != c
    ensures Waiting(Started(a, b, c), k) == match k case Login => {a} case ListPeers => {b} case SwitchMessages => {c}
  {
  }

  lemma StepWaits(tokenOf: TokenOf, s: Server, e: Event, k: Kind)
    requires Inv(tokenOf, s) && Enabled(s, e)
    ensures var r := Step(tokenOf, s, e);
            r.Some? && |Waiting(r.value, k)| == |Waiting(s, k)| + if LateFailure(s, e, k) then 1 else 0
  {
    hide Inv, Enabled, Waiting, Step;
    StepKeeps(tokenOf, s, e);
    TagLives(tokenOf, s, e);
    if e.tag in s.calls {
      CallWaits(tokenOf, s, e, k);
    } else {
      WriterCalls(tokenOf, s, e);
      SameCallsWait(s, Step(tokenOf, s, e).value, k);
    }
  }

  lemma WriterCalls(tokenOf: TokenOf, s: Server, e: Event)
    requires e.tag !in s.calls
    ensures var r := Step(tokenOf, s, e); r.Some? ==> r.value.calls == s.calls
  {
  }

  /** The failures of a run that a handler of this kind saw after its first state. */
  ghost function LateFailures(run: seq<Server>, events: seq<Event>, k: Kind): set<nat>
    requires |run| == |events| + 1
  {
    set i: nat | i < |events| && LateFailure(run[i], events[i], k)
  }

  lemma OneMoreFailure(run: seq<Server>, events: seq<Event>, k: Kind)
    requires |run| == |events| + 1 && events != []
    ensures var n := |events| - 1;
            |LateFailures(run, events, k)|
            == |LateFailures(run[..n + 1], events[..n], k)| + if LateFailure(run[n], events[n], k) then 1 else 0
  {
    hide LateFailure;
    var n := |events| - 1;
    var before := LateFailures(run[..n + 1], events[..n], k);
    assert n !in before;
    assert LateFailures(run, events, k) == before + if LateFailure(run[n], events[n], k) then {n} else {};
  }

  /** The server never stops accepting: in every run, the handlers of each kind that wait for a request
      are one, and one more for every failed completion that a handler of the kind saw after its first
      state. */
  lemma {:induction false} AcceptorAccounting(tokenOf: TokenOf, run: seq<Server>, events: seq<Event>, k: Kind)
    requires IsTrace(tokenOf, run, events)
    ensures |Waiting(run[|run| - 1], k)| == 1 + |LateFailures(run, events, k)|
    decreases |run|
  {
    hide Init, Enabled, Inv, Step, Waiting, LateFailures, LateFailure;
    if events == [] {
      OneWaitsAtFirst(run[0], k);
      assert LateFailures(run, events, k) == {} by { NoFailureYet(run, k); }
    } else {
      var n := |events| - 1;
      AcceptorAccounting(tokenOf, run[..n + 1], events[..n], k);
      TraceIsRun(tokenOf, run, events, n);
      StepWaits(tokenOf, run[n], events[n], k);
      OneMoreFailure(run, events, k);
    }
  }

  lemma OneWaitsAtFirst(s: Server, k: Kind)
    requires Init(s)
    ensures |Waiting(s, k)| == 1
  {
    hide Waiting, Started;
    var a, b, c :| a != b && b != c && a != c && s == Started(a, b, c);
    StartedWaits(a, b, c, k);
  }

  lemma NoFailureYet(run: seq<Server>, k: Kind)
    requires |run| == 1
    ensures LateFailures(run, [], k) == {}
  {
  }

  /** First in, first out for every pair: what a live writer has handed to its stream, restricted to
      one sender, is a prefix of what that sender has routed to the writer since it was created, so
      nothing is reordered, repeated or made up; an idle writer has handed over everything; and every
      message carries the name under which its sender is registered. */
  lemma PairsAreFifo(tokenOf: TokenOf, run: seq<Server>, events: seq<Event>, w: Tag, sender: Ref)
    requires IsTrace(tokenOf, run, events) && w in run[|run| - 1].writers
    ensures var s := run[|run| - 1];
            && From(sender, HandedAlong(run, events, w)) <= From(sender, RoutedAlong(run, events, w))
            && (!s.writers[w].running ==> HandedAlong(run, events, w) == RoutedAlong(run, events, w))
            && AllFrom(s, sender, From(sender, RoutedAlong(run, events, w)))
  {
    hide Init, Enabled, Step, RegistryInv, CallsInv, TagsInv;
    hide WritersInv, RoutedAlong, HandedAlong, Stamped, AllFrom;
    var s := run[|run| - 1];
    TraceIsRun(tokenOf, run, events, |run| - 1);
    HistoriesAreTrue(tokenOf, run, events, w);
    assert QueueInv(s, w);
    var rest := if s.writers[w].running then s.writers[w].toWrite[1..] else [];
    assert s.routed[w] == s.handed[w] + rest;
    FromJoin(sender, s.handed[w], rest);
    StampedFrom(s, w, sender);
  }

  // ---------- building runs ----------

  /** A run that can be followed by an event, and the run that it then is. */
  lemma Follows(tokenOf: TokenOf, run: seq<Server>, events: seq<Event>, e: Event, s: Server)
    returns (run': seq<Server>, events': seq<Event>)
    requires IsTrace(tokenOf, run, events) && Enabled(run[|events|], e) && Step(tokenOf, run[|events|], e) == Some(s)
    ensures IsTrace(tokenOf, run', events') && |events'| == |events| + 1 && Inv(tokenOf, s)
    ensures run'[|events|] == run[|events|] && run'[|events'|] == s && events'[|events|] == e
  {
    hide Init, Enabled, Inv, Step;
    TraceIsRun(tokenOf, run, events, |events|);
    StepKeeps(tokenOf, run[|events|], e);
    run', events' := run + [s], events + [e];
  }

  lemma TagsOf(tokenOf: TokenOf, s: Server)
    requires Inv(tokenOf, s)
    ensures TagsInv(s) && forall w :: w in s.writers ==> QueueInv(s, w)
  {
  }

  lemma TraceLength(tokenOf: TokenOf, run: seq<Server>, events: seq<Event>)
    requires IsTrace(tokenOf, run, events)
    ensures |run| == |events| + 1
  {
  }
}
