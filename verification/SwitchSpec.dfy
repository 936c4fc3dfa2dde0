/** The message switch of `grpc-server/GRPCServer.cpp` as functions on values.
    Call handlers and writers are heap objects that the completion queue names by address and that
    delete themselves; here the heap is the two maps from addresses to live objects. A step that
    would follow an address of a deleted object, or a null pointer, has no result. */
module SwitchSpec {
  import opened Wrappers

  type Tag = nat
  type Ref = nat
  type Name = string
  type Token = string

  /** The kinds of call that `RunServer` starts. */
  datatype Kind = Login | ListPeers | SwitchMessages

  /** A handler in its first state never rests: its creator drives it on at once. */
  datatype Status = ReceivedRequest | Process | Finalize

  datatype Message = Message(peer: Name, content: string)

  datatype Call = Call(kind: Kind, status: Status, peer: Option<Ref>)

  datatype Writer = Writer(peer: Ref, running: bool, toWrite: seq<Entry>)

  /** A queued message, with the peer that sent it. */
  datatype Entry = Entry(sender: Ref, msg: Message)

  datatype PeerInfo = PeerInfo(name: Name, writer: Option<Tag>)

  /** The last two fields are histories: for each live writer, what was routed to it and what it handed
      to its stream. */
  datatype Server = Server(
    calls: map<Tag, Call>,
    writers: map<Tag, Writer>,
    peers: map<Ref, PeerInfo>,
    byId: map<Token, Ref>,
    byName: map<Name, Ref>,
    pending: multiset<Tag>,
    routed: map<Tag, seq<Entry>>,
    handed: map<Tag, seq<Entry>>)

  /** A completed operation: its tag, whether it succeeded, what arrived with it, and the addresses
      that the allocator hands out if the handler asks for some. */
  datatype Event = Event(
    tag: Tag, ok: bool,
    name: Name, token: Token, msg: Message,
    newCall: Tag, newWriter: Tag, newPeer: Ref)

  /** The token of a name: a digest in hexadecimal, which the model leaves open. */
  type TokenOf = Name -> Token

  ghost predicate Live(s: Server, t: Tag) {
    t in s.calls || t in s.writers
  }

  /** The queue returns tags of outstanding operations, and the allocator free addresses. */
  ghost predicate Enabled(s: Server, e: Event) {
    && e.tag in s.pending
    && !Live(s, e.newCall) && !Live(s, e.newWriter) && e.newCall != e.newWriter
    && e.newPeer !in s.peers
  }

  // ---------- parts of the handlers ----------

  /** `CreateInstance(...)->Proceed(true)`: a new handler, already waiting for its request. */
  function Accept(s: Server, kind: Kind, tag: Tag): Server {
    s.(calls := s.calls[tag := Call(kind, ReceivedRequest, None)], pending := s.pending + multiset{tag})
  }

  function DeleteCall(s: Server, tag: Tag): Server {
    s.(calls := s.calls - {tag})
  }

  function SetStatus(s: Server, tag: Tag, status: Status): Server
    requires tag in s.calls
  {
    s.(calls := s.calls[tag := s.calls[tag].(status := status)])
  }

  /** An operation is started with this tag. */
  function Await(s: Server, tag: Tag): Server {
    s.(pending := s.pending + multiset{tag})
  }

  function Emplace<K, V>(m: map<K, V>, k: K, v: V): map<K, V> {
    if k in m then m else m[k := v]
  }

  /** The information about a peer enters each registry only if its key is free there; it stays
      alive if it entered one of them. */
  function Register(tokenOf: TokenOf, s: Server, name: Name, ref: Ref): Server {
    var token := tokenOf(name);
    if token in s.byId && name in s.byName then s
    else s.(peers := s.peers[ref := PeerInfo(name, None)],
            byId := Emplace(s.byId, token, ref),
            byName := Emplace(s.byName, name, ref))
  }

  /** `PeerMessageWriter::Write`. */
  function Write(s: Server, w: Tag, entry: Entry): Option<Server> {
    if w !in s.writers || w !in s.routed || w !in s.handed then None
    else
      var writer := s.writers[w];
      var queue := writer.toWrite + [entry];
      var s1 := s.(writers := s.writers[w := writer.(toWrite := queue, running := true)],
                   routed := s.routed[w := s.routed[w] + [entry]]);
      if writer.running then Some(s1)
      else Some(Await(s1.(handed := s1.handed[w := s1.handed[w] + [queue[0]]]), w))
  }

  /** A message read from the peer `sender` goes to the writer of the peer it names, if that peer is
      registered and has one, with the sender's name in place of its own. */
  function Route(s: Server, sender: Ref, msg: Message): Option<Server> {
    if msg.peer !in s.byName then Some(s)
    else if s.byName[msg.peer] !in s.peers || sender !in s.peers then None
    else
      match s.peers[s.byName[msg.peer]].writer
      case None => Some(s)
      case Some(w) => Write(s, w, Entry(sender, msg.(peer := s.peers[sender].name)))
  }

  /** A new writer for the peer, which replaces the one it had. */
  function AttachWriter(s: Server, tag: Tag, ref: Ref, w: Tag): Option<Server> {
    if ref !in s.peers || tag !in s.calls then None
    else Some(s.(calls := s.calls[tag := s.calls[tag].(peer := Some(ref))],
                 writers := s.writers[w := Writer(ref, false, [])],
                 peers := s.peers[ref := s.peers[ref].(writer := Some(w))],
                 routed := s.routed[w := []],
                 handed := s.handed[w := []]))
  }

  datatype Handled = Handled(s: Server, finished: bool)

  /** `HandleRequest` of each kind: the new state, and whether the call has been finished. Every
      kind starts one operation with the handler's own tag. */
  function HandleRequest(tokenOf: TokenOf, s: Server, e: Event): Option<Handled>
    requires e.tag in s.calls
  {
    var call := s.calls[e.tag];
    match call.kind
    case Login => Some(Handled(Await(Register(tokenOf, s, e.name, e.newPeer), e.tag), true))
    case ListPeers => Some(Handled(Await(s, e.tag), true))
    case SwitchMessages =>
      match call.peer
      case None =>
        if e.token !in s.byId then Some(Handled(Await(s, e.tag), true))
        else (match AttachWriter(s, e.tag, s.byId[e.token], e.newWriter)
              case None => None
              case Some(s1) => Some(Handled(Await(s1, e.tag), false)))
      case Some(sender) =>
        (match Route(s, sender, e.msg)
         case None => None
         case Some(s1) => Some(Handled(Await(s1, e.tag), false)))
  }

  // ---------- the two kinds of completion ----------

  function ProceedCall(tokenOf: TokenOf, s: Server, e: Event): Option<Server>
    requires e.tag in s.calls
  {
    var call := s.calls[e.tag];
    if !e.ok then Some(DeleteCall(Accept(s, call.kind, e.newCall), e.tag))
    else
      match call.status
      case Finalize => Some(DeleteCall(s, e.tag))
      case ReceivedRequest => AfterRequest(HandleRequest(tokenOf, Accept(s, call.kind, e.newCall), e), e.tag)
      case Process => AfterRequest(HandleRequest(tokenOf, s, e), e.tag)
  }

  function AfterRequest(h: Option<Handled>, tag: Tag): Option<Server> {
    match h
    case None => None
    case Some(r) =>
      if tag !in r.s.calls then None
      else Some(SetStatus(r.s, tag, if r.finished then Finalize else Process))
  }

  function ProceedWriter(s: Server, e: Event): Option<Server>
    requires e.tag in s.writers
  {
    var w := e.tag;
    var writer := s.writers[w];
    if !e.ok then
      if writer.peer !in s.peers then None
      else Some(s.(peers := s.peers[writer.peer := s.peers[writer.peer].(writer := None)],
                   writers := s.writers - {w}, routed := s.routed - {w}, handed := s.handed - {w}))
    else if writer.toWrite == [] || w !in s.handed then None
    else
      var rest := writer.toWrite[1..];
      if rest == [] then Some(s.(writers := s.writers[w := writer.(toWrite := rest, running := false)]))
      else Some(Await(s.(writers := s.writers[w := writer.(toWrite := rest)],
                         handed := s.handed[w := s.handed[w] + [rest[0]]]), w))
  }

  /** One turn of the event loop. There is no result if the tag names no live object. */
  function Step(tokenOf: TokenOf, s: Server, e: Event): Option<Server> {
    var s0 := s.(pending := s.pending - multiset{e.tag});
    if e.tag in s.calls then ProceedCall(tokenOf, s0, e)
    else if e.tag in s.writers then ProceedWriter(s0, e)
    else None
  }

  /** The server when its loop begins. */
  function Started(login: Tag, list: Tag, switch: Tag): Server {
    var s := Server(map[], map[], map[], map[], map[], multiset{}, map[], map[]);
    Accept(Accept(Accept(s, Login, login), ListPeers, list), SwitchMessages, switch)
  }
}
