/** Who leads to a writer: the pointers from peers to their writers over whole runs, and what the late
    failure of a replaced writer does to them. */
module SwitchStale {
  import opened Wrappers
  import opened SwitchSpec
  import opened SwitchRun

  // ---------- the pointers of a step ----------

  /** The completion opens a stream for the peer `p`. */
  ghost predicate Opens(s: Server, e: Event, p: Ref) {
    && e.ok && e.tag in s.calls && s.calls[e.tag].kind == SwitchMessages && s.calls[e.tag].status == ReceivedRequest
    && e.token in s.byId && s.byId[e.token] == p
  }

  /** The completion is the failure of a writer of the peer `p`. */
  ghost predicate Fails(s: Server, e: Event, p: Ref) {
    !e.ok && e.tag in s.writers && s.writers[e.tag].peer == p
  }

  ghost function PointerAfter(s: Server, e: Event, p: Ref): Option<Tag> {
    if p !in s.peers || Fails(s, e, p) then None
    else if Opens(s, e, p) then Some(e.newWriter)
    else s.peers[p].writer
  }

  ghost predicate PointersMove(s: Server, e: Event, s': Server) {
    && s.peers.Keys <= s'.peers.Keys
    && forall p :: p in s'.peers ==> s'.peers[p].writer == PointerAfter(s, e, p)
  }

  lemma SamePeersMove(s: Server, e: Event, s': Server)
    requires s'.peers == s.peers && forall p :: !Fails(s, e, p) && !Opens(s, e, p)
    ensures PointersMove(s, e, s')
  {
  }

  lemma WriterPointers(s: Server, e: Event)
    requires e.tag in s.writers && e.tag !in s.calls
    requires ProceedWriter(s.(pending := s.pending - multiset{e.tag}), e).Some?
    ensures PointersMove(s, e, ProceedWriter(s.(pending := s.pending - multiset{e.tag}), e).value)
  {
  }

  lemma LoginPointers(tokenOf: TokenOf, s: Server, e: Event, s0: Server)
    requires e.newPeer !in s.peers && s0.peers == s.peers && forall p :: !Fails(s, e, p) && !Opens(s, e, p)
    ensures PointersMove(s, e, Register(tokenOf, s0, e.name, e.newPeer))
  {
  }

  lemma OpenPointers(s: Server, e: Event, s0: Server, p: Ref)
    requires s0.peers == s.peers && Opens(s, e, p) && e.tag !in s.writers
    requires AttachWriter(s0, e.tag, p, e.newWriter).Some?
    ensures PointersMove(s, e, AttachWriter(s0, e.tag, p, e.newWriter).value)
  {
  }

  /** What a handled request does to the pointers. */
  lemma RequestPointers(tokenOf: TokenOf, s: Server, e: Event, s0: Server)
    requires e.ok && e.tag in s.calls && e.tag !in s.writers && e.tag in s0.calls && s0.calls[e.tag] == s.calls[e.tag]
    requires s.calls[e.tag].peer == None <==> s.calls[e.tag].status == ReceivedRequest
    requires s.calls[e.tag].status == Process ==> s.calls[e.tag].kind == SwitchMessages
    requires s0.peers == s.peers && s0.byId == s.byId && e.newPeer !in s.peers
    requires AfterRequest(HandleRequest(tokenOf, s0, e), e.tag).Some?
    ensures PointersMove(s, e, AfterRequest(HandleRequest(tokenOf, s0, e), e.tag).value)
  {
    hide PointersMove, Register, AttachWriter, Route;
    var s' := AfterRequest(HandleRequest(tokenOf, s0, e), e.tag).value;
    var call := s.calls[e.tag];
    if call.kind == Login {
      LoginPointers(tokenOf, s, e, s0);
      PeersDecide(s, e, Register(tokenOf, s0, e.name, e.newPeer), s');
    } else if call.kind == SwitchMessages && call.peer == None && e.token in s.byId {
      OpenPointers(s, e, s0, s.byId[e.token]);
      PeersDecide(s, e, AttachWriter(s0, e.tag, s.byId[e.token], e.newWriter).value, s');
    } else {
      if call.kind == SwitchMessages && call.peer.Some? {
        PeersStay(s0, call.peer.value, e.msg);
      }
      SamePeersMove(s, e, s');
    }
  }

  lemma PeersDecide(s: Server, e: Event, s1: Server, s': Server)
    requires PointersMove(s, e, s1) && s'.peers == s1.peers
    ensures PointersMove(s, e, s')
  {
  }

  lemma ReaderIsCalled(tokenOf: TokenOf, s: Server, t: Tag)
    requires Inv(tokenOf, s) && t in s.calls
    ensures t !in s.writers
    ensures s.calls[t].status == ReceivedRequest ==> s.calls[t].peer == None
    ensures s.calls[t].status == Process ==> s.calls[t].kind == SwitchMessages && s.calls[t].peer.Some?
  {
    hide QueuesInv;
  }

  /** A peer's pointer is cleared by the failure of any of its writers, set by an opened stream, and
      otherwise left alone. */
  lemma StepPointers(tokenOf: TokenOf, s: Server, e: Event)
    requires Inv(tokenOf, s) && Enabled(s, e)
    ensures Step(tokenOf, s, e).Some? && PointersMove(s, e, Step(tokenOf, s, e).value)
  {
    hide Inv, PointersMove, ProceedWriter, HandleRequest, AfterRequest, Accept;
    StepKeeps(tokenOf, s, e);
    TagLives(tokenOf, s, e);
    var s0 := s.(pending := s.pending - multiset{e.tag});
    if e.tag in s.calls {
      ReaderIsCalled(tokenOf, s, e.tag);
      var call := s.calls[e.tag];
      Accepting(s0, call.kind, e.newCall);
      if e.ok && call.status == ReceivedRequest {
        RequestPointers(tokenOf, s, e, Accept(s0, call.kind, e.newCall));
      } else if e.ok && call.status == Process {
        RequestPointers(tokenOf, s, e, s0);
      } else {
        EndPointers(tokenOf, s0, e);
        SamePeersMove(s, e, Step(tokenOf, s, e).value);
      }
    } else {
      WriterPointers(s, e);
    }
  }

  lemma Accepting(s: Server, kind: Kind, address: Tag)
    ensures var s1 := Accept(s, kind, address);
            && s1.calls == s.calls[address := Call(kind, ReceivedRequest, None)] && s1.writers == s.writers
            && s1.byId == s.byId && s1.byName == s.byName && s1.peers == s.peers
  {
  }

  lemma EndPointers(tokenOf: TokenOf, s: Server, e: Event)
    requires e.tag in s.calls && (!e.ok || s.calls[e.tag].status == Finalize)
    ensures var r := ProceedCall(tokenOf, s, e); r.Some? && r.value.peers == s.peers
  {
  }

  // ---------- losing the writer ----------

  /** A peer that leads to a writer leads to none after a step if and only if the step is the failure
      of a writer of that peer, be it the one it leads to or one that a later stream replaced. */
  lemma LosesWriterIff(tokenOf: TokenOf, run: seq<Server>, e: Event, p: Ref)
    requires IsRun(tokenOf, run) && Enabled(run[|run| - 1], e)
    requires p in run[|run| - 1].peers && run[|run| - 1].peers[p].writer.Some?
    ensures var s, r := run[|run| - 1], Step(tokenOf, run[|run| - 1], e);
            && r.Some? && p in r.value.peers
            && (r.value.peers[p].writer == None <==> Fails(s, e, p))
  {
    hide Init, Next, Inv, Step, Fails, Opens;
    RunKeeps(tokenOf, run);
    StepPointers(tokenOf, run[|run| - 1], e);
  }

  /** No peer leads to the writer, and messages for the peer `r` go nowhere. */
  ghost predicate Silent(s: Server, r: Ref, v: Tag) {
    && r in s.peers
    && (forall p :: p in s.peers ==> s.peers[p].writer != Some(v))
    && forall sender, msg: Message :: sender in s.peers && msg.peer == s.peers[r].name ==>
         Route(s, sender, msg) == Some(s)
  }

  /** A writer that a second stream of the same peer has replaced may still fail later. Its failure
      then takes the peer's new writer from it: that one stays alive, but nothing leads to it any
      more, and messages for the peer are dropped. */
  lemma StaleFailureSilences(tokenOf: TokenOf, run: seq<Server>, e: Event, v: Tag)
    requires IsRun(tokenOf, run) && Enabled(run[|run| - 1], e) && !e.ok
    requires var s := run[|run| - 1];
             e.tag in s.writers && s.writers[e.tag].peer in s.peers && s.peers[s.writers[e.tag].peer].writer == Some(v)
    ensures var s, r := run[|run| - 1], Step(tokenOf, run[|run| - 1], e);
            r.Some? && Silent(r.value, s.writers[e.tag].peer, v) && (v in r.value.writers <==> v != e.tag)
  {
    hide Init, Next, QueuesInv, CallsInv;
    RunKeeps(tokenOf, run);
    var s := run[|run| - 1];
    var s' := Step(tokenOf, s, e).value;
    var p := s.writers[e.tag].peer;
    assert s'.peers == s.peers[p := s.peers[p].(writer := None)] && s'.byName == s.byName;
    assert s.byName[s.peers[p].name] == p;
  }

  // ---------- for good ----------

  ghost predicate Forgotten(s: Server, v: Tag) {
    v in s.writers && forall p :: p in s.peers ==> s.peers[p].writer != Some(v)
  }

  lemma ForgottenStays(tokenOf: TokenOf, s: Server, e: Event, v: Tag)
    requires Inv(tokenOf, s) && Enabled(s, e) && Forgotten(s, v)
    requires Step(tokenOf, s, e).Some? && v in Step(tokenOf, s, e).value.writers
    ensures Forgotten(Step(tokenOf, s, e).value, v)
    ensures var s' := Step(tokenOf, s, e).value; v in s.routed && v in s'.routed && s'.routed[v] == s.routed[v]
  {
    hide Inv, Step, QueueInv;
    StepPointers(tokenOf, s, e);
    StepMoves(tokenOf, s, e, v);
    assert RoutedNow(s, e, v) == [];
    assert s.routed[v] + [] == s.routed[v];
  }

  /** Once no peer leads to a writer, none does as long as it lives, and nothing is ever routed to it
      again. */
  lemma {:induction false} ForgottenForGood(tokenOf: TokenOf, run: seq<Server>, events: seq<Event>, i: nat, v: Tag)
    requires IsTrace(tokenOf, run, events) && i < |run| && Forgotten(run[i], v)
    requires forall j :: i <= j < |run| ==> v in run[j].writers
    ensures var s := run[|run| - 1];
            && Forgotten(s, v)
            && v in s.routed && v in run[i].routed && s.routed[v] == run[i].routed[v]
    decreases |run|
  {
    hide Init, Enabled, Inv, Step, Forgotten, QueueInv;
    var n := |events|;
    if i < n {
      ForgottenForGood(tokenOf, run[..n], events[..n - 1], i, v);
      TraceIsRun(tokenOf, run, events, n - 1);
      assert Enabled(run[n - 1], events[n - 1]) && Step(tokenOf, run[n - 1], events[n - 1]) == Some(run[n]);
      ForgottenStays(tokenOf, run[n - 1], events[n - 1], v);
    } else {
      TraceIsRun(tokenOf, run, events, i);
      RoutedKnown(tokenOf, run[i], v);
    }
  }

  lemma RoutedKnown(tokenOf: TokenOf, s: Server, v: Tag)
    requires Inv(tokenOf, s) && v in s.writers
    ensures v in s.routed
  {
    assert QueueInv(s, v);
  }

  // ---------- a run in which it happens ----------

  const NAME: Name := "a"

  /** A handler of each kind waits. */
  ghost predicate Waits(s: Server) {
    s == Started(0, 1, 2)
  }

  ghost predicate Registered(tokenOf: TokenOf, s: Server) {
    s.byId == map[tokenOf(NAME) := 0] && s.byName == map[NAME := 0] && s.peers.Keys == {0} && s.peers[0].name == NAME
  }

  ghost predicate LoggedIn(tokenOf: TokenOf, s: Server) {
    && Registered(tokenOf, s) && s.writers == map[] && s.calls.Keys == {0, 1, 2, 3}
    && s.calls[2] == Call(SwitchMessages, ReceivedRequest, None)
  }

  /** The first stream is open, and the peer leads to its writer; a second handler waits. */
  ghost predicate Opened(tokenOf: TokenOf, s: Server, running: bool) {
    && Registered(tokenOf, s) && s.calls.Keys == {0, 1, 2, 3, 4}
    && s.calls[2] == Call(SwitchMessages, Process, Some(0))
    && s.calls[4] == Call(SwitchMessages, ReceivedRequest, None)
    && s.writers.Keys == {6} && s.writers[6].peer == 0 && s.writers[6].running == running
    && s.peers[0].writer == Some(6)
  }

  /** The second stream is open; the first writer is still writing. */
  ghost predicate Replaced(tokenOf: TokenOf, s: Server) {
    && Registered(tokenOf, s) && s.calls.Keys == {0, 1, 2, 3, 4, 5}
    && s.writers.Keys == {6, 8} && s.writers[6].peer == 0 && s.writers[6].running
    && s.peers[0].writer == Some(8)
  }

  ghost function LogIn(): Event {
    Event(0, true, NAME, "", Message("", ""), 3, 6, 0)
  }

  ghost function OpenFirst(tokenOf: TokenOf): Event {
    Event(2, true, "", tokenOf(NAME), Message("", ""), 4, 6, 1)
  }

  ghost function WriteToSelf(): Event {
    Event(2, true, "", "", Message(NAME, ""), 5, 8, 1)
  }

  ghost function OpenSecond(tokenOf: TokenOf): Event {
    Event(4, true, "", tokenOf(NAME), Message("", ""), 5, 8, 1)
  }

  ghost function FirstFails(): Event {
    Event(6, false, "", "", Message("", ""), 7, 9, 1)
  }

  /** What a completion that opens a stream does to the heap and the registries. */
  lemma Opening(tokenOf: TokenOf, s: Server, e: Event, p: Ref)
    requires Opens(s, e, p) && p in s.peers && s.calls[e.tag].peer == None && e.newCall != e.tag
    ensures var r := Step(tokenOf, s, e);
            && r.Some? && r.value.byId == s.byId && r.value.byName == s.byName
            && r.value.calls == s.calls[e.newCall := Call(SwitchMessages, ReceivedRequest, None)]
                                       [e.tag := Call(SwitchMessages, Process, Some(p))]
            && r.value.writers == s.writers[e.newWriter := Writer(p, false, [])]
            && r.value.peers == s.peers[p := s.peers[p].(writer := Some(e.newWriter))]
  {
    hide Accept, AttachWriter;
    var s0 := s.(pending := s.pending - multiset{e.tag});
    var s1 := Accept(s0, SwitchMessages, e.newCall);
    assert s1.calls == s.calls[e.newCall := Call(SwitchMessages, ReceivedRequest, None)] && s1.writers == s.writers
           && s1.byId == s.byId && s1.byName == s.byName && s1.peers == s.peers by {
      Accepting(s0, SwitchMessages, e.newCall);
    }
    Attaching(s1, e.tag, p, e.newWriter);
  }

  lemma Attaching(s: Server, tag: Tag, p: Ref, w: Tag)
    requires p in s.peers && tag in s.calls
    ensures var r := AttachWriter(s, tag, p, w);
            && r.Some? && r.value.byId == s.byId && r.value.byName == s.byName
            && r.value.calls == s.calls[tag := s.calls[tag].(peer := Some(p))]
            && r.value.writers == s.writers[w := Writer(p, false, [])]
            && r.value.peers == s.peers[p := s.peers[p].(writer := Some(w))]
  {
  }

  lemma LogsIn(tokenOf: TokenOf, s: Server)
    requires Waits(s)
    ensures Enabled(s, LogIn())
    ensures var r := Step(tokenOf, s, LogIn()); r.Some? && LoggedIn(tokenOf, r.value)
  {
    assert 0 in s.pending;
  }

  lemma OpensFirst(tokenOf: TokenOf, s: Server)
    requires LoggedIn(tokenOf, s) && TagsInv(s)
    ensures Enabled(s, OpenFirst(tokenOf))
    ensures var r := Step(tokenOf, s, OpenFirst(tokenOf)); r.Some? && Opened(tokenOf, r.value, false)
  {
    hide Step;
    assert s.pending[2] == 1;
    Opening(tokenOf, s, OpenFirst(tokenOf), 0);
  }

  lemma WritesToSelf(tokenOf: TokenOf, s: Server)
    requires Opened(tokenOf, s, false) && TagsInv(s) && QueueInv(s, 6)
    ensures Enabled(s, WriteToSelf())
    ensures var r := Step(tokenOf, s, WriteToSelf()); r.Some? && Opened(tokenOf, r.value, true)
  {
    assert s.pending[2] == 1;
  }

  lemma OpensSecond(tokenOf: TokenOf, s: Server)
    requires Opened(tokenOf, s, true) && TagsInv(s)
    ensures Enabled(s, OpenSecond(tokenOf))
    ensures var r := Step(tokenOf, s, OpenSecond(tokenOf)); r.Some? && Replaced(tokenOf, r.value)
  {
    hide Step;
    assert s.pending[4] == 1;
    Opening(tokenOf, s, OpenSecond(tokenOf), 0);
  }

  lemma FirstCanFail(tokenOf: TokenOf, s: Server)
    requires Replaced(tokenOf, s) && TagsInv(s)
    ensures Enabled(s, FirstFails())
    ensures var r := Step(tokenOf, s, FirstFails());
            r.Some? && 0 in r.value.peers && r.value.peers[0].writer == None && Forgotten(r.value, 8)
  {
    assert s.pending[6] == 1;
  }



  lemma OpenedHappens(tokenOf: TokenOf) returns (run: seq<Server>, events: seq<Event>)
    ensures IsTrace(tokenOf, run, events) && |events| == 2
    ensures Opened(tokenOf, run[2], false) && Inv(tokenOf, run[2])
  {
    hide Step, Inv, Enabled, TagsInv, QueueInv, LoggedIn, Opened;
    run, events := [Started(0, 1, 2)], [];
    LogsIn(tokenOf, run[0]);
    run, events := Follows(tokenOf, run, events, LogIn(), Step(tokenOf, run[0], LogIn()).value);
    TagsOf(tokenOf, run[1]);
    OpensFirst(tokenOf, run[1]);
    run, events := Follows(tokenOf, run, events, OpenFirst(tokenOf), Step(tokenOf, run[1], OpenFirst(tokenOf)).value);
  }

  lemma ReplacedHappens(tokenOf: TokenOf) returns (run: seq<Server>, events: seq<Event>)
    ensures IsTrace(tokenOf, run, events) && |events| == 4
    ensures Replaced(tokenOf, run[4]) && Inv(tokenOf, run[4])
  {
    run, events := OpenedHappens(tokenOf);
    hide Step, Inv, Enabled, TagsInv, QueueInv, Opened, Replaced, IsTrace;
    TraceLength(tokenOf, run, events);
    TagsOf(tokenOf, run[2]);
    OpenedHas(tokenOf, run[2]);
    WritesToSelf(tokenOf, run[2]);
    run, events := Follows(tokenOf, run, events, WriteToSelf(), Step(tokenOf, run[2], WriteToSelf()).value);
    TraceLength(tokenOf, run, events);
    TagsOf(tokenOf, run[3]);
    OpensSecond(tokenOf, run[3]);
    run, events := Follows(tokenOf, run, events, OpenSecond(tokenOf), Step(tokenOf, run[3], OpenSecond(tokenOf)).value);
    TraceLength(tokenOf, run, events);
  }


  /** It happens: a peer logs in, opens a stream, writes to itself, opens a second stream, and the
      write on the first one fails. The second writer is alive, and nothing leads to it. */
  lemma StaleFailureHappens(tokenOf: TokenOf) returns (run: seq<Server>, events: seq<Event>)
    ensures IsTrace(tokenOf, run, events) && |events| == 5
    ensures run[4].peers.Keys == {0} && run[4].peers[0].writer == Some(8) && Fails(run[4], events[4], 0)
    ensures 0 in run[5].peers && run[5].peers[0].writer == None && Forgotten(run[5], 8)
  {
    run, events := ReplacedHappens(tokenOf);
    hide Step, Inv, Enabled, TagsInv, QueueInv, Replaced, IsTrace, Forgotten, Fails;
    TraceLength(tokenOf, run, events);
    TagsOf(tokenOf, run[4]);
    FirstCanFail(tokenOf, run[4]);
    ReplacedHas(tokenOf, run[4]);
    run, events := Follows(tokenOf, run, events, FirstFails(), Step(tokenOf, run[4], FirstFails()).value);
    TraceLength(tokenOf, run, events);
  }

  lemma OpenedHas(tokenOf: TokenOf, s: Server)
    requires Opened(tokenOf, s, false)
    ensures 6 in s.writers
  {
  }

  lemma ReplacedHas(tokenOf: TokenOf, s: Server)
    requires Replaced(tokenOf, s)
    ensures s.peers.Keys == {0} && s.peers[0].writer == Some(8) && Fails(s, FirstFails(), 0)
  {
  }
}
