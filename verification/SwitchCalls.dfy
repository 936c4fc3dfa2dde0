/** The life of a call handler, told from the completions of a run. */
module SwitchCalls {
  import opened Wrappers
  import opened SwitchSpec
  import opened SwitchRun

  /** Whom a handler reads for after this completion: the peer it has read for, or, for the first
      request of a message stream, the one that the token leads to. */
  ghost function ReadsFor(s: Server, e: Event): Option<Ref>
    requires e.tag in s.calls
  {
    var call := s.calls[e.tag];
    if call.kind == SwitchMessages && call.peer == None && e.token in s.byId then Some(s.byId[e.token]) else call.peer
  }

  /** What a completion does to the handlers: it ends the one it is for if it has failed or the handler
      has been waiting for its end; it starts another of the same kind if it has failed or is the first
      of its handler; a handler that goes on reads for a peer, or waits for its end if there is none to
      read for; and all others are as they were. */
  ghost predicate CallsMove(s: Server, e: Event, s': Server)
    requires e.tag in s.calls
  {
    var call := s.calls[e.tag];
    && (e.tag in s'.calls <==> e.ok && call.status != Finalize)
    && (e.tag in s'.calls ==>
          s'.calls[e.tag] == Call(call.kind, if ReadsFor(s, e).Some? then Process else Finalize, ReadsFor(s, e)))
    && (e.newCall in s'.calls <==> !e.ok || call.status == ReceivedRequest)
    && (e.newCall in s'.calls ==> s'.calls[e.newCall] == Call(call.kind, ReceivedRequest, None))
    && (forall t :: t != e.tag && t != e.newCall ==>
          (t in s'.calls <==> t in s.calls) && (t in s.calls ==> s'.calls[t] == s.calls[t]))
  }

  lemma RequestCalls(tokenOf: TokenOf, s: Server, e: Event)
    requires e.tag in s.calls && HandleRequest(tokenOf, s, e).Some?
    requires s.calls[e.tag].kind != SwitchMessages ==> s.calls[e.tag].peer == None
    ensures var h := HandleRequest(tokenOf, s, e).value;
            && h.s.calls == s.calls[e.tag := s.calls[e.tag].(peer := ReadsFor(s, e))]
            && (h.finished <==> ReadsFor(s, e).None?)
  {
    hide Route;
    var call := s.calls[e.tag];
    if call.kind == SwitchMessages && call.peer.Some? {
      RouteCalls(s, call.peer.value, e.msg);
    }
    assert s.calls[e.tag := call.(peer := call.peer)] == s.calls;
  }

  lemma NoReplyReads(tokenOf: TokenOf, s: Server, e: Event)
    requires Inv(tokenOf, s) && e.tag in s.calls && s.calls[e.tag].status != Finalize
    ensures s.calls[e.tag].kind != SwitchMessages ==> s.calls[e.tag].peer == None
  {
    hide QueuesInv, TagsInv, WritersInv, RegistryInv;
  }

  lemma EndCalls(tokenOf: TokenOf, s: Server, e: Event)
    requires e.tag in s.calls && e.newCall !in s.calls && (!e.ok || s.calls[e.tag].status == Finalize)
    ensures var r := ProceedCall(tokenOf, s, e); r.Some? && CallsMove(s, e, r.value)
  {
  }

  lemma AcceptedCalls(s: Server, e: Event)
    requires e.tag in s.calls && e.newCall !in s.calls
    ensures var s1 := Accept(s, s.calls[e.tag].kind, e.newCall);
            && s1.calls == s.calls[e.newCall := Call(s.calls[e.tag].kind, ReceivedRequest, None)]
            && s1.byId == s.byId && s1.calls[e.tag] == s.calls[e.tag] && ReadsFor(s1, e) == ReadsFor(s, e)
  {
  }

  lemma OnwardCalls(tokenOf: TokenOf, s: Server, e: Event)
    requires e.tag in s.calls && e.newCall !in s.calls && e.ok && s.calls[e.tag].status != Finalize
    requires s.calls[e.tag].kind != SwitchMessages ==> s.calls[e.tag].peer == None
    requires ProceedCall(tokenOf, s, e).Some?
    ensures CallsMove(s, e, ProceedCall(tokenOf, s, e).value)
  {
    hide HandleRequest, Accept, ReadsFor;
    var call := s.calls[e.tag];
    AcceptedCalls(s, e);
    RequestCalls(tokenOf, if call.status == ReceivedRequest then Accept(s, call.kind, e.newCall) else s, e);
  }

  lemma StepCalls(tokenOf: TokenOf, s: Server, e: Event)
    requires Inv(tokenOf, s) && Enabled(s, e) && e.tag in s.calls && Step(tokenOf, s, e).Some?
    ensures CallsMove(s, e, Step(tokenOf, s, e).value)
  {
    hide ProceedCall, Inv;
    var s0 := s.(pending := s.pending - multiset{e.tag});
    var call := s.calls[e.tag];
    if e.ok && call.status != Finalize {
      NoReplyReads(tokenOf, s, e);
      OnwardCalls(tokenOf, s0, e);
    } else {
      EndCalls(tokenOf, s0, e);
    }
  }

  /** The life of a handler, at every completion of every run. */
  lemma HandlersLive(tokenOf: TokenOf, run: seq<Server>, events: seq<Event>, i: nat)
    requires IsTrace(tokenOf, run, events) && i < |events|
    ensures if events[i].tag in run[i].calls then CallsMove(run[i], events[i], run[i + 1])
            else run[i + 1].calls == run[i].calls
  {
    hide Step, Inv, Enabled, Init, CallsMove;
    TraceIsRun(tokenOf, run, events, i);
    assert Step(tokenOf, run[i], events[i]) == Some(run[i + 1]);
    if events[i].tag in run[i].calls {
      StepCalls(tokenOf, run[i], events[i]);
    } else {
      WriterCalls(tokenOf, run[i], events[i]);
    }
  }
}
