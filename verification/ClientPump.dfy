/** The client's write pump: `Context` and `MessageSender` of `client/GRPCClient.cpp`. */
module PumpSpec {
  import opened Wrappers

  datatype Message = Message(peer: string, content: string)

  /** `sender_` is null until the stream is ready, and keeps its value when the sender deletes
      itself. */
  datatype Sender = Absent | Alive | Deleted

  /** The last two fields are histories: the messages that were enqueued, and those handed to the
      stream. */
  datatype Client = Client(
    queue: seq<Message>, running: bool, sender: Sender, inFlight: nat,
    enqueued: seq<Message>, written: seq<Message>)

  datatype Event = Enqueue(m: Message) | CreateSender | Completed(ok: bool)

  const INITIAL := Client([], false, Absent, 0, [], [])

  /** The state of a context in which the sender has just been woken with a success. */
  function Wake(c: Client): Client {
    if c.queue == [] then c.(running := false)
    else c.(queue := c.queue[1..], inFlight := c.inFlight + 1, written := c.written + [c.queue[0]])
  }

  /** There is no result where a sender that has deleted itself would be called. */
  function Step(c: Client, e: Event): Option<Client> {
    match e
    case Enqueue(m) =>
      var c1 := c.(queue := c.queue + [m], enqueued := c.enqueued + [m]);
      if c.running || c.sender == Absent then Some(c1)
      else if c.sender == Deleted then None
      else Some(Wake(c1.(running := true)))
    case CreateSender => Some(Wake(c).(sender := Alive))
    case Completed(ok) =>
      if c.inFlight == 0 || c.sender != Alive then None
      else if !ok then Some(c.(inFlight := c.inFlight - 1, sender := Deleted))
      else Some(Wake(c.(inFlight := c.inFlight - 1)))
  }

  /** The stream becomes ready once, and only operations in flight complete. */
  ghost predicate Enabled(c: Client, e: Event) {
    && (e.CreateSender? ==> c.sender == Absent)
    && (e.Completed? ==> c.inFlight > 0)
  }

  ghost predicate Safe(c: Client) {
    c.inFlight <= 1
  }

  /** Every way on from `c` along `events`, as far as they are possible, keeps at most one write in
      flight and never calls a deleted sender. */
  ghost predicate SafeAlong(c: Client, events: seq<Event>)
    decreases |events|
  {
    && Safe(c)
    && (events != [] && Enabled(c, events[0]) ==>
          Step(c, events[0]).Some? && SafeAlong(Step(c, events[0]).value, events[1..]))
  }

  // ---------- the invariant ----------

  /** Nothing is lost, repeated or reordered between the queue and the stream. */
  ghost predicate Conserved(c: Client) {
    c.written + c.queue == c.enqueued
  }

  /** A pump that sleeps has nothing to do; one that runs has one write in flight, unless that write
      has failed, which ends it for good. */
  ghost predicate PumpInv(c: Client) {
    match c.sender
    case Absent => !c.running && c.inFlight == 0
    case Alive => c.inFlight == (if c.running then 1 else 0) && (!c.running ==> c.queue == [])
    case Deleted => c.running && c.inFlight == 0
  }

  lemma StepConserves(c: Client, e: Event)
    requires Conserved(c)
    ensures Step(c, e).Some? ==> Conserved(Step(c, e).value)
  {
    if Step(c, e).Some? {
      var c1 := if e.Enqueue? then c.(queue := c.queue + [e.m], enqueued := c.enqueued + [e.m]) else c;
      assert c1.written + c1.queue == c1.enqueued;
      assert c1.queue != [] ==> c1.written + c1.queue == c1.written + [c1.queue[0]] + c1.queue[1..];
    }
  }

  lemma StepKeeps(c: Client, e: Event)
    requires PumpInv(c) && Enabled(c, e)
    requires e.CreateSender? ==> c.queue == []
    ensures Step(c, e).Some? && PumpInv(Step(c, e).value)
    ensures c.sender == Deleted ==> Step(c, e).value.sender == Deleted && Step(c, e).value.written == c.written
  {
  }

  // ---------- runs ----------

  ghost predicate IsRun(run: seq<Client>, events: seq<Event>) {
    && |run| == |events| + 1
    && run[0] == INITIAL
    && forall i :: 0 <= i < |events| ==> Enabled(run[i], events[i]) && Step(run[i], events[i]) == Some(run[i + 1])
  }

  /** The stream becomes ready while nothing is queued. */
  ghost predicate QuietStart(run: seq<Client>, events: seq<Event>)
    requires |run| == |events| + 1
  {
    forall i :: 0 <= i < |events| && events[i].CreateSender? ==> run[i].queue == []
  }

  /** In every run whatsoever, what was written followed by what is queued is what was enqueued. */
  lemma {:induction false} Conservation(run: seq<Client>, events: seq<Event>)
    requires IsRun(run, events)
    ensures var c := run[|run| - 1]; c.written + c.queue == c.enqueued
    decreases |run|
  {
    if |events| > 0 {
      var n := |events| - 1;
      Conservation(run[..n + 1], events[..n]);
      StepConserves(run[n], events[n]);
    }
  }

  lemma {:induction false} RunKeeps(run: seq<Client>, events: seq<Event>)
    requires IsRun(run, events) && QuietStart(run, events)
    ensures PumpInv(run[|run| - 1])
    decreases |run|
  {
    if |events| > 0 {
      var n := |events| - 1;
      RunKeeps(run[..n + 1], events[..n]);
      StepKeeps(run[n], events[n]);
    }
  }

  /** If nothing was queued when the stream became ready, at most one write is ever in flight, the
      pump sleeps only with an empty queue and nothing in flight, and whatever happens next can be
      followed: a sender that has deleted itself is never called again. */
  lemma PumpSafety(run: seq<Client>, events: seq<Event>, e: Event)
    requires IsRun(run, events) && QuietStart(run, events)
    ensures var c := run[|run| - 1];
            && c.inFlight <= 1
            && (c.sender == Alive && !c.running ==> c.queue == [] && c.inFlight == 0)
            && (Enabled(c, e) && (e.CreateSender? ==> c.queue == []) ==> Step(c, e).Some?)
            && (c.sender == Deleted ==> c.inFlight == 0 && c.running)
  {
    RunKeeps(run, events);
    var c := run[|run| - 1];
    if Enabled(c, e) && (e.CreateSender? ==> c.queue == []) {
      StepKeeps(c, e);
    }
  }

  /** A sender that has deleted itself writes no more: what is enqueued after that stays queued. */
  lemma {:induction false} DeletedForGood(run: seq<Client>, events: seq<Event>, i: nat)
    requires IsRun(run, events) && QuietStart(run, events)
    requires i < |run| && run[i].sender == Deleted
    ensures var c := run[|run| - 1]; c.sender == Deleted && c.written == run[i].written
    decreases |run|
  {
    if i < |events| {
      var n := |events| - 1;
      DeletedForGood(run[..n + 1], events[..n], i);
      RunKeeps(run[..n + 1], events[..n]);
      StepKeeps(run[n], events[n]);
    }
  }

  // ---------- exactly when the pump is safe ----------

  lemma {:induction false} SafeOnwards(c: Client, events: seq<Event>)
    requires PumpInv(c) && c.sender != Absent
    ensures SafeAlong(c, events)
    decreases |events|
  {
    if events != [] && Enabled(c, events[0]) {
      StepKeeps(c, events[0]);
      SafeOnwards(Step(c, events[0]).value, events[1..]);
    }
  }

  /** Whatever happens after the stream becomes ready is safe, if and only if nothing is queued at
      that moment. */
  lemma SafeIffQuiet(c: Client)
    requires PumpInv(c) && c.sender == Absent
    ensures (forall events :: SafeAlong(Step(c, CreateSender).value, events)) <==> c.queue == []
  {
    var ready := Step(c, CreateSender).value;
    if c.queue == [] {
      forall events
        ensures SafeAlong(ready, events)
      {
        SafeOnwards(ready, events);
      }
    } else {
      TwoInFlight(c, Message("", ""));
    }
  }

  /** With a message queued too early, the next one enqueued is written while the first is still in
      flight. */
  lemma TwoInFlight(c: Client, m: Message)
    requires PumpInv(c) && c.sender == Absent && c.queue != []
    ensures var ready := Step(c, CreateSender).value;
            && Step(ready, Enqueue(m)).Some? && Step(ready, Enqueue(m)).value.inFlight == 2
            && !SafeAlong(ready, [Enqueue(m)])
  {
    var ready := Step(c, CreateSender).value;
    var next := Step(ready, Enqueue(m)).value;
    assert !SafeAlong(next, []);
    assert [Enqueue(m)][1..] == [];
  }

  /** With a message queued too early, a failed write lets the next message enqueued call the sender
      that has deleted itself. */
  lemma CallAfterDelete(c: Client, m: Message)
    requires PumpInv(c) && c.sender == Absent && c.queue != []
    ensures var ready := Step(c, CreateSender).value;
            && Enabled(ready, Completed(false)) && Step(ready, Completed(false)).Some?
            && Step(Step(ready, Completed(false)).value, Enqueue(m)) == None
  {
  }

  // ---------- progress ----------

  /** `n` writes succeed one after the other. */
  function Succeed(c: Client, n: nat): Option<Client>
    decreases n
  {
    if n == 0 then Some(c)
    else match Step(c, Completed(true)) case None => None case Some(c1) => Succeed(c1, n - 1)
  }

  /** A running pump needs exactly one success for the write in flight and one for each message
      queued; then everything is written, in the order in which it was enqueued, and it sleeps. */
  lemma {:induction false} PumpDrains(c: Client)
    requires PumpInv(c) && Conserved(c) && c.sender == Alive && c.running
    ensures var r := Succeed(c, |c.queue| + 1);
            r.Some? && r.value.written == c.enqueued && r.value.queue == [] && !r.value.running && r.value.inFlight == 0
    decreases |c.queue|
  {
    StepKeeps(c, Completed(true));
    StepConserves(c, Completed(true));
    var c1 := Step(c, Completed(true)).value;
    if c.queue == [] {
      assert Succeed(c, 1) == Succeed(c1, 0);
    } else {
      PumpDrains(c1);
      assert Succeed(c, |c.queue| + 1) == Succeed(c1, |c1.queue| + 1);
    }
  }
}

/** The same as objects. A `MessageSender` that deletes itself stays behind as a pointer that must
    not be followed: every call of it asks that it is alive. */
module Pump {
  import opened Wrappers
  import opened PumpSpec

  class Context {
    var queue: seq<Message>
    var running: bool
    var sender: MessageSender?
    var inFlight: nat
    ghost var enqueued: seq<Message>
    ghost var written: seq<Message>

    ghost predicate Valid()
      reads this, sender
    {
      sender != null ==> sender.context == this
    }

    ghost function View(): Client
      reads this, sender
    {
      Client(queue, running, if sender == null then Absent else if sender.alive then Alive else Deleted,
             inFlight, enqueued, written)
    }

    constructor ()
      ensures Valid() && View() == INITIAL
    {
      queue, running, sender, inFlight := [], false, null, 0;
      enqueued, written := [], [];
    }

    method Enqueue(m: Message)
      requires Valid() && Step(View(), PumpSpec.Enqueue(m)).Some?
      modifies this
      ensures Valid() && sender == old(sender)
      ensures Some(View()) == Step(old(View()), PumpSpec.Enqueue(m))
    {
      queue := queue + [m];
      enqueued := enqueued + [m];
      if !running && sender != null {
        running := true;
        sender.Proceed(true);
      }
    }

    method Dequeue() returns (r: Option<Message>)
      modifies this
      ensures sender == old(sender) && inFlight == old(inFlight) && enqueued == old(enqueued) && written == old(written)
      ensures if old(queue) == [] then r == None && queue == [] && !running
              else r == Some(old(queue)[0]) && queue == old(queue)[1..] && running == old(running)
    {
      if queue == [] {
        running := false;
        return None;
      }
      r := Some(queue[0]);
      queue := queue[1..];
    }

    /** The stream is ready: the sender is made, and takes its first look at the queue. */
    method CreateSender()
      requires Valid() && sender == null
      modifies this
      ensures Valid() && sender != null && fresh(sender)
      ensures Some(View()) == Step(old(View()), PumpSpec.CreateSender)
    {
      var s := new MessageSender(this);
      s.Proceed(true);
      sender := s;
    }

    /** The completion queue returns the sender's tag. */
    method Completed(ok: bool)
      requires Valid() && Step(View(), PumpSpec.Completed(ok)).Some?
      modifies this, sender
      ensures Valid() && sender == old(sender)
      ensures Some(View()) == Step(old(View()), PumpSpec.Completed(ok))
    {
      inFlight := inFlight - 1;
      sender.Proceed(ok);
    }
  }

  class MessageSender {
    const context: Context
    var alive: bool

    constructor (context: Context)
      ensures this.context == context && alive
    {
      this.context := context;
      alive := true;
    }

    method Proceed(ok: bool)
      requires alive
      modifies context, if ok then {} else {this}
      ensures context.sender == old(context.sender) && alive == ok
      ensures context.enqueued == old(context.enqueued)
      ensures !ok ==>
                && context.queue == old(context.queue) && context.running == old(context.running)
                && context.inFlight == old(context.inFlight) && context.written == old(context.written)
      ensures ok && old(context.queue) == [] ==>
                && context.queue == [] && !context.running
                && context.inFlight == old(context.inFlight) && context.written == old(context.written)
      ensures ok && old(context.queue) != [] ==>
                && context.queue == old(context.queue)[1..] && context.running == old(context.running)
                && context.inFlight == old(context.inFlight) + 1
                && context.written == old(context.written) + [old(context.queue)[0]]
    {
      if !ok {
        alive := false;
        return;
      }
      var m := context.Dequeue();
      if m.None? {
        return;
      }
      context.inFlight := context.inFlight + 1;
      context.written := context.written + [m.value];
    }
  }
}
