/** The same two ends when the network carries byte strings: every datagram is encrypted and
    serialised on its way out, and parsed and decrypted on its way in. */
module StreamWire {
  import opened Bytes
  import opened Wrappers
  import opened Cfb
  import opened Datagrams
  import opened StreamSpec
  import opened StreamRun

  /** What both ends share once they have agreed on a key. */
  datatype Channel = Channel(order: ByteOrder, aes: BlockCipher, key: Block)

  datatype RawEnd = RawEnd(s: StreamState, out: set<seq<byte>>, written: seq<byte>, got: seq<byte>, acked: u32)

  datatype RawEvent = RawWrite(data: seq<byte>) | RawTimeout | RawReceive(bytes: seq<byte>)

  datatype RawNet = RawNet(a: RawEnd, b: RawEnd)

  ghost function OpenOn(c: Channel, bytes: seq<byte>): Option<Datagram> {
    Open(c.order, c.aes, c.key, bytes)
  }

  /** The datagrams that a set of byte strings carries. */
  ghost function Carried(c: Channel, raws: set<seq<byte>>): set<Datagram> {
    set b | b in raws && OpenOn(c, b).Some? :: OpenOn(c, b).value
  }

  ghost function Abstract(c: Channel, x: RawEnd): End {
    End(x.s, Carried(c, x.out), x.written, x.got, x.acked)
  }

  ghost function AbstractNet(c: Channel, n: RawNet): Net {
    Net(Abstract(c, n.a), Abstract(c, n.b))
  }

  /** A byte string that does not open is dropped by the exception it causes. */
  ghost function Meaning(c: Channel, e: RawEvent): Option<Event> {
    match e
    case RawWrite(data) => Some(Write(data))
    case RawTimeout => Some(Timeout)
    case RawReceive(bytes) => if OpenOn(c, bytes).Some? then Some(Receive(OpenOn(c, bytes).value)) else None
  }

  ghost predicate RawEnabled(x: RawEnd, inbound: set<seq<byte>>, e: RawEvent) {
    match e
    case RawWrite(data) => Idle(End(x.s, {}, x.written, x.got, x.acked)) && |x.written| + |data| < TWO32
    case RawTimeout => x.s.timerArmed
    case RawReceive(bytes) => bytes in inbound
  }

  /** Each datagram is sealed with a vector of its own. */
  ghost function Sealed(c: Channel, ds: seq<Datagram>, ivs: seq<Block>): set<seq<byte>>
    requires |ivs| == |ds|
  {
    set i | 0 <= i < |ds| :: Seal(c.order, c.aes, c.key, ivs[i], ds[i])
  }

  ghost predicate RawStep(c: Channel, x: RawEnd, inbound: set<seq<byte>>, e: RawEvent, x': RawEnd) {
    && RawEnabled(x, inbound, e)
    && match Meaning(c, e)
       case None => x' == x
       case Some(m) =>
         var f := EffectOf(x.s, m);
         var y := Act(Abstract(c, x), m);
         exists ivs: seq<Block> ::
           && |ivs| == |f.sent|
           && x' == RawEnd(f.state, x.out + Sealed(c, f.sent, ivs), y.written, y.got, y.acked)
  }

  ghost predicate RawInit(n: RawNet) {
    exists i: u32, j: u32 ::
      n == RawNet(RawEnd(Fresh(i), {}, [], [], 0), RawEnd(Fresh(j), {}, [], [], 0))
  }

  ghost predicate RawNext(c: Channel, n: RawNet, n': RawNet) {
    || (n'.b == n.b && exists e :: RawStep(c, n.a, n.b.out, e, n'.a))
    || (n'.a == n.a && exists e :: RawStep(c, n.b, n.a.out, e, n'.b))
  }

  ghost predicate IsRawRun(c: Channel, run: seq<RawNet>) {
    && |run| > 0
    && RawInit(run[0])
    && forall i :: 0 <= i < |run| - 1 ==> RawNext(c, run[i], run[i + 1])
  }

  // ---------- the byte network refines the datagram network ----------

  lemma CarriedSealed(c: Channel, raws: set<seq<byte>>, ds: seq<Datagram>, ivs: seq<Block>)
    requires |ivs| == |ds|
    ensures Carried(c, raws + Sealed(c, ds, ivs)) == Carried(c, raws) + (set d | d in ds)
  {
    forall i | 0 <= i < |ds|
      ensures OpenOn(c, Seal(c.order, c.aes, c.key, ivs[i], ds[i])) == Some(ds[i])
    {
      SealThenOpen(c.order, c.aes, c.key, ivs[i], ds[i]);
    }
    hide Open, Seal;
    forall d | d in ds
      ensures d in Carried(c, Sealed(c, ds, ivs))
    {
      var i :| 0 <= i < |ds| && ds[i] == d;
      assert Seal(c.order, c.aes, c.key, ivs[i], ds[i]) in Sealed(c, ds, ivs);
    }
    CarriedBack(c, ds, ivs);
    assert Carried(c, Sealed(c, ds, ivs)) == set d | d in ds;
    hide Sealed;
    assert Carried(c, raws + Sealed(c, ds, ivs)) == Carried(c, raws) + Carried(c, Sealed(c, ds, ivs));
  }

  lemma CarriedBack(c: Channel, ds: seq<Datagram>, ivs: seq<Block>)
    requires |ivs| == |ds|
    requires forall i :: 0 <= i < |ds| ==> OpenOn(c, Seal(c.order, c.aes, c.key, ivs[i], ds[i])) == Some(ds[i])
    ensures forall d :: d in Carried(c, Sealed(c, ds, ivs)) ==> d in ds
  {
    hide Open, Seal;
  }

  /** A step on bytes is a step on datagrams, or nothing. */
  lemma RawStepRefines(c: Channel, x: RawEnd, inbound: set<seq<byte>>, e: RawEvent, x': RawEnd)
    requires RawStep(c, x, inbound, e, x')
    ensures match Meaning(c, e)
            case None => x' == x
            case Some(m) => Enabled(Abstract(c, x), Carried(c, inbound), m) && Abstract(c, x') == Act(Abstract(c, x), m)
  {
    hide Open, Seal;
    if Meaning(c, e).Some? {
      var f := EffectOf(x.s, Meaning(c, e).value);
      var ivs: seq<Block> :| |ivs| == |f.sent| && x'.out == x.out + Sealed(c, f.sent, ivs);
      CarriedSealed(c, x.out, f.sent, ivs);
    }
  }

  lemma {:induction false} RawRunKeeps(c: Channel, run: seq<RawNet>, i: nat)
    requires IsRawRun(c, run) && i < |run|
    ensures Inv(AbstractNet(c, run[i]))
  {
    hide Inv, Act, Enabled, RawStep;
    if i == 0 {
      var j: u32, k: u32 :| run[0] == RawNet(RawEnd(Fresh(j), {}, [], [], 0), RawEnd(Fresh(k), {}, [], [], 0));
      assert AbstractNet(c, run[0]) == Net(End(Fresh(j), {}, [], [], 0), End(Fresh(k), {}, [], [], 0));
      InitHolds(AbstractNet(c, run[0]));
    } else {
      RawRunKeeps(c, run, i - 1);
      var n, n' := run[i - 1], run[i];
      assert RawNext(c, n, n');
      if e :| RawStep(c, n.a, n.b.out, e, n'.a) && n'.b == n.b {
        RawStepRefines(c, n.a, n.b.out, e, n'.a);
      } else {
        var e :| RawStep(c, n.b, n.a.out, e, n'.b) && n'.a == n.a;
        RawStepRefines(c, n.b, n.a.out, e, n'.b);
      }
      if AbstractNet(c, n') != AbstractNet(c, n) {
        NextKeeps(AbstractNet(c, n), AbstractNet(c, n'));
      }
    }
  }

  /** Main result: over the byte network too, what each user has received is a prefix of what the
      other has written. */
  lemma EndToEndSafety(c: Channel, run: seq<RawNet>, i: nat)
    requires IsRawRun(c, run) && i < |run|
    ensures run[i].b.got <= run[i].a.written && run[i].a.got <= run[i].b.written
  {
    RawRunKeeps(c, run, i);
  }

  // ---------- the receive buffer ----------

  ghost predicate AllOpen(c: Channel, raws: set<seq<byte>>) {
    forall b :: b in raws ==> OpenOn(c, b).Some?
  }

  lemma OpenedSize(c: Channel, b: seq<byte>)
    requires OpenOn(c, b).Some?
    ensures var d := OpenOn(c, b).value;
            |b| == HEADER + |d.payload| + if d.payload == [] then 0 else BLOCK
  {
  }

  lemma StepOpens(c: Channel, x: RawEnd, inbound: set<seq<byte>>, e: RawEvent, x': RawEnd)
    requires RawStep(c, x, inbound, e, x') && AllOpen(c, x.out)
    ensures AllOpen(c, x'.out)
  {
    if Meaning(c, e).Some? {
      var f := EffectOf(x.s, Meaning(c, e).value);
      var ivs: seq<Block> :| |ivs| == |f.sent| && x'.out == x.out + Sealed(c, f.sent, ivs);
      forall i | 0 <= i < |f.sent|
        ensures OpenOn(c, Seal(c.order, c.aes, c.key, ivs[i], f.sent[i])).Some?
      {
        SealThenOpen(c.order, c.aes, c.key, ivs[i], f.sent[i]);
      }
    }
  }

  lemma {:induction false} RunOpens(c: Channel, run: seq<RawNet>, i: nat)
    requires IsRawRun(c, run) && i < |run|
    ensures AllOpen(c, run[i].a.out) && AllOpen(c, run[i].b.out)
  {
    hide RawStep, AllOpen;
    if i == 0 {
      NothingOpens(c);
    } else {
      RunOpens(c, run, i - 1);
      var n, n' := run[i - 1], run[i];
      assert RawNext(c, n, n');
      if e :| RawStep(c, n.a, n.b.out, e, n'.a) && n'.b == n.b {
        StepOpens(c, n.a, n.b.out, e, n'.a);
      } else {
        var e :| RawStep(c, n.b, n.a.out, e, n'.b) && n'.a == n.a;
        StepOpens(c, n.b, n.a.out, e, n'.b);
      }
    }
  }

  lemma NothingOpens(c: Channel)
    ensures AllOpen(c, {})
  {
  }

  /** Every byte string either end ever hands to its socket fits the receive buffer. */
  lemma FitsReceiveBuffer(c: Channel, run: seq<RawNet>, i: nat)
    requires IsRawRun(c, run) && i < |run|
    ensures forall b :: b in run[i].a.out + run[i].b.out ==> |b| <= RECEIVE_BUFFER
  {
    RawRunKeeps(c, run, i);
    RunOpens(c, run, i);
    var n := AbstractNet(c, run[i]);
    var ta, tb :| Half(n.a, n.b, ta) && Half(n.b, n.a, tb);
    PayloadsSmall(n.a, n.b, ta);
    PayloadsSmall(n.b, n.a, tb);
    hide Half, Open;
    forall b | b in run[i].a.out + run[i].b.out
      ensures |b| <= RECEIVE_BUFFER
    {
      OpenedSize(c, b);
      assert OpenOn(c, b).value in n.a.out + n.b.out;
    }
  }
}
