/** The tokens that logins return: how `HandleLogin` writes a digest, whom a token leads to, and what
    happens to two names with one token. */
module SwitchTokens {
  import opened Bytes
  import opened Wrappers
  import opened SwitchSpec
  import opened SwitchRun

  // ---------- writing digests ----------

  function HexDigit(d: nat): (c: char)
    requires d < 16
  {
    "0123456789abcdef"[d]
  }

  /** A byte in hexadecimal, without a leading zero. */
  function Hex(b: byte): string {
    if b < 16 then [HexDigit(b)] else [HexDigit(b / 16), HexDigit(b % 16)]
  }

  /** The digest as `HandleLogin` writes it. */
  function Render(digest: seq<byte>): string {
    if digest == [] then "" else Hex(digest[0]) + Render(digest[1..])
  }

  function DigitValue(c: char): int {
    if c <= '9' then c as int - '0' as int else c as int - 'a' as int + 10
  }

  /** What is written for a byte reads as the byte, with a second digit only where it needs one. */
  lemma HexReads(b: byte)
    ensures forall i :: 0 <= i < |Hex(b)| ==> '0' <= Hex(b)[i] <= '9' || 'a' <= Hex(b)[i] <= 'f'
    ensures b < 16 ==> |Hex(b)| == 1 && DigitValue(Hex(b)[0]) == b
    ensures b >= 16 ==> |Hex(b)| == 2 && 16 * DigitValue(Hex(b)[0]) + DigitValue(Hex(b)[1]) == b
  {
    hide HexDigit, DigitValue;
    if b < 16 {
      DigitReads(b);
    } else {
      DigitReads(b / 16);
      DigitReads(b % 16);
    }
  }

  lemma DigitReads(d: nat)
    requires d < 16
    ensures DigitValue(HexDigit(d)) == d
    ensures '0' <= HexDigit(d) <= '9' || 'a' <= HexDigit(d) <= 'f'
  {
  }

  lemma HexDiffers(a: byte, b: byte)
    requires Hex(a) == Hex(b)
    ensures a == b
  {
    DigitDiffers(if a < 16 then a else a / 16, if b < 16 then b else b / 16);
    DigitDiffers(a % 16, b % 16);
    assert Hex(a)[|Hex(a)| - 1] == Hex(b)[|Hex(b)| - 1];
    assert Hex(a)[0] == Hex(b)[0];
  }

  lemma DigitDiffers(a: nat, b: nat)
    requires a < 16 && b < 16
    ensures HexDigit(a) == HexDigit(b) ==> a == b
  {
  }

  /** A digest is written byte after byte. */
  lemma {:induction false} RenderJoins(a: seq<byte>, b: seq<byte>)
    ensures Render(a + b) == Render(a) + Render(b)
    ensures |a| == 1 ==> Render(a) == Hex(a[0])
  {
    if a == [] {
      assert a + b == b;
    } else {
      assert (a + b)[1..] == a[1..] + b;
      RenderJoins(a[1..], b);
    }
  }

  /** Two digests that are written alike and have their small bytes in the same places are equal ... */
  lemma {:induction false} RenderDiffers(a: seq<byte>, b: seq<byte>)
    requires |a| == |b| && Render(a) == Render(b)
    requires forall i :: 0 <= i < |a| ==> (a[i] < 16 <==> b[i] < 16)
    ensures a == b
  {
    if a != [] {
      var n := |Hex(a[0])|;
      assert Render(a)[..n] == Hex(a[0]) && Render(a)[n..] == Render(a[1..]);
      assert Render(b)[..n] == Hex(b[0]) && Render(b)[n..] == Render(b[1..]);
      HexDiffers(a[0], b[0]);
      RenderDiffers(a[1..], b[1..]);
      assert a == [a[0]] + a[1..] && b == [b[0]] + b[1..];
    }
  }

  /** ... but where the small bytes are decides it: different digests can have the same token. */
  lemma RenderCollides(rest: seq<byte>)
    ensures Render([0x01, 0x11] + rest) == Render([0x11, 0x01] + rest)
    ensures [0x01, 0x11] + rest != [0x11, 0x01] + rest
  {
    var a: seq<byte>, b: seq<byte> := [0x01, 0x11] + rest, [0x11, 0x01] + rest;
    assert a[0] != b[0];
    assert a[1..][1..] == rest && b[1..][1..] == rest;
    assert a[1..][0] == 0x11 && b[1..][0] == 0x01;
    assert Hex(0x01) + Hex(0x11) == Hex(0x11) + Hex(0x01);
    assert Render(a) == Hex(0x01) + (Hex(0x11) + Render(rest));
    assert Render(b) == Hex(0x11) + (Hex(0x01) + Render(rest));
  }

  /** The tokens of the program, for any digest of names. */
  function TokensOf(digest: Name -> seq<byte>): TokenOf {
    (name: Name) => Render(digest(name))
  }

  // ---------- whom a token leads to ----------

  /** The token that a login returned. */
  ghost predicate LeadsTo(tokenOf: TokenOf, s: Server, name: Name) {
    tokenOf(name) in s.byId && name in s.byName && s.byId[tokenOf(name)] == s.byName[name]
  }

  ghost predicate TokensDiffer(tokenOf: TokenOf, s: Server) {
    forall a, b :: a in s.byName && b in s.byName && tokenOf(a) == tokenOf(b) ==> a == b
  }

  /** Every registered name's token leads to its own peer, if and only if no two registered names
      share a token. */
  lemma TokensIdentify(tokenOf: TokenOf, run: seq<Server>)
    requires IsRun(tokenOf, run)
    ensures var s := run[|run| - 1];
            (forall name :: name in s.byName ==> LeadsTo(tokenOf, s, name)) <==> TokensDiffer(tokenOf, s)
  {
    hide Init, Next, QueuesInv, CallsInv, TagsInv, WritersInv;
    RunKeeps(tokenOf, run);
    var s := run[|run| - 1];
    if forall name :: name in s.byName ==> LeadsTo(tokenOf, s, name) {
      forall a, b | a in s.byName && b in s.byName && tokenOf(a) == tokenOf(b)
        ensures a == b
      {
        assert LeadsTo(tokenOf, s, a) && LeadsTo(tokenOf, s, b);
      }
    }
  }

  /** The same for the tokens of the program: it is the written digests that have to differ. */
  lemma DigestsIdentify(digest: Name -> seq<byte>, run: seq<Server>)
    requires IsRun(TokensOf(digest), run)
    ensures var s := run[|run| - 1];
            (forall name :: name in s.byName ==> LeadsTo(TokensOf(digest), s, name)) <==>
            (forall a, b :: a in s.byName && b in s.byName && a != b ==> Render(digest(a)) != Render(digest(b)))
  {
    hide LeadsTo, IsRun, Render;
    TokensIdentify(TokensOf(digest), run);
    assert forall a :: TokensOf(digest)(a) == Render(digest(a));
  }

  // ---------- two names with one token ----------

  ghost function LogIn(tag: Tag, name: Name, next: Tag, ref: Ref): Event {
    Event(tag, true, name, "", Message("", ""), next, next + 1, ref)
  }

  ghost predicate OneIn(tokenOf: TokenOf, s: Server, a: Name) {
    && s.calls.Keys == {0, 1, 2, 3} && s.calls[3] == Call(Login, ReceivedRequest, None) && s.writers == map[]
    && s.peers == map[0 := PeerInfo(a, None)] && s.byId == map[tokenOf(a) := 0] && s.byName == map[a := 0]
  }

  /** Both names are registered, and the token of `b` leads to the peer of `a`. */
  ghost predicate Misled(tokenOf: TokenOf, s: Server, a: Name, b: Name) {
    && a in s.byName && b in s.byName && tokenOf(b) in s.byId
    && s.byId[tokenOf(b)] == s.byName[a] && !LeadsTo(tokenOf, s, b)
  }

  lemma FirstLogIn(tokenOf: TokenOf, a: Name)
    ensures Enabled(Started(0, 1, 2), LogIn(0, a, 3, 0))
    ensures var r := Step(tokenOf, Started(0, 1, 2), LogIn(0, a, 3, 0)); r.Some? && OneIn(tokenOf, r.value, a)
  {
    assert 0 in Started(0, 1, 2).pending;
  }

  lemma LoginStep(tokenOf: TokenOf, s: Server, e: Event)
    requires e.ok && e.tag in s.calls && s.calls[e.tag].kind == Login && s.calls[e.tag].status == ReceivedRequest
    requires e.newCall != e.tag
    ensures var r, s1 := Step(tokenOf, s, e), Register(tokenOf, s, e.name, e.newPeer);
            r.Some? && r.value.byId == s1.byId && r.value.byName == s1.byName
  {
    var s0 := s.(pending := s.pending - multiset{e.tag});
    var s1 := Accept(s0, Login, e.newCall);
    assert s1.byId == s.byId && s1.byName == s.byName && e.tag in s1.calls && s1.calls[e.tag] == s.calls[e.tag];
  }

  lemma SecondLogIn(tokenOf: TokenOf, s: Server, a: Name, b: Name)
    requires OneIn(tokenOf, s, a) && TagsInv(s) && a != b && tokenOf(a) == tokenOf(b)
    ensures Enabled(s, LogIn(3, b, 4, 1))
    ensures var r := Step(tokenOf, s, LogIn(3, b, 4, 1));
            r.Some? && Misled(tokenOf, r.value, a, b)
  {
    hide Step;
    assert s.pending[3] == 1;
    LoginStep(tokenOf, s, LogIn(3, b, 4, 1));
  }

  /** Two logins under names with one token, after which the token of the second leads to the first. */
  lemma CollidingLogins(tokenOf: TokenOf, a: Name, b: Name) returns (run: seq<Server>, events: seq<Event>)
    requires a != b && tokenOf(a) == tokenOf(b)
    ensures IsTrace(tokenOf, run, events) && |events| == 2 && Misled(tokenOf, run[2], a, b)
  {
    run, events := [Started(0, 1, 2)], [];
    assert IsTrace(tokenOf, run, events);
    hide Step, Inv, Enabled, TagsInv, OneIn, IsTrace, Misled, Started;
    FirstLogIn(tokenOf, a);
    run, events := Follows(tokenOf, run, events, LogIn(0, a, 3, 0), Step(tokenOf, run[0], LogIn(0, a, 3, 0)).value);
    TraceLength(tokenOf, run, events);
    TagsOf(tokenOf, run[1]);
    SecondLogIn(tokenOf, run[1], a, b);
    run, events := Follows(tokenOf, run, events, LogIn(3, b, 4, 1), Step(tokenOf, run[1], LogIn(3, b, 4, 1)).value);
    TraceLength(tokenOf, run, events);
  }

  /** It happens with the tokens of the program, for any two names whose digests begin with 0x01, 0x11
      and with 0x11, 0x01 and are otherwise equal. */
  lemma CollisionHappens(digest: Name -> seq<byte>, a: Name, b: Name, rest: seq<byte>)
    returns (run: seq<Server>, events: seq<Event>)
    requires digest(a) == [0x01, 0x11] + rest && digest(b) == [0x11, 0x01] + rest
    ensures IsTrace(TokensOf(digest), run, events) && |events| == 2
    ensures Misled(TokensOf(digest), run[2], a, b)
  {
    RenderCollides(rest);
    assert TokensOf(digest)(a) == Render(digest(a)) == Render(digest(b)) == TokensOf(digest)(b);
    hide Render, Misled, IsTrace;
    run, events := CollidingLogins(TokensOf(digest), a, b);
  }
}
