/** The unified Diffie-Hellman agreement of `client/sml/dh_key_agreement.cpp`: one exponentiation
    with the static keys, one with the ephemeral keys, both results side by side. */
module KeyAgreement {
  import opened Bytes
  import opened Wrappers
  import opened Cfb

  // The 1024-bit group with 160-bit prime order subgroup, section 2.1 of RFC 5114.
  const REF_P := 0xB10B8F96A080E01DDE92DE5EAE5D54EC52C99FBCFB06A3C69A6A9DCA52D23B616073E28675A23D189838EF1E2EE652C013ECB4AEA906112324975C3CD49B83BFACCBDD7D90C4BD7098488E9C219A73724EFFD6FAE5644738FAA31A4FF55BCCC0A151AF5F0DC8B4BD45BF37DF365C1A65E68CFDA76D4DA708DF1FB2BC2E4A4371
  const REF_G := 0xA4D1CBD5C3FD34126765A442EFB99905F8104DD258AC507FD6406CFF14266D31266FEA1E5C41564B777E690F5504F213160217B4B01B886A5E91547F9E2749F4D7FBD7D3B9A92EE1909D0D2263F80A76A6A24C087A091F531DBF0A0169B6A28AD662A4D18E73AFA32D779D5918D08BC8858F4DCEF97C2A24855E6EEB22B3B2E5
  const REF_Q := 0xF518AA8781A8DF278ABA4E7D64B7CB9D49462353

  /** Bytes of an encoded public key, and of each half of the agreed value. */
  const KEY_BYTES := 128

  // ---------- modular exponentiation ----------

  function Pow(b: nat, e: nat): nat {
    if e == 0 then 1 else b * Pow(b, e - 1)
  }

  function ModPow(b: nat, e: nat, p: nat): (r: nat)
    requires p > 0
    ensures r < p
  {
    Pow(b, e) % p
  }

  lemma {:induction false} PowAdd(b: nat, m: nat, n: nat)
    ensures Pow(b, m + n) == Pow(b, m) * Pow(b, n)
  {
    if m == 0 {
    } else {
      PowAdd(b, m - 1, n);
      assert Pow(b, m + n) == b * Pow(b, m - 1 + n);
      assert b * (Pow(b, m - 1) * Pow(b, n)) == b * Pow(b, m - 1) * Pow(b, n);
    }
  }

  lemma {:induction false} PowPow(b: nat, m: nat, n: nat)
    ensures Pow(Pow(b, m), n) == Pow(b, m * n)
  {
    if n == 0 {
      assert m * n == 0;
    } else {
      PowPow(b, m, n - 1);
      assert m * n == m + m * (n - 1);
      PowAdd(b, m, m * (n - 1));
    }
  }

  lemma AddOnce(y: nat, p: nat)
    requires p > 0
    ensures (y + p) % p == y % p
  {
    var q, r := y / p, y % p;
    assert y + p == r + (q + 1) * p;
    RemainderUnique(y + p, q + 1, r, p);
  }

  lemma RemainderUnique(x: nat, q: nat, r: nat, p: nat)
    requires p > 0 && r < p && x == r + q * p
    ensures x % p == r
  {
    var q', r' := x / p, x % p;
    assert (q - q') * p == r' - r;
    MultipleAtLeast(q - q', p);
  }

  lemma {:induction false} AddMultiple(x: nat, k: nat, p: nat)
    requires p > 0
    ensures (x + k * p) % p == x % p
  {
    if k == 0 {
      assert x + k * p == x;
    } else {
      AddMultiple(x, k - 1, p);
      AddOnce(x + (k - 1) * p, p);
      assert x + k * p == x + (k - 1) * p + p;
    }
  }

  lemma MulMod(a: nat, b: nat, p: nat)
    requires p > 0
    ensures (a % p * b) % p == (a * b) % p
  {
    var q, r := a / p, a % p;
    assert a == r + q * p;
    assert a * b == r * b + q * b * p by {
      assert (r + q * p) * b == r * b + q * p * b;
      assert q * p * b == q * b * p;
    }
    AddMultiple(r * b, q * b, p);
  }

  lemma {:induction false} PowMod(b: nat, e: nat, p: nat)
    requires p > 0
    ensures Pow(b % p, e) % p == Pow(b, e) % p
  {
    if e > 0 {
      var x, y := Pow(b % p, e - 1), Pow(b, e - 1);
      PowMod(b, e - 1, p);
      calc {
        b % p * x % p;
        { MulMod(b, x, p); }
        b * x % p;
        { assert b * x == x * b; MulMod(x, b, p); }
        x % p * b % p;
        y % p * b % p;
        { MulMod(y, b, p); }
        y * b % p;
        { assert y * b == b * y; }
        b * y % p;
      }
    }
  }

  lemma Commutes(x: nat, y: nat)
    ensures x * y == y * x
  {
  }

  /** What a power is: one, and one factor more for each step of the exponent. */
  lemma ModPowGrows(b: nat, e: nat, p: nat)
    requires p > 0
    ensures ModPow(b, 0, p) == 1 % p
    ensures ModPow(b, e + 1, p) == b * ModPow(b, e, p) % p
  {
    var y := Pow(b, e);
    assert Pow(b, e + 1) == b * y && Pow(b, 0) == 1;
    MulMod(y, b, p);
    Commutes(y, b);
    Commutes(y % p, b);
    hide Pow;
  }

  /** What makes the agreement work: the two ends raise to the exponents in either order. */
  lemma ModPowCommutes(g: nat, a: nat, b: nat, p: nat)
    requires p > 0
    ensures ModPow(ModPow(g, a, p), b, p) == ModPow(ModPow(g, b, p), a, p)
  {
    PowMod(Pow(g, a), b, p);
    PowMod(Pow(g, b), a, p);
    PowPow(g, a, b);
    PowPow(g, b, a);
    assert a * b == b * a;
  }

  // ---------- encoding of keys ----------

  function EncodeNat(n: nat, len: nat): (r: seq<byte>)
    ensures |r| == len
  {
    if len == 0 then [] else EncodeNat(n / 0x100, len - 1) + [n % 0x100]
  }

  function DecodeNat(s: seq<byte>): nat {
    if s == [] then 0 else DecodeNat(s[..|s| - 1]) * 0x100 + s[|s| - 1]
  }

  lemma {:induction false} DecodeEncode(n: nat, len: nat)
    requires n < Pow(0x100, len)
    ensures DecodeNat(EncodeNat(n, len)) == n
  {
    if len > 0 {
      var s := EncodeNat(n, len);
      assert s[..|s| - 1] == EncodeNat(n / 0x100, len - 1);
      DecodeEncode(n / 0x100, len - 1);
    }
  }

  /** Most significant byte first. */
  lemma {:induction false} EncodedBytes(n: nat, len: nat, i: nat)
    requires i < len
    ensures EncodeNat(n, len)[i] == n / Pow2(8 * (len - 1 - i)) % 0x100
  {
    if i == len - 1 {
      assert Pow2(0) == 1 && n / 1 == n;
    } else {
      var k := len - 2 - i;
      EncodedBytes(n / 0x100, len - 1, i);
      DropByte(n, Pow2(8 * k));
      Pow2OfNextByte(8 * k);
    }
  }

  lemma Pow2OfNextByte(n: nat)
    ensures Pow2(n + 8) == 0x100 * Pow2(n)
  {
    assert Pow2(n + 2) == 4 * Pow2(n);
    assert Pow2(n + 4) == 4 * Pow2(n + 2);
    assert Pow2(n + 6) == 4 * Pow2(n + 4);
    assert Pow2(n + 8) == 4 * Pow2(n + 6);
  }

  lemma DropByte(x: nat, b: nat)
    requires b > 0
    ensures x / (0x100 * b) == x / 0x100 / b
  {
    var q, r := x / 0x100 / b, x / 0x100 % b;
    assert x / 0x100 == b * q + r;
    assert x == 0x100 * b * q + (0x100 * r + x % 0x100);
    QuotientUnique(x, 0x100 * b, q, 0x100 * r + x % 0x100);
  }

  // ---------- agreement ----------

  /** The group, and the test the library makes of a public key before it uses one. */
  datatype Group = Group(p: nat, g: nat, valid: nat -> bool)

  ghost predicate GoodGroup(grp: Group) {
    0 < grp.p <= Pow(0x100, KEY_BYTES)
  }

  function PublicKeyOf(grp: Group, priv: nat): seq<byte>
    requires grp.p > 0
  {
    EncodeNat(ModPow(grp.g, priv, grp.p), KEY_BYTES)
  }

  /** One half of the agreed value. */
  function Shared(grp: Group, priv: nat, otherPub: seq<byte>): (r: seq<byte>)
    requires grp.p > 0
    ensures |r| == KEY_BYTES
  {
    EncodeNat(ModPow(DecodeNat(otherPub), priv, grp.p), KEY_BYTES)
  }

  function AgreedValue(grp: Group, spriv: nat, epriv: nat, peerSpub: seq<byte>, peerEpub: seq<byte>): (r: seq<byte>)
    requires grp.p > 0
    ensures |r| == 2 * KEY_BYTES
  {
    Shared(grp, spriv, peerSpub) + Shared(grp, epriv, peerEpub)
  }

  /** `Agree` refuses a public key of the other end that fails the library's test. */
  function Agree(grp: Group, spriv: nat, epriv: nat, peerSpub: seq<byte>, peerEpub: seq<byte>): Option<seq<byte>>
    requires grp.p > 0
  {
    if grp.valid(DecodeNat(peerSpub)) && grp.valid(DecodeNat(peerEpub))
    then Some(AgreedValue(grp, spriv, epriv, peerSpub, peerEpub))
    else None
  }

  lemma SharedAgrees(grp: Group, x: nat, y: nat)
    requires GoodGroup(grp)
    ensures Shared(grp, x, PublicKeyOf(grp, y)) == Shared(grp, y, PublicKeyOf(grp, x))
  {
    DecodeEncode(ModPow(grp.g, x, grp.p), KEY_BYTES);
    DecodeEncode(ModPow(grp.g, y, grp.p), KEY_BYTES);
    ModPowCommutes(grp.g, x, y, grp.p);
  }

  lemma HalfDecodes(grp: Group, priv: nat, otherPub: seq<byte>)
    requires GoodGroup(grp)
    ensures DecodeNat(Shared(grp, priv, otherPub)) == ModPow(DecodeNat(otherPub), priv, grp.p)
    ensures DecodeNat(PublicKeyOf(grp, priv)) == ModPow(grp.g, priv, grp.p)
  {
    hide DecodeNat, EncodeNat, ModPow;
    DecodeEncode(ModPow(DecodeNat(otherPub), priv, grp.p), KEY_BYTES);
    DecodeEncode(ModPow(grp.g, priv, grp.p), KEY_BYTES);
  }

  /** A public key is the generator multiplied up, once for each step of the private key. */
  lemma PublicKeyGrows(grp: Group, x: nat)
    requires GoodGroup(grp)
    ensures DecodeNat(PublicKeyOf(grp, 0)) == 1 % grp.p
    ensures DecodeNat(PublicKeyOf(grp, x + 1)) == grp.g * DecodeNat(PublicKeyOf(grp, x)) % grp.p
  {
    hide DecodeNat, ModPow, PublicKeyOf;
    HalfDecodes(grp, 0, []);
    HalfDecodes(grp, x, []);
    HalfDecodes(grp, x + 1, []);
    ModPowGrows(grp.g, x, grp.p);
  }

  /** The first half of the agreed value is the other end's static public key multiplied up by the own
      static private key; the second half is the same of the ephemeral keys. */
  lemma AgreedValueGrows(grp: Group, s: nat, e: nat, spub: seq<byte>, epub: seq<byte>)
    requires GoodGroup(grp)
    ensures DecodeNat(AgreedValue(grp, 0, e, spub, epub)[..128]) == 1 % grp.p
    ensures DecodeNat(AgreedValue(grp, s + 1, e, spub, epub)[..128])
         == DecodeNat(spub) * DecodeNat(AgreedValue(grp, s, e, spub, epub)[..128]) % grp.p
    ensures DecodeNat(AgreedValue(grp, s, 0, spub, epub)[128..]) == 1 % grp.p
    ensures DecodeNat(AgreedValue(grp, s, e + 1, spub, epub)[128..])
         == DecodeNat(epub) * DecodeNat(AgreedValue(grp, s, e, spub, epub)[128..]) % grp.p
  {
    Halves(grp, 0, e, spub, epub);
    Halves(grp, s, e, spub, epub);
    Halves(grp, s + 1, e, spub, epub);
    Halves(grp, s, 0, spub, epub);
    Halves(grp, s, e + 1, spub, epub);
    ModPowGrows(DecodeNat(spub), s, grp.p);
    ModPowGrows(DecodeNat(epub), e, grp.p);
    hide AgreedValue, DecodeNat, ModPow;
  }

  lemma Halves(grp: Group, s: nat, e: nat, spub: seq<byte>, epub: seq<byte>)
    requires GoodGroup(grp)
    ensures DecodeNat(AgreedValue(grp, s, e, spub, epub)[..128]) == ModPow(DecodeNat(spub), s, grp.p)
    ensures DecodeNat(AgreedValue(grp, s, e, spub, epub)[128..]) == ModPow(DecodeNat(epub), e, grp.p)
  {
    hide DecodeNat, ModPow, Shared;
    HalfDecodes(grp, s, spub);
    HalfDecodes(grp, e, epub);
    var v := AgreedValue(grp, s, e, spub, epub);
    assert v[..128] == Shared(grp, s, spub) && v[128..] == Shared(grp, e, epub);
  }

  /** Two ends that know each other's public keys agree on the same value. */
  lemma AgreedValuesEqual(grp: Group, sa: nat, ea: nat, sb: nat, eb: nat)
    requires GoodGroup(grp)
    ensures AgreedValue(grp, sa, ea, PublicKeyOf(grp, sb), PublicKeyOf(grp, eb))
         == AgreedValue(grp, sb, eb, PublicKeyOf(grp, sa), PublicKeyOf(grp, ea))
  {
    SharedAgrees(grp, sa, sb);
    SharedAgrees(grp, ea, eb);
  }

  lemma PowSquare(b: nat, n: nat, r: nat)
    requires Pow(b, n) == r
    ensures Pow(b, 2 * n) == r * r
  {
    PowAdd(b, n, n);
  }

  /** The group of the program is one of these. */
  lemma Rfc5114IsGood(valid: nat -> bool)
    ensures GoodGroup(Group(REF_P, REF_G, valid))
  {
    assert Pow(0x100, 1) == 0x100;
    PowSquare(0x100, 1, 0x100);
    PowSquare(0x100, 2, 0x1_0000);
    PowSquare(0x100, 4, 0x1_0000_0000);
    PowSquare(0x100, 8, 0x1_0000_0000_0000_0000);
    PowSquare(0x100, 16, 0x1_0000_0000_0000_0000_0000_0000_0000_0000);
    PowSquare(0x100, 32, 0x1_0000_0000_0000_0000_0000_0000_0000_0000_0000_0000_0000_0000_0000_0000_0000_0000);
    PowSquare(0x100, 64, 0x1_0000_0000_0000_0000_0000_0000_0000_0000_0000_0000_0000_0000_0000_0000_0000_0000_0000_0000_0000_0000_0000_0000_0000_0000_0000_0000_0000_0000_0000_0000_0000_0000);
  }

  // ---------- the key fields ----------

  datatype Ephemeral = Ephemeral(priv: nat, pub: seq<byte>)

  datatype KeyError = MissingKey | Disagreement

  /** `dh_key_agreement`: the keys of one session, replaced field by field. */
  class DhKeyAgreement {
    const group: Group
    var spriv: nat
    var ephemeral: Option<Ephemeral>
    var peerKeys: Option<(seq<byte>, seq<byte>)>
    var shared: Option<seq<byte>>

    constructor (group: Group, spriv: nat)
      ensures this.group == group && this.spriv == spriv
      ensures ephemeral == None && peerKeys == None && shared == None
    {
      this.group, this.spriv := group, spriv;
      ephemeral, peerKeys, shared := None, None, None;
    }

    method SetStaticKeyPairs(spriv: nat)
      modifies this`spriv
      ensures this.spriv == spriv
    {
      this.spriv := spriv;
    }

    /** The private key is drawn at random by the caller of this model. */
    method GenerateEphemeralKeyPairs(random: nat)
      requires group.p > 0
      modifies this`ephemeral
      ensures ephemeral == Some(Ephemeral(random, PublicKeyOf(group, random)))
    {
      var pub := EncodeNat(ModPow(group.g, random, group.p), KEY_BYTES);
      ephemeral := Some(Ephemeral(random, pub));
    }

    method SetPeerPubKeyPairs(spub: seq<byte>, epub: seq<byte>)
      modifies this`peerKeys
      ensures peerKeys == Some((spub, epub))
    {
      peerKeys := Some((spub, epub));
    }

    method GenerateSharedKey() returns (r: Outcome<KeyError>)
      requires group.p > 0
      modifies this`shared
      ensures r == Fail(MissingKey) <==> ephemeral.None? || peerKeys.None?
      ensures r != Fail(MissingKey) ==>
                var v := Agree(group, spriv, ephemeral.value.priv, peerKeys.value.0, peerKeys.value.1);
                (r.Pass? <==> v.Some?) && (r.Pass? ==> shared == v)
    {
      if ephemeral.None? || peerKeys.None? {
        return Fail(MissingKey);
      }
      var other := peerKeys.value;
      if !group.valid(DecodeNat(other.0)) || !group.valid(DecodeNat(other.1)) {
        return Fail(Disagreement);
      }
      var first := Shared(group, spriv, other.0);
      var second := Shared(group, ephemeral.value.priv, other.1);
      shared := Some(first + second);
      return Pass;
    }
  }
}
