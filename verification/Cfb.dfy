/** The payload cipher of `client/sml/aes_128.cpp`: an initialisation vector followed by the
    plaintext in cipher feedback mode (section 6.3 of NIST SP 800-38A, whole-block segments).
    The AES block function itself is a parameter. */
module Cfb {
  import opened Bytes
  import opened Wrappers

  const BLOCK := 16

  type Block = s: seq<byte> | |s| == BLOCK witness seq(BLOCK, _ => 0)

  /** Key and input block to output block. */
  type BlockCipher = (Block, Block) -> Block

  datatype CipherError = InvalidData

  // ---------- cipher feedback ----------

  function CfbEncrypt(aes: BlockCipher, key: Block, prev: Block, data: seq<byte>): (r: seq<byte>)
    ensures |r| == |data|
    decreases |data|
  {
    if |data| < BLOCK then
      XorSeq(data, aes(key, prev))
    else
      var c: Block := XorSeq(data[..BLOCK], aes(key, prev));
      c + CfbEncrypt(aes, key, c, data[BLOCK..])
  }

  function CfbDecrypt(aes: BlockCipher, key: Block, prev: Block, data: seq<byte>): (r: seq<byte>)
    ensures |r| == |data|
    decreases |data|
  {
    if |data| < BLOCK then
      XorSeq(data, aes(key, prev))
    else
      var c: Block := data[..BLOCK];
      XorSeq(c, aes(key, prev)) + CfbDecrypt(aes, key, c, data[BLOCK..])
  }

  lemma {:induction false} CfbRoundTrip(aes: BlockCipher, key: Block, prev: Block, data: seq<byte>)
    ensures CfbDecrypt(aes, key, prev, CfbEncrypt(aes, key, prev, data)) == data
    decreases |data|
  {
    hide XorSeq;
    var cipher := CfbEncrypt(aes, key, prev, data);
    if |data| < BLOCK {
      XorSeqTwice(data, aes(key, prev));
    } else {
      var c: Block := XorSeq(data[..BLOCK], aes(key, prev));
      assert cipher[..BLOCK] == c && cipher[BLOCK..] == CfbEncrypt(aes, key, c, data[BLOCK..]);
      XorSeqTwice(data[..BLOCK], aes(key, prev));
      CfbRoundTrip(aes, key, c, data[BLOCK..]);
      assert data == data[..BLOCK] + data[BLOCK..];
    }
  }

  /** Encryption undoes decryption too. */
  lemma {:induction false} CfbRoundTripBack(aes: BlockCipher, key: Block, prev: Block, data: seq<byte>)
    ensures CfbEncrypt(aes, key, prev, CfbDecrypt(aes, key, prev, data)) == data
    decreases |data|
  {
    hide XorSeq;
    var plain := CfbDecrypt(aes, key, prev, data);
    if |data| < BLOCK {
      XorSeqTwice(data, aes(key, prev));
    } else {
      var c: Block := data[..BLOCK];
      assert plain[..BLOCK] == XorSeq(c, aes(key, prev)) && plain[BLOCK..] == CfbDecrypt(aes, key, c, data[BLOCK..]);
      XorSeqTwice(c, aes(key, prev));
      CfbRoundTripBack(aes, key, c, data[BLOCK..]);
      assert data == data[..BLOCK] + data[BLOCK..];
    }
  }

  /** Behind the vector, each block is masked with the encryption of the sixteen bytes before it. */
  lemma {:induction false} CfbBits(aes: BlockCipher, key: Block, prev: Block, data: seq<byte>, i: nat, j: nat)
    requires i < |data| && j < 8
    ensures var out := prev + CfbEncrypt(aes, key, prev, data);
            var from := i / 16 * 16;
            Bit(out[16 + i], j) <==> Bit(data[i], j) != Bit(aes(key, out[from..from + 16])[i - from], j)
    decreases |data|
  {
    hide XorSeq, Bit;
    var out := prev + CfbEncrypt(aes, key, prev, data);
    if i < BLOCK {
      assert out[..16] == prev;
      XorSeqBits(if |data| < BLOCK then data else data[..BLOCK], aes(key, prev), i, j);
    } else {
      var c: Block := XorSeq(data[..BLOCK], aes(key, prev));
      var rest := c + CfbEncrypt(aes, key, c, data[BLOCK..]);
      var from := i / 16 * 16;
      CfbBits(aes, key, c, data[BLOCK..], i - BLOCK, j);
      assert out == prev + rest;
      assert (i - BLOCK) / 16 * 16 == from - 16;
      assert out[from..from + 16] == rest[from - 16..from];
    }
  }

  // ---------- framing with the initialisation vector ----------

  function Encrypt(aes: BlockCipher, key: Block, iv: Block, data: seq<byte>): (r: seq<byte>)
    ensures |r| == |data| + BLOCK
  {
    iv + CfbEncrypt(aes, key, iv, data)
  }

  function Decrypt(aes: BlockCipher, key: Block, data: seq<byte>): Result<seq<byte>, CipherError> {
    if |data| <= BLOCK then Failure(InvalidData)
    else Success(CfbDecrypt(aes, key, data[..BLOCK], data[BLOCK..]))
  }

  /** Decryption undoes encryption for every vector, except that it refuses what the encryption
      of the empty string looks like. */
  lemma EncryptThenDecrypt(aes: BlockCipher, key: Block, iv: Block, data: seq<byte>)
    ensures Decrypt(aes, key, Encrypt(aes, key, iv, data)) ==
            if data == [] then Failure(InvalidData) else Success(data)
  {
    var sent := Encrypt(aes, key, iv, data);
    assert sent[..BLOCK] == iv && sent[BLOCK..] == CfbEncrypt(aes, key, iv, data);
    CfbRoundTrip(aes, key, iv, data);
  }

  /** What is sent for `data`, bit by bit: the vector, and then every block of the data masked with
      the encryption of the sixteen bytes sent before it. */
  lemma EncryptedBits(aes: BlockCipher, key: Block, iv: Block, data: seq<byte>, i: nat, j: nat)
    requires i < |data| && j < 8
    ensures var out := Encrypt(aes, key, iv, data);
            var from := i / 16 * 16;
            && |out| == 16 + |data| && out[..16] == iv
            && (Bit(out[16 + i], j) <==> Bit(data[i], j) != Bit(aes(key, out[from..from + 16])[i - from], j))
  {
    hide Bit, CfbEncrypt;
    CfbBits(aes, key, iv, data, i, j);
    assert Encrypt(aes, key, iv, data)[..16] == iv;
  }

  /** Whatever decrypts is the encryption of what it decrypts to, under the vector in front of it. */
  lemma DecryptThenEncrypt(aes: BlockCipher, key: Block, data: seq<byte>)
    ensures Decrypt(aes, key, data).Success? <==> |data| > 16
    ensures Decrypt(aes, key, data).Success? ==>
              Encrypt(aes, key, data[..16], Decrypt(aes, key, data).value) == data
  {
    if |data| > BLOCK {
      CfbRoundTripBack(aes, key, data[..BLOCK], data[BLOCK..]);
      assert data == data[..BLOCK] + data[BLOCK..];
    }
  }

  // ---------- the key ----------

  /** Exclusive or of the bytes of `key[..n]` whose index is `j` modulo the key length. */
  function ColumnXor(key: seq<byte>, j: nat, n: nat): byte
    requires n <= |key|
  {
    if n == 0 then 0
    else if (n - 1) % BLOCK == j then Xor(ColumnXor(key, j, n - 1), key[n - 1])
    else ColumnXor(key, j, n - 1)
  }

  function FoldKey(key: seq<byte>): Block {
    seq(BLOCK, j requires 0 <= j < BLOCK => ColumnXor(key, j, |key|))
  }

  lemma {:induction false} XorZero(b: nat, n: nat)
    requires b < Pow2(n)
    ensures XorBits(0, b, n) == b
  {
    if n > 0 {
      XorZero(b / 2, n - 1);
    }
  }

  lemma XorWithZero(b: byte)
    ensures Xor(0, b) == b
  {
    Pow2Of8();
    XorZero(b, 8);
  }

  lemma {:induction false} ColumnXorFirst(key: seq<byte>, j: nat, n: nat)
    requires j < BLOCK && n <= BLOCK && n <= |key|
    ensures ColumnXor(key, j, n) == if j < n then key[j] else 0
  {
    hide Xor;
    if n > 0 {
      ColumnXorFirst(key, j, n - 1);
      XorWithZero(key[n - 1]);
    }
  }

  /** The bytes of `key[..n]` in column `m` that have bit `j` set. */
  ghost function SetIn(key: seq<byte>, m: nat, j: nat, n: nat): set<nat>
    requires n <= |key|
  {
    set i: nat | i < n && i % 16 == m && Bit(key[i], j)
  }

  lemma SetInGrows(key: seq<byte>, m: nat, j: nat, n: nat)
    requires 0 < n <= |key|
    ensures SetIn(key, m, j, n) ==
            SetIn(key, m, j, n - 1) + if (n - 1) % 16 == m && Bit(key[n - 1], j) then {n - 1} else {}
  {
    hide Bit;
  }

  lemma {:induction false} ColumnParity(key: seq<byte>, m: nat, j: nat, n: nat)
    requires n <= |key| && j < 8
    ensures Bit(ColumnXor(key, m, n), j) <==> |SetIn(key, m, j, n)| % 2 == 1
  {
    hide Bit, SetIn, Xor;
    if n == 0 {
      BitsOfZero(j);
      assert SetIn(key, m, j, 0) == {} by { NoneIn(key, m, j); }
    } else {
      var i := n - 1;
      var before := SetIn(key, m, j, i);
      ColumnParity(key, m, j, i);
      SetInGrows(key, m, j, n);
      assert i !in before by { NotYetIn(key, m, j, i); }
      if i % 16 == m {
        XorBit(ColumnXor(key, m, i), key[i], j);
        assert Bit(key[i], j) ==> |before + {i}| == |before| + 1;
      } else {
        assert before + {} == before;
      }
    }
  }

  lemma NoneIn(key: seq<byte>, m: nat, j: nat)
    ensures SetIn(key, m, j, 0) == {}
  {
  }

  lemma NotYetIn(key: seq<byte>, m: nat, j: nat, i: nat)
    requires i <= |key|
    ensures i !in SetIn(key, m, j, i)
  {
  }

  lemma XorBit(a: byte, b: byte, j: nat)
    requires j < 8
    ensures Bit(Xor(a, b), j) <==> Bit(a, j) != Bit(b, j)
  {
    XorBitsAt(a, b, 8, j);
  }

  lemma BitsOfZero(j: nat)
    ensures !Bit(0, j)
  {
  }

  /** Each bit of the folded key is the parity of that bit over every sixteenth byte of the key. */
  lemma FoldedBits(key: seq<byte>, m: nat, j: nat)
    requires m < 16 && j < 8
    ensures Bit(FoldKey(key)[m], j) <==> |set i: nat | i < |key| && i % 16 == m && Bit(key[i], j)| % 2 == 1
  {
    ColumnParity(key, m, j, |key|);
    assert SetIn(key, m, j, |key|) == set i: nat | i < |key| && i % 16 == m && Bit(key[i], j);
  }

  /** Every bit of the key matters: changing bit `j` of byte `i` changes bit `j` of byte `i % 16` of the
      folded key and nothing else. */
  lemma FoldedFlip(key: seq<byte>, i: nat, b: byte, j: nat, m: nat, k: nat)
    requires i < |key| && j < 8 && m < 16 && k < 8
    requires forall l :: 0 <= l < 8 ==> (Bit(b, l) <==> Bit(key[i], l) != (l == j))
    ensures Bit(FoldKey(key[i := b])[m], k) <==> Bit(FoldKey(key)[m], k) != (m == i % 16 && k == j)
  {
    hide Bit, FoldKey, SetIn;
    var key' := key[i := b];
    ColumnParity(key, m, k, |key|);
    ColumnParity(key', m, k, |key'|);
    FlippedIn(key, i, b, j, m, k);
    FoldAt(key, m);
    FoldAt(key', m);
    OneMoreOrLess(SetIn(key, m, k, |key|), i);
    hide ColumnXor;
  }

  lemma OneMoreOrLess(was: set<nat>, i: nat)
    ensures var now := if i in was then was - {i} else was + {i}; |now| % 2 == 1 <==> |was| % 2 == 0
  {
    if i in was {
      assert |was| == |was - {i}| + 1;
    } else {
      assert |was + {i}| == |was| + 1;
    }
  }

  lemma FoldAt(key: seq<byte>, m: nat)
    requires m < 16
    ensures FoldKey(key)[m] == ColumnXor(key, m, |key|)
  {
  }

  lemma FlippedIn(key: seq<byte>, i: nat, b: byte, j: nat, m: nat, k: nat)
    requires i < |key| && k < 8 && forall l :: 0 <= l < 8 ==> (Bit(b, l) <==> Bit(key[i], l) != (l == j))
    ensures var was, now := SetIn(key, m, k, |key|), SetIn(key[i := b], m, k, |key|);
            if i % 16 != m || k != j then now == was
            else now == if i in was then was - {i} else was + {i}
  {
    hide Bit;
    var key' := key[i := b];
    assert forall l: nat :: l < |key| && l != i ==> key'[l] == key[l];
    assert Bit(b, k) <==> Bit(key[i], k) != (k == j);
  }

  /** `aes_128`: the key and the last vector are fixed buffers written in place. */
  class Aes128 {
    const cipher: BlockCipher
    const key: array<byte>
    const iv: array<byte>

    ghost predicate Valid() {
      key.Length == BLOCK && iv.Length == BLOCK && key != iv
    }

    constructor (cipher: BlockCipher)
      ensures Valid() && this.cipher == cipher && fresh(key) && fresh(iv)
    {
      this.cipher := cipher;
      key := new byte[BLOCK](_ => 0);
      iv := new byte[BLOCK](_ => 0);
    }

    /** A key shorter than a block is refused; a longer one is folded into the buffer. */
    method SetKey(k: seq<byte>) returns (r: Outcome<CipherError>)
      requires Valid()
      modifies key
      ensures r == if |k| < BLOCK then Fail(InvalidData) else Pass
      ensures r.Fail? ==> key[..] == old(key[..])
      ensures r.Pass? ==> key[..] == FoldKey(k)
    {
      if |k| < BLOCK {
        return Fail(InvalidData);
      }
      forall j | 0 <= j < BLOCK {
        key[j] := k[j];
      }
      forall j | 0 <= j < BLOCK ensures key[j] == ColumnXor(k, j, BLOCK) {
        ColumnXorFirst(k, j, BLOCK);
      }
      var i := BLOCK;
      while i < |k|
        invariant BLOCK <= i <= |k|
        invariant forall j :: 0 <= j < BLOCK ==> key[j] == ColumnXor(k, j, i)
      {
        key[i % BLOCK] := Xor(key[i % BLOCK], k[i]);
        i := i + 1;
      }
      return Pass;
    }

    /** The vector is drawn at random by the caller of this model. */
    method EncryptData(data: seq<byte>, random: Block) returns (r: seq<byte>)
      requires Valid()
      modifies iv
      ensures iv[..] == random
      ensures r == Encrypt(cipher, key[..], random, data)
    {
      forall j | 0 <= j < BLOCK {
        iv[j] := random[j];
      }
      assert iv[..] == random;
      var body := CfbEncrypt(cipher, key[..], iv[..], data);
      r := iv[..] + body;
    }

    method DecryptData(data: seq<byte>) returns (r: Result<seq<byte>, CipherError>)
      requires Valid()
      modifies iv
      ensures r == Decrypt(cipher, key[..], data)
      ensures iv[..] == if r.Success? then data[..BLOCK] else old(iv[..])
    {
      var plain := |data| - BLOCK;
      if plain <= 0 {
        return Failure(InvalidData);
      }
      forall j | 0 <= j < BLOCK {
        iv[j] := data[j];
      }
      assert iv[..] == data[..BLOCK];
      r := Success(CfbDecrypt(cipher, key[..], iv[..], data[BLOCK..]));
    }
  }
}
