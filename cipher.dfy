/** The XOR-chain stream cipher of the smart-plug protocol
    (kasa_control.py:97, 101-117). Plaintext and ciphertext are byte strings;
    `bv8` keeps every byte in 0..255. */
module Cipher {

  /** The running key every encode and decode call starts from. */
  const Seed: bv8 := 0xAB

  /** The running key once the ciphertext `c` has been produced (encode) or
      consumed (decode): the seed, or else the last ciphertext byte. */
  function RunningKey(c: seq<bv8>): bv8 {
    if c == [] then Seed else c[|c| - 1]
  }

  /** The running key in force at position `i` of ciphertext `c`: the seed at
      the start, the previous ciphertext byte afterwards. */
  function KeyAt(c: seq<bv8>, i: nat): bv8
    requires i < |c|
  {
    if i == 0 then Seed else c[i - 1]
  }

  /** Ciphertext `c` is the encryption of plaintext `p`: byte for byte,
      `c[i]` is `p[i]` XOR the key in force at `i`, which is the seed at 0 and
      the previous CIPHERTEXT byte afterwards. Both directions of the cipher
      chain on the ciphertext stream. */
  ghost predicate Chained(p: seq<bv8>, c: seq<bv8>) {
    |p| == |c| &&
    forall i :: 0 <= i < |c| ==> c[i] == p[i] ^ KeyAt(c, i)
  }

  /** What `encode` returns: each plaintext byte XOR the key, the key then
      becoming the ciphertext byte just produced. */
  function Encode(p: seq<bv8>): (c: seq<bv8>)
    ensures |c| == |p|
    decreases |p|
  {
    if p == [] then []
    else
      var done := Encode(p[..|p| - 1]);
      done + [p[|p| - 1] ^ RunningKey(done)]
  }

  /** What `decode` returns: each ciphertext byte XOR the key, the key then
      becoming the ciphertext byte just consumed. */
  function Decode(c: seq<bv8>): (p: seq<bv8>)
    ensures |p| == |c|
    decreases |c|
  {
    if c == [] then []
    else
      var before := c[..|c| - 1];
      Decode(before) + [c[|c| - 1] ^ RunningKey(before)]
  }

  /** Byte `i` of the ciphertext is plaintext byte `i` XOR the key in force. */
  lemma {:induction false} EncodeAt(p: seq<bv8>, i: nat)
    requires i < |p|
    ensures Encode(p)[i] == p[i] ^ KeyAt(Encode(p), i)
    decreases |p|
  {
    var before := p[..|p| - 1];
    if i < |before| {
      EncodeAt(before, i);
      assert KeyAt(Encode(before), i) == KeyAt(Encode(p), i);
    }
  }

  /** Byte `i` of the plaintext is ciphertext byte `i` XOR the key in force. */
  lemma {:induction false} DecodeAt(c: seq<bv8>, i: nat)
    requires i < |c|
    ensures Decode(c)[i] == c[i] ^ KeyAt(c, i)
    decreases |c|
  {
    var before := c[..|c| - 1];
    if i < |before| {
      DecodeAt(before, i);
      assert KeyAt(before, i) == KeyAt(c, i);
    }
  }

  /** XOR with the same key twice is the identity. */
  lemma XorTwice(x: bv8, k: bv8)
    ensures (x ^ k) ^ k == x
  {
  }

  /** Encode satisfies the chaining recurrence:
      `c[0] = p[0] ^ 0xAB` and `c[i] = p[i] ^ c[i-1]`. */
  lemma EncodeChained(p: seq<bv8>)
    ensures Chained(p, Encode(p))
  {
    forall i | 0 <= i < |p|
      ensures Encode(p)[i] == p[i] ^ KeyAt(Encode(p), i)
    {
      EncodeAt(p, i);
    }
  }

  /** Decode chains on the consumed ciphertext, not on the plaintext it
      produces: `p[0] = c[0] ^ 0xAB` and `p[i] = c[i] ^ c[i-1]`. */
  lemma DecodeChained(c: seq<bv8>)
    ensures forall i :: 0 <= i < |c| ==> Decode(c)[i] == c[i] ^ KeyAt(c, i)
    ensures Chained(Decode(c), c)
  {
    forall i | 0 <= i < |c|
      ensures Decode(c)[i] == c[i] ^ KeyAt(c, i)
      ensures c[i] == Decode(c)[i] ^ KeyAt(c, i)
    {
      DecodeAt(c, i);
      XorTwice(c[i], KeyAt(c, i));
    }
  }

  /** The recurrence leaves no choice for the ciphertext of a plaintext. */
  lemma ChainedDeterminesCipher(p: seq<bv8>, c1: seq<bv8>, c2: seq<bv8>)
    requires Chained(p, c1) && Chained(p, c2)
    ensures c1 == c2
  {
    forall i | 0 <= i < |p|
      ensures c1[i] == c2[i]
    {
      AgreeAt(p, c1, c2, i);
    }
  }

  /** Two ciphertexts of `p` agree at every position. */
  lemma {:induction false} AgreeAt(p: seq<bv8>, c1: seq<bv8>, c2: seq<bv8>, i: nat)
    requires Chained(p, c1) && Chained(p, c2) && i < |p|
    ensures c1[i] == c2[i]
    decreases i
  {
    if i > 0 {
      AgreeAt(p, c1, c2, i - 1);
    }
    assert KeyAt(c1, i) == KeyAt(c2, i);
    assert c1[i] == p[i] ^ KeyAt(c1, i);
    assert c2[i] == p[i] ^ KeyAt(c2, i);
  }

  /** The recurrence leaves no choice for the plaintext of a ciphertext. */
  lemma ChainedDeterminesPlain(p1: seq<bv8>, p2: seq<bv8>, c: seq<bv8>)
    requires Chained(p1, c) && Chained(p2, c)
    ensures p1 == p2
  {
    forall i | 0 <= i < |c|
      ensures p1[i] == p2[i]
    {
      var k := KeyAt(c, i);
      assert p1[i] == (p1[i] ^ k) ^ k == c[i] ^ k == (p2[i] ^ k) ^ k == p2[i];
    }
  }

  /** Encode is exactly the function the recurrence describes. */
  lemma EncodeIffChained(p: seq<bv8>, c: seq<bv8>)
    ensures c == Encode(p) <==> Chained(p, c)
  {
    EncodeChained(p);
    if Chained(p, c) {
      ChainedDeterminesCipher(p, c, Encode(p));
    }
  }

  /** Decode is exactly the inverse the recurrence describes. */
  lemma DecodeIffChained(p: seq<bv8>, c: seq<bv8>)
    ensures p == Decode(c) <==> Chained(p, c)
  {
    DecodeChained(c);
    if Chained(p, c) {
      ChainedDeterminesPlain(p, Decode(c), c);
    }
  }

  /** Decoding undoes encoding, for every byte string. */
  lemma DecodeEncode(p: seq<bv8>)
    ensures Decode(Encode(p)) == p
  {
    EncodeChained(p);
    DecodeIffChained(p, Encode(p));
  }

  /** Encoding undoes decoding, for every byte string. */
  lemma EncodeDecode(c: seq<bv8>)
    ensures Encode(Decode(c)) == c
  {
    DecodeChained(c);
    EncodeIffChained(Decode(c), c);
  }

  /** Encoding a longer message does not change the ciphertext of its
      beginning: the key depends on nothing but the bytes before it. */
  lemma EncodePrefix(p: seq<bv8>, n: nat)
    requires n <= |p|
    ensures Encode(p[..n]) == Encode(p)[..n]
  {
    var c := Encode(p);
    EncodeChained(p);
    EncodeChained(p[..n]);
    assert Chained(p[..n], c[..n]);
    ChainedDeterminesCipher(p[..n], Encode(p[..n]), c[..n]);
  }

  /** The empty message encodes and decodes to itself, and the two bytes of
      `{}` encode to 0xD0 0xAD. */
  lemma KnownVectors()
    ensures Encode([]) == [] && Decode([]) == []
    ensures Encode([0x7B, 0x7D]) == [0xD0, 0xAD]
    ensures Decode([0xD0, 0xAD]) == [0x7B, 0x7D]
  {
    assert [0x7B, 0x7D][..1] == [0x7B as bv8];
    assert [0xD0, 0xAD][..1] == [0xD0 as bv8];
  }

  /** `encode`: the loop that appends one ciphertext byte per plaintext byte
      and moves the running key to it. Nothing persists between calls. */
  method EncodeBytes(a: seq<bv8>) returns (b: seq<bv8>)
    ensures b == Encode(a)
    ensures Chained(a, b)
  {
    var code := Seed;
    b := [];
    for n := 0 to |a|
      invariant b == Encode(a[..n])
      invariant code == RunningKey(b)
    {
      assert a[..n + 1][..n] == a[..n];
      b := b + [a[n] ^ code];
      code := b[|b| - 1];
    }
    assert a[..|a|] == a;
    EncodeChained(a);
  }

  /** `decode`: the loop that appends one plaintext byte per ciphertext byte
      and moves the running key to the ciphertext byte it consumed. */
  method DecodeBytes(a: seq<bv8>) returns (b: seq<bv8>)
    ensures b == Decode(a)
    ensures Chained(b, a)
  {
    var code := Seed;
    b := [];
    for n := 0 to |a|
      invariant b == Decode(a[..n])
      invariant code == RunningKey(a[..n])
    {
      assert a[..n + 1][..n] == a[..n];
      b := b + [a[n] ^ code];
      code := a[n];
    }
    assert a[..|a|] == a;
    DecodeChained(a);
  }
}
