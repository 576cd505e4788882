/** Big-endian integers and length-prefixed fields, the alphabet of both wire formats. */
module ByteCodec {
  type Byte = x: int | 0 <= x < 0x100
  type Bytes = seq<Byte>
  type U32 = x: int | 0 <= x < 0x1_0000_0000
  type U64 = x: int | 0 <= x < 0x1_0000_0000_0000_0000

  datatype Option<+T> = None | Some(value: T)

  function Pow256(k: nat): (p: nat)
    ensures p > 0
  {
    if k == 0 then 1 else 256 * Pow256(k - 1)
  }

  lemma PowTable()
    ensures Pow256(1) == 0x100
    ensures Pow256(2) == 0x1_0000
    ensures Pow256(4) == 0x1_0000_0000
    ensures Pow256(8) == 0x1_0000_0000_0000_0000
  {
    assert Pow256(3) == 0x100_0000;
    assert Pow256(5) == 0x100_0000_0000;
    assert Pow256(6) == 0x1_0000_0000_0000;
    assert Pow256(7) == 0x100_0000_0000_0000;
  }

  /** The low `k` bytes of `n`, most significant first: the source's narrowing casts keep exactly these. */
  function PutBE(n: nat, k: nat): (s: Bytes)
    ensures |s| == k
  {
    if k == 0 then [] else PutBE(n / 256, k - 1) + [n % 256]
  }

  function GetBE(s: Bytes): (n: nat)
    ensures n < Pow256(|s|)
  {
    if s == [] then 0 else GetBE(s[..|s| - 1]) * 256 + s[|s| - 1]
  }

  lemma {:induction false} GetPut(n: nat, k: nat)
    requires n < Pow256(k)
    ensures GetBE(PutBE(n, k)) == n
  {
    if k > 0 {
      GetPut(n / 256, k - 1);
      assert PutBE(n, k)[..k - 1] == PutBE(n / 256, k - 1);
    }
  }

  lemma {:induction false} PutGet(s: Bytes)
    ensures PutBE(GetBE(s), |s|) == s
  {
    if s != [] {
      PutGet(s[..|s| - 1]);
      assert s == s[..|s| - 1] + [s[|s| - 1]];
    }
  }

  /** A field of `k` length bytes followed by that many bytes. */
  function PutSized(s: Bytes, k: nat): (r: Bytes)
    ensures |r| == k + |s|
  {
    PutBE(|s|, k) + s
  }

  /** Reads one such field off the front; the second part is what is left. */
  function TakeSized(s: Bytes, k: nat): (r: Option<(Bytes, Bytes)>)
    ensures r.Some? ==> |r.value.0| + |r.value.1| + k == |s|
  {
    if |s| < k || |s| - k < GetBE(s[..k]) then None
    else
      var n := GetBE(s[..k]);
      Some((s[k..k + n], s[k + n..]))
  }

  lemma TakePut(field: Bytes, k: nat, rest: Bytes)
    requires |field| < Pow256(k)
    ensures TakeSized(PutSized(field, k) + rest, k) == Some((field, rest))
  {
    var s := PutSized(field, k) + rest;
    GetPut(|field|, k);
    assert s[..k] == PutBE(|field|, k);
    assert s[k..k + |field|] == field;
    assert s[k + |field|..] == rest;
  }

  lemma PutTake(s: Bytes, k: nat)
    requires TakeSized(s, k).Some?
    ensures var (field, rest) := TakeSized(s, k).value;
            PutSized(field, k) + rest == s && |field| < Pow256(k)
  {
    hide GetBE, PutBE, Pow256;
    var head := s[..k];
    var n := GetBE(head);
    var field, rest := s[k..k + n], s[k + n..];
    PutGet(head);
    assert PutSized(field, k) == head + field;
    assert head + field == s[..k + n];
  }

  /** Chunks of a byte stream, joined. */
  function Flatten(chunks: seq<Bytes>): Bytes {
    if chunks == [] then [] else chunks[0] + Flatten(chunks[1..])
  }

  /** Most significant byte first. */
  lemma BigEndian()
    ensures PutBE(0x0102_0304, 4) == [1, 2, 3, 4]
  {
    assert PutBE(0x01, 1) == [1] && PutBE(0x0102, 2) == [1, 2] && PutBE(0x01_0203, 3) == [1, 2, 3];
  }

  /** A single byte, padded in front. */
  lemma {:induction false} PutSmall(b: Byte, k: nat)
    requires k > 0
    ensures PutBE(b, k) == seq(k - 1, i => 0) + [b]
  {
    if k > 1 { PutSmall(0, k - 1); }
  }
}
