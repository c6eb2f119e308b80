// The value types of the EVM that the contracts compute with, and the
// big-endian reading of a 32-byte word.
module Words {

  const BYTE_LIMIT: nat := 0x100
  const ADDRESS_LIMIT: nat := 0x1_00000000_00000000_00000000_00000000_00000000
  const WORD_LIMIT: nat :=
    0x1_0000000000000000_0000000000000000_0000000000000000_0000000000000000
  // The largest value of uint64: the bound that the ABI decoder puts on lengths and offsets.
  const MAX_UINT64: nat := 0xffff_ffff_ffff_ffff
  const MAX_WORD: nat := WORD_LIMIT - 1
  const WORD_BYTES: nat := 32

  type Byte = x: nat | x < BYTE_LIMIT
  type Address = x: nat | x < ADDRESS_LIMIT
  type Word = x: nat | x < WORD_LIMIT
  type Bytes = seq<Byte>

  datatype Option<+T> = None | Some(value: T)

  // What a mapping of a contract holds at a key that was never written is zero.
  function Lookup<K>(m: map<K, Word>, k: K): Word {
    if k in m then m[k] else 0
  }

  function Pow256(n: nat): (p: nat)
    ensures p > 0
  {
    if n == 0 then 1 else 256 * Pow256(n - 1)
  }

  lemma Pow256Step(n: nat)
    ensures Pow256(n + 8) == 0x1_0000000000000000 * Pow256(n)
  {
    assert Pow256(n + 4) == 256 * Pow256(n + 3);
    assert Pow256(n + 6) == 256 * Pow256(n + 5);
    assert Pow256(n + 2) == 256 * Pow256(n + 1);
  }

  lemma Pow256Is32Bytes()
    ensures Pow256(WORD_BYTES) == WORD_LIMIT
  {
    Pow256Step(0);
    Pow256Step(8);
    Pow256Step(16);
    Pow256Step(24);
  }

  // The n low-order bytes of x, most significant first.
  function ToBytes(x: nat, n: nat): (s: Bytes)
    ensures |s| == n
  {
    if n == 0 then [] else ToBytes(x / 256, n - 1) + [x % 256]
  }

  // The number whose n bytes, most significant first, stand at b[i].
  function FromBytes(b: Bytes, i: nat, n: nat): (x: nat)
    requires i + n <= |b|
  {
    if n == 0 then 0 else 256 * FromBytes(b, i, n - 1) + b[i + n - 1]
  }

  lemma {:induction false} FromBytesBound(b: Bytes, i: nat, n: nat)
    requires i + n <= |b|
    ensures FromBytes(b, i, n) < Pow256(n)
  {
    if n > 0 {
      FromBytesBound(b, i, n - 1);
    }
  }

  lemma {:induction false} FromToBytes(x: nat, n: nat, b: Bytes, i: nat)
    requires x < Pow256(n) && i + n <= |b|
    requires forall k :: 0 <= k < n ==> b[i + k] == ToBytes(x, n)[k]
    ensures FromBytes(b, i, n) == x
  {
    if n > 0 {
      assert ToBytes(x, n)[n - 1] == x % 256;
      assert b[i + (n - 1)] == x % 256;
      assert ToBytes(x, n)[..n - 1] == ToBytes(x / 256, n - 1);
      FromToBytes(x / 256, n - 1, b, i);
    }
  }

  lemma {:induction false} ToFromBytes(b: Bytes, i: nat, n: nat)
    requires i + n <= |b|
    ensures ToBytes(FromBytes(b, i, n), n) == b[i..i + n]
  {
    if n > 0 {
      ToFromBytes(b, i, n - 1);
      assert b[i..i + n] == b[i..i + n - 1] + [b[i + n - 1]];
    }
  }

  // The first byte counts most: it stands for as many times the range of all that follow.
  lemma {:induction false} FirstByteCountsMost(b: Bytes, i: nat, n: nat)
    requires 0 < n && i + n <= |b|
    ensures FromBytes(b, i, n) == b[i] * Pow256(n - 1) + FromBytes(b, i + 1, n - 1)
  {
    if n > 1 {
      FirstByteCountsMost(b, i, n - 1);
      assert 256 * (b[i] * Pow256(n - 2)) == b[i] * Pow256(n - 1);
    }
  }

  function EncodeWord(x: Word): (s: Bytes)
    ensures |s| == 32
  {
    ToBytes(x, WORD_BYTES)
  }

  function ReadWord(b: Bytes, i: nat): (x: Word)
    requires i + 32 <= |b|
  {
    Pow256Is32Bytes();
    FromBytesBound(b, i, WORD_BYTES);
    FromBytes(b, i, WORD_BYTES)
  }

  function EncodeWords(ws: seq<Word>): (s: Bytes)
    ensures |s| == 32 * |ws|
  {
    if ws == [] then [] else EncodeWord(ws[0]) + EncodeWords(ws[1..])
  }

  function ReadWords(b: Bytes, i: nat, n: nat): (ws: seq<Word>)
    requires i + 32 * n <= |b|
    ensures |ws| == n
    ensures forall k :: 0 <= k < n ==> ws[k] == ReadWord(b, i + 32 * k)
    decreases n
  {
    if n == 0 then [] else [ReadWord(b, i)] + ReadWords(b, i + 32, n - 1)
  }

  // Word k of a run of words written at byte i is found at byte i + 32 * k.
  lemma {:induction false} ReadEncodedWords(ws: seq<Word>, b: Bytes, i: nat, k: nat)
    requires k < |ws| && i + 32 * |ws| <= |b|
    requires b[i..i + 32 * |ws|] == EncodeWords(ws)
    ensures ReadWord(b, i + 32 * k) == ws[k]
    decreases k
  {
    var first, others := EncodeWord(ws[0]), EncodeWords(ws[1..]);
    assert EncodeWords(ws) == first + others;
    if k == 0 {
      Pow256Is32Bytes();
      assert forall j :: 0 <= j < 32 ==> b[i + j] == b[i..i + 32 * |ws|][j] == first[j];
      FromToBytes(ws[0], WORD_BYTES, b, i);
    } else {
      assert b[i + 32..i + 32 * |ws|] == b[i..i + 32 * |ws|][32..] == others;
      ReadEncodedWords(ws[1..], b, i + 32, k - 1);
    }
  }

  // Reading words and writing them back restores the bytes they were read from.
  lemma {:induction false} EncodeReadWords(b: Bytes, i: nat, n: nat)
    requires i + 32 * n <= |b|
    ensures EncodeWords(ReadWords(b, i, n)) == b[i..i + 32 * n]
    decreases n
  {
    if n > 0 {
      ToFromBytes(b, i, WORD_BYTES);
      EncodeReadWords(b, i + 32, n - 1);
      assert ReadWords(b, i, n)[1..] == ReadWords(b, i + 32, n - 1);
      JoinSlices(b, i, i + 32, i + 32 * n);
    }
  }

  lemma JoinSlices(b: Bytes, i: nat, j: nat, k: nat)
    requires i <= j <= k <= |b|
    ensures b[i..k] == b[i..j] + b[j..k]
  {
  }
}
