/** Little-endian words, copies into buffers, and the C string copy. */
module Bytes {
  import opened Types

  type Word = n: nat | n < 0x1_0000_0000

  function WordBytes(n: Word): seq<byte> {
    [n % 256, n / 256 % 256, n / 65536 % 256, n / 16777216]
  }

  function WordOf(b: seq<byte>): Word
    requires |b| == 4
  {
    var b0: int, b1: int, b2: int, b3: int := b[0], b[1], b[2], b[3];
    b0 + 256 * b1 + 65536 * b2 + 16777216 * b3
  }

  function Pow256(k: nat): (r: nat)
    ensures r > 0
  {
    if k == 0 then 1 else 256 * Pow256(k - 1)
  }

  /** Byte `i` of a word has the weight 256 to the `i`. */
  lemma WordByteAt(n: Word, i: nat)
    requires i < 4
    ensures |WordBytes(n)| == 4 && WordBytes(n)[i] == n / Pow256(i) % 256
  {
    assert Pow256(1) == 256 && Pow256(2) == 65536 && Pow256(3) == 16777216;
  }

  /** Every four bytes are the bytes of the word they stand for. */
  lemma BytesRoundTrip(b: seq<byte>)
    requires |b| == 4
    ensures WordBytes(WordOf(b)) == b
  {
    var n := WordOf(b);
    var b1: nat, b2: nat, b3: nat := b[1], b[2], b[3];
    LowByte(n, b[0], b1 + 256 * (b2 + 256 * b3));
    LowByte(n / 256, b[1], b2 + 256 * b3);
    LowByte(n / 256 / 256, b[2], b3);
    Shifts(n);
  }

  lemma LowByte(n: nat, low: byte, high: nat)
    requires n == low + 256 * high
    ensures n % 256 == low && n / 256 == high
  {
  }

  lemma Shifts(n: nat)
    ensures n / 65536 == n / 256 / 256 && n / 16777216 == n / 256 / 256 / 256
  {
  }

  lemma WordRoundTrip(n: Word)
    ensures |WordBytes(n)| == 4 && WordOf(WordBytes(n)) == n
  {
    assert n / 65536 == n / 256 / 256;
    assert n / 16777216 == n / 65536 / 256;
  }

  /** `buf` after `data` was copied to offset `at`. */
  function WriteAt(buf: seq<byte>, at: nat, data: seq<byte>): (r: seq<byte>)
    requires at + |data| <= |buf|
    ensures |r| == |buf| && r[at..at + |data|] == data
    ensures r[..at] == buf[..at] && r[at + |data|..] == buf[at + |data|..]
  {
    buf[..at] + data + buf[at + |data|..]
  }

  method CopyInto(a: array<byte>, at: nat, data: seq<byte>)
    requires at + |data| <= a.Length
    modifies a
    ensures a[..] == WriteAt(old(a[..]), at, data)
  {
    forall i | 0 <= i < |data| {
      a[at + i] := data[i];
    }
  }

  /** A slice that ends before or starts after the copied range is not affected. */
  lemma WriteElsewhere(buf: seq<byte>, at: nat, data: seq<byte>, lo: nat, hi: nat)
    requires at + |data| <= |buf| && lo <= hi <= |buf|
    requires hi <= at || at + |data| <= lo
    ensures WriteAt(buf, at, data)[lo..hi] == buf[lo..hi]
  {
  }

  /** What strncpy leaves of a value of known length: from the first zero byte on, only zeros. */
  function Stored(v: Value): (r: Value)
    ensures |r| == |v|
  {
    if v == [] then [] else if v[0] == 0 then seq(|v|, _ => 0) else [v[0]] + Stored(v[1..])
  }

  /** A byte survives the copy exactly when it comes before the first zero byte. */
  lemma {:induction false} StoredAt(v: Value, i: nat)
    requires i < |v|
    ensures Stored(v)[i] == if 0 in v[..i + 1] then 0 else v[i]
  {
    if v[0] == 0 {
      assert v[..i + 1][0] == 0;
    } else if i > 0 {
      StoredAt(v[1..], i - 1);
      assert v[..i + 1] == [v[0]] + v[1..][..i];
    }
  }

  /** No byte other than zero follows a zero byte. */
  predicate ZeroPadded(v: Value) {
    forall i, j :: 0 <= i < j < |v| && v[i] == 0 ==> v[j] == 0
  }

  /** Exactly the zero-padded values survive the copy. */
  lemma {:induction false} StoredIsExact(v: Value)
    ensures Stored(v) == v <==> ZeroPadded(v)
  {
    if v == [] {
    } else {
      StoredIsExact(v[1..]);
      if v[0] == 0 {
        assert Stored(v) == v ==> forall j :: 0 <= j < |v| ==> v[j] == Stored(v)[j];
      } else {
        assert Stored(v)[1..] == Stored(v[1..]);
        if ZeroPadded(v) {
          forall i, j | 0 <= i < j < |v[1..]| && v[1..][i] == 0 ensures v[1..][j] == 0 {
            assert v[i + 1] == 0 && v[j + 1] == 0;
          }
        }
        if ZeroPadded(v[1..]) {
          forall i, j | 0 <= i < j < |v| && v[i] == 0 ensures v[j] == 0 {
            assert v[1..][i - 1] == 0 && v[1..][j - 1] == v[j];
          }
        }
      }
    }
  }
}
