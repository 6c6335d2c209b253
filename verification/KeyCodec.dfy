/**
 Benchmark keys on a little-endian machine: an optional prefix, up to eight bytes of the number
 with the most significant first, and '0' characters up to the key size.
 */
module KeyCodec {
  import opened Types
  import opened Bytes
  import opened Arith

  const PAD: byte := 48

  /** The low `b` bytes of `v`, most significant first. */
  function BigEndian(v: nat, b: nat): (r: seq<byte>)
    ensures |r| == b
  {
    if b == 0 then [] else BigEndian(v / 256, b - 1) + [v % 256]
  }

  function NumberOf(bs: seq<byte>): nat {
    if bs == [] then 0 else 256 * NumberOf(bs[..|bs| - 1]) + bs[|bs| - 1]
  }

  /** Bytewise order of keys. */
  predicate Less(x: seq<byte>, y: seq<byte>) {
    y != [] && (x == [] || x[0] < y[0] || (x[0] == y[0] && Less(x[1..], y[1..])))
  }

  // ---------------------------------------------------------------- numbers as bytes

  lemma ModSplit(v: nat, p: nat)
    requires p > 0
    ensures v % (256 * p) == 256 * (v / 256 % p) + v % 256
  {
    var q, m, low := v / 256 / p, v / 256 % p, v % 256;
    DivisionLaw(v / 256, p);
    assert v == 256 * (p * q + m) + low;
    assert 256 * (p * q) == (256 * p) * q;
    Divides(v, 256 * p, q, 256 * m + low);
  }

  lemma {:induction false} NumberRoundTrip(v: nat, b: nat)
    ensures NumberOf(BigEndian(v, b)) == v % Pow256(b)
  {
    if b == 0 {
    } else {
      NumberRoundTrip(v / 256, b - 1);
      var bs := BigEndian(v, b);
      assert bs[..b - 1] == BigEndian(v / 256, b - 1);
      ModSplit(v, Pow256(b - 1));
    }
  }

  /** Two numbers have the same bytes exactly when they agree modulo the width. */
  lemma SameBytes(v: nat, w: nat, b: nat)
    ensures BigEndian(v, b) == BigEndian(w, b) <==> v % Pow256(b) == w % Pow256(b)
  {
    NumberRoundTrip(v, b);
    NumberRoundTrip(w, b);
    if v % Pow256(b) == w % Pow256(b) {
      BytesOfRemainder(v, b);
      BytesOfRemainder(w, b);
    }
  }

  lemma {:induction false} BytesOfRemainder(v: nat, b: nat)
    ensures BigEndian(v % Pow256(b), b) == BigEndian(v, b)
  {
    if b == 0 {
    } else {
      var p := Pow256(b - 1);
      ModSplit(v, p);
      var r := v % Pow256(b);
      Divides(r, 256, v / 256 % p, v % 256);
      BytesOfRemainder(v / 256, b - 1);
    }
  }

  lemma {:induction false} LessConcat(x: seq<byte>, y: seq<byte>, u: seq<byte>, v: seq<byte>)
    requires |x| == |y|
    ensures Less(x + u, y + v) <==> Less(x, y) || (x == y && Less(u, v))
  {
    if x == [] {
      assert x + u == u && y + v == v;
    } else {
      LessConcat(x[1..], y[1..], u, v);
      assert (x + u)[1..] == x[1..] + u && (y + v)[1..] == y[1..] + v;
      assert x == y <==> x[0] == y[0] && x[1..] == y[1..] by {
        assert x == [x[0]] + x[1..] && y == [y[0]] + y[1..];
      }
    }
  }

  /** Bytewise order is numeric order. */
  lemma {:induction false} OrderIsNumeric(v: nat, w: nat, b: nat)
    ensures Less(BigEndian(v, b), BigEndian(w, b)) <==> v % Pow256(b) < w % Pow256(b)
  {
    if b == 0 {
    } else {
      OrderIsNumeric(v / 256, w / 256, b - 1);
      SameBytes(v / 256, w / 256, b - 1);
      LessConcat(BigEndian(v / 256, b - 1), BigEndian(w / 256, b - 1), [v % 256], [w % 256]);
      ModSplit(v, Pow256(b - 1));
      ModSplit(w, Pow256(b - 1));
    }
  }

  lemma {:induction false} ByteAt(v: nat, b: nat, i: nat)
    requires i < b
    ensures BigEndian(v, b)[i] == v / Pow256(b - 1 - i) % 256
  {
    if i == b - 1 {
    } else {
      ByteAt(v / 256, b - 1, i);
      var p := Pow256(b - 2 - i);
      QuotientOfQuotient(v, p);
    }
  }

  lemma QuotientOfQuotient(v: nat, p: nat)
    requires p > 0
    ensures v / 256 / p == v / (256 * p)
  {
    var q, m, low := v / 256 / p, v / 256 % p, v % 256;
    DivisionLaw(v / 256, p);
    assert v == 256 * (p * q + m) + low;
    assert 256 * (p * q) == (256 * p) * q;
    Divides(v, 256 * p, q, 256 * m + low);
  }

  // ---------------------------------------------------------------- keys

  datatype Format = Format(keySize: nat, prefixSize: nat, keysPerPrefix: nat, numKeys: nat) {
    function Prefixes(): nat {
      if keysPerPrefix == 0 then 0 else numKeys / keysPerPrefix
    }

    predicate Valid() {
      keysPerPrefix > 0 ==> keysPerPrefix <= numKeys && prefixSize <= keySize
    }

    function PrefixWidth(): nat {
      if keysPerPrefix == 0 then 0 else prefixSize
    }

    function NumberWidth(): nat
      requires Valid()
    {
      AtMost8(keySize - PrefixWidth())
    }
  }

  function AtMost8(n: nat): nat {
    if n < 8 then n else 8
  }

  function Padding(n: nat): (r: seq<byte>)
    ensures |r| == n
  {
    seq(n, _ => PAD)
  }

  lemma PrefixesPositive(f: Format)
    requires f.Valid() && f.keysPerPrefix > 0
    ensures f.Prefixes() > 0
  {
  }

  function PrefixOf(f: Format, v: nat): nat
    requires f.Valid() && f.keysPerPrefix > 0
  {
    PrefixesPositive(f);
    v % f.Prefixes()
  }

  function PrefixBytes(f: Format, v: nat): (r: seq<byte>)
    requires f.Valid()
    ensures |r| == f.PrefixWidth()
  {
    if f.keysPerPrefix == 0 then [] else
      BigEndian(PrefixOf(f, v), AtMost8(f.prefixSize)) + Padding(f.prefixSize - AtMost8(f.prefixSize))
  }

  function KeyOf(f: Format, v: nat): (r: seq<byte>)
    requires f.Valid()
    ensures |r| == f.keySize
  {
    PrefixBytes(f, v) + BigEndian(v, f.NumberWidth()) + Padding(f.keySize - f.PrefixWidth() - f.NumberWidth())
  }

  /** Byte `i` of a field of `width` bytes: up to eight bytes of `v`, most significant first, then '0'. */
  function FieldByte(v: nat, width: nat, i: nat): nat
    requires i < width
  {
    var b := if width < 8 then width else 8;
    if i < b then v / Pow256(b - 1 - i) % 256 else 48
  }

  /** The byte at every place of a key. */
  lemma KeyByteAt(f: Format, v: nat, i: nat)
    requires f.Valid() && i < f.keySize
    ensures f.keysPerPrefix == 0 ==> KeyOf(f, v)[i] == FieldByte(v, f.keySize, i)
    ensures f.keysPerPrefix > 0 && i < f.prefixSize ==>
              f.numKeys / f.keysPerPrefix > 0
              && KeyOf(f, v)[i] == FieldByte(v % (f.numKeys / f.keysPerPrefix), f.prefixSize, i)
    ensures f.keysPerPrefix > 0 && i >= f.prefixSize ==>
              KeyOf(f, v)[i] == FieldByte(v, f.keySize - f.prefixSize, i - f.prefixSize)
  {
    var w, b := f.PrefixWidth(), f.NumberWidth();
    if i < w {
      PrefixesPositive(f);
      if i < 8 {
        ByteAt(PrefixOf(f, v), AtMost8(f.prefixSize), i);
      }
    } else if i < w + b {
      ByteAt(v, b, i - w);
    }
  }

  /** What of the prefix and of the number survives in the key. */
  function PrefixSeen(f: Format, v: nat): nat
    requires f.Valid()
  {
    if f.keysPerPrefix == 0 then 0 else PrefixOf(f, v) % Pow256(AtMost8(f.prefixSize))
  }

  function NumberSeen(f: Format, v: nat): nat
    requires f.Valid()
  {
    v % Pow256(f.NumberWidth())
  }

  lemma ConcatSame(x: seq<byte>, y: seq<byte>, u: seq<byte>, v: seq<byte>)
    requires |x| == |y|
    ensures x + u == y + v <==> x == y && u == v
  {
    if x + u == y + v {
      assert x == (x + u)[..|x|] && y == (y + v)[..|x|];
      assert u == (x + u)[|x|..] && v == (y + v)[|x|..];
    }
  }

  lemma NotLessThanSelf(x: seq<byte>)
    ensures !Less(x, x)
  {
  }

  lemma PrefixOrder(f: Format, v: nat, w: nat)
    requires f.Valid()
    ensures PrefixBytes(f, v) == PrefixBytes(f, w) <==> PrefixSeen(f, v) == PrefixSeen(f, w)
    ensures Less(PrefixBytes(f, v), PrefixBytes(f, w)) <==> PrefixSeen(f, v) < PrefixSeen(f, w)
  {
    if f.keysPerPrefix > 0 {
      var b, pad := AtMost8(f.prefixSize), Padding(f.prefixSize - AtMost8(f.prefixSize));
      var p, q := PrefixOf(f, v), PrefixOf(f, w);
      SameBytes(p, q, b);
      OrderIsNumeric(p, q, b);
      ConcatSame(BigEndian(p, b), BigEndian(q, b), pad, pad);
      LessConcat(BigEndian(p, b), BigEndian(q, b), pad, pad);
      NotLessThanSelf(pad);
    }
  }

  /** Two numbers get the same key exactly when no byte that is kept tells them apart. */
  lemma KeysEqualExactly(f: Format, v: nat, w: nat)
    requires f.Valid()
    ensures KeyOf(f, v) == KeyOf(f, w)
       <==> PrefixSeen(f, v) == PrefixSeen(f, w) && NumberSeen(f, v) == NumberSeen(f, w)
  {
    var b := f.NumberWidth();
    var pad := Padding(f.keySize - f.PrefixWidth() - b);
    PrefixOrder(f, v, w);
    SameBytes(v, w, b);
    ConcatSame(PrefixBytes(f, v), PrefixBytes(f, w), BigEndian(v, b), BigEndian(w, b));
    ConcatSame(PrefixBytes(f, v) + BigEndian(v, b), PrefixBytes(f, w) + BigEndian(w, b), pad, pad);
  }

  /** Keys are ordered by prefix first and by number second. */
  lemma KeyOrder(f: Format, v: nat, w: nat)
    requires f.Valid()
    ensures Less(KeyOf(f, v), KeyOf(f, w))
       <==> (|| PrefixSeen(f, v) < PrefixSeen(f, w)
             || (PrefixSeen(f, v) == PrefixSeen(f, w) && NumberSeen(f, v) < NumberSeen(f, w)))
  {
    var b := f.NumberWidth();
    var pad := Padding(f.keySize - f.PrefixWidth() - b);
    PrefixOrder(f, v, w);
    OrderIsNumeric(v, w, b);
    LessConcat(PrefixBytes(f, v), PrefixBytes(f, w), BigEndian(v, b), BigEndian(w, b));
    LessConcat(PrefixBytes(f, v) + BigEndian(v, b), PrefixBytes(f, w) + BigEndian(w, b), pad, pad);
    NotLessThanSelf(pad);
  }

  /** Without prefixes and with room for every number, keys are the numbers. */
  lemma PlainKeys(f: Format, v: nat, w: nat)
    requires f.keysPerPrefix == 0 && f.numKeys <= Pow256(AtMost8(f.keySize))
    requires v < f.numKeys && w < f.numKeys
    ensures KeyOf(f, v) == KeyOf(f, w) <==> v == w
    ensures Less(KeyOf(f, v), KeyOf(f, w)) <==> v < w
  {
    KeysEqualExactly(f, v, w);
    KeyOrder(f, v, w);
    Divides(v, Pow256(f.NumberWidth()), 0, v);
    Divides(w, Pow256(f.NumberWidth()), 0, w);
  }

  // ---------------------------------------------------------------- writing a key

  method Fill(a: array<byte>, at: nat, v: nat, b: nat)
    requires at + b <= a.Length
    modifies a
    ensures a[..] == WriteAt(old(a[..]), at, BigEndian(v, b))
  {
    for i := 0 to b
      invariant forall j :: 0 <= j < i ==> a[at + j] == BigEndian(v, b)[j]
      invariant forall j :: 0 <= j < a.Length && !(at <= j < at + i) ==> a[j] == old(a[j])
    {
      ByteAt(v, b, i);
      a[at + i] := v / Pow256(b - 1 - i) % 256;
    }
  }

  method Pad(a: array<byte>, at: nat, n: nat)
    requires at + n <= a.Length
    modifies a
    ensures a[..] == WriteAt(old(a[..]), at, Padding(n))
  {
    for i := 0 to n
      invariant forall j :: at <= j < at + i ==> a[j] == PAD
      invariant forall j :: 0 <= j < a.Length && !(at <= j < at + i) ==> a[j] == old(a[j])
    {
      a[at + i] := PAD;
    }
  }

  method GenerateKeyFromInt(f: Format, v: nat, key: array<byte>)
    requires f.Valid() && key.Length == f.keySize
    modifies key
    ensures key[..] == KeyOf(f, v)
  {
    var pos := 0;
    if f.keysPerPrefix > 0 {
      PrefixesPositive(f);
      var prefix := v % (f.numKeys / f.keysPerPrefix);
      var b := AtMost8(f.prefixSize);
      Fill(key, 0, prefix, b);
      if f.prefixSize > 8 {
        Pad(key, 8, f.prefixSize - 8);
      }
      pos := f.prefixSize;
    }
    assert key[..pos] == PrefixBytes(f, v);
    var b := AtMost8(f.keySize - pos);
    Fill(key, pos, v, b);
    assert key[..pos + b] == PrefixBytes(f, v) + BigEndian(v, b);
    pos := pos + b;
    if f.keySize > pos {
      Pad(key, pos, f.keySize - pos);
    }
    assert key[..] == key[..pos] + key[pos..];
  }

  // ---------------------------------------------------------------- time series

  /** A time series key: the identifier, then from byte 8 on the time. */
  function TimeKey(f: Format, id: nat, time: nat): (r: seq<byte>)
    requires f.Valid() && f.keySize >= 8
    ensures |r| == f.keySize
  {
    WriteAt(KeyOf(f, id), 8, BigEndian(time, AtMost8(f.keySize - 8)))
  }

  method WriteTimeKey(f: Format, id: nat, time: nat, key: array<byte>)
    requires f.Valid() && f.keySize >= 8 && key.Length == f.keySize
    modifies key
    ensures key[..] == TimeKey(f, id, time)
  {
    GenerateKeyFromInt(f, id, key);
    Fill(key, 8, time, AtMost8(f.keySize - 8));
  }

  /** The difference of two 64-bit times. */
  function Age(now: nat, time: nat): nat {
    (now - time) % 0x1_0000_0000_0000_0000
  }

  /** Whether a key is older than `range`, in 64-bit arithmetic. */
  method KeyExpired(key: seq<byte>, now: nat, range: nat) returns (expired: bool)
    requires |key| >= 16
    ensures expired <==> Age(now, NumberOf(key[8..16])) > range
  {
    var time, bs := 0, key[8..16];
    for i := 0 to 8
      invariant time == NumberOf(bs[..i]) * Pow256(8 - i)
    {
      assert bs[..i + 1][..i] == bs[..i];
      var n, x, p := NumberOf(bs[..i]), bs[i] as int, Pow256(7 - i);
      assert n * (256 * p) + x * p == (256 * n + x) * p;
      time := time + x * p;
    }
    assert bs[..8] == bs;
    expired := Age(now, time) > range;
  }

  lemma TimeKeyParts(f: Format, id: nat, time: nat)
    requires f.Valid() && f.keysPerPrefix == 0 && f.keySize >= 16
    requires id < Pow256(8) && time < Pow256(8)
    ensures NumberOf(TimeKey(f, id, time)[..8]) == id && NumberOf(TimeKey(f, id, time)[8..16]) == time
  {
    NumberRoundTrip(id, 8);
    NumberRoundTrip(time, 8);
    Divides(id, Pow256(8), 0, id);
    Divides(time, Pow256(8), 0, time);
    assert KeyOf(f, id)[..8] == BigEndian(id, 8);
  }

  lemma Pow256Of8()
    ensures Pow256(8) == 0x1_0000_0000_0000_0000
  {
  }

  /** The filter drops a key exactly when its writing lies more than `range` back, or ahead of the clock. */
  lemma ExpiryIsExact(f: Format, id: nat, time: nat, now: nat, range: nat)
    requires f.Valid() && f.keysPerPrefix == 0 && f.keySize >= 16
    requires id < Pow256(8) && time < Pow256(8) && now < Pow256(8)
    ensures Age(now, NumberOf(TimeKey(f, id, time)[8..16])) > range
       <==> if time <= now then now - time > range else Pow256(8) - (time - now) > range
  {
    TimeKeyParts(f, id, time);
    Pow256Of8();
  }
}
