/**
 The reply of a bulk range scan.  The device returns one buffer: (length, key) headers, a zero
 word, then the values, each starting on a block of its own.  The host decodes it into two lists.
 */
module BulkScan {
  import opened Types
  import opened Bytes
  import opened WriteBuffer

  const BUFFER_SIZE: nat := 520192   // 508 KB
  const MAX_ENTRIES: nat := 43691

  // ---------------------------------------------------------------- where things are

  /** Where the value blocks start: the block after the one that holds the zero word. */
  function FirstBlock(n: nat): nat {
    8 * n + (4096 - 8 * n % 4096)
  }

  /** Where block `i` starts. */
  function BlockAt(blocks: seq<Value>, i: nat): nat
    requires i <= |blocks|
  {
    if i == 0 then FirstBlock(|blocks|)
    else BlockAt(blocks, i - 1) + Offset(Pages(|blocks[i - 1]|))
  }

  predicate HeaderAt(buf: seq<byte>, key: Key, size: nat, i: nat) {
    && 8 * i + 8 <= |buf| && size < 0x1_0000_0000
    && buf[8 * i..8 * i + 4] == WordBytes(size) && buf[8 * i + 4..8 * i + 8] == WordBytes(key)
  }

  predicate BlockHolds(buf: seq<byte>, blocks: seq<Value>, i: nat)
    requires i < |blocks|
  {
    var at := BlockAt(blocks, i);
    at + |blocks[i]| <= |buf| && buf[at..at + |blocks[i]|] == blocks[i]
  }

  /** The buffer is a reply with these keys and these value blocks. */
  ghost predicate IsReply(buf: seq<byte>, keys: seq<Key>, blocks: seq<Value>) {
    && |keys| == |blocks|
    && BlockAt(blocks, |blocks|) <= |buf|
    && (forall i :: 0 <= i < |keys| ==> HeaderAt(buf, keys[i], |blocks[i]|, i) && blocks[i] != [])
    && 8 * |keys| + 4 <= |buf| && buf[8 * |keys|..8 * |keys| + 4] == [0, 0, 0, 0]
    && (forall i :: 0 <= i < |blocks| ==> BlockHolds(buf, blocks, i))
  }

  // ---------------------------------------------------------------- decoding

  lemma {:induction false} BlocksNeedRoom(blocks: seq<Value>, i: nat)
    requires i <= |blocks| && forall j :: 0 <= j < |blocks| ==> blocks[j] != []
    ensures BlockAt(blocks, i) >= FirstBlock(|blocks|) + 4096 * i
  {
    if i == 0 {
    } else {
      BlocksNeedRoom(blocks, i - 1);
    }
  }

  /** A reply that fits the buffer has at most 126 entries, so the entry cap is never reached. */
  lemma ReplyIsSmall(buf: seq<byte>, keys: seq<Key>, blocks: seq<Value>)
    requires |buf| == BUFFER_SIZE && IsReply(buf, keys, blocks)
    ensures |keys| <= 126 < MAX_ENTRIES
  {
    BlocksNeedRoom(blocks, |blocks|);
  }

  lemma HeaderDecodes(buf: seq<byte>, key: Key, size: nat, i: nat)
    requires HeaderAt(buf, key, size, i)
    ensures WordOf(buf[8 * i..8 * i + 4]) == size && WordOf(buf[8 * i + 4..8 * i + 8]) == key
  {
    WordRoundTrip(size);
    WordRoundTrip(key);
  }

  /** The headers: lengths and keys, up to the zero word. */
  method DecodeHeaders(data: seq<byte>, ghost ks: seq<Key>, ghost blocks: seq<Value>)
    returns (sizes: seq<nat>, keys: seq<Key>, pos: nat)
    requires |data| == BUFFER_SIZE && IsReply(data, ks, blocks)
    ensures keys == ks && pos == 8 * |ks|
    ensures |sizes| == |blocks| && forall j :: 0 <= j < |sizes| ==> sizes[j] == |blocks[j]|
  {
    ReplyIsSmall(data, ks, blocks);
    sizes, keys, pos := [], [], 0;
    var i := 0;
    while i < MAX_ENTRIES
      invariant i <= |ks| && pos == 8 * i && keys == ks[..i]
      invariant |sizes| == i && forall j :: 0 <= j < i ==> sizes[j] == |blocks[j]|
      decreases |ks| - i
    {
      if WordOf(data[pos..pos + 4]) == 0 {
        break;
      }
      assert i < |ks|;
      assert HeaderAt(data, ks[i], |blocks[i]|, i);
      HeaderDecodes(data, ks[i], |blocks[i]|, i);
      sizes := sizes + [WordOf(data[pos..pos + 4])];
      pos := pos + 4;
      keys := keys + [WordOf(data[pos..pos + 4])];
      pos := pos + 4;
      i := i + 1;
    }
    if i < |ks| {
      assert HeaderAt(data, ks[i], |blocks[i]|, i);
      HeaderDecodes(data, ks[i], |blocks[i]|, i);
    }
  }

  /** The pages of a value as the decoder counts them. */
  lemma DecoderPages(size: nat)
    ensures size / 4096 + (if size % 4096 > 0 then 1 else 0) == Pages(size)
  {
  }

  /** Decoding a reply gives back the keys and the value blocks it was made of. */
  method DecodeReply(data: seq<byte>, ghost ks: seq<Key>, ghost blocks: seq<Value>)
    returns (keys: seq<Key>, values: seq<Value>)
    requires |data| == BUFFER_SIZE && IsReply(data, ks, blocks)
    ensures keys == ks && values == blocks
  {
    var sizes, pos;
    sizes, keys, pos := DecodeHeaders(data, ks, blocks);
    values := [];
    if WordOf(data[pos..pos + 4]) == 0 {
      pos := pos + (4096 - pos % 4096);
      var i := 0;
      while i < |sizes|
        invariant i <= |sizes| && pos == BlockAt(blocks, i) && values == blocks[..i]
      {
        assert BlockHolds(data, blocks, i);
        values := values + [data[pos..pos + sizes[i]]];
        DecoderPages(sizes[i]);
        var nlb := sizes[i] / 4096 + (if sizes[i] % 4096 > 0 then 1 else 0);
        pos := pos + nlb * 4096;
        i := i + 1;
      }
    }
  }

  // ---------------------------------------------------------------- such replies exist

  function Zeros(n: nat): seq<byte> {
    seq(n, _ => 0)
  }

  function Headers(keys: seq<Key>, blocks: seq<Value>): seq<byte>
    requires |keys| == |blocks| && forall i :: 0 <= i < |blocks| ==> |blocks[i]| < 0x1_0000_0000
  {
    if keys == [] then []
    else
      var n := |keys| - 1;
      Headers(keys[..n], blocks[..n]) + WordBytes(|blocks[n]|) + WordBytes(keys[n])
  }

  function Body(blocks: seq<Value>): seq<byte> {
    if blocks == [] then []
    else
      var n := |blocks| - 1;
      Body(blocks[..n]) + Padded(blocks[n])
  }

  function Padded(v: Value): (r: seq<byte>)
    ensures |r| == Offset(Pages(|v|)) && v == r[..|v|]
  {
    v + Zeros(Offset(Pages(|v|)) - |v|)
  }

  lemma HeaderFollows(front: seq<byte>, k: Key, size: nat, rest: seq<byte>, n: nat)
    requires |front| == 8 * n && size < 0x1_0000_0000
    ensures HeaderAt(front + (WordBytes(size) + WordBytes(k) + rest), k, size, n)
  {
    var data := front + (WordBytes(size) + WordBytes(k) + rest);
    assert data[8 * n..8 * n + 4] == WordBytes(size);
    assert data[8 * n + 4..8 * n + 8] == WordBytes(k);
  }

  lemma {:induction false} HeadersHold(keys: seq<Key>, blocks: seq<Value>, rest: seq<byte>, i: nat)
    requires |keys| == |blocks| && forall j :: 0 <= j < |blocks| ==> |blocks[j]| < 0x1_0000_0000
    ensures |Headers(keys, blocks)| == 8 * |keys|
    ensures i < |keys| ==> HeaderAt(Headers(keys, blocks) + rest, keys[i], |blocks[i]|, i)
  {
    if keys == [] {
    } else {
      var n := |keys| - 1;
      var front, last := Headers(keys[..n], blocks[..n]), WordBytes(|blocks[n]|) + WordBytes(keys[n]);
      var data := Headers(keys, blocks) + rest;
      assert data == front + (last + rest);
      HeadersHold(keys[..n], blocks[..n], last + rest, i);
      if i < n {
        assert HeaderAt(data, keys[..n][i], |blocks[..n][i]|, i);
      } else if i == n {
        HeaderFollows(front, keys[n], |blocks[n]|, rest, n);
        assert HeaderAt(data, keys[n], |blocks[n]|, n);
      }
    }
  }

  /** The pages before block `i`, as bytes from the start of the body. */
  function BodyAt(blocks: seq<Value>, i: nat): nat
    requires i <= |blocks|
  {
    if i == 0 then 0 else BodyAt(blocks, i - 1) + Offset(Pages(|blocks[i - 1]|))
  }

  lemma {:induction false} BlockAtSplits(blocks: seq<Value>, i: nat)
    requires i <= |blocks|
    ensures BlockAt(blocks, i) == FirstBlock(|blocks|) + BodyAt(blocks, i)
  {
    if i == 0 {
    } else {
      BlockAtSplits(blocks, i - 1);
    }
  }

  lemma {:induction false} BodyAtPrefix(blocks: seq<Value>, n: nat, i: nat)
    requires i <= n <= |blocks|
    ensures BodyAt(blocks[..n], i) == BodyAt(blocks, i)
  {
    if i == 0 {
    } else {
      BodyAtPrefix(blocks, n, i - 1);
    }
  }

  lemma {:induction false} BodyHolds(blocks: seq<Value>, front: seq<byte>, rest: seq<byte>, i: nat)
    ensures |Body(blocks)| == BodyAt(blocks, |blocks|)
    ensures i < |blocks| ==>
              var at := |front| + BodyAt(blocks, i);
              var buf := front + Body(blocks) + rest;
              at + |blocks[i]| <= |buf| && buf[at..at + |blocks[i]|] == blocks[i]
  {
    if blocks == [] {
    } else {
      var n := |blocks| - 1;
      var body := Body(blocks[..n]);
      BodyHolds(blocks[..n], front, Padded(blocks[n]) + rest, i);
      BodyAtPrefix(blocks, n, n);
      assert front + Body(blocks) + rest == front + body + (Padded(blocks[n]) + rest);
      if i == n {
        LastBlock(front + body, blocks[n], rest);
      } else if i < n {
        BodyAtPrefix(blocks, n, i);
      }
    }
  }

  lemma LastBlock(front: seq<byte>, v: Value, rest: seq<byte>)
    ensures (front + (Padded(v) + rest))[|front|..|front| + |v|] == v
  {
  }

  /** Keys and non-empty value blocks that fit the buffer. */
  predicate Fits(keys: seq<Key>, blocks: seq<Value>) {
    && |keys| == |blocks|
    && (forall i :: 0 <= i < |blocks| ==> blocks[i] != [] && |blocks[i]| < 0x1_0000_0000)
    && BlockAt(blocks, |blocks|) <= BUFFER_SIZE
  }

  function Gap(n: nat): seq<byte> {
    Zeros(4096 - 8 * n % 4096)
  }

  /** Firmware contract: the reply for these keys and blocks. */
  function Encode(keys: seq<Key>, blocks: seq<Value>): seq<byte>
    requires Fits(keys, blocks)
  {
    Headers(keys, blocks) + Gap(|keys|) + Body(blocks)
    + Zeros(BUFFER_SIZE - BlockAt(blocks, |blocks|))
  }

  lemma EncodeParts(keys: seq<Key>, blocks: seq<Value>)
    requires Fits(keys, blocks)
    ensures |Headers(keys, blocks)| == 8 * |keys| && |Encode(keys, blocks)| == BUFFER_SIZE
    ensures |Headers(keys, blocks) + Gap(|keys|)| == FirstBlock(|keys|)
  {
    HeadersHold(keys, blocks, [], 0);
    BodyHolds(blocks, [], [], 0);
    BlockAtSplits(blocks, |blocks|);
  }

  lemma EncodedHeader(keys: seq<Key>, blocks: seq<Value>, i: nat)
    requires Fits(keys, blocks) && i < |keys|
    ensures HeaderAt(Encode(keys, blocks), keys[i], |blocks[i]|, i)
  {
    var tail := Zeros(BUFFER_SIZE - BlockAt(blocks, |blocks|));
    HeadersHold(keys, blocks, Gap(|keys|) + Body(blocks) + tail, i);
    assert Encode(keys, blocks) == Headers(keys, blocks) + (Gap(|keys|) + Body(blocks) + tail);
  }

  lemma EncodedBlock(keys: seq<Key>, blocks: seq<Value>, i: nat)
    requires Fits(keys, blocks) && i < |blocks|
    ensures BlockHolds(Encode(keys, blocks), blocks, i)
  {
    EncodeParts(keys, blocks);
    BodyHolds(blocks, Headers(keys, blocks) + Gap(|keys|),
              Zeros(BUFFER_SIZE - BlockAt(blocks, |blocks|)), i);
    BlockAtSplits(blocks, i);
  }

  lemma EncodedZeroWord(keys: seq<Key>, blocks: seq<Value>)
    requires Fits(keys, blocks)
    ensures var n := 8 * |keys|;
            n + 4 <= |Encode(keys, blocks)| && Encode(keys, blocks)[n..n + 4] == [0, 0, 0, 0]
  {
    EncodeParts(keys, blocks);
    var n, buf, head := 8 * |keys|, Encode(keys, blocks), Headers(keys, blocks);
    assert |Gap(|keys|)| >= 4;
    var word := buf[n..n + 4];
    forall j | 0 <= j < 4 ensures word[j] == 0 {
      assert (head + Gap(|keys|))[n + j] == Gap(|keys|)[j];
    }
  }

  /**
   Every list of keys and non-empty blocks that fits has a reply, also when the headers end
   exactly on a block boundary; with DecodeReply this is the round trip.
   */
  lemma EncodeIsReply(keys: seq<Key>, blocks: seq<Value>)
    requires Fits(keys, blocks)
    ensures |Encode(keys, blocks)| == BUFFER_SIZE && IsReply(Encode(keys, blocks), keys, blocks)
  {
    EncodeParts(keys, blocks);
    EncodedZeroWord(keys, blocks);
    forall i | 0 <= i < |keys|
      ensures HeaderAt(Encode(keys, blocks), keys[i], |blocks[i]|, i)
      ensures BlockHolds(Encode(keys, blocks), blocks, i)
    {
      EncodedHeader(keys, blocks, i);
      EncodedBlock(keys, blocks, i);
    }
  }
}
