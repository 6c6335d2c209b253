/**
 The layout of the host write buffer of Dev-LSM.  Values are packed page by page into a value log;
 twelve-byte records (key, first page, length) are packed into a record log.  The device receives
 both and applies the records in order.
 */
module WriteBuffer {
  import opened Types
  import opened Bytes

  const RECORD_LIMIT: nat := 128
  const LOG_PAGES: nat := 341

  /** The value log holds 341 pages and the record log one. */
  const VALUE_LOG_SIZE: nat := Offset(LOG_PAGES)
  const RECORD_LOG_SIZE: nat := Offset(LOG_PAGES * 12 / 4096 + 1)

  /** The longest value for which a full buffer is sure to fit. */
  const MAX_VALUE: nat := 8192

  // ---------------------------------------------------------------- pages

  /** Where a page of 4096 bytes starts. */
  function Offset(page: nat): nat {
    4096 * page
  }

  /** The page count as the code computes it, in size_t and unsigned int arithmetic. */
  function PagesTaken(size: nat): nat
    requires size < 0x1_0000_0000
  {
    var nlb := (size + 0x1_0000_0000_0000_0000 - 1) % 0x1_0000_0000_0000_0000 / 4096 % 0x1_0000_0000;
    (nlb + 1) % 0x1_0000_0000
  }

  function Pages(size: nat): nat {
    (size + 4095) / 4096
  }

  /** The subtraction wraps for an empty value, the addition wraps back: it takes no page. */
  lemma PagesTakenIsCeiling(size: nat)
    requires size < 0x1_0000_0000
    ensures PagesTaken(size) == Pages(size)
    ensures size <= Offset(Pages(size)) < size + 4096
  {
  }

  function PagesOf(p: seq<Record>): nat {
    if p == [] then 0 else PagesOf(p[..|p| - 1]) + Pages(|p[|p| - 1].value|)
  }

  lemma PagesAppend(p: seq<Record>, r: Record)
    ensures PagesOf(p + [r]) == PagesOf(p) + Pages(|r.value|)
  {
  }

  /** The pages of one record end before the pages of any later one start. */
  lemma {:induction false} PagesBefore(p: seq<Record>, i: nat, j: nat)
    requires i < j <= |p|
    ensures PagesOf(p[..i]) + Pages(|p[i].value|) <= PagesOf(p[..j])
  {
    assert p[..j][..j - 1] == p[..j - 1];
    if i == j - 1 {
    } else {
      PagesBefore(p, i, j - 1);
    }
  }

  lemma {:induction false} PagesBound(p: seq<Record>, max: nat)
    requires forall i :: 0 <= i < |p| ==> |p[i].value| <= max
    ensures PagesOf(p) <= |p| * Pages(max)
  {
    if p == [] {
    } else {
      var n := |p| - 1;
      PagesBound(p[..n], max);
      PagesMonotone(|p[n].value|, max);
      assert |p| * Pages(max) == n * Pages(max) + Pages(max);
    }
  }

  lemma PagesMonotone(a: nat, b: nat)
    requires a <= b
    ensures Pages(a) <= Pages(b)
  {
  }

  /** A batch of at most 128 values, none longer than `max`. */
  predicate BatchOf(p: seq<Record>, max: nat) {
    |p| <= 128 && forall i :: 0 <= i < |p| ==> |p[i].value| <= max
  }

  /** Every such batch fits the value log exactly when no value is longer than two pages. */
  lemma CapacityIsExact(max: nat)
    ensures (forall p: seq<Record> :: BatchOf(p, max) ==> PagesOf(p) <= 341) <==> max <= 8192
  {
    if max <= MAX_VALUE {
      forall p: seq<Record> | BatchOf(p, max) ensures PagesOf(p) <= LOG_PAGES {
        PagesBound(p, MAX_VALUE);
        assert Pages(MAX_VALUE) == 2;
      }
    } else {
      var p := FullBatch(max, RECORD_LIMIT);
      FullBatchPages(max, RECORD_LIMIT);
      PagesMonotone(MAX_VALUE + 1, max);
      assert Pages(MAX_VALUE + 1) == 3;
      assert BatchOf(p, max);
    }
  }

  function FullBatch(size: nat, n: nat): (p: seq<Record>)
    ensures |p| == n && forall i :: 0 <= i < n ==> |p[i].value| == size
  {
    if n == 0 then [] else FullBatch(size, n - 1) + [Record(0, seq(size, _ => 0))]
  }

  lemma {:induction false} FullBatchPages(size: nat, n: nat)
    ensures PagesOf(FullBatch(size, n)) == n * Pages(size)
  {
    if n == 0 {
    } else {
      FullBatchPages(size, n - 1);
      PagesAppend(FullBatch(size, n - 1), Record(0, seq(size, _ => 0)));
      assert n * Pages(size) == (n - 1) * Pages(size) + Pages(size);
    }
  }

  // ---------------------------------------------------------------- what the buffers hold

  function RecordBytes(key: Key, page: Word, size: Word): seq<byte> {
    WordBytes(key) + WordBytes(page) + WordBytes(size)
  }

  predicate RecordAt(p: seq<Record>, recs: seq<byte>, i: nat)
    requires i < |p|
  {
    var page, size := PagesOf(p[..i]), |p[i].value|;
    && 12 * i + 12 <= |recs|
    && page < 0x1_0000_0000 && size < 0x1_0000_0000
    && recs[12 * i..12 * i + 12] == RecordBytes(p[i].key, page, size)
  }

  predicate ValueAt(p: seq<Record>, log: seq<byte>, i: nat)
    requires i < |p|
  {
    var at := Offset(PagesOf(p[..i]));
    at + |p[i].value| <= |log| && log[at..at + |p[i].value|] == p[i].value
  }

  /** The two buffers hold the pending records. */
  ghost predicate Encodes(p: seq<Record>, log: seq<byte>, recs: seq<byte>) {
    forall i :: 0 <= i < |p| ==> RecordAt(p, recs, i) && ValueAt(p, log, i)
  }

  lemma RecordKept(p: seq<Record>, r: Record, recs: seq<byte>, bytes: seq<byte>, i: nat)
    requires i < |p| && RecordAt(p, recs, i) && |bytes| == 12
    requires 12 * (|p| + 1) <= |recs|
    ensures RecordAt(p + [r], WriteAt(recs, 12 * |p|, bytes), i)
  {
    assert (p + [r])[..i] == p[..i];
    WriteElsewhere(recs, 12 * |p|, bytes, 12 * i, 12 * i + 12);
  }

  lemma ValueKept(p: seq<Record>, r: Record, log: seq<byte>, i: nat)
    requires i < |p| && ValueAt(p, log, i)
    requires Offset(PagesOf(p)) + |r.value| <= |log|
    ensures ValueAt(p + [r], WriteAt(log, Offset(PagesOf(p)), r.value), i)
  {
    var lo, end := Offset(PagesOf(p[..i])), Offset(PagesOf(p));
    SlotBefore(p, i);
    WriteElsewhere(log, end, r.value, lo, lo + |p[i].value|);
    assert (p + [r])[..i] == p[..i] && (p + [r])[i] == p[i];
  }

  lemma SlotBefore(p: seq<Record>, i: nat)
    requires i < |p|
    ensures Offset(PagesOf(p[..i])) + |p[i].value| <= Offset(PagesOf(p))
  {
    PagesBefore(p, i, |p|);
    assert p[..|p|] == p;
    PagesAreEnough(|p[i].value|);
  }

  /** One more value and one more record leave the earlier ones in place. */
  lemma EncodesAppend(p: seq<Record>, r: Record, log: seq<byte>, recs: seq<byte>)
    requires Encodes(p, log, recs)
    requires |r.value| < 0x1_0000_0000 && PagesOf(p) < 0x1_0000_0000
    requires Offset(PagesOf(p)) + |r.value| <= |log|
    requires 12 * (|p| + 1) <= |recs|
    ensures var bytes := RecordBytes(r.key, PagesOf(p), |r.value|);
            |bytes| == 12 &&
            Encodes(p + [r], WriteAt(log, Offset(PagesOf(p)), r.value),
                    WriteAt(recs, 12 * |p|, bytes))
  {
    var q, bytes := p + [r], RecordBytes(r.key, PagesOf(p), |r.value|);
    assert q[..|p|] == p;
    forall i | 0 <= i < |q|
      ensures RecordAt(q, WriteAt(recs, 12 * |p|, bytes), i)
              && ValueAt(q, WriteAt(log, Offset(PagesOf(p)), r.value), i)
    {
      if i < |p| {
        assert RecordAt(p, recs, i) && ValueAt(p, log, i);
        RecordKept(p, r, recs, bytes, i);
        ValueKept(p, r, log, i);
      }
    }
  }

  // ---------------------------------------------------------------- the device side of a flush

  /** The last byte used in the value log (total_data_len). */
  function DataLength(p: seq<Record>): nat
    requires p != []
  {
    Offset(PagesOf(p[..|p| - 1])) + |p[|p| - 1].value|
  }

  /** Firmware contract: the record at `at` names a key and a slice of the value area. */
  function ApplyOne(m: map<Key, Value>, area: seq<byte>, recs: seq<byte>, at: nat): map<Key, Value>
    requires at + 12 <= |recs|
  {
    var key, page, size := WordOf(recs[at..at + 4]), WordOf(recs[at + 4..at + 8]),
                           WordOf(recs[at + 8..at + 12]);
    m[key := AreaSlice(area, Offset(page), Offset(page) + size)]
  }

  function AreaSlice(area: seq<byte>, lo: nat, hi: nat): Value
    requires lo <= hi
  {
    if hi <= |area| then area[lo..hi] else []
  }

  /** Firmware contract: the first `n` records are applied in order. */
  function Applied(dev: map<Key, Value>, area: seq<byte>, recs: seq<byte>, n: nat): map<Key, Value>
    requires 12 * n <= |recs|
  {
    if n == 0 then dev else ApplyOne(Applied(dev, area, recs, n - 1), area, recs, 12 * (n - 1))
  }

  lemma RecordDecodes(recs: seq<byte>, at: nat, key: Key, page: Word, size: Word)
    requires at + 12 <= |recs|
    requires recs[at..at + 12] == RecordBytes(key, page, size)
    ensures WordOf(recs[at..at + 4]) == key
    ensures WordOf(recs[at + 4..at + 8]) == page
    ensures WordOf(recs[at + 8..at + 12]) == size
  {
    WordRoundTrip(key);
    WordRoundTrip(page);
    WordRoundTrip(size);
    ThreeWords(recs, at, WordBytes(key), WordBytes(page), WordBytes(size));
  }

  lemma ThreeWords(b: seq<byte>, at: nat, x: seq<byte>, y: seq<byte>, z: seq<byte>)
    requires |x| == |y| == |z| == 4 && at + 12 <= |b| && b[at..at + 12] == x + y + z
    ensures b[at..at + 4] == x && b[at + 4..at + 8] == y && b[at + 8..at + 12] == z
  {
    forall i | 0 <= i < 4
      ensures b[at..at + 4][i] == x[i] && b[at + 4..at + 8][i] == y[i] && b[at + 8..at + 12][i] == z[i]
    {
      assert b[at..at + 12][i] == x[i];
      assert b[at..at + 12][4 + i] == y[i];
      assert b[at..at + 12][8 + i] == z[i];
    }
  }

  /** What the device applies is exactly the pending records, in order. */
  lemma {:induction false} AppliedIsOverlay(dev: map<Key, Value>, p: seq<Record>, log: seq<byte>,
                                            area: seq<byte>, recs: seq<byte>, n: nat)
    requires n <= |p| && p != [] && Encodes(p, log, recs) && 12 * n <= |recs|
    requires DataLength(p) <= |log| && (DataLength(p) > 0 ==> area == log[..DataLength(p)])
    ensures Applied(dev, area, recs, n) == Overlay(dev, p[..n])
  {
    if n == 0 {
    } else {
      AppliedIsOverlay(dev, p, log, area, recs, n - 1);
      var i := n - 1;
      assert RecordAt(p, recs, i) && ValueAt(p, log, i);
      ApplyOneIsUpdate(Applied(dev, area, recs, i), p, log, area, recs, i);
      assert p[..n] == p[..i] + [p[i]];
      OverlayAppend(dev, p[..i], p[i]);
    }
  }

  lemma ApplyOneIsUpdate(m: map<Key, Value>, p: seq<Record>, log: seq<byte>,
                         area: seq<byte>, recs: seq<byte>, i: nat)
    requires i < |p| && RecordAt(p, recs, i) && ValueAt(p, log, i)
    requires DataLength(p) <= |log| && (DataLength(p) > 0 ==> area == log[..DataLength(p)])
    ensures ApplyOne(m, area, recs, 12 * i) == m[p[i].key := p[i].value]
  {
    var page, size := PagesOf(p[..i]), |p[i].value|;
    ApplyOneReads(m, area, recs, 12 * i, p[i].key, page, size);
    SliceInArea(p, log, area, i);
  }

  lemma ApplyOneReads(m: map<Key, Value>, area: seq<byte>, recs: seq<byte>, at: nat, key: Key, page: Word, size: Word)
    requires at + 12 <= |recs| && recs[at..at + 12] == RecordBytes(key, page, size)
    ensures ApplyOne(m, area, recs, at) == m[key := AreaSlice(area, Offset(page), Offset(page) + size)]
  {
    RecordDecodes(recs, at, key, page, size);
  }

  lemma SliceInArea(p: seq<Record>, log: seq<byte>, area: seq<byte>, i: nat)
    requires i < |p| && ValueAt(p, log, i)
    requires DataLength(p) <= |log| && (DataLength(p) > 0 ==> area == log[..DataLength(p)])
    ensures var lo := Offset(PagesOf(p[..i]));
            var hi := lo + |p[i].value|;
            AreaSlice(area, lo, hi) == p[i].value
  {
    var lo := Offset(PagesOf(p[..i]));
    var hi := lo + |p[i].value|;
    if i < |p| - 1 {
      PagesBefore(p, i, |p| - 1);
      PagesAreEnough(|p[i].value|);
      assert hi <= Offset(PagesOf(p[..|p| - 1]));
    }
    assert hi <= DataLength(p);
    if hi > 0 {
      assert area[lo..hi] == log[lo..hi];
    }
  }

  lemma PagesAreEnough(size: nat)
    ensures size <= Offset(Pages(size))
  {
  }
}
