/**
 The host side of Dev-LSM: a write buffer that is flushed in batches, and a range scan whose
 replies refill two queues.  `dev`, `staging` and `replies` stand for the device.
 */
module DevLsm {
  import opened Types
  import opened Bytes
  import opened WriteBuffer
  import opened BulkScan

  // ---------------------------------------------------------------- the commands of a value flush

  /** One V_FLUSH command: `size` bytes of the value log from `start`; `first` opens a new area. */
  datatype Chunk = Chunk(start: nat, size: nat, first: bool)

  /** The bytes a command transfers: whole pages. */
  function Transfer(c: Chunk): nat {
    Offset(Pages(c.size))
  }

  /** The commands cover `total` bytes of the value log without gap or overlap. */
  predicate Tiles(chunks: seq<Chunk>, total: nat) {
    && (forall i :: 0 <= i < |chunks| ==>
          && chunks[i].size > 0 && (chunks[i].first <==> i == 0)
          && chunks[i].start + Transfer(chunks[i]) <= VALUE_LOG_SIZE)
    && (forall i :: 0 <= i < |chunks| ==>
          chunks[i].start == if i == 0 then 0 else chunks[i - 1].start + chunks[i - 1].size)
    && total == if chunks == [] then 0 else chunks[|chunks| - 1].start + chunks[|chunks| - 1].size
  }

  /** Each command takes at most 128 pages, and all before the last take as many. */
  predicate FullCommands(chunks: seq<Chunk>) {
    && (forall i :: 0 <= i < |chunks| ==> chunks[i].size <= 524288)
    && (forall i :: 0 <= i < |chunks| - 1 ==> chunks[i].size == 524288)
  }

  // ---------------------------------------------------------------- scans

  const ITERATORS: nat := 10
  const SENTINEL: Word := 0xFFFF_FFFF

  /** One scan reply: the buffer, and the key to resume at (the sentinel when nothing is left). */
  datatype Reply = Reply(data: seq<byte>, next: Word)

  /** What a reply was made of. */
  datatype Batch = Batch(keys: seq<Key>, blocks: seq<Value>)

  /** The records a batch stands for: keys are taken from the front and values from the back. */
  function Items(b: Batch): (r: seq<Record>)
    requires |b.keys| == |b.blocks|
    ensures |r| == |b.keys|
  {
    seq(|b.keys|, i requires 0 <= i < |b.keys| => Record(b.keys[i], b.blocks[|b.keys| - 1 - i]))
  }

  predicate Matched(batches: seq<Batch>) {
    forall i :: 0 <= i < |batches| ==> |batches[i].keys| == |batches[i].blocks|
  }

  function AllItems(batches: seq<Batch>): seq<Record>
    requires Matched(batches)
  {
    if batches == [] then [] else Items(batches[0]) + AllItems(batches[1..])
  }

  /** Firmware contract: these are the replies for these batches, and only the last ends the scan. */
  ghost predicate Stream(replies: seq<Reply>, batches: seq<Batch>) {
    && |replies| == |batches| && Matched(batches)
    && (forall i :: 0 <= i < |replies| ==>
          && |replies[i].data| == 520192
          && IsReply(replies[i].data, batches[i].keys, batches[i].blocks))
    && (forall i :: 0 <= i < |replies| ==>
          (replies[i].next == 0xFFFF_FFFF <==> i == |replies| - 1))
  }

  predicate NonEmpty(batches: seq<Batch>) {
    forall i :: 0 <= i < |batches| ==> batches[i].keys != []
  }

  /** A seek on queues `ks` and `vs` leaves `ks'` and `vs'` and takes a record, if there is one. */
  predicate Sought(ks: seq<Key>, vs: seq<Value>, ks': seq<Key>, vs': seq<Value>,
                   flag: int, key: Key, value: Value, key0: Key, value0: Value)
    requires |ks| == |vs|
  {
    if vs == [] then flag == -2 && ks' == ks && vs' == vs && key == key0 && value == value0
    else flag == 1 && ks == [key] + ks' && vs == vs' + [value]
  }

  /** Two lists of queues differ at most at `iter`. */
  predicate OthersSame<T(==)>(a: seq<seq<T>>, b: seq<seq<T>>, iter: nat) {
    |a| == |b| && forall i :: 0 <= i < |a| && i != iter ==> a[i] == b[i]
  }

  /** Values sent in reverse header order come out with their own keys. */
  lemma MirroredBlocksPair(keys: seq<Key>, vals: seq<Value>, i: nat)
    requires |keys| == |vals| && i < |keys|
    ensures var mirrored := seq(|vals|, j requires 0 <= j < |vals| => vals[|vals| - 1 - j]);
            Items(Batch(keys, mirrored))[i] == Record(keys[i], vals[i])
  {
  }

  method CountPages(size: nat) returns (taken: nat)
    requires size < 0x1_0000_0000
    ensures taken == Pages(size)
  {
    PagesTakenIsCeiling(size);
    taken := PagesTaken(size);
  }

  // ---------------------------------------------------------------- the class

  class DevHost {
    // host write buffer
    var initRequired: bool
    var valueLog: array<byte>
    var valuePages: nat
    var recordLog: array<byte>
    var recordCount: nat
    var bufferingCount: nat

    // device
    var dev: map<Key, Value>
    var staging: seq<byte>
    var replies: seq<Reply>       // the answers to the scan commands still to come

    // scan queues, one pair per iterator
    var keys: seq<seq<Key>>
    var values: seq<seq<Value>>
    var breakKey: seq<Word>

    ghost var batches: seq<Batch>
    ghost var pending: seq<Record>

    /** The buffer holds the pending records. */
    ghost predicate Buffered()
      reads this`initRequired, this`valueLog, this`valuePages, this`recordLog, this`recordCount,
            this`bufferingCount, this`pending, valueLog, recordLog
    {
      && recordCount == |pending| && bufferingCount == |pending|
      && valuePages == PagesOf(pending) <= LOG_PAGES && |pending| <= RECORD_LIMIT
      && valueLog != recordLog
      && (initRequired <==> pending == [])
      && (!initRequired ==>
            && valueLog.Length == VALUE_LOG_SIZE && recordLog.Length == RECORD_LOG_SIZE
            && Encodes(pending, valueLog[..], recordLog[..]))
    }

    ghost predicate Valid()
      reads this`initRequired, this`valueLog, this`valuePages, this`recordLog, this`recordCount,
            this`bufferingCount, this`pending, valueLog, recordLog
    {
      Buffered() && |pending| < RECORD_LIMIT
    }

    /** What Dev-LSM holds once everything buffered has been flushed. */
    ghost function Contents(): map<Key, Value>
      reads this`dev, this`pending
    {
      Overlay(dev, pending)
    }

    constructor ()
      ensures Valid() && fresh(valueLog) && fresh(recordLog)
      ensures dev == map[] && pending == []
      ensures |keys| == |values| == |breakKey| == 10
      ensures forall i :: 0 <= i < 10 ==> keys[i] == [] && values[i] == []
    {
      initRequired := true;
      valueLog, recordLog := new byte[0], new byte[0];
      valuePages, recordCount, bufferingCount := 0, 0, 0;
      dev, staging, pending := map[], [], [];
      replies, batches := [], [];
      keys, values := seq(ITERATORS, _ => []), seq(ITERATORS, _ => []);
      breakKey := seq(ITERATORS, _ => 0);
    }

    /** Both logs are allocated anew for every batch. */
    method Prepare()
      requires Valid()
      modifies this`initRequired, this`valueLog, this`valuePages, this`recordLog,
               this`recordCount, this`bufferingCount
      ensures !initRequired && Ready()
      ensures valueLog.Length == 1396736 && recordLog.Length == 4096
      ensures fresh({valueLog, recordLog} - {old(valueLog), old(recordLog)})
    {
      if initRequired {
        valueLog := new byte[VALUE_LOG_SIZE];
        recordLog := new byte[RECORD_LOG_SIZE];
        valuePages, recordCount, bufferingCount := 0, 0, 0;
        initRequired := false;
      }
    }

    /** The logs are allocated and hold the pending records. */
    ghost predicate Ready()
      reads this`initRequired, this`valueLog, this`valuePages, this`recordLog, this`recordCount,
            this`bufferingCount, this`pending, valueLog, recordLog
    {
      && recordCount == |pending| && bufferingCount == |pending|
      && valuePages == PagesOf(pending) <= LOG_PAGES && |pending| < RECORD_LIMIT
      && valueLog != recordLog
      && valueLog.Length == VALUE_LOG_SIZE && recordLog.Length == RECORD_LOG_SIZE
      && Encodes(pending, valueLog[..], recordLog[..])
    }

    /** The value log has room for one more value of this size; the code does not check it. */
    predicate HasRoom(size: nat)
      reads this`valuePages
    {
      valuePages + Pages(size) <= LOG_PAGES
    }

    method Append(key: Key, value: Value)
      requires Ready() && !initRequired && HasRoom(|value|)
      modifies this`valuePages, this`recordCount, this`bufferingCount, this`pending,
               valueLog, recordLog
      ensures Buffered() && pending == old(pending) + [Record(key, Stored(value))]
    {
      ghost var r := Record(key, Stored(value));
      RoomInBytes(pending, r);
      EncodesAppend(pending, r, valueLog[..], recordLog[..]);
      var taken := CountPages(|value|);
      CopyInto(valueLog, Offset(valuePages), Stored(value));
      CopyInto(recordLog, 12 * recordCount, RecordBytes(key, valuePages, |value|));
      assert Encodes(pending + [r], valueLog[..], recordLog[..]);
      recordCount := recordCount + 1;
      valuePages := valuePages + taken;
      bufferingCount := bufferingCount + 1;
      pending := pending + [r];
    }

    method Buffering(key: Key, value: Value)
      requires Valid() && HasRoom(|value|)
      modifies this`initRequired, this`valueLog, this`valuePages, this`recordLog,
               this`recordCount, this`bufferingCount, this`pending, valueLog, recordLog
      ensures Buffered() && pending == old(pending) + [Record(key, Stored(value))]
      ensures fresh({valueLog, recordLog} - {old(valueLog), old(recordLog)})
    {
      Prepare();
      Append(key, value);
    }

    /** The device has received the value log up to the last byte used. */
    ghost predicate Staged()
      requires pending != []
      reads this, valueLog
    {
      && DataLength(pending) <= valueLog.Length
      && (DataLength(pending) > 0 ==> staging == valueLog[..DataLength(pending)])
    }

    /** Sends the value log in commands of at most 128 pages. */
    method ValueFlush() returns (chunks: seq<Chunk>)
      requires Buffered() && pending != []
      modifies this`staging
      ensures Tiles(chunks, DataLength(pending)) && Staged()
      ensures FullCommands(chunks) && |chunks| == (PagesOf(pending) + 127) / 128
    {
      var at := 12 * (recordCount - 1);
      assert RecordAt(pending, recordLog[..], recordCount - 1);
      RecordDecodes(recordLog[..], at, pending[recordCount - 1].key,
                    PagesOf(pending[..recordCount - 1]), |pending[recordCount - 1].value|);
      assert recordLog[..][at + 4..at + 8] == recordLog[at + 4..at + 8];
      assert recordLog[..][at + 8..at + 12] == recordLog[at + 8..at + 12];
      var total := Offset(WordOf(recordLog[at + 4..at + 8])) + WordOf(recordLog[at + 8..at + 12]);
      assert total == DataLength(pending);
      LogLength(pending);
      chunks := SendValues(total);
    }

    method SendValues(total: nat) returns (chunks: seq<Chunk>)
      requires valueLog.Length == VALUE_LOG_SIZE && valuePages <= LOG_PAGES
      requires total <= Offset(valuePages) && (valuePages > 0 ==> Offset(valuePages) < total + 4096)
      modifies this`staging
      ensures Tiles(chunks, total) && (total > 0 ==> staging == valueLog[..total])
      ensures FullCommands(chunks) && |chunks| == (valuePages + 127) / 128
    {
      chunks := [];
      var i := 0;
      while valuePages > i * RECORD_LIMIT
        invariant |chunks| == i && FullCommands(chunks) && (i > 0 ==> 128 * (i - 1) < valuePages)
        invariant i > 0 && 128 * i < valuePages ==> chunks[i - 1].size == 524288
        invariant Tiles(chunks, Sent(total, i)) && (i > 0 && total > 0 ==> staging == valueLog[..Sent(total, i)])
        decreases valuePages - 128 * i
      {
        var start := Offset(i * RECORD_LIMIT);
        var size := if valuePages <= (i + 1) * RECORD_LIMIT then total - start
                    else Offset(RECORD_LIMIT);
        var c := Chunk(start, size, i == 0);
        CommandFits(valuePages, total, c, i);
        TilesAppend(chunks, c);
        FullAppend(chunks, c);
        assert valueLog[..start] + valueLog[start..start + size] == valueLog[..start + size];
        staging := (if c.first then [] else staging) + valueLog[start..start + size];
        assert staging == valueLog[..start + size];
        chunks := chunks + [c];
        i := i + 1;
      }
    }

    /** Sends the record log; the device applies it. */
    method KeyValueFlush()
      requires Buffered() && pending != [] && Staged()
      modifies this`dev
      ensures dev == old(Contents())
    {
      AppliedIsOverlay(dev, pending, valueLog[..], staging, recordLog[..], recordCount);
      assert pending[..recordCount] == pending;
      dev := Applied(dev, staging, recordLog[..], recordCount);
    }

    method Flush()
      requires Buffered() && pending != []
      modifies this`initRequired, this`valuePages, this`recordCount, this`bufferingCount,
               this`pending, this`dev, this`staging
      ensures Valid() && pending == [] && dev == old(Contents())
    {
      var chunks := ValueFlush();
      KeyValueFlush();
      initRequired := true;
      recordCount, valuePages, bufferingCount := 0, 0, 0;
      pending := [];
    }

    /** Put refines a direct put of what strncpy keeps of the value. */
    method Put(key: Key, value: Value)
      requires Valid() && HasRoom(|value|)
      modifies this`initRequired, this`valueLog, this`valuePages, this`recordLog,
               this`recordCount, this`bufferingCount, this`pending, this`dev, this`staging,
               valueLog, recordLog
      ensures Valid() && Contents() == old(Contents())[key := Stored(value)]
      ensures if |old(pending)| + 1 < 128
              then dev == old(dev) && pending == old(pending) + [Record(key, Stored(value))]
              else pending == []
      ensures fresh({valueLog, recordLog} - {old(valueLog), old(recordLog)})
    {
      OverlayAppend(dev, pending, Record(key, Stored(value)));
      Buffering(key, value);
      if recordCount == RECORD_LIMIT {
        Flush();
      }
    }

    /** Flushes what is buffered, so that the scan sees every Put. */
    method CreateIter()
      requires Valid()
      modifies this`initRequired, this`valuePages, this`recordCount, this`bufferingCount,
               this`pending, this`dev, this`staging
      ensures Valid() && pending == [] && dev == old(Contents())
    {
      if bufferingCount != 0 {
        Flush();
      }
    }

    /** Asks the device only. */
    method Get(key: Key) returns (value: Option<Value>)
      ensures value == Lookup(dev, key)
      ensures !Mentions(pending, key) ==> value == Lookup(Contents(), key)
    {
      value := Lookup(dev, key);
      if !Mentions(pending, key) {
        OverlayUntouched(dev, pending, key);
      }
    }

    /** Erases the device and the queues of iterator 0; the write buffer is not touched. */
    method Reset()
      requires |keys| == |values| == ITERATORS
      modifies this`keys, this`values, this`dev
      ensures dev == map[] && keys == old(keys)[0 := []] && values == old(values)[0 := []]
    {
      keys, values := keys[0 := []], values[0 := []];
      dev := map[];
    }

    // -------------------------------------------------------------- scans

    ghost predicate ScanValid(iter: nat)
      reads this`keys, this`values, this`replies, this`batches, this`breakKey
    {
      && iter < ITERATORS && |keys| == |values| == |breakKey| == ITERATORS
      && |keys[iter]| == |values[iter]|
      && Stream(replies, batches)
    }

    /** The records the scan of `iter` has still to return. */
    ghost function Left(iter: nat): seq<Record>
      requires ScanValid(iter)
      reads this`keys, this`values, this`replies, this`batches, this`breakKey
    {
      Items(Batch(keys[iter], values[iter])) + AllItems(batches)
    }

    /**
     One scan command: the reply is decoded and appended to both queues.  What is still to come stays
     the same when the queues were empty; otherwise keys and values no longer pair up.
     */
    method RangeScan(iter: nat) returns (next: Word)
      requires ScanValid(iter) && replies != []
      modifies this`keys, this`values, this`replies, this`batches
      ensures ScanValid(iter) && (old(keys)[iter] == [] ==> Left(iter) == old(Left(iter)))
      ensures replies == old(replies)[1..] && batches == old(batches)[1..]
      ensures next == old(replies)[0].next
      ensures keys == old(keys)[iter := old(keys)[iter] + old(batches)[0].keys]
      ensures values == old(values)[iter := old(values)[iter] + old(batches)[0].blocks]
    {
      var ks, vs := DecodeReply(replies[0].data, batches[0].keys, batches[0].blocks);
      if keys[iter] == [] {
        assert keys[iter] + ks == ks && values[iter] + vs == vs;
      }
      keys := keys[iter := keys[iter] + ks];
      values := values[iter := values[iter] + vs];
      next := replies[0].next;
      StreamTail(replies, batches);
      replies, batches := replies[1..], batches[1..];
    }

    /** The scan knows whether the device has more: the resume key is the sentinel or not. */
    ghost predicate Scanning(iter: nat)
      reads this`keys, this`values, this`replies, this`batches, this`breakKey
    {
      ScanValid(iter) && (breakKey[iter] == SENTINEL <==> replies == [])
    }

    /** A scan command whose resume key is kept. */
    method Refill(iter: nat)
      requires ScanValid(iter) && replies != []
      modifies this`keys, this`values, this`replies, this`batches, this`breakKey
      ensures Scanning(iter) && (old(keys)[iter] == [] ==> Left(iter) == old(Left(iter)))
      ensures batches == old(batches)[1..]
      ensures keys == old(keys)[iter := old(keys)[iter] + old(batches)[0].keys]
      ensures values == old(values)[iter := old(values)[iter] + old(batches)[0].blocks]
    {
      var next := RangeScan(iter);
      breakKey := breakKey[iter := next];
    }

    /** Takes a value from the back of its queue and a key from the front of its own. */
    method Take(iter: nat) returns (key: Key, value: Value)
      requires Scanning(iter) && values[iter] != []
      modifies this`keys, this`values
      ensures Scanning(iter)
      ensures old(Left(iter)) == [Record(key, value)] + Left(iter)
      ensures old(keys)[iter] == [key] + keys[iter] && old(values)[iter] == values[iter] + [value]
      ensures OthersSame(old(keys), keys, iter) && OthersSame(old(values), values, iter)
    {
      var vs, ks := values[iter], keys[iter];
      value := vs[|vs| - 1];
      values := values[iter := vs[..|vs| - 1]];
      key := ks[0];
      keys := keys[iter := ks[1..]];
      assert Items(Batch(ks, vs)) == [Record(key, value)] + Items(Batch(ks[1..], vs[..|vs| - 1]));
    }

    /** The first scan command. */
    method Fetch(iter: nat, answers: seq<Reply>, ghost made: seq<Batch>)
      requires iter < ITERATORS && |keys| == |values| == |breakKey| == ITERATORS
      requires |keys[iter]| == |values[iter]| && Stream(answers, made) && answers != []
      modifies this`keys, this`values, this`replies, this`batches, this`breakKey
      ensures Scanning(iter) && batches == made[1..]
      ensures keys == old(keys)[iter := old(keys)[iter] + made[0].keys]
      ensures values == old(values)[iter := old(values)[iter] + made[0].blocks]
      ensures old(keys)[iter] == [] ==> Left(iter) == AllItems(made)
    {
      replies, batches := answers, made;
      assert keys[iter] == [] ==> Left(iter) == AllItems(made);
      Refill(iter);
    }

    /** The next record of the queues, or -2. */
    method TakeAny(iter: nat, key0: Key, value0: Value) returns (flag: int, key: Key, value: Value)
      requires Scanning(iter)
      modifies this`keys, this`values
      ensures Scanning(iter)
      ensures OthersSame(old(keys), keys, iter) && OthersSame(old(values), values, iter)
      ensures Sought(old(keys)[iter], old(values)[iter], keys[iter], values[iter], flag, key, value, key0, value0)
      ensures old(Left(iter)) == if flag == 1 then [Record(key, value)] + Left(iter) else Left(iter)
    {
      flag, key, value := -2, key0, value0;
      if |values[iter]| > 0 {
        key, value := Take(iter);
        flag := 1;
      }
    }

    /**
     Starts a scan.  `answers` is what the device will reply to the scan commands.  The first reply
     goes to the queues; the key at the front and the value at the back come back, or -2 when there
     is none.  On an iterator whose queues were empty that is the first record of the scan.
     */
    method SeekScan(iter: nat, answers: seq<Reply>, ghost made: seq<Batch>, key0: Key, value0: Value)
      returns (flag: int, key: Key, value: Value)
      requires iter < ITERATORS && |keys| == |values| == |breakKey| == ITERATORS
      requires |keys[iter]| == |values[iter]| && Stream(answers, made) && answers != []
      modifies this`keys, this`values, this`replies, this`batches, this`breakKey
      ensures Scanning(iter) && batches == made[1..]
      ensures OthersSame(old(keys), keys, iter) && OthersSame(old(values), values, iter)
      ensures Sought(old(keys)[iter] + made[0].keys, old(values)[iter] + made[0].blocks,
                     keys[iter], values[iter], flag, key, value, key0, value0)
      ensures old(keys)[iter] == [] ==>
                AllItems(made) == if flag == 1 then [Record(key, value)] + Left(iter) else Left(iter)
    {
      Fetch(iter, answers, made);
      flag, key, value := TakeAny(iter, key0, value0);
    }

    /**
     The next record of the scan.  Returns 1 and the record; -3 when the queues are empty and the
     device has no more; -2 when the device sent an empty reply.
     */
    method NextScan(iter: nat, key0: Key, value0: Value) returns (flag: int, key: Key, value: Value)
      requires Scanning(iter)
      modifies this`keys, this`values, this`replies, this`batches, this`breakKey
      ensures Scanning(iter)
      ensures flag == 1 || flag == -2 || flag == -3
      ensures flag == 1 ==> old(Left(iter)) == [Record(key, value)] + Left(iter)
      ensures flag != 1 ==> Left(iter) == old(Left(iter)) && key == key0 && value == value0
      ensures flag == -3 <==> old(values)[iter] == [] && old(replies) == []
      ensures flag == -3 ==> Left(iter) == [] && keys[iter] == [] && values[iter] == []
      ensures flag == -2 <==> old(values)[iter] == [] && old(replies) != []
                              && old(batches)[0].keys == []
      ensures OthersSame(old(keys), keys, iter) && OthersSame(old(values), values, iter)
      ensures NonEmpty(old(batches)) ==> NonEmpty(batches)
    {
      key, value := key0, value0;
      if |values[iter]| > 0 {
        key, value := Take(iter);
        flag := 1;
      } else if breakKey[iter] == SENTINEL {
        assert batches == [] && keys[iter] == [];
        flag := -3;
      } else {
        flag, key, value := RefillAndTake(iter, key0, value0);
      }
    }

    /** Another scan command, and the first record of its reply, or -2 when the reply is empty. */
    method RefillAndTake(iter: nat, key0: Key, value0: Value) returns (flag: int, key: Key, value: Value)
      requires Scanning(iter) && keys[iter] == [] && replies != []
      modifies this`keys, this`values, this`replies, this`batches, this`breakKey
      ensures Scanning(iter) && batches == old(batches)[1..]
      ensures flag == if old(batches)[0].keys == [] then -2 else 1
      ensures old(Left(iter)) == if flag == 1 then [Record(key, value)] + Left(iter) else Left(iter)
      ensures flag == -2 ==> key == key0 && value == value0
      ensures OthersSame(old(keys), keys, iter) && OthersSame(old(values), values, iter)
    {
      flag, key, value := -2, key0, value0;
      Refill(iter);
      if |values[iter]| > 0 {
        key, value := Take(iter);
        flag := 1;
      }
    }
  }

  /** The bytes of `total` that `i` full commands reach. */
  function Sent(total: nat, i: nat): nat {
    if 524288 * i <= total then 524288 * i else total
  }

  lemma CommandFits(pages: nat, total: nat, c: Chunk, i: nat)
    requires 128 * i < pages <= LOG_PAGES && total <= Offset(pages) < total + 4096
    requires c.start == 524288 * i
    requires c.size == if pages <= 128 * (i + 1) then total - c.start else 524288
    ensures 0 < c.size <= 524288 && c.start == Sent(total, i) && c.start + c.size == Sent(total, i + 1)
    ensures c.start + Transfer(c) <= VALUE_LOG_SIZE
  {
  }

  lemma FullAppend(chunks: seq<Chunk>, c: Chunk)
    requires FullCommands(chunks) && c.size <= 524288
    requires chunks != [] ==> chunks[|chunks| - 1].size == 524288
    ensures FullCommands(chunks + [c])
  {
  }

  lemma TilesAppend(chunks: seq<Chunk>, c: Chunk)
    requires Tiles(chunks, c.start) && c.size > 0 && (c.first <==> chunks == [])
    requires c.start + Transfer(c) <= VALUE_LOG_SIZE
    ensures Tiles(chunks + [c], c.start + c.size)
  {
  }

  lemma StreamTail(replies: seq<Reply>, batches: seq<Batch>)
    requires Stream(replies, batches) && replies != []
    ensures Stream(replies[1..], batches[1..])
  {
  }

  /** Room counted in pages is room in bytes. */
  lemma RoomInBytes(p: seq<Record>, r: Record)
    requires |p| < RECORD_LIMIT && PagesOf(p) + Pages(|r.value|) <= LOG_PAGES
    ensures PagesOf(p + [r]) == PagesOf(p) + Pages(|r.value|)
    ensures Offset(PagesOf(p)) + |r.value| <= VALUE_LOG_SIZE && |r.value| < 0x1_0000_0000
    ensures 12 * (|p| + 1) <= RECORD_LOG_SIZE
  {
    PagesAppend(p, r);
    PagesAreEnough(|r.value|);
  }

  /** Values of at most 8192 bytes always find room in a buffer that is not full. */
  lemma RoomForOne(p: seq<Record>, r: Record)
    requires |p| < RECORD_LIMIT && BatchOf(p, MAX_VALUE) && |r.value| <= MAX_VALUE
    ensures PagesOf(p) + Pages(|r.value|) <= LOG_PAGES && BatchOf(p + [r], MAX_VALUE)
  {
    PagesBound(p, MAX_VALUE);
    assert Pages(MAX_VALUE) == 2;
    PagesMonotone(|r.value|, MAX_VALUE);
  }

  /** The bytes used in the value log end on its last page. */
  lemma LogLength(p: seq<Record>)
    requires p != []
    ensures DataLength(p) <= Offset(PagesOf(p))
    ensures PagesOf(p) > 0 ==> Offset(PagesOf(p)) < DataLength(p) + 4096
  {
  }
}
