/**
 A workload of Puts and rollbacks on DB_MASTER from its construction on, and what the store holds
 after it.
 */
module Workload {
  import opened Types
  import opened Bytes
  import opened WriteBuffer
  import opened BulkScan
  import opened DevLsm
  import opened KeyTracker
  import opened DbMaster
  import Protocol
  import ProtocolProgress

  // ---------------------------------------------------------------- replies to a scan exist

  /** One reply for each record. */
  function OneEach(items: seq<Record>): (bs: seq<Batch>)
    ensures Matched(bs) && NonEmpty(bs) && |bs| == |items|
  {
    seq(|items|, i requires 0 <= i < |items| => Batch([items[i].key], [items[i].value]))
  }

  predicate Scannable(items: seq<Record>) {
    forall i :: 0 <= i < |items| ==> items[i].value != [] && |items[i].value| <= MAX_VALUE
  }

  lemma OneFits(r: Record)
    requires r.value != [] && |r.value| <= MAX_VALUE
    ensures Fits([r.key], [r.value])
  {
    assert BlockAt([r.value], 0) == 4096;
    assert Pages(|r.value|) <= 2;
    assert BlockAt([r.value], 1) == 4096 + Offset(Pages(|r.value|));
  }

  function ReplyFor(r: Record, last: bool): Reply
    requires r.value != [] && |r.value| <= MAX_VALUE
  {
    OneFits(r);
    Reply(Encode([r.key], [r.value]), if last then SENTINEL else 0)
  }

  function Replies(items: seq<Record>): seq<Reply>
    requires Scannable(items)
  {
    seq(|items|, i requires 0 <= i < |items| => ReplyFor(items[i], i == |items| - 1))
  }

  lemma {:induction false} OneEachItems(items: seq<Record>)
    ensures AllItems(OneEach(items)) == items
  {
    if items == [] {
    } else {
      OneEachItems(items[1..]);
      assert OneEach(items)[1..] == OneEach(items[1..]);
      assert Items(OneEach(items)[0]) == [items[0]];
    }
  }

  lemma RepliesStream(items: seq<Record>)
    requires Scannable(items)
    ensures Stream(Replies(items), OneEach(items))
  {
    forall i | 0 <= i < |items|
      ensures |Replies(items)[i].data| == BUFFER_SIZE
      ensures IsReply(Replies(items)[i].data, OneEach(items)[i].keys, OneEach(items)[i].blocks)
    {
      OneFits(items[i]);
      EncodeIsReply([items[i].key], [items[i].value]);
    }
  }

  /** Every non-empty device of non-empty values up to 8192 bytes has replies that meet the contract. */
  lemma ScanCanBeAnswered(dev: map<Key, Value>) returns (answers: seq<Reply>, made: seq<Batch>)
    requires dev != map[] && forall k :: k in dev ==> dev[k] != [] && |dev[k]| <= MAX_VALUE
    ensures Stream(answers, made) && answers != [] && NonEmpty(made)
    ensures Protocol.IsScanOf(AllItems(made), dev)
  {
    var items := ProtocolProgress.ScanExists(dev);
    assert Scannable(items) by {
      forall i | 0 <= i < |items| ensures items[i].value != [] && |items[i].value| <= MAX_VALUE {
        assert Lookup(dev, items[i].key) == Some(items[i].value);
      }
    }
    answers, made := Replies(items), OneEach(items);
    OneEachItems(items);
    RepliesStream(items);
  }

  // ---------------------------------------------------------------- workloads

  /** A Put with the level the monitor reports, or a rollback with the replies of the device. */
  datatype Op =
    | PutOp(level: Protocol.Level, key: Key, value: Value)
    | RollbackOp(iter: nat, answers: seq<Reply>, made: seq<Batch>)

  /** What Dev-LSM holds: the values redirected since the last rollback. */
  function DevAfter(ops: seq<Op>): map<Key, Value> {
    if ops == [] then map[]
    else
      var before := DevAfter(ops[..|ops| - 1]);
      match ops[|ops| - 1]
      case PutOp(level, k, v) => if level.High? then before[k := Stored(v)] else before
      case RollbackOp(_, _, _) => map[]
  }

  /** The tracker entries of `k`. */
  function Owed(ops: seq<Op>, k: Key): nat {
    if ops == [] then 0
    else
      var before := Owed(ops[..|ops| - 1], k);
      match ops[|ops| - 1]
      case PutOp(level, j, _) =>
        if j != k then before else if level.High? then before + 1 else if before == 0 then 0 else before - 1
      case RollbackOp(_, _, _) => 0
  }

  /** The value of `k`: an unstalled Put of a key with two tracker entries or more has no effect. */
  function ValueAfter(ops: seq<Op>, k: Key): Option<Value> {
    if ops == [] then None
    else
      var before := ops[..|ops| - 1];
      match ops[|ops| - 1]
      case PutOp(level, j, v) =>
        if j != k then ValueAfter(before, k)
        else if level.High? then Some(Stored(v))
        else if Owed(before, k) <= 1 then Some(v) else ValueAfter(before, k)
      case RollbackOp(_, _, _) => ValueAfter(before, k)
  }

  /** The value last put, as far as the string copy keeps it. */
  function LastPut(ops: seq<Op>, k: Key): Option<Value> {
    if ops == [] then None
    else
      match ops[|ops| - 1]
      case PutOp(level, j, v) =>
        if j != k then LastPut(ops[..|ops| - 1], k) else Some(if level.High? then Stored(v) else v)
      case RollbackOp(_, _, _) => LastPut(ops[..|ops| - 1], k)
  }

  lemma OpsLast(ops: seq<Op>, op: Op)
    ensures var all := ops + [op]; all[..|all| - 1] == ops && all[|all| - 1] == op
  {
  }

  // ---------------------------------------------------------------- when no Put is lost

  /** Operation `i` is not an unstalled Put that is lost. */
  predicate Lands(ops: seq<Op>, i: nat)
    requires i < |ops|
  {
    ops[i].PutOp? && !ops[i].level.High? ==>
      Owed(ops[..i], ops[i].key) <= 1 || ValueAfter(ops[..i], ops[i].key) == Some(ops[i].value)
  }

  ghost predicate AllLand(ops: seq<Op>) {
    forall i :: 0 <= i < |ops| ==> Lands(ops, i)
  }

  predicate HasLastPut(ops: seq<Op>, i: nat, k: Key)
    requires i <= |ops|
  {
    ValueAfter(ops[..i], k) == LastPut(ops[..i], k)
  }

  ghost predicate Agrees(ops: seq<Op>, i: nat)
    requires i <= |ops|
  {
    forall k: Key :: HasLastPut(ops, i, k)
  }

  lemma KeyAgreesNext(ops: seq<Op>, i: nat, k: Key)
    requires i < |ops| && HasLastPut(ops, i, k)
    ensures HasLastPut(ops, i + 1, k) <==> (ops[i].PutOp? && ops[i].key == k ==> Lands(ops, i))
  {
    assert ops[..i + 1] == ops[..i] + [ops[i]];
    OpsLast(ops[..i], ops[i]);
  }

  lemma AgreesNext(ops: seq<Op>, i: nat)
    requires i < |ops| && Agrees(ops, i)
    ensures Agrees(ops, i + 1) <==> Lands(ops, i)
  {
    if Lands(ops, i) {
      var n := i + 1;
      forall k: Key ensures HasLastPut(ops, n, k) {
        assert HasLastPut(ops, i, k);
        KeyAgreesNext(ops, i, k);
      }
    } else {
      assert HasLastPut(ops, i, ops[i].key);
      KeyAgreesNext(ops, i, ops[i].key);
    }
  }

  lemma {:induction false} AgreesUpTo(ops: seq<Op>, n: nat)
    requires n <= |ops| && forall i :: 0 <= i < n ==> Lands(ops, i)
    ensures Agrees(ops, n)
  {
    if n == 0 {
      assert ops[..0] == [];
    } else {
      AgreesUpTo(ops, n - 1);
      assert Lands(ops, n - 1);
      AgreesNext(ops, n - 1);
    }
  }

  /** After every prefix each key has the value last put, exactly when every Put lands. */
  lemma LastPutExactly(ops: seq<Op>)
    ensures (forall i :: 0 <= i <= |ops| ==> Agrees(ops, i)) <==> AllLand(ops)
  {
    if AllLand(ops) {
      forall i | 0 <= i <= |ops| ensures Agrees(ops, i) {
        AgreesUpTo(ops, i);
      }
    }
    if forall i :: 0 <= i <= |ops| ==> Agrees(ops, i) {
      forall i | 0 <= i < |ops| ensures Lands(ops, i) {
        assert Agrees(ops, i) && Agrees(ops, i + 1);
        AgreesNext(ops, i);
      }
    }
  }

  // ---------------------------------------------------------------- the state after a workload

  ghost predicate Matches(a: Image, hash: Key -> nat, used: set<Key>, ops: seq<Op>) {
    && SaneIn(a, hash, used)
    && a.dev == DevAfter(ops) && a.kache == (if DevAfter(ops) == map[] then 0 else 1)
    && (forall k: Key :: ValueIn(a, hash, k) == ValueAfter(ops, k))
    && (forall k: Key :: k in used ==> a.entries[Entry(hash(k), k)] == Owed(ops, k))
  }

  lemma MatchesRedirect(a: Image, b: Image, hash: Key -> nat, used: set<Key>, ops: seq<Op>, op: Op)
    requires op.PutOp? && op.level.High? && op.key in used && Matches(a, hash, used, ops)
    requires RedirectDone(a, b, hash, op.key, Stored(op.value))
    requires Redirects(a, b, hash, op.key, Stored(op.value), used)
    ensures Matches(b, hash, used, ops + [op])
  {
    OpsLast(ops, op);
    assert used + {op.key} == used;
    assert op.key in b.dev;
  }

  lemma DropCounts(e: Entries, r: Entries, dev: map<Key, Value>, main: map<Key, Value>, hash: Key -> nat,
                   used: set<Key>, k: Key, j: Key)
    requires Healthy(e, dev, main, hash, used) && DropsOne(e, r, hash(k)) && k in used && j in used
    ensures var before := e[Entry(hash(j), j)];
            r[Entry(hash(j), j)] == if j == k && before > 0 then before - 1 else before
  {
    var x := Entry(hash(k), k);
    if HasKey(e, hash(k)) {
      var y :| y in e && y.key == hash(k) && r == e - multiset{y};
      assert y == x;
    } else {
      assert x !in e;
    }
  }

  lemma TrackedValue(a: Image, hash: Key -> nat, used: set<Key>, k: Key)
    requires a.entries[Entry(hash(k), k)] > 0
    ensures ValueIn(a, hash, k) == Lookup(a.dev, k)
  {
    assert Entry(hash(k), k) in a.entries;
  }

  lemma HostCounts(a: Image, b: Image, hash: Key -> nat, used: set<Key>, ops: seq<Op>, op: Op, k: Key)
    requires op.PutOp? && !op.level.High? && op.key in used && Matches(a, hash, used, ops)
    requires HostDone(a, b, hash, op.key, op.value) && k in used
    ensures b.entries[Entry(hash(k), k)] == Owed(ops + [op], k)
  {
    OpsLast(ops, op);
    if a.kache != 0 {
      DropCounts(a.entries, b.entries, a.dev, a.main, hash, used, op.key, k);
    }
  }

  lemma HostValue(a: Image, b: Image, hash: Key -> nat, used: set<Key>, ops: seq<Op>, op: Op, k: Key)
    requires op.PutOp? && !op.level.High? && op.key in used && Matches(a, hash, used, ops)
    requires Overwrites(a, b, hash, op.key, op.value, used)
    ensures ValueIn(b, hash, k) == ValueAfter(ops + [op], k)
  {
    OpsLast(ops, op);
    assert used + {op.key} == used;
    if a.entries[Entry(hash(op.key), op.key)] > 0 {
      TrackedValue(a, hash, used, op.key);
    }
    assert ValueIn(a, hash, k) == ValueAfter(ops, k);
  }

  lemma MatchesHost(a: Image, b: Image, hash: Key -> nat, used: set<Key>, ops: seq<Op>, op: Op)
    requires op.PutOp? && !op.level.High? && op.key in used && Matches(a, hash, used, ops)
    requires HostDone(a, b, hash, op.key, op.value) && Overwrites(a, b, hash, op.key, op.value, used)
    ensures Matches(b, hash, used, ops + [op])
  {
    OpsLast(ops, op);
    assert used + {op.key} == used;
    forall k: Key ensures ValueIn(b, hash, k) == ValueAfter(ops + [op], k) {
      HostValue(a, b, hash, used, ops, op, k);
    }
    forall k: Key | k in used ensures b.entries[Entry(hash(k), k)] == Owed(ops + [op], k) {
      HostCounts(a, b, hash, used, ops, op, k);
    }
  }

  lemma MatchesRollback(a: Image, b: Image, hash: Key -> nat, used: set<Key>, ops: seq<Op>, op: Op)
    requires op.RollbackOp? && Matches(a, hash, used, ops)
    requires b == Image(multiset{}, map[], b.main, 0) && SaneIn(b, hash, used)
    requires forall k: Key :: ValueIn(b, hash, k) == ValueIn(a, hash, k)
    ensures Matches(b, hash, used, ops + [op])
  {
    OpsLast(ops, op);
  }

  /** A rollback is skipped while nothing is redirected. */
  lemma MatchesSkip(a: Image, hash: Key -> nat, used: set<Key>, ops: seq<Op>, op: Op)
    requires op.RollbackOp? && Matches(a, hash, used, ops) && a.kache == 0
    ensures Matches(a, hash, used, ops + [op])
  {
    OpsLast(ops, op);
  }

  // ---------------------------------------------------------------- running a workload

  /** What the caller and the device owe operation `i`. */
  ghost predicate Playable(ops: seq<Op>, i: nat, used: set<Key>)
    requires i < |ops|
  {
    match ops[i]
    case PutOp(level, k, v) => k in used && (level.High? ==> |v| <= MAX_VALUE)
    case RollbackOp(iter, answers, made) =>
      iter < ITERATORS &&
      (DevAfter(ops[..i]) != map[] ==>
         && Stream(answers, made) && answers != [] && NonEmpty(made)
         && Protocol.IsScanOf(AllItems(made), DevAfter(ops[..i])))
  }

  ghost predicate AllPlayable(ops: seq<Op>, used: set<Key>) {
    forall i :: 0 <= i < |ops| ==> Playable(ops, i, used)
  }

  /** Between operations. */
  ghost predicate Rests(m: Master, used: set<Key>, ops: seq<Op>)
    reads m, m.dev, m.dev.valueLog, m.dev.recordLog, m.tracker, m.tracker.table
  {
    m.Valid() && m.Idle() && BatchOf(m.dev.pending, MAX_VALUE) && Matches(m.Img(), m.hash, used, ops)
  }

  lemma PendingStaysSmall(p: seq<Record>, q: seq<Record>, k: Key, v: Value)
    requires |p| < RECORD_LIMIT && BatchOf(p, MAX_VALUE) && |v| <= MAX_VALUE
    requires q == [] || q == p + [Record(k, Stored(v))]
    ensures BatchOf(q, MAX_VALUE)
  {
    RoomForOne(p, Record(k, Stored(v)));
  }

  method PlayPut(m: Master, op: Op, ghost used: set<Key>, ghost ops: seq<Op>)
    requires Rests(m, used, ops) && op.PutOp? && op.key in used && (op.level.High? ==> |op.value| <= MAX_VALUE)
    modifies m`kacheFlag, m`main, m.dev, m.dev.valueLog, m.dev.recordLog, m.tracker`count, m.tracker.table
    ensures Rests(m, used, ops + [op])
    ensures fresh({m.dev.valueLog, m.dev.recordLog} - {old(m.dev.valueLog), old(m.dev.recordLog)})
  {
    ghost var a := m.Img();
    RoomForOne(m.dev.pending, Record(op.key, if op.level.High? then op.value else []));
    m.Put(op.level, op.key, op.value, used);
    if op.level.High? {
      PendingStaysSmall(old(m.dev.pending), m.dev.pending, op.key, op.value);
      MatchesRedirect(a, m.Img(), m.hash, used, ops, op);
    } else {
      MatchesHost(a, m.Img(), m.hash, used, ops, op);
    }
  }

  /** The rollback thread: it runs while kache_flag is set. */
  method PlayRollback(m: Master, op: Op, ghost used: set<Key>, ghost ops: seq<Op>)
    requires Rests(m, used, ops) && op.RollbackOp? && op.iter < ITERATORS
    requires DevAfter(ops) != map[] ==>
               && Stream(op.answers, op.made) && op.answers != [] && NonEmpty(op.made)
               && Protocol.IsScanOf(AllItems(op.made), DevAfter(ops))
    modifies m`main, m`kacheFlag, m`rollbackFlag, m.dev, m.tracker`count, m.tracker.table
    ensures Rests(m, used, ops + [op])
    ensures m.dev.valueLog == old(m.dev.valueLog) && m.dev.recordLog == old(m.dev.recordLog)
  {
    ghost var a := m.Img();
    if m.kacheFlag == 1 {
      var n := m.Rollback(op.iter, op.answers, op.made, used);
      MatchesRollback(a, m.Img(), m.hash, used, ops, op);
    } else {
      MatchesSkip(a, m.hash, used, ops, op);
    }
  }

  method PlayOne(m: Master, ops: seq<Op>, i: nat, ghost used: set<Key>)
    requires i < |ops| && Rests(m, used, ops[..i]) && AllPlayable(ops, used)
    modifies m`kacheFlag, m`main, m`rollbackFlag, m.dev, m.dev.valueLog, m.dev.recordLog,
             m.tracker`count, m.tracker.table
    ensures Rests(m, used, ops[..i + 1])
    ensures fresh(m.dev.valueLog) || m.dev.valueLog == old(m.dev.valueLog) || m.dev.valueLog == old(m.dev.recordLog)
    ensures fresh(m.dev.recordLog) || m.dev.recordLog == old(m.dev.valueLog) || m.dev.recordLog == old(m.dev.recordLog)
  {
    assert ops[..i + 1] == ops[..i] + [ops[i]] && Playable(ops, i, used);
    if ops[i].PutOp? {
      PlayPut(m, ops[i], used, ops[..i]);
    } else {
      PlayRollback(m, ops[i], used, ops[..i]);
    }
  }

  method Start(hash: Key -> nat, ghost used: set<Key>) returns (m: Master)
    requires InjectiveOn(hash, used)
    ensures fresh(m) && fresh(m.dev) && fresh(m.tracker) && fresh(m.tracker.table)
    ensures fresh(m.dev.valueLog) && fresh(m.dev.recordLog)
    ensures m.hash == hash && Rests(m, used, [])
  {
    m := new Master(hash);
  }

  lemma WhenAllLand(ops: seq<Op>)
    requires AllLand(ops)
    ensures forall k: Key :: ValueAfter(ops, k) == LastPut(ops, k)
  {
    LastPutExactly(ops);
    assert Agrees(ops, |ops|) && ops[..|ops|] == ops;
    forall k: Key ensures ValueAfter(ops, k) == LastPut(ops, k) {
      assert HasLastPut(ops, |ops|, k);
    }
  }

  method PlayFirst(hash: Key -> nat, ops: seq<Op>, n: nat, ghost used: set<Key>) returns (m: Master)
    requires InjectiveOn(hash, used) && AllPlayable(ops, used) && n <= |ops|
    ensures fresh(m) && fresh(m.dev) && fresh(m.tracker) && fresh(m.tracker.table)
    ensures fresh(m.dev.valueLog) && fresh(m.dev.recordLog)
    ensures m.hash == hash && Rests(m, used, ops[..n])
  {
    if n == 0 {
      m := Start(hash, used);
      assert ops[..0] == [];
    } else {
      m := PlayFirst(hash, ops, n - 1, used);
      PlayOne(m, ops, n - 1, used);
      assert fresh(m.dev.valueLog) && fresh(m.dev.recordLog);
    }
  }

  /**
   Puts and rollbacks in any order, from the construction on: every key has the value of the fold.
   By LastPutExactly that is the value last put exactly when every Put lands.
   */
  method Play(hash: Key -> nat, ops: seq<Op>, ghost used: set<Key>) returns (m: Master)
    requires InjectiveOn(hash, used) && AllPlayable(ops, used)
    ensures fresh(m) && m.hash == hash && Rests(m, used, ops)
    ensures forall k: Key :: ValueIn(m.Img(), hash, k) == ValueAfter(ops, k)
    ensures AllLand(ops) ==> forall k: Key :: ValueIn(m.Img(), hash, k) == LastPut(ops, k)
  {
    m := PlayFirst(hash, ops, |ops|, used);
    assert ops[..|ops|] == ops;
    if AllLand(ops) {
      WhenAllLand(ops);
    }
  }

  // ---------------------------------------------------------------- a rollback can always follow

  predicate SmallPuts(ops: seq<Op>) {
    forall i :: 0 <= i < |ops| && ops[i].PutOp? && ops[i].level.High? ==>
      ops[i].value != [] && |ops[i].value| <= MAX_VALUE
  }

  lemma {:induction false} DevAfterIsSmall(ops: seq<Op>, k: Key)
    requires SmallPuts(ops) && k in DevAfter(ops)
    ensures DevAfter(ops)[k] != [] && |DevAfter(ops)[k]| <= MAX_VALUE
  {
    if ops == [] {
    } else {
      var before := ops[..|ops| - 1];
      if k in DevAfter(before) {
        DevAfterIsSmall(before, k);
      }
    }
  }

  /** After redirected values that are not empty and not too long, some replies let a rollback run. */
  lemma RollbackCanFollow(ops: seq<Op>, used: set<Key>) returns (op: Op)
    requires SmallPuts(ops)
    ensures op.RollbackOp? && Playable(ops + [op], |ops|, used)
  {
    op := RollbackOp(0, [], []);
    if DevAfter(ops) != map[] {
      forall k | k in DevAfter(ops) ensures DevAfter(ops)[k] != [] && |DevAfter(ops)[k]| <= MAX_VALUE {
        DevAfterIsSmall(ops, k);
      }
      var answers, made := ScanCanBeAnswered(DevAfter(ops));
      op := RollbackOp(0, answers, made);
    }
    assert (ops + [op])[..|ops|] == ops;
  }
}
