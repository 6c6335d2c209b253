/**
 DB_MASTER with its parts put together: Main-LSM as a map, the key tracker as the bucket hash map,
 and Dev-LSM as the buffering, scanning host.  The methods are those of one thread; what happens
 when threads interleave is the subject of the protocol modules.
 */
module DbMaster {
  import opened Types
  import opened Bytes
  import opened DevLsm
  import opened KeyTracker
  import Protocol

  type Entries = multiset<Entry<Key>>

  // ---------------------------------------------------------------- the logical value

  /** The tracker hash tells the keys in use apart. */
  ghost predicate InjectiveOn(hash: Key -> nat, used: set<Key>) {
    forall j, k :: j in used && k in used && hash(j) == hash(k) ==> j == k
  }

  ghost predicate Tracked(e: Entries, hash: Key -> nat, k: Key) {
    HasKey(e, hash(k))
  }

  /** The value of `k`: from Dev-LSM if the tracker has its hash, else from Main. */
  ghost function ViewOf(e: Entries, dev: map<Key, Value>, main: map<Key, Value>, hash: Key -> nat,
                        k: Key): Option<Value> {
    if Tracked(e, hash, k) then Lookup(dev, k) else Lookup(main, k)
  }

  /** The tracker holds hashes of keys that Dev-LSM has, and only keys in use are stored. */
  ghost predicate Healthy(e: Entries, dev: map<Key, Value>, main: map<Key, Value>,
                          hash: Key -> nat, used: set<Key>) {
    && InjectiveOn(hash, used)
    && dev.Keys <= used && main.Keys <= used
    && forall x :: x in e ==> x.value in dev && x.key == hash(x.value)
  }

  /** Removing one entry of `k` leaves `k` tracked exactly when it had two or more. */
  lemma DropOne(e: Entries, dev: map<Key, Value>, main: map<Key, Value>, hash: Key -> nat,
                used: set<Key>, x: Entry<Key>, k: Key)
    requires Healthy(e, dev, main, hash, used) && x in e && x.key == hash(k) && k in used
    ensures var r := e - multiset{x};
            && Healthy(r, dev, main, hash, used)
            && (Tracked(r, hash, k) <==> e[Entry(hash(k), k)] >= 2)
            && forall j: Key :: j in used && j != k ==> (Tracked(r, hash, j) <==> Tracked(e, hash, j))
  {
  }

  // ---------------------------------------------------------------- one operation on values

  /** After a redirected Put the key has the new value in Dev-LSM and every other key is as before. */
  lemma RedirectSpec(e: Entries, dev: map<Key, Value>, main: map<Key, Value>, hash: Key -> nat,
                     used: set<Key>, k: Key, v: Value, j: Key)
    requires Healthy(e, dev, main, hash, used) && InjectiveOn(hash, used + {k})
    ensures var r, d, u := e + multiset{Entry(hash(k), k)}, dev[k := v], used + {k};
            && Healthy(r, d, main, hash, u)
            && ViewOf(r, d, main, hash, j) == if j == k then Some(v) else ViewOf(e, dev, main, hash, j)
  {
  }

  /**
   After an unstalled Put every other key is as before.  The key has the new value if it had at most
   one tracker entry, and otherwise still the value in Dev-LSM.
   */
  lemma HostSpec(e: Entries, r: Entries, dev: map<Key, Value>, main: map<Key, Value>,
                 hash: Key -> nat, used: set<Key>, k: Key, v: Value, j: Key)
    requires Healthy(e, dev, main, hash, used) && InjectiveOn(hash, used + {k})
    requires DropsOne(e, r, hash(k))
    ensures var m, u := main[k := v], used + {k};
            && Healthy(r, dev, m, hash, u)
            && (j != k ==> ViewOf(r, dev, m, hash, j) == ViewOf(e, dev, main, hash, j))
            && ViewOf(r, dev, m, hash, k)
               == if e[Entry(hash(k), k)] <= 1 then Some(v) else Lookup(dev, k)
  {
    if HasKey(e, hash(k)) {
      var x :| x in e && x.key == hash(k) && r == e - multiset{x};
      HostTracked(e, x, dev, main, hash, used, k, v, j);
    } else {
      HostUntracked(e, dev, main, hash, used, k, v, j);
    }
  }

  lemma HostTracked(e: Entries, x: Entry<Key>, dev: map<Key, Value>, main: map<Key, Value>,
                    hash: Key -> nat, used: set<Key>, k: Key, v: Value, j: Key)
    requires Healthy(e, dev, main, hash, used) && InjectiveOn(hash, used + {k})
    requires x in e && x.key == hash(k)
    ensures var r, m, u := e - multiset{x}, main[k := v], used + {k};
            && Healthy(r, dev, m, hash, u)
            && (j != k ==> ViewOf(r, dev, m, hash, j) == ViewOf(e, dev, main, hash, j))
            && ViewOf(r, dev, m, hash, k)
               == if e[Entry(hash(k), k)] <= 1 then Some(v) else Lookup(dev, k)
  {
    DropOne(e, dev, main[k := v], hash, used + {k}, x, k);
  }

  lemma HostUntracked(e: Entries, dev: map<Key, Value>, main: map<Key, Value>,
                      hash: Key -> nat, used: set<Key>, k: Key, v: Value, j: Key)
    requires Healthy(e, dev, main, hash, used) && InjectiveOn(hash, used + {k})
    requires !HasKey(e, hash(k))
    ensures var m, u := main[k := v], used + {k};
            && Healthy(e, dev, m, hash, u)
            && (j != k ==> ViewOf(e, dev, m, hash, j) == ViewOf(e, dev, main, hash, j))
            && ViewOf(e, dev, m, hash, k) == Some(v) && e[Entry(hash(k), k)] == 0
  {
  }

  // ---------------------------------------------------------------- the state as a value

  /** Tracker, both stores and kache_flag. */
  datatype Image = Image(entries: Entries, dev: map<Key, Value>, main: map<Key, Value>, kache: nat)

  /** The logical value of a key. */
  ghost function ValueIn(a: Image, hash: Key -> nat, k: Key): Option<Value> {
    ViewOf(a.entries, a.dev, a.main, hash, k)
  }

  /** The stores and the tracker fit together, and only keys of `used` are stored. */
  ghost predicate SaneIn(a: Image, hash: Key -> nat, used: set<Key>) {
    Healthy(a.entries, a.dev, a.main, hash, used) && (a.kache == 0 ==> a.entries == multiset{})
  }

  ghost predicate RedirectDone(a: Image, b: Image, hash: Key -> nat, k: Key, v: Value) {
    b == Image(a.entries + multiset{Entry(hash(k), k)}, a.dev[k := v], a.main, 1)
  }

  ghost predicate HostDone(a: Image, b: Image, hash: Key -> nat, k: Key, v: Value) {
    && b == Image(b.entries, a.dev, a.main[k := v], a.kache)
    && if a.kache == 0 then b.entries == a.entries else DropsOne(a.entries, b.entries, hash(k))
  }

  /** What a redirected Put means: its key has the value, and no other key changes. */
  ghost predicate Redirects(a: Image, b: Image, hash: Key -> nat, k: Key, v: Value, used: set<Key>) {
    SaneIn(a, hash, used) && InjectiveOn(hash, used + {k}) ==>
      && SaneIn(b, hash, used + {k})
      && forall j: Key :: ValueIn(b, hash, j) == if j == k then Some(v) else ValueIn(a, hash, j)
  }

  /**
   What an unstalled Put means: its key has the value if it had at most one tracker entry, and
   otherwise keeps the value in Dev-LSM; no other key changes.
   */
  ghost predicate Overwrites(a: Image, b: Image, hash: Key -> nat, k: Key, v: Value, used: set<Key>) {
    SaneIn(a, hash, used) && InjectiveOn(hash, used + {k}) ==>
      && SaneIn(b, hash, used + {k})
      && (forall j: Key :: j != k ==> ValueIn(b, hash, j) == ValueIn(a, hash, j))
      && ValueIn(b, hash, k) == if a.entries[Entry(hash(k), k)] <= 1 then Some(v) else Lookup(a.dev, k)
  }

  lemma RedirectMeans(a: Image, b: Image, hash: Key -> nat, k: Key, v: Value, used: set<Key>)
    requires RedirectDone(a, b, hash, k, v)
    ensures Redirects(a, b, hash, k, v, used)
  {
    if SaneIn(a, hash, used) && InjectiveOn(hash, used + {k}) {
      RedirectSpec(a.entries, a.dev, a.main, hash, used, k, v, k);
      forall j: Key ensures ValueIn(b, hash, j) == if j == k then Some(v) else ValueIn(a, hash, j) {
        RedirectSpec(a.entries, a.dev, a.main, hash, used, k, v, j);
      }
    }
  }

  lemma HostMeans(a: Image, b: Image, hash: Key -> nat, k: Key, v: Value, used: set<Key>)
    requires HostDone(a, b, hash, k, v)
    ensures Overwrites(a, b, hash, k, v, used)
  {
    if SaneIn(a, hash, used) && InjectiveOn(hash, used + {k}) {
      HostSpec(a.entries, b.entries, a.dev, a.main, hash, used, k, v, k);
      forall j: Key | j != k ensures ValueIn(b, hash, j) == ValueIn(a, hash, j) {
        HostSpec(a.entries, b.entries, a.dev, a.main, hash, used, k, v, j);
      }
    }
  }

  // ---------------------------------------------------------------- one rollback on values

  /** The keys among the first `c` items that are still tracked have their Dev-LSM value in Main. */
  ghost predicate Settled(e: Entries, main: map<Key, Value>, hash: Key -> nat,
                          items: seq<Record>, c: nat) {
    forall i :: 0 <= i < c && i < |items| && Tracked(e, hash, items[i].key) ==>
      Lookup(main, items[i].key) == Some(items[i].value)
  }

  ghost predicate SameViews(e0: Entries, main0: map<Key, Value>, e: Entries, main: map<Key, Value>,
                            dev: map<Key, Value>, hash: Key -> nat) {
    forall j: Key :: ViewOf(e, dev, main, hash, j) == ViewOf(e0, dev, main0, hash, j)
  }

  /** Where a rollback stands after the first `c` items. */
  ghost predicate Underway(e0: Entries, main0: map<Key, Value>, e: Entries, main: map<Key, Value>,
                           dev: map<Key, Value>, hash: Key -> nat, used: set<Key>,
                           items: seq<Record>, c: nat) {
    && Healthy(e, dev, main, hash, used) && Protocol.IsScanOf(items, dev)
    && SameViews(e0, main0, e, main, dev, hash) && Settled(e, main, hash, items, c)
  }

  /** Moving the next item, if it is tracked, keeps every value. */
  lemma MoveSpec(e: Entries, r: Entries, dev: map<Key, Value>, main: map<Key, Value>,
                 hash: Key -> nat, used: set<Key>, k: Key, v: Value)
    requires Healthy(e, dev, main, hash, used) && Lookup(dev, k) == Some(v)
    requires HasKey(e, hash(k)) && DropsOne(e, r, hash(k))
    ensures Healthy(r, dev, main[k := v], hash, used)
    ensures SameViews(e, main, r, main[k := v], dev, hash)
  {
  }

  lemma UntrackedStays(e: Entries, r: Entries, dev: map<Key, Value>, main: map<Key, Value>,
                       hash: Key -> nat, h: nat, k: Key)
    requires DropsOne(e, r, h) && Tracked(r, hash, k)
    ensures Tracked(e, hash, k)
  {
  }

  lemma MoveNext(e0: Entries, main0: map<Key, Value>, e: Entries, r: Entries,
                 main: map<Key, Value>, dev: map<Key, Value>, hash: Key -> nat,
                 used: set<Key>, items: seq<Record>, c: nat)
    requires Underway(e0, main0, e, main, dev, hash, used, items, c) && c < |items|
    requires DropsOne(e, r, hash(items[c].key))
    ensures var m := if HasKey(e, hash(items[c].key)) then main[items[c].key := items[c].value]
                     else main;
            Underway(e0, main0, r, m, dev, hash, used, items, c + 1)
  {
    var k, v := items[c].key, items[c].value;
    assert Lookup(dev, k) == Some(v);
    if HasKey(e, hash(k)) {
      MoveSpec(e, r, dev, main, hash, used, k, v);
      var m := main[k := v];
      forall j: Key ensures ViewOf(r, dev, m, hash, j) == ViewOf(e0, dev, main0, hash, j) {
        assert ViewOf(e, dev, main, hash, j) == ViewOf(e0, dev, main0, hash, j);
        assert ViewOf(r, dev, m, hash, j) == ViewOf(e, dev, main, hash, j);
      }
      forall i | 0 <= i < c + 1 && Tracked(r, hash, items[i].key)
        ensures Lookup(m, items[i].key) == Some(items[i].value)
      {
        UntrackedStays(e, r, dev, main, hash, hash(k), items[i].key);
      }
    }
  }

  /** What a rollback starts from, and the items its scan returns. */
  datatype Plan = Plan(entries: Entries, main: map<Key, Value>, dev: map<Key, Value>,
                       used: set<Key>, items: seq<Record>)

  // ---------------------------------------------------------------- the class

  class Master {
    const hash: Key -> nat
    const dev: DevHost
    const tracker: HashMap<Key>
    var main: map<Key, Value>
    var kacheFlag: nat
    var rollbackFlag: nat

    ghost predicate Valid()
      reads dev, dev.valueLog, dev.recordLog, tracker, tracker.table
    {
      && dev.Valid() && tracker.Valid()
      && tracker.table as object != dev.valueLog && tracker.table as object != dev.recordLog
      && |dev.keys| == |dev.values| == |dev.breakKey| == ITERATORS
    }

    /** No scan is under way: the queues of every iterator are empty. */
    ghost predicate Idle()
      reads dev`keys, dev`values
    {
      && |dev.keys| == |dev.values| == ITERATORS
      && forall i :: 0 <= i < ITERATORS ==> dev.keys[i] == [] && dev.values[i] == []
    }

    ghost function Img(): Image
      reads this`main, this`kacheFlag, dev`dev, dev`pending, tracker, tracker.table
    {
      Image(tracker.Entries(), dev.Contents(), main, kacheFlag)
    }

    constructor (hash: Key -> nat)
      ensures Valid() && Idle() && this.hash == hash && rollbackFlag == 0 && dev.pending == []
      ensures fresh(dev) && fresh(dev.valueLog) && fresh(dev.recordLog)
      ensures fresh(tracker) && fresh(tracker.table)
      ensures Img() == Image(multiset{}, map[], map[], 0) && tracker.size == 128
    {
      this.hash := hash;
      var d := new DevHost();
      var t := new HashMap<Key>(128);
      dev, tracker := d, t;
      main, kacheFlag, rollbackFlag := map[], 0, 0;
    }

    /** A Put while the monitor reports a stall. */
    method PutRedirected(key: Key, value: Value, ghost used: set<Key>)
      requires Valid() && dev.HasRoom(|value|)
      modifies this`kacheFlag, dev, dev.valueLog, dev.recordLog, tracker`count, tracker.table
      ensures Valid() && RedirectDone(old(Img()), Img(), hash, key, Stored(value))
      ensures Redirects(old(Img()), Img(), hash, key, Stored(value), used)
      ensures dev.pending == [] || dev.pending == old(dev.pending) + [Record(key, Stored(value))]
      ensures dev.keys == old(dev.keys) && dev.values == old(dev.values)
      ensures fresh({dev.valueLog, dev.recordLog} - {old(dev.valueLog), old(dev.recordLog)})
    {
      ghost var a := Img();
      StoreInDev(key, value);
      Track(key);
      RedirectMeans(a, Img(), hash, key, Stored(value), used);
    }

    method StoreInDev(key: Key, value: Value)
      requires Valid() && dev.HasRoom(|value|)
      modifies this`kacheFlag, dev, dev.valueLog, dev.recordLog
      ensures Valid() && Img() == old(Img()).(dev := old(Img()).dev[key := Stored(value)], kache := 1)
      ensures dev.pending == [] || dev.pending == old(dev.pending) + [Record(key, Stored(value))]
      ensures dev.keys == old(dev.keys) && dev.values == old(dev.values)
      ensures fresh({dev.valueLog, dev.recordLog} - {old(dev.valueLog), old(dev.recordLog)})
    {
      kacheFlag := 1;
      dev.Put(key, value);
      assert tracker.Entries() == old(tracker.Entries());
    }

    method Track(key: Key)
      requires Valid()
      modifies tracker`count, tracker.table
      ensures Valid() && Img() == old(Img()).(entries := old(Img()).entries + multiset{Entry(hash(key), key)})
    {
      tracker.Insert(hash(key), key);
    }

    /** A Put while there is no stall. */
    method PutHost(key: Key, value: Value, ghost used: set<Key>)
      requires Valid()
      modifies this`main, tracker`count, tracker.table
      ensures Valid() && HostDone(old(Img()), Img(), hash, key, value)
      ensures Overwrites(old(Img()), Img(), hash, key, value, used)
    {
      ghost var a := Img();
      if kacheFlag == 0 {
        main := main[key := value];
      } else {
        PutLocked(key, value);
      }
      HostMeans(a, Img(), hash, key, value, used);
    }

    /** The critical section of an unstalled Put while keys are redirected. */
    method PutLocked(key: Key, value: Value)
      requires Valid()
      modifies this`main, tracker`count, tracker.table
      ensures Valid() && main == old(main)[key := value]
      ensures DropsOne(old(tracker.Entries()), tracker.Entries(), hash(key))
    {
      var found := Untrack(key);
      main := main[key := value];
    }

    /** Drops one tracker entry of the key, if there is one. */
    method Untrack(key: Key) returns (found: bool)
      requires Valid()
      modifies tracker`count, tracker.table
      ensures Valid() && found == old(HasKey(tracker.Entries(), hash(key)))
      ensures DropsOne(old(tracker.Entries()), tracker.Entries(), hash(key))
    {
      found := tracker.Contains(hash(key));
      if found {
        assert dev.Valid();
        tracker.Delete(hash(key));
        assert dev.Valid();
      }
    }

    method Put(level: Protocol.Level, key: Key, value: Value, ghost used: set<Key>)
      requires Valid() && (level.High? ==> dev.HasRoom(|value|))
      modifies this`kacheFlag, this`main, dev, dev.valueLog, dev.recordLog, tracker`count, tracker.table
      ensures Valid() && dev.keys == old(dev.keys) && dev.values == old(dev.values)
      ensures fresh({dev.valueLog, dev.recordLog} - {old(dev.valueLog), old(dev.recordLog)})
      ensures if level.High? then RedirectDone(old(Img()), Img(), hash, key, Stored(value))
              else HostDone(old(Img()), Img(), hash, key, value)
      ensures if level.High? then Redirects(old(Img()), Img(), hash, key, Stored(value), used)
              else Overwrites(old(Img()), Img(), hash, key, value, used)
      ensures if level.High?
              then dev.pending == [] || dev.pending == old(dev.pending) + [Record(key, Stored(value))]
              else dev.pending == old(dev.pending)
    {
      if !level.High? {
        PutHost(key, value, used);
      } else {
        PutRedirected(key, value, used);
      }
    }

    /** Reads the logical value, unless a record of the key is still in the host buffer. */
    method Get(key: Key) returns (value: Option<Value>)
      requires Valid()
      requires kacheFlag == 0 ==> tracker.Entries() == multiset{}
      ensures !Mentions(dev.pending, key) ==> value == ValueIn(Img(), hash, key)
      ensures value == if Tracked(tracker.Entries(), hash, key) then Lookup(dev.dev, key) else Lookup(main, key)
    {
      if kacheFlag == 0 {
        value := Lookup(main, key);
      } else {
        var found := tracker.Contains(hash(key));
        if found {
          value := dev.Get(key);
        } else {
          value := Lookup(main, key);
        }
      }
    }

    /** The critical section of one item: drop one tracker entry and write Main, if it is tracked. */
    method MoveItem(key: Key, value: Value)
      requires Valid()
      modifies this`main, tracker`count, tracker.table
      ensures Valid()
      ensures DropsOne(old(tracker.Entries()), tracker.Entries(), hash(key))
      ensures main == if old(HasKey(tracker.Entries(), hash(key))) then old(main)[key := value]
                      else old(main)
    {
      var found := Untrack(key);
      if found {
        main := main[key := value];
      }
    }

    /** The scan of `iter` has returned the first `c` items. */
    ghost predicate ScanAt(iter: nat, items: seq<Record>, c: nat)
      reads dev
    {
      && dev.Scanning(iter) && dev.pending == [] && NonEmpty(dev.batches)
      && c <= |items| && dev.Left(iter) == items[c..]
      && forall i :: 0 <= i < ITERATORS && i != iter ==> dev.keys[i] == [] && dev.values[i] == []
    }

    /** CreateIter and SeekScan: everything buffered is flushed, and the first item comes back. */
    method FirstItem(iter: nat, answers: seq<Reply>, ghost made: seq<Batch>, key0: Key, value0: Value)
      returns (flag: int, key: Key, value: Value)
      requires Valid() && Idle() && iter < ITERATORS
      requires Stream(answers, made) && answers != [] && NonEmpty(made)
      modifies dev`initRequired, dev`valuePages, dev`recordCount, dev`bufferingCount, dev`pending, dev`dev,
               dev`staging, dev`keys, dev`values, dev`replies, dev`batches, dev`breakKey
      ensures Valid() && dev.Contents() == old(dev.Contents())
      ensures flag == 1 && ScanAt(iter, AllItems(made), 1)
      ensures AllItems(made) != [] && AllItems(made)[0] == Record(key, value)
    {
      dev.CreateIter();
      flag, key, value := SeekFirst(iter, answers, made, key0, value0);
    }

    method SeekFirst(iter: nat, answers: seq<Reply>, ghost made: seq<Batch>, key0: Key, value0: Value)
      returns (flag: int, key: Key, value: Value)
      requires Idle() && iter < ITERATORS && |dev.breakKey| == ITERATORS && dev.pending == []
      requires Stream(answers, made) && answers != [] && NonEmpty(made)
      modifies dev`keys, dev`values, dev`replies, dev`batches, dev`breakKey
      ensures flag == 1 && ScanAt(iter, AllItems(made), 1)
      ensures AllItems(made) != [] && AllItems(made)[0] == Record(key, value)
    {
      assert made[0].keys != [];
      flag, key, value := dev.SeekScan(iter, answers, made, key0, value0);
      assert flag == 1;
      assert AllItems(made)[1..] == dev.Left(iter);
    }

    /** NextScan: the next item, or -3 after the last. */
    method NextItem(iter: nat, key0: Key, value0: Value, ghost items: seq<Record>, ghost c: nat)
      returns (flag: int, key: Key, value: Value)
      requires Valid() && ScanAt(iter, items, c)
      modifies dev`keys, dev`values, dev`replies, dev`batches, dev`breakKey
      ensures Valid() && dev.Contents() == old(dev.Contents())
      ensures if c == |items| then flag == -3 && Idle() && dev.pending == []
              else flag == 1 && ScanAt(iter, items, c + 1) && items[c] == Record(key, value)
    {
      flag, key, value := dev.NextScan(iter, key0, value0);
      if flag == 1 {
        HeadOfRest(items, c, Record(key, value), dev.Left(iter));
      }
    }

    /** Every value is as at the start, and the first `c` items have been dealt with. */
    ghost predicate Rolling(p: Plan, c: nat)
      reads this, dev, dev.valueLog, dev.recordLog, tracker, tracker.table
    {
      && Valid() && dev.Contents() == p.dev && rollbackFlag == 1
      && Underway(p.entries, p.main, tracker.Entries(), main, p.dev, hash, p.used, p.items, c)
    }

    /** Where the loop stands: not started, or with a scan that has returned `c` items. */
    ghost predicate Stage(p: Plan, iter: nat, started: bool, c: nat)
      reads this, dev, dev.valueLog, dev.recordLog, tracker, tracker.table
    {
      && Rolling(p, c) && iter < ITERATORS
      && if started then ScanAt(iter, p.items, c)
         else c == 0 && Idle()
    }

    /** The loop after `n` rounds: the scan is over, or `n` items have been dealt with. */
    ghost predicate Looping(p: Plan, iter: nat, flag: int, n: nat)
      reads this, dev, dev.valueLog, dev.recordLog, tracker, tracker.table
    {
      var over := n == |p.items| + 1 && Rolling(p, |p.items|) && dev.pending == [] && Idle();
      var going := n <= |p.items| && Stage(p, iter, flag >= 0, n);
      if flag == -3 then over else going
    }

    /** The item in hand is moved. */
    method Settle(iter: nat, ghost p: Plan, ghost c: nat, key: Key, value: Value)
      requires Rolling(p, c) && iter < ITERATORS && c < |p.items| && p.items[c] == Record(key, value)
      requires ScanAt(iter, p.items, c + 1)
      modifies this`main, tracker`count, tracker.table
      ensures Stage(p, iter, true, c + 1)
    {
      ghost var e, m := tracker.Entries(), main;
      MoveItem(key, value);
      MoveNext(p.entries, p.main, e, tracker.Entries(), m, p.dev, hash, p.used, p.items, c);
    }

    /** The loop body when there is no iterator yet. */
    method FirstRound(iter: nat, answers: seq<Reply>, ghost made: seq<Batch>, ghost p: Plan,
                      ghost c: nat, key0: Key, value0: Value)
      returns (flag: int, key: Key, value: Value)
      requires Stage(p, iter, false, c)
      requires Stream(answers, made) && answers != [] && NonEmpty(made) && p.items == AllItems(made)
      modifies this`main, tracker`count, tracker.table,
               dev`initRequired, dev`valuePages, dev`recordCount, dev`bufferingCount, dev`pending, dev`dev,
               dev`staging, dev`keys, dev`values, dev`replies, dev`batches, dev`breakKey
      ensures flag == 1 && Looping(p, iter, flag, c + 1)
    {
      ghost var e := tracker.Entries();
      assert Underway(p.entries, p.main, e, main, p.dev, hash, p.used, p.items, c);
      flag, key, value := FirstItem(iter, answers, made, key0, value0);
      assert tracker.Entries() == e && c == 0 && ScanAt(iter, p.items, 1);
      Settle(iter, p, c, key, value);
    }

    /** The loop body with an iterator; -3 tells that the scan is over. */
    method NextRound(iter: nat, ghost p: Plan, ghost c: nat, key0: Key, value0: Value)
      returns (flag: int, key: Key, value: Value)
      requires Stage(p, iter, true, c)
      modifies this`main, dev`keys, dev`values, dev`replies, dev`batches, dev`breakKey,
               tracker`count, tracker.table
      ensures Looping(p, iter, flag, c + 1)
    {
      flag, key, value := NextItem(iter, key0, value0, p.items, c);
      if flag != -3 {
        Settle(iter, p, c, key, value);
      }
    }

    method BeginRollback(iter: nat, ghost p: Plan)
      requires Valid() && Idle() && iter < ITERATORS
      requires p.entries == tracker.Entries() && p.main == main && p.dev == dev.Contents()
      requires Healthy(p.entries, p.dev, p.main, hash, p.used) && Protocol.IsScanOf(p.items, p.dev)
      modifies this`rollbackFlag
      ensures Stage(p, iter, false, 0)
    {
      rollbackFlag := 1;
      PlanStarts(p, hash);
    }

    method EndRollback()
      requires Valid() && Idle() && dev.pending == []
      modifies this`kacheFlag, this`rollbackFlag, dev`keys, dev`values, dev`dev,
               tracker`count, tracker.table
      ensures Valid() && Idle() && tracker.Entries() == multiset{} && dev.Contents() == map[]
      ensures dev.pending == [] && kacheFlag == 0 && rollbackFlag == 0
    {
      dev.Reset();
      assert dev.Contents() == map[] && dev.Valid() && tracker.Valid();
      tracker.Clear();
      assert dev.Valid() && Idle();
      kacheFlag := 0;
      rollbackFlag := 0;
    }

    /** Once every item has been dealt with Main has all values, and the rest is erased. */
    method FinishRollback(ghost p: Plan)
      requires Rolling(p, |p.items|) && Idle() && dev.pending == []
      modifies this`kacheFlag, this`rollbackFlag, dev`keys, dev`values, dev`dev,
               tracker`count, tracker.table
      ensures Valid() && Idle() && SaneIn(Img(), hash, p.used)
      ensures Img() == Image(multiset{}, map[], main, 0) && dev.pending == [] && rollbackFlag == 0
      ensures forall k: Key :: ValueIn(Img(), hash, k) == ViewOf(p.entries, p.dev, p.main, hash, k)
    {
      MovedPlan(p, tracker.Entries(), main, hash);
      EndRollback();
    }

    /** The loop body: seek without an iterator, go on with one, stop after the last item. */
    method Round(iter: nat, answers: seq<Reply>, ghost made: seq<Batch>, ghost p: Plan, ghost c: nat,
                 flag0: int, key0: Key, value0: Value)
      returns (flag: int, key: Key, value: Value)
      requires flag0 != -3 && Looping(p, iter, flag0, c)
      requires Stream(answers, made) && answers != [] && NonEmpty(made) && p.items == AllItems(made)
      modifies this`main, tracker`count, tracker.table,
               dev`initRequired, dev`valuePages, dev`recordCount, dev`bufferingCount, dev`pending, dev`dev,
               dev`staging, dev`keys, dev`values, dev`replies, dev`batches, dev`breakKey
      ensures Looping(p, iter, flag, c + 1)
    {
      if flag0 < 0 {
        flag, key, value := FirstRound(iter, answers, made, p, c, key0, value0);
      } else {
        flag, key, value := NextRound(iter, p, c, key0, value0);
      }
    }

    /** The loop: every item the scan returns is dealt with. */
    method MoveAll(iter: nat, answers: seq<Reply>, ghost made: seq<Batch>, ghost p: Plan)
      returns (iterations: nat)
      requires Stage(p, iter, false, 0)
      requires Stream(answers, made) && answers != [] && NonEmpty(made) && p.items == AllItems(made)
      modifies this`main, tracker`count, tracker.table,
               dev`initRequired, dev`valuePages, dev`recordCount, dev`bufferingCount, dev`pending, dev`dev,
               dev`staging, dev`keys, dev`values, dev`replies, dev`batches, dev`breakKey
      ensures Looping(p, iter, -3, iterations)
    {
      iterations := 0;
      var flag, key, value := -2, 0, [];
      while flag != -3
        invariant Looping(p, iter, flag, iterations)
        decreases |p.items| + 1 - iterations
      {
        flag, key, value := Round(iter, answers, made, p, iterations, flag, key, value);
        iterations := iterations + 1;
      }
    }

    /**
     One rollback.  `answers` is what the device replies to the scan of iterator `iter`; by the
     firmware contract the replies are not empty and hold every record once.

     Every key keeps its value, and at the end Main alone has them all.  The loop body runs once
     per device record and once more.
     */
    method Rollback(iter: nat, answers: seq<Reply>, ghost made: seq<Batch>, ghost used: set<Key>)
      returns (iterations: nat)
      requires Valid() && Idle() && SaneIn(Img(), hash, used) && iter < ITERATORS
      requires Stream(answers, made) && answers != [] && NonEmpty(made)
      requires Protocol.IsScanOf(AllItems(made), dev.Contents())
      modifies this`main, this`kacheFlag, this`rollbackFlag, dev, tracker`count, tracker.table
      ensures Valid() && Idle() && SaneIn(Img(), hash, used)
      ensures dev.valueLog == old(dev.valueLog) && dev.recordLog == old(dev.recordLog)
      ensures Img() == Image(multiset{}, map[], main, 0) && dev.pending == [] && rollbackFlag == 0
      ensures forall k: Key :: ValueIn(Img(), hash, k) == ValueIn(old(Img()), hash, k)
      ensures iterations == |AllItems(made)| + 1
    {
      ghost var p := Plan(tracker.Entries(), main, dev.Contents(), used, AllItems(made));
      BeginRollback(iter, p);
      iterations := MoveAll(iter, answers, made, p);
      FinishRollback(p);
    }
  }

  lemma HeadOfRest(items: seq<Record>, c: nat, r: Record, rest: seq<Record>)
    requires c <= |items| && items[c..] == [r] + rest
    ensures c < |items| && items[c] == r && items[c + 1..] == rest
  {
  }

  lemma PlanStarts(p: Plan, hash: Key -> nat)
    requires Healthy(p.entries, p.dev, p.main, hash, p.used) && Protocol.IsScanOf(p.items, p.dev)
    ensures Underway(p.entries, p.main, p.entries, p.main, p.dev, hash, p.used, p.items, 0)
  {
  }

  lemma MovedPlan(p: Plan, e: Entries, main: map<Key, Value>, hash: Key -> nat)
    requires Underway(p.entries, p.main, e, main, p.dev, hash, p.used, p.items, |p.items|)
    ensures forall k: Key :: Lookup(main, k) == ViewOf(p.entries, p.dev, p.main, hash, k)
    ensures SaneIn(Image(multiset{}, map[], main, 0), hash, p.used)
    ensures forall k: Key :: ValueIn(Image(multiset{}, map[], main, 0), hash, k)
                          == ViewOf(p.entries, p.dev, p.main, hash, k)
  {
  }
}
