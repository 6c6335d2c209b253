/**
 The redirect/rollback protocol as a transition system.

 Any number of client threads run Put and Get while one rollback thread drains Dev-LSM back
 into Main-LSM.  A transition is one access to shared state: a lock operation, a flag read or
 write, one operation of the key tracker, or one operation of either store.  Between two
 transitions of a thread every other thread may take any number of its own.

 The journal is not part of the program.  It records when each operation takes effect, so that
 the program can be compared with one plain map of last writes.
 */
module Protocol {
  import opened Types

  type Tid = nat

  /** Records held in the host write buffer before a flush is forced (LIMIT_VALUE_BUFFER_ENTRY). */
  const FLUSH_LIMIT: nat := 128

  /** Rollback starts only when Level 0 holds at most this many files. */
  const ROLLBACK_L0_LIMIT: nat := 26

  datatype Level = Zero | Low | Middle | High

  datatype Owner = Nobody | ByRollback | ByClient(tid: Tid)

  /** Where a client stands.  `op` is the instant of its call, `k` its key and `v` its value. */
  datatype Client =
    | Idle
      // Put, when the monitor did not report a stall
    | PutFlag(op: nat, k: Key, v: Value)                  // reads kache_flag
    | PutMain(op: nat, k: Key, v: Value)                  // saw 0: writes Main holding no lock
    | PutWaitReset(op: nat, k: Key, v: Value)             // saw 1: takes reset_mtx
    | PutWaitRollback(op: nat, k: Key, v: Value)          // takes rollback_mtx
    | PutTracker(op: nat, k: Key, v: Value)               // drops one tracker entry
    | PutHost(op: nat, k: Key, v: Value, moved: bool)     // writes Main
    | PutUnlockRollback(op: nat, k: Key, v: Value)
    | PutUnlockReset(op: nat, k: Key, v: Value)
      // Put, when the monitor reported a stall
    | RedWaitReset(op: nat, k: Key, v: Value)             // takes reset_mtx
    | RedFlag(op: nat, k: Key, v: Value)                  // sets kache_flag
    | RedDev(op: nat, k: Key, v: Value)                   // writes Dev-LSM
    | RedTrack(op: nat, k: Key, v: Value)                 // inserts the tracker entry
    | RedUnlock(op: nat, k: Key, v: Value)
      // Get
    | GetFlag(op: nat, k: Key)                            // reads kache_flag
    | GetRollbackFlag(op: nat, k: Key)                    // saw 1: reads rollback_flag
    | GetLock(op: nat, k: Key)                            // saw 1: takes rollback_mtx shared
    | GetTracker(op: nat, k: Key, locked: bool)           // asks the tracker
    | GetDev(op: nat, k: Key, locked: bool)               // reads Dev-LSM
    | GetMain(op: nat, k: Key, locked: bool, clean: bool) // reads Main
    | GetDone(op: nat, k: Key, locked: bool, clean: bool, res: Option<Value>)

  /** Where the rollback thread stands. */
  datatype Rollback =
    | Sleep
    | WaitReset
    | SetFlag
    | Create                     // CreateIter: flushes the host write buffer
    | Seek                       // SeekScan
    | WaitItem(k: Key, v: Value) // holds an item, takes rollback_mtx
    | Item(k: Key, v: Value)     // drops one tracker entry of the item
    | Move(k: Key, v: Value)     // writes the item to Main
    | UnlockItem
    | Next                       // NextScan
    | WaitEnd                    // scan exhausted, takes rollback_mtx
    | EraseDev
    | ClearTracker
    | ClearKache
    | ClearFlag
    | UnlockRollback
    | UnlockReset

  datatype Store = Store(
    main: map<Key, Value>,
    dev: map<Key, Value>,
    pending: seq<Record>,
    tracker: multiset<Key>,
    kache: bool,
    rollbackFlag: bool)

  datatype Locks = Locks(reset: Owner, excl: Owner, shared: set<Tid>)

  /** Progress of the current scan: items still to come, keys dealt with, loop iterations begun. */
  datatype Scan = Scan(pc: Rollback, todo: seq<Record>, visited: set<Key>, iterations: nat)

  /** One Put taking effect at instant `at`; an overtaken one takes effect just before it. */
  datatype Write = Write(op: nat, k: Key, v: Value, at: nat, visible: bool)

  datatype Done =
    | DonePut(op: nat, k: Key, v: Value, ret: nat)
    | DoneGet(op: nat, k: Key, res: Option<Value>, locked: bool, clean: bool, ret: nat)

  datatype Journal = Journal(log: seq<Write>, done: seq<Done>)

  datatype State = State(
    store: Store,
    locks: Locks,
    scan: Scan,
    level: Level,
    l0: nat,
    clients: map<Tid, Client>,
    journal: Journal,
    now: nat)

  datatype Action =
    | CallPut(tid: Tid, key: Key, value: Value)
    | CallGet(tid: Tid, key: Key)
    | Go(tid: Tid)
    | Roll(answer: seq<Record>)  // `answer` is what the device returns to SeekScan
    | Monitor(level: Level, l0: nat)

  ghost const Init := State(
    Store(map[], map[], [], multiset{}, false, false),
    Locks(Nobody, Nobody, {}),
    Scan(Sleep, [], {}, 0),
    Low, 0, map[], Journal([], []), 0)

  function Pc(s: State, t: Tid): Client {
    if t in s.clients then s.clients[t] else Idle
  }

  // ---------------------------------------------------------------- what the store means

  /** Dev-LSM together with the records the host has buffered but not flushed. */
  function Dev(st: Store): map<Key, Value> {
    Overlay(st.dev, st.pending)
  }

  /** The client inside the host critical section, if there is one. */
  function HostClient(s: State): Client {
    if s.locks.excl.ByClient? then Pc(s, s.locks.excl.tid) else Idle
  }

  /** The tracker entry of `k` is gone but its value has not reached Main yet. */
  predicate HalfMoved(s: State, k: Key) {
    || (s.scan.pc.Move? && s.scan.pc.k == k)
    || (HostClient(s).PutHost? && HostClient(s).moved && HostClient(s).k == k)
  }

  /** Dev-LSM, not Main, holds the current value of `k`. */
  predicate InDev(s: State, k: Key) {
    !s.scan.pc.ClearTracker? && (k in s.store.tracker || HalfMoved(s, k))
  }

  /** The logical value of `k`. */
  function View(s: State, k: Key): Option<Value> {
    if InDev(s, k) then Lookup(Dev(s.store), k) else Lookup(s.store.main, k)
  }

  // ---------------------------------------------------------------- the plain map of last writes

  /** The value of `k` in the map of last writes at instant `t`. */
  function SpecAt(log: seq<Write>, k: Key, t: nat): Option<Value> {
    if log == [] then None
    else
      var last := log[|log| - 1];
      if last.visible && last.k == k && last.at <= t then Some(last.v)
      else SpecAt(log[..|log| - 1], k, t)
  }

  /** The value of `k` in the map of last writes. */
  function Spec(log: seq<Write>, k: Key): Option<Value> {
    if log == [] then None
    else
      var last := log[|log| - 1];
      if last.visible && last.k == k then Some(last.v) else Spec(log[..|log| - 1], k)
  }

  /** The instant of the last write of `k`. */
  function Stamp(log: seq<Write>, k: Key): nat {
    if log == [] then 0
    else
      var last := log[|log| - 1];
      if last.visible && last.k == k then last.at else Stamp(log[..|log| - 1], k)
  }

  // ---------------------------------------------------------------- transitions

  predicate Enabled(s: State, a: Action) {
    match a
    case CallPut(t, _, _) => Pc(s, t).Idle?
    case CallGet(t, _) => Pc(s, t).Idle?
    case Go(t) => ClientEnabled(s, Pc(s, t))
    case Roll(answer) => RollEnabled(s, answer)
    case Monitor(_, _) => true
  }

  predicate ClientEnabled(s: State, c: Client) {
    match c
    case Idle => false
    case PutWaitReset(_, _, _) => s.locks.reset.Nobody?
    case RedWaitReset(_, _, _) => s.locks.reset.Nobody?
    case PutWaitRollback(_, _, _) => s.locks.excl.Nobody? && s.locks.shared == {}
    case GetLock(_, _) => s.locks.excl.Nobody?
    case _ => true
  }

  /** What SeekScan and NextScan return over one pass: every device record exactly once. */
  predicate IsScanOf(answer: seq<Record>, dev: map<Key, Value>) {
    && (forall i :: 0 <= i < |answer| ==> Lookup(dev, answer[i].key) == Some(answer[i].value))
    && (forall i, j :: 0 <= i < j < |answer| ==> answer[i].key != answer[j].key)
    && (forall k: Key :: k in dev ==> Mentions(answer, k))
  }

  predicate RollEnabled(s: State, answer: seq<Record>) {
    match s.scan.pc
    case WaitReset => s.locks.reset.Nobody?
    case WaitItem(_, _) => s.locks.excl.Nobody? && s.locks.shared == {}
    case WaitEnd => s.locks.excl.Nobody? && s.locks.shared == {}
    case Seek => IsScanOf(answer, s.store.dev) && answer != []
    case _ => true
  }

  function Step(s: State, a: Action): State
    requires Enabled(s, a)
  {
    var n :=
      match a
      case CallPut(t, k, v) =>
        Goto(s, t, if s.level.High? then RedWaitReset(s.now, k, v) else PutFlag(s.now, k, v))
      case CallGet(t, k) => Goto(s, t, GetFlag(s.now, k))
      case Go(t) =>
        var c := Pc(s, t);
        if IsHostPut(c) then HostPutStep(s, t, c)
        else if IsRedirect(c) then RedirectStep(s, t, c)
        else GetStep(s, t, c)
      case Roll(answer) => if Moving(s.scan.pc) then MoveStep(s, answer) else EndStep(s)
      case Monitor(level, l0) => s.(level := level, l0 := l0);
    n.(now := s.now + 1)
  }

  predicate IsHostPut(c: Client) {
    || c.PutFlag? || c.PutMain? || c.PutWaitReset? || c.PutWaitRollback? || c.PutTracker?
    || c.PutHost? || c.PutUnlockRollback? || c.PutUnlockReset?
  }

  predicate IsRedirect(c: Client) {
    c.RedWaitReset? || c.RedFlag? || c.RedDev? || c.RedTrack? || c.RedUnlock?
  }

  predicate IsGet(c: Client) {
    || c.GetFlag? || c.GetRollbackFlag? || c.GetLock? || c.GetTracker? || c.GetDev?
    || c.GetMain? || c.GetDone?
  }

  function Goto(s: State, t: Tid, c: Client): State {
    s.(clients := s.clients[t := c])
  }

  function Commit(s: State, w: Write): State {
    s.(journal := s.journal.(log := s.journal.log + [w]))
  }

  function Return(s: State, t: Tid, d: Done): State {
    s.(journal := s.journal.(done := s.journal.done + [d]), clients := s.clients[t := Idle])
  }

  /**
   When a Put that holds no lock takes effect.  If Dev-LSM holds the key by now, a redirected Put
   overtook this one, and it takes effect just before that one.
   */
  function MainWrite(s: State, op: nat, k: Key, v: Value): Write {
    if InDev(s, k) then Write(op, k, v, Stamp(s.journal.log, k), false)
    else Write(op, k, v, s.now, true)
  }

  function HostPutStep(s: State, t: Tid, c: Client): State
    requires IsHostPut(c)
  {
    var st := s.store;
    match c
    case PutFlag(op, k, v) =>
      Goto(s, t, if st.kache then PutWaitReset(op, k, v) else PutMain(op, k, v))
    case PutMain(op, k, v) =>
      Return(Commit(s.(store := st.(main := st.main[k := v])), MainWrite(s, op, k, v)), t,
             DonePut(op, k, v, s.now))
    case PutWaitReset(op, k, v) =>
      Goto(s.(locks := s.locks.(reset := ByClient(t))), t, PutWaitRollback(op, k, v))
    case PutWaitRollback(op, k, v) =>
      Goto(s.(locks := s.locks.(excl := ByClient(t))), t, PutTracker(op, k, v))
    case PutTracker(op, k, v) =>
      Goto(s.(store := st.(tracker := st.tracker - multiset{k})), t,
           PutHost(op, k, v, k in st.tracker))
    case PutHost(op, k, v, _) =>
      Goto(Commit(s.(store := st.(main := st.main[k := v])), Write(op, k, v, s.now, true)), t,
           PutUnlockRollback(op, k, v))
    case PutUnlockRollback(op, k, v) =>
      Goto(s.(locks := s.locks.(excl := Nobody)), t, PutUnlockReset(op, k, v))
    case PutUnlockReset(op, k, v) =>
      Return(s.(locks := s.locks.(reset := Nobody)), t, DonePut(op, k, v, s.now))
  }

  /** The host write buffer after one more record, flushed when it is full. */
  function Buffer(st: Store, r: Record): Store {
    var pending := st.pending + [r];
    if |pending| == FLUSH_LIMIT then Flush(st.(pending := pending)) else st.(pending := pending)
  }

  function Flush(st: Store): Store {
    st.(dev := Dev(st), pending := [])
  }

  function RedirectStep(s: State, t: Tid, c: Client): State
    requires IsRedirect(c)
  {
    var st := s.store;
    match c
    case RedWaitReset(op, k, v) =>
      Goto(s.(locks := s.locks.(reset := ByClient(t))), t, RedFlag(op, k, v))
    case RedFlag(op, k, v) =>
      Goto(s.(store := st.(kache := true)), t, RedDev(op, k, v))
    case RedDev(op, k, v) =>
      // A key that is already tracked is read from Dev-LSM, so the write shows at once.
      var s1 := s.(store := Buffer(st, Record(k, v)));
      Goto(if k in st.tracker then Commit(s1, Write(op, k, v, s.now, true)) else s1, t,
           RedTrack(op, k, v))
    case RedTrack(op, k, v) =>
      var s1 := s.(store := st.(tracker := st.tracker + multiset{k}));
      Goto(if k in st.tracker then s1 else Commit(s1, Write(op, k, v, s.now, true)), t,
           RedUnlock(op, k, v))
    case RedUnlock(op, k, v) =>
      Return(s.(locks := s.locks.(reset := Nobody)), t, DonePut(op, k, v, s.now))
  }

  function GetStep(s: State, t: Tid, c: Client): State {
    var st := s.store;
    match c
    case GetFlag(op, k) =>
      Goto(s, t, if st.kache then GetRollbackFlag(op, k) else GetMain(op, k, false, true))
    case GetRollbackFlag(op, k) =>
      Goto(s, t, if st.rollbackFlag then GetLock(op, k) else GetTracker(op, k, false))
    case GetLock(op, k) =>
      Goto(s.(locks := s.locks.(shared := s.locks.shared + {t})), t, GetTracker(op, k, true))
    case GetTracker(op, k, locked) =>
      Goto(s, t, if k in st.tracker then GetDev(op, k, locked)
                 else GetMain(op, k, locked, !HalfMoved(s, k)))
    case GetDev(op, k, locked) =>
      // The device is asked directly: records still buffered by the host are not seen.
      Goto(s, t, GetDone(op, k, locked, DevIsCurrent(s, k), Lookup(st.dev, k)))
    case GetMain(op, k, locked, clean) =>
      Goto(s, t, GetDone(op, k, locked, clean, Lookup(st.main, k)))
    case GetDone(op, k, locked, clean, res) =>
      Return(if locked then s.(locks := s.locks.(shared := s.locks.shared - {t})) else s, t,
             DoneGet(op, k, res, locked, clean, s.now))
    case _ => s
  }

  /** The device itself holds the current value of `k`. */
  predicate DevIsCurrent(s: State, k: Key) {
    k in s.store.tracker && !s.scan.pc.ClearTracker? && !Mentions(s.store.pending, k)
  }

  predicate Moving(pc: Rollback) {
    || pc.Sleep? || pc.WaitReset? || pc.SetFlag? || pc.Create? || pc.Seek? || pc.WaitItem?
    || pc.Item? || pc.Move?
  }

  function At(s: State, pc: Rollback): State {
    s.(scan := s.scan.(pc := pc))
  }

  function MoveStep(s: State, answer: seq<Record>): State
    requires Moving(s.scan.pc) && RollEnabled(s, answer)
  {
    var st := s.store;
    match s.scan.pc
    case Sleep => if s.l0 <= ROLLBACK_L0_LIMIT && st.kache then At(s, WaitReset) else s
    case WaitReset => At(s.(locks := s.locks.(reset := ByRollback)), SetFlag)
    case SetFlag => At(s.(store := st.(rollbackFlag := true)), Create)
    case Create => At(s.(store := Flush(st)), Seek)
    case Seek => s.(scan := Scan(WaitItem(answer[0].key, answer[0].value), answer[1..], {}, 1))
    case WaitItem(k, v) => At(s.(locks := s.locks.(excl := ByRollback)), Item(k, v))
    case Item(k, v) =>
      if k in st.tracker then At(s.(store := st.(tracker := st.tracker - multiset{k})), Move(k, v))
      else s.(scan := s.scan.(pc := UnlockItem, visited := s.scan.visited + {k}))
    case Move(k, v) =>
      s.(store := st.(main := st.main[k := v]),
         scan := s.scan.(pc := UnlockItem, visited := s.scan.visited + {k}))
  }

  function EndStep(s: State): State
    requires !Moving(s.scan.pc)
  {
    var st := s.store;
    match s.scan.pc
    case UnlockItem => At(s.(locks := s.locks.(excl := Nobody)), Next)
    case Next =>
      var sc := s.scan.(iterations := s.scan.iterations + 1);
      if sc.todo == [] then s.(scan := sc.(pc := WaitEnd))
      else s.(scan := sc.(pc := WaitItem(sc.todo[0].key, sc.todo[0].value), todo := sc.todo[1..]))
    case WaitEnd => At(s.(locks := s.locks.(excl := ByRollback)), EraseDev)
    case EraseDev => At(s.(store := st.(dev := map[])), ClearTracker)
    case ClearTracker => At(s.(store := st.(tracker := multiset{})), ClearKache)
    case ClearKache => At(s.(store := st.(kache := false)), ClearFlag)
    case ClearFlag => At(s.(store := st.(rollbackFlag := false)), UnlockRollback)
    case UnlockRollback => At(s.(locks := s.locks.(excl := Nobody)), UnlockReset)
    case UnlockReset => At(s.(locks := s.locks.(reset := Nobody)), Sleep)
  }

  // ---------------------------------------------------------------- runs

  /** Action `i` leads from state `i` to the next. */
  predicate IsStep(states: seq<State>, actions: seq<Action>, i: nat)
    requires i < |actions| < |states|
  {
    Enabled(states[i], actions[i]) && states[i + 1] == Step(states[i], actions[i])
  }

  /** A run: the states visited and the actions taken between them, from the initial state. */
  ghost predicate IsRun(states: seq<State>, actions: seq<Action>) {
    && |states| == |actions| + 1
    && states[0] == Init
    && forall i :: 0 <= i < |actions| ==> IsStep(states, actions, i)
  }
}
