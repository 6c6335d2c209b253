/**
 What every reachable state of the protocol satisfies, with no assumption on the workload:
 who holds which lock, what the flags say about Dev-LSM, and how far the scan has come.
 */
module ProtocolInvariants {
  import opened Types
  import opened Protocol

  // ---------------------------------------------------------------- lock ownership

  predicate HoldsReset(c: Client) {
    || c.PutWaitRollback? || c.PutTracker? || c.PutHost? || c.PutUnlockRollback?
    || c.PutUnlockReset? || c.RedFlag? || c.RedDev? || c.RedTrack? || c.RedUnlock?
  }

  predicate HoldsExcl(c: Client) {
    c.PutTracker? || c.PutHost? || c.PutUnlockRollback?
  }

  predicate HoldsShared(c: Client) {
    (c.GetTracker? || c.GetDev? || c.GetMain? || c.GetDone?) && c.locked
  }

  predicate RollHoldsReset(pc: Rollback) {
    !(pc.Sleep? || pc.WaitReset?)
  }

  predicate RollHoldsExcl(pc: Rollback) {
    || pc.Item? || pc.Move? || pc.UnlockItem? || pc.EraseDev? || pc.ClearTracker?
    || pc.ClearKache? || pc.ClearFlag? || pc.UnlockRollback?
  }

  ghost predicate LockInv(s: State) {
    && (forall t :: HoldsReset(Pc(s, t)) <==> s.locks.reset == ByClient(t))
    && (RollHoldsReset(s.scan.pc) <==> s.locks.reset == ByRollback)
    && (forall t :: HoldsExcl(Pc(s, t)) <==> s.locks.excl == ByClient(t))
    && (RollHoldsExcl(s.scan.pc) <==> s.locks.excl == ByRollback)
    && (forall t :: HoldsShared(Pc(s, t)) <==> t in s.locks.shared)
    && (!s.locks.excl.Nobody? ==> s.locks.shared == {})
  }

  /** Client `t` moves to `c`; a lock it newly holds was free, a lock it no longer holds is free. */
  predicate LocksFollow(l: Locks, m: Locks, t: Tid, b: Client, c: Client) {
    && (if HoldsReset(b) == HoldsReset(c) then m.reset == l.reset
        else if HoldsReset(c) then l.reset.Nobody? && m.reset == ByClient(t)
        else m.reset.Nobody?)
    && (if HoldsExcl(b) == HoldsExcl(c) then m.excl == l.excl
        else if HoldsExcl(c) then l.excl.Nobody? && l.shared == {} && m.excl == ByClient(t)
        else m.excl.Nobody?)
    && (if HoldsShared(b) == HoldsShared(c) then m.shared == l.shared
        else if HoldsShared(c) then l.excl.Nobody? && m.shared == l.shared + {t}
        else m.shared == l.shared - {t})
  }

  lemma LocksKeptByClient(s: State, n: State, t: Tid, c: Client)
    requires LockInv(s)
    requires n.clients == s.clients[t := c] && n.scan.pc == s.scan.pc
    requires LocksFollow(s.locks, n.locks, t, Pc(s, t), c)
    ensures LockInv(n)
  {
  }

  lemma LocksKeptByRoll(s: State, answer: seq<Record>)
    requires LockInv(s) && RollEnabled(s, answer)
    ensures LockInv(Step(s, Roll(answer)))
  {
    var n := Step(s, Roll(answer));
    RollFollowsLocks(s, answer);
    forall u ensures (HoldsReset(Pc(n, u)) <==> n.locks.reset == ByClient(u))
                  && (HoldsExcl(Pc(n, u)) <==> n.locks.excl == ByClient(u))
                  && (HoldsShared(Pc(n, u)) <==> u in n.locks.shared) {
      assert HoldsReset(Pc(s, u)) <==> s.locks.reset == ByClient(u);
      assert HoldsExcl(Pc(s, u)) <==> s.locks.excl == ByClient(u);
      assert HoldsShared(Pc(s, u)) <==> u in s.locks.shared;
    }
  }

  /** A lock the rollback thread newly holds was free, a lock it no longer holds is free. */
  lemma RollFollowsLocks(s: State, answer: seq<Record>)
    requires RollEnabled(s, answer)
    ensures var n := Step(s, Roll(answer));
            var b, c, l, m := s.scan.pc, n.scan.pc, s.locks, n.locks;
            && n.clients == s.clients && m.shared == l.shared
            && (if RollHoldsReset(b) == RollHoldsReset(c) then m.reset == l.reset
                else if RollHoldsReset(c) then l.reset.Nobody? && m.reset == ByRollback
                else m.reset.Nobody?)
            && (if RollHoldsExcl(b) == RollHoldsExcl(c) then m.excl == l.excl
                else if RollHoldsExcl(c) then l.excl.Nobody? && l.shared == {} && m.excl == ByRollback
                else m.excl.Nobody?)
  {
    if Moving(s.scan.pc) {
      match s.scan.pc case _ =>
    } else {
      match s.scan.pc case _ =>
    }
  }

  lemma StepFollowsLocks(s: State, t: Tid)
    requires Enabled(s, Go(t))
    ensures var n := Step(s, Go(t));
            LocksFollow(s.locks, n.locks, t, Pc(s, t), Pc(n, t))
  {
    var c := Pc(s, t);
    if IsHostPut(c) {
      HostPutFollowsLocks(s, t);
    } else if IsRedirect(c) {
      RedirectFollowsLocks(s, t);
    } else {
      match c case _ =>
    }
  }

  lemma RedirectFollowsLocks(s: State, t: Tid)
    requires Enabled(s, Go(t)) && IsRedirect(Pc(s, t))
    ensures var n := Step(s, Go(t));
            LocksFollow(s.locks, n.locks, t, Pc(s, t), Pc(n, t))
  {
  }

  lemma HostPutFollowsLocks(s: State, t: Tid)
    requires Enabled(s, Go(t)) && IsHostPut(Pc(s, t))
    ensures var n := Step(s, Go(t));
            LocksFollow(s.locks, n.locks, t, Pc(s, t), Pc(n, t))
  {
    match Pc(s, t) case _ =>
  }

  lemma StepMovesOneClient(s: State, t: Tid)
    requires Enabled(s, Go(t))
    ensures var n := Step(s, Go(t));
            n.clients == s.clients[t := Pc(n, t)] && n.scan == s.scan
  {
    var c := Pc(s, t);
    if IsHostPut(c) {
      match c case _ =>
    } else if IsRedirect(c) {
      match c case _ =>
    } else {
      match c case _ =>
    }
  }

  lemma LocksKept(s: State, a: Action)
    requires LockInv(s) && Enabled(s, a)
    ensures LockInv(Step(s, a))
  {
    match a
    case CallPut(t, _, _) => LocksKeptByClient(s, Step(s, a), t, Pc(Step(s, a), t));
    case CallGet(t, _) => LocksKeptByClient(s, Step(s, a), t, Pc(Step(s, a), t));
    case Go(t) => LocksKeptByGo(s, t);
    case Roll(answer) => LocksKeptByRoll(s, answer);
    case Monitor(_, _) =>
      assert forall u :: Pc(Step(s, a), u) == Pc(s, u);
  }

  lemma LocksKeptByGo(s: State, t: Tid)
    requires LockInv(s) && Enabled(s, Go(t))
    ensures LockInv(Step(s, Go(t)))
  {
    var n := Step(s, Go(t));
    StepFollowsLocks(s, t);
    StepMovesOneClient(s, t);
    LocksKeptByClient(s, n, t, Pc(n, t));
  }

  // ---------------------------------------------------------------- flags and Dev-LSM

  /** The client holding reset_mtx, if there is one. */
  function ResetClient(s: State): Client {
    if s.locks.reset.ByClient? then Pc(s, s.locks.reset.tid) else Idle
  }

  /** kache_flag says whether anything was redirected and not yet rolled back. */
  predicate KacheInv(s: State) {
    var st := s.store;
    && (!st.kache ==> st.tracker == multiset{} && st.dev == map[] && st.pending == [])
    && |st.pending| < FLUSH_LIMIT
    && (st.kache ==> Dev(st) != map[] || ResetClient(s).RedDev?
                     || s.scan.pc.ClearTracker? || s.scan.pc.ClearKache?)
  }

  predicate TrackedInv(s: State) {
    s.scan.pc.ClearTracker? || forall k: Key :: k in s.store.tracker ==> k in Dev(s.store)
  }

  /** The rollback thread is between setting and clearing rollback_flag. */
  predicate RollRaisesFlag(pc: Rollback) {
    RollHoldsReset(pc) && !(pc.SetFlag? || pc.UnlockRollback? || pc.UnlockReset?)
  }

  predicate RollInv(s: State) {
    var pc := s.scan.pc;
    && (s.store.rollbackFlag <==> RollRaisesFlag(pc))
    && (!(pc.Sleep? || pc.ClearFlag? || pc.UnlockRollback? || pc.UnlockReset?) ==> s.store.kache)
    && (pc.ClearFlag? || pc.UnlockRollback? || pc.UnlockReset? ==> !s.store.kache)
    && (pc.ClearKache? ==> s.store.tracker == multiset{})
    && (pc.ClearTracker? || pc.ClearKache? ==> s.store.dev == map[])
  }

  /** What the client inside a critical section knows about the store. */
  predicate HolderInv(s: State) {
    var c := ResetClient(s);
    && (c.RedDev? || c.RedTrack? ==> s.store.kache)
    && (c.RedTrack? ==> Lookup(Dev(s.store), c.k) == Some(c.v))
    && (c.PutHost? && c.moved ==> s.store.kache && c.k in Dev(s.store))
  }

  predicate FlagInv(s: State) {
    KacheInv(s) && TrackedInv(s) && RollInv(s) && HolderInv(s)
  }

  lemma BufferKeepsOrder(st: Store, r: Record)
    requires |st.pending| < FLUSH_LIMIT
    ensures Dev(Buffer(st, r)) == Dev(st)[r.key := r.value]
    ensures |Buffer(st, r).pending| < FLUSH_LIMIT
  {
  }

  lemma ResetClientIs(s: State, t: Tid)
    requires LockInv(s)
    ensures HoldsReset(Pc(s, t)) ==> ResetClient(s) == Pc(s, t)
    ensures HoldsReset(Pc(s, t)) ==> !RollHoldsReset(s.scan.pc)
    ensures !HoldsReset(Pc(s, t)) ==> s.locks.reset != ByClient(t)
  {
  }

  lemma FlagsKeptByHostPut(s: State, t: Tid)
    requires LockInv(s) && FlagInv(s) && Enabled(s, Go(t)) && IsHostPut(Pc(s, t))
    ensures FlagInv(Step(s, Go(t)))
  {
    ResetClientIs(s, t);
    match Pc(s, t)
    case PutTracker(_, _, _) => FlagsKeptByPutTracker(s, t);
    case _ =>
  }

  lemma FlagsKeptByPutTracker(s: State, t: Tid)
    requires LockInv(s) && FlagInv(s) && Pc(s, t).PutTracker?
    ensures FlagInv(Step(s, Go(t)))
  {
  }

  lemma FlagsKeptByRedirect(s: State, t: Tid)
    requires LockInv(s) && FlagInv(s) && Enabled(s, Go(t)) && IsRedirect(Pc(s, t))
    ensures FlagInv(Step(s, Go(t)))
  {
    ResetClientIs(s, t);
    match Pc(s, t) {
      case RedDev(_, _, _) => FlagsKeptByRedDev(s, t);
      case _ =>
    }
  }

  lemma FlagsKeptByRedDev(s: State, t: Tid)
    requires LockInv(s) && FlagInv(s) && Pc(s, t).RedDev?
    ensures FlagInv(Step(s, Go(t)))
  {
    ResetClientIs(s, t);
    var c := Pc(s, t);
    BufferKeepsOrder(s.store, Record(c.k, c.v));
    assert c.k in Dev(Step(s, Go(t)).store);
  }

  // ---------------------------------------------------------------- the scan

  predicate Scanning(pc: Rollback) {
    || pc.WaitItem? || pc.Item? || pc.Move? || pc.UnlockItem? || pc.Next? || pc.WaitEnd?
    || pc.EraseDev?
  }

  predicate InHand(pc: Rollback) {
    pc.WaitItem? || pc.Item? || pc.Move?
  }

  /** The items not dealt with yet: the one in hand, then those still to be returned. */
  function Remaining(sc: Scan): seq<Record> {
    if InHand(sc.pc) then [Record(sc.pc.k, sc.pc.v)] + sc.todo else sc.todo
  }

  /** From CreateIter until kache_flag is cleared the host write buffer stays empty. */
  predicate DrainedInv(s: State) {
    var pc := s.scan.pc;
    pc.Seek? || Scanning(pc) || pc.ClearTracker? || pc.ClearKache? ==> s.store.pending == []
  }

  predicate ScanInv(s: State) {
    var sc := s.scan;
    Scanning(sc.pc) ==>
      && Splits(Remaining(sc), sc.visited, s.store.dev)
      && sc.iterations == |sc.visited| + (if InHand(sc.pc) then 1 else 0)
                          + (if sc.pc.WaitEnd? || sc.pc.EraseDev? then 1 else 0)
      && (sc.pc.WaitEnd? || sc.pc.EraseDev? ==> sc.todo == [])
  }

  /** `rest` lists the records of `dev` whose keys are not in `visited`, each once. */
  predicate Splits(rest: seq<Record>, visited: set<Key>, dev: map<Key, Value>) {
    && visited <= dev.Keys
    && (forall i :: 0 <= i < |rest| ==>
          rest[i].key !in visited && Lookup(dev, rest[i].key) == Some(rest[i].value))
    && (forall i, j :: 0 <= i < j < |rest| ==> rest[i].key != rest[j].key)
    && (forall k: Key :: k in dev && k !in visited ==> Mentions(rest, k))
    && |visited| + |rest| == |dev|
  }

  ghost predicate Inv(s: State) {
    LockInv(s) && FlagInv(s) && DrainedInv(s) && ScanInv(s)
  }

  lemma FlagsKeptByMove(s: State, answer: seq<Record>)
    requires RollHoldsReset(s.scan.pc) <==> s.locks.reset == ByRollback
    requires FlagInv(s) && DrainedInv(s)
    requires RollEnabled(s, answer) && Moving(s.scan.pc)
    ensures FlagInv(Step(s, Roll(answer)))
  {
    match s.scan.pc
    case Create => FlagsKeptByCreate(s, answer);
    case Item(_, _) => FlagsKeptByItem(s, answer);
    case _ =>
  }

  lemma FlagsKeptByItem(s: State, answer: seq<Record>)
    requires FlagInv(s) && s.scan.pc.Item? && s.locks.reset == ByRollback
    ensures FlagInv(Step(s, Roll(answer)))
  {
    var n := Step(s, Roll(answer));
    if s.scan.pc.k in s.store.tracker {
      TrackerMayShrink(s, n);
    }
  }

  lemma TrackerMayShrink(s: State, n: State)
    requires FlagInv(s) && s.scan.pc.Item? && n.scan.pc.Move?
    requires s.locks.reset == n.locks.reset == ByRollback && s.store.kache
    requires n.store == s.store.(tracker := n.store.tracker) && n.store.tracker <= s.store.tracker
    ensures FlagInv(n)
  {
  }

  lemma FlagsKeptByCreate(s: State, answer: seq<Record>)
    requires FlagInv(s) && s.scan.pc.Create? && s.locks.reset == ByRollback
    ensures FlagInv(Step(s, Roll(answer)))
  {
  }

  lemma FlagsKeptByEnd(s: State, answer: seq<Record>)
    requires RollHoldsReset(s.scan.pc) <==> s.locks.reset == ByRollback
    requires FlagInv(s) && DrainedInv(s)
    requires RollEnabled(s, answer) && !Moving(s.scan.pc)
    ensures FlagInv(Step(s, Roll(answer)))
  {
    match s.scan.pc
    case EraseDev => FlagsKeptByErase(s, answer);
    case _ =>
  }

  lemma FlagsKeptByErase(s: State, answer: seq<Record>)
    requires FlagInv(s) && DrainedInv(s) && s.scan.pc.EraseDev? && s.locks.reset == ByRollback
    ensures FlagInv(Step(s, Roll(answer)))
  {
  }

  /** A client that holds reset_mtx neither before nor after its step leaves the store alone. */
  lemma FlagsKeptByOther(s: State, n: State, t: Tid)
    requires LockInv(s) && FlagInv(s) && !HoldsReset(Pc(s, t))
    requires n.clients == s.clients[t := Pc(n, t)]
    requires n.store == s.store && n.scan == s.scan && n.locks.reset == s.locks.reset
    ensures FlagInv(n)
  {
  }

  lemma FlagsKept(s: State, a: Action)
    requires LockInv(s) && FlagInv(s) && DrainedInv(s) && Enabled(s, a)
    ensures FlagInv(Step(s, a))
  {
    match a
    case CallPut(t, _, _) => FlagsKeptByOther(s, Step(s, a), t);
    case CallGet(t, _) => FlagsKeptByOther(s, Step(s, a), t);
    case Go(t) => FlagsKeptByGo(s, t);
    case Roll(answer) =>
      if Moving(s.scan.pc) {
        FlagsKeptByMove(s, answer);
      } else {
        FlagsKeptByEnd(s, answer);
      }
    case Monitor(_, _) =>
  }

  lemma FlagsKeptByGo(s: State, t: Tid)
    requires LockInv(s) && FlagInv(s) && Enabled(s, Go(t))
    ensures FlagInv(Step(s, Go(t)))
  {
    if IsHostPut(Pc(s, t)) {
      FlagsKeptByHostPut(s, t);
    } else if IsRedirect(Pc(s, t)) {
      FlagsKeptByRedirect(s, t);
    } else {
      StepMovesOneClient(s, t);
      FlagsKeptByOther(s, Step(s, Go(t)), t);
    }
  }

  // ---------------------------------------------------------------- the scan keeps its place

  /** An enumeration without repetition of the keys of a map is as long as the map is large. */
  lemma {:induction false} ScanLength(answer: seq<Record>, dev: map<Key, Value>)
    requires IsScanOf(answer, dev)
    ensures |answer| == |dev|
  {
    if answer == [] {
      assert dev.Keys == {};
    } else {
      var n := |answer| - 1;
      var k := answer[n].key;
      var rest := dev - {k};
      forall j: Key | j in rest ensures Mentions(answer[..n], j) {
        assert Mentions(answer, j);
        var i :| 0 <= i < |answer| && answer[i].key == j;
        assert answer[..n][i].key == j;
      }
      assert Lookup(dev, answer[n].key) == Some(answer[n].value);
      ScanLength(answer[..n], rest);
      assert dev.Keys == rest.Keys + {k};
    }
  }

  lemma ScanStarts(answer: seq<Record>, dev: map<Key, Value>)
    requires IsScanOf(answer, dev)
    ensures Splits(answer, {}, dev)
  {
    ScanLength(answer, dev);
  }

  lemma ScanAdvances(rest: seq<Record>, visited: set<Key>, dev: map<Key, Value>)
    requires Splits(rest, visited, dev) && rest != []
    ensures Splits(rest[1..], visited + {rest[0].key}, dev)
  {
  }

  lemma ScanKeptBySeek(s: State, answer: seq<Record>)
    requires DrainedInv(s) && s.scan.pc.Seek? && RollEnabled(s, answer)
    ensures ScanInv(Step(s, Roll(answer)))
  {
    var n := Step(s, Roll(answer));
    ScanStarts(answer, s.store.dev);
    assert Remaining(n.scan) == answer;
  }

  lemma ScanKeptByItem(s: State, answer: seq<Record>)
    requires ScanInv(s) && (s.scan.pc.Item? || s.scan.pc.Move?)
    ensures ScanInv(Step(s, Roll(answer)))
  {
    var n := Step(s, Roll(answer));
    ScanAdvances(Remaining(s.scan), s.scan.visited, s.store.dev);
    assert Remaining(s.scan)[1..] == s.scan.todo;
    if Moved(s) {
      assert Remaining(n.scan) == Remaining(s.scan);
    }
  }

  /** The step at `Item` that finds the key tracked leaves the item in hand. */
  predicate Moved(s: State) {
    s.scan.pc.Item? && s.scan.pc.k in s.store.tracker
  }

  lemma ScanKeptByNext(s: State, answer: seq<Record>)
    requires ScanInv(s) && s.scan.pc.Next?
    ensures ScanInv(Step(s, Roll(answer)))
  {
    var n := Step(s, Roll(answer));
    if s.scan.todo != [] {
      assert Remaining(n.scan) == Remaining(s.scan);
    }
  }

  lemma ScanKeptByRoll(s: State, answer: seq<Record>)
    requires ScanInv(s) && DrainedInv(s) && RollEnabled(s, answer)
    ensures ScanInv(Step(s, Roll(answer)))
  {
    match s.scan.pc
    case Seek => ScanKeptBySeek(s, answer);
    case Item(_, _) => ScanKeptByItem(s, answer);
    case Move(_, _) => ScanKeptByItem(s, answer);
    case Next => ScanKeptByNext(s, answer);
    case WaitItem(_, _) =>
      assert Remaining(Step(s, Roll(answer)).scan) == Remaining(s.scan);
    case _ =>
  }

  lemma DrainedKeptByRoll(s: State, answer: seq<Record>)
    requires DrainedInv(s) && RollEnabled(s, answer)
    ensures DrainedInv(Step(s, Roll(answer)))
  {
    match s.scan.pc case _ =>
  }

  lemma ScanKept(s: State, a: Action)
    requires LockInv(s) && ScanInv(s) && DrainedInv(s) && Enabled(s, a)
    ensures ScanInv(Step(s, a)) && DrainedInv(Step(s, a))
  {
    match a
    case Go(t) => ScanKeptByGo(s, t);
    case Roll(answer) =>
      ScanKeptByRoll(s, answer);
      DrainedKeptByRoll(s, answer);
    case _ =>
  }

  lemma ScanKeptByGo(s: State, t: Tid)
    requires LockInv(s) && ScanInv(s) && DrainedInv(s) && Enabled(s, Go(t))
    ensures ScanInv(Step(s, Go(t))) && DrainedInv(Step(s, Go(t)))
  {
    ResetClientIs(s, t);
    StepMovesOneClient(s, t);
    if !Pc(s, t).RedDev? {
      ClientsLeaveDev(s, t);
    }
  }

  /** Only a client holding reset_mtx changes Dev-LSM or the host write buffer. */
  lemma ClientsLeaveDev(s: State, t: Tid)
    requires Enabled(s, Go(t)) && !Pc(s, t).RedDev?
    ensures var n := Step(s, Go(t));
            n.store.dev == s.store.dev && n.store.pending == s.store.pending
  {
    var c := Pc(s, t);
    if IsHostPut(c) {
      match c case _ =>
    } else if IsRedirect(c) {
      match c case _ =>
    } else {
      match c case _ =>
    }
  }

  // ---------------------------------------------------------------- every run

  lemma InvInit()
    ensures Inv(Init)
  {
  }

  lemma InvKept(s: State, a: Action)
    requires Inv(s) && Enabled(s, a)
    ensures Inv(Step(s, a))
  {
    LocksKept(s, a);
    FlagsKept(s, a);
    ScanKept(s, a);
  }

  /** The invariant holds in every state of every run. */
  lemma {:induction false} InvAlways(states: seq<State>, actions: seq<Action>, i: nat)
    requires IsRun(states, actions) && i < |states|
    ensures Inv(states[i])
  {
    if i == 0 {
      InvInit();
    } else {
      InvAlways(states, actions, i - 1);
      assert IsStep(states, actions, i - 1);
      InvKept(states[i - 1], actions[i - 1]);
    }
  }

  /**
   What a reader of the flags and of the tracker may conclude in any state of any run.  A tracked
   key is missing from Dev-LSM exactly between the erase of the device and that of the tracker.
   */
  lemma FlagMeaning(states: seq<State>, actions: seq<Action>, i: nat, k: Key)
    requires IsRun(states, actions) && i < |states|
    ensures var s, st := states[i], states[i].store;
            && (!st.kache ==> st.tracker == multiset{} && st.dev == map[] && st.pending == [])
            && (k in st.tracker ==> (k !in Dev(st) <==> s.scan.pc.ClearTracker?))
            && (st.rollbackFlag ==> s.locks.reset == ByRollback && (st.kache || s.scan.pc.ClearFlag?))
            && (st.kache && Dev(st) == map[] ==> !s.locks.reset.Nobody?)
  {
    InvAlways(states, actions, i);
    var s := states[i];
    assert s.scan.pc.ClearTracker? || (k in s.store.tracker ==> k in Dev(s.store));
  }
}
