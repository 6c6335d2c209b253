/**
 Progress of the protocol: no deadlock for any number of clients, and every rollback that starts
 comes to its end after one loop iteration per device record and one more.
 */
module ProtocolProgress {
  import opened Types
  import opened Protocol
  import opened ProtocolInvariants

  datatype Thread = RollThread | ClientThread(tid: Tid)

  ghost predicate CanStep(s: State, th: Thread) {
    match th
    case RollThread => exists answer :: RollEnabled(s, answer)
    case ClientThread(t) => Enabled(s, Go(t))
  }

  predicate WaitsForReset(s: State, th: Thread) {
    match th
    case RollThread => s.scan.pc.WaitReset?
    case ClientThread(t) => Pc(s, t).PutWaitReset? || Pc(s, t).RedWaitReset?
  }

  predicate WaitsForExcl(s: State, th: Thread) {
    match th
    case RollThread => s.scan.pc.WaitItem? || s.scan.pc.WaitEnd?
    case ClientThread(t) => Pc(s, t).PutWaitRollback?
  }

  predicate WaitsForShared(s: State, th: Thread) {
    th.ClientThread? && Pc(s, th.tid).GetLock?
  }

  predicate Owns(o: Owner, th: Thread) {
    match th
    case RollThread => o.ByRollback?
    case ClientThread(t) => o == ByClient(t)
  }

  /** Thread `w` waits for a lock that `h` holds in a way that excludes `w`. */
  predicate WaitsFor(s: State, w: Thread, h: Thread) {
    || (WaitsForReset(s, w) && Owns(s.locks.reset, h))
    || ((WaitsForExcl(s, w) || WaitsForShared(s, w)) && Owns(s.locks.excl, h))
    || (WaitsForExcl(s, w) && h.ClientThread? && h.tid in s.locks.shared)
  }

  predicate Waiting(s: State, th: Thread) {
    WaitsForReset(s, th) || WaitsForExcl(s, th) || WaitsForShared(s, th)
  }

  /** A device with at least one record has a scan that returns it. */
  lemma {:induction false} ScanExists(dev: map<Key, Value>) returns (answer: seq<Record>)
    ensures IsScanOf(answer, dev)
    decreases |dev|
  {
    if dev == map[] {
      answer := [];
    } else {
      var k :| k in dev;
      var rest := ScanExists(dev - {k});
      answer := [Record(k, dev[k])] + rest;
      ScanExtends(dev, k, rest);
    }
  }

  lemma ScanExtends(dev: map<Key, Value>, k: Key, rest: seq<Record>)
    requires k in dev && IsScanOf(rest, dev - {k})
    ensures IsScanOf([Record(k, dev[k])] + rest, dev)
  {
    var answer := [Record(k, dev[k])] + rest;
    forall j: Key | j in dev ensures Mentions(answer, j) {
      if j == k {
        assert answer[0].key == j;
      } else {
        assert Mentions(rest, j);
        var i :| 0 <= i < |rest| && rest[i].key == j;
        assert answer[i + 1].key == j;
      }
    }
    forall i | 0 < i < |answer|
      ensures answer[i].key != k && Lookup(dev, answer[i].key) == Some(answer[i].value)
    {
      assert Lookup(dev - {k}, rest[i - 1].key) == Some(rest[i - 1].value);
    }
  }

  /** The rollback thread can always step unless it waits for a lock. */
  lemma RollCanStep(s: State)
    requires Inv(s) && !Waiting(s, RollThread)
    ensures CanStep(s, RollThread)
  {
    if s.scan.pc.Seek? {
      assert Dev(s.store) == s.store.dev;
      var answer := ScanExists(s.store.dev);
      ScanLength(answer, s.store.dev);
      assert RollEnabled(s, answer);
    } else {
      assert RollEnabled(s, []);
    }
  }

  /** A thread that holds rollback_mtx, exclusively or shared, waits for nothing. */
  lemma InnerHolderCanStep(s: State, w: Thread) returns (h: Thread)
    requires Inv(s) && (WaitsForExcl(s, w) || WaitsForShared(s, w)) && !CanStep(s, w)
    ensures WaitsFor(s, w, h) && CanStep(s, h)
  {
    if s.locks.excl.ByRollback? {
      h := RollThread;
      RollCanStep(s);
    } else if s.locks.excl.ByClient? {
      h := ClientThread(s.locks.excl.tid);
      assert HoldsExcl(Pc(s, s.locks.excl.tid));
    } else {
      if w.RollThread? {
        assert !RollEnabled(s, []);
      }
      var t :| t in s.locks.shared;
      h := ClientThread(t);
      assert HoldsShared(Pc(s, t));
    }
  }

  /**
   No deadlock: a thread that is stuck waits for one that can step, or for one that waits for
   a third that can step.  No chain is longer because reset_mtx is always taken first.
   */
  lemma NoDeadlock(s: State, w: Thread)
    requires Inv(s) && Waiting(s, w) && !CanStep(s, w)
    ensures exists h :: WaitsFor(s, w, h)
                        && (CanStep(s, h) || exists g :: WaitsFor(s, h, g) && CanStep(s, g))
  {
    if WaitsForReset(s, w) {
      if w.RollThread? {
        assert !RollEnabled(s, []);
      }
      if s.locks.reset.ByRollback? {
        assert WaitsFor(s, w, RollThread);
        if !CanStep(s, RollThread) {
          if !Waiting(s, RollThread) { RollCanStep(s); }
          var g := InnerHolderCanStep(s, RollThread);
        }
      } else {
        var t := s.locks.reset.tid;
        assert HoldsReset(Pc(s, t));
        assert WaitsFor(s, w, ClientThread(t));
        if !CanStep(s, ClientThread(t)) {
          var g := InnerHolderCanStep(s, ClientThread(t));
        }
      }
    } else {
      var h := InnerHolderCanStep(s, w);
    }
  }

  lemma NoDeadlockInRuns(states: seq<State>, actions: seq<Action>, i: nat, w: Thread)
    requires IsRun(states, actions) && i < |states|
    requires Waiting(states[i], w) && !CanStep(states[i], w)
    ensures exists h :: WaitsFor(states[i], w, h)
              && (CanStep(states[i], h)
                  || exists g :: WaitsFor(states[i], h, g) && CanStep(states[i], g))
  {
    InvAlways(states, actions, i);
    NoDeadlock(states[i], w);
  }

  // ---------------------------------------------------------------- the rollback ends

  /** A bound on the steps the rollback thread still takes before it sleeps again. */
  function Work(s: State): nat {
    var left := 5 * |s.scan.todo|;
    match s.scan.pc
    case Sleep => 0
    case WaitReset => 0
    case SetFlag => 10 + 5 * |Dev(s.store)|
    case Create => 9 + 5 * |Dev(s.store)|
    case Seek => 8 + 5 * |s.store.dev|
    case WaitItem(_, _) => 12 + left
    case Item(_, _) => 11 + left
    case Move(_, _) => 10 + left
    case UnlockItem => 9 + left
    case Next => 8 + left
    case WaitEnd => 7
    case EraseDev => 6
    case ClearTracker => 5
    case ClearKache => 4
    case ClearFlag => 3
    case UnlockRollback => 2
    case UnlockReset => 1
  }

  lemma RollStepUsesWork(s: State, answer: seq<Record>)
    requires RollHoldsReset(s.scan.pc) && RollEnabled(s, answer)
    ensures Work(Step(s, Roll(answer))) < Work(s)
  {
    if s.scan.pc.SetFlag? || s.scan.pc.Create? {
      StartUsesWork(s, answer);
    } else if s.scan.pc.Seek? {
      ScanLength(answer, s.store.dev);
    } else if Moving(s.scan.pc) {
      ItemUsesWork(s, answer);
    } else {
      EndUsesWork(s, answer);
    }
  }

  lemma StartUsesWork(s: State, answer: seq<Record>)
    requires s.scan.pc.SetFlag? || s.scan.pc.Create?
    ensures Work(Step(s, Roll(answer))) < Work(s)
  {
  }

  lemma ItemUsesWork(s: State, answer: seq<Record>)
    requires s.scan.pc.WaitItem? || s.scan.pc.Item? || s.scan.pc.Move?
    requires RollEnabled(s, answer)
    ensures Work(Step(s, Roll(answer))) < Work(s)
  {
  }

  lemma EndUsesWork(s: State, answer: seq<Record>)
    requires !Moving(s.scan.pc) && RollEnabled(s, answer)
    ensures Work(Step(s, Roll(answer))) < Work(s)
  {
    match s.scan.pc case _ =>
  }

  lemma OthersKeepWork(s: State, a: Action)
    requires Inv(s) && RollHoldsReset(s.scan.pc) && Enabled(s, a) && !a.Roll?
    ensures Step(s, a).scan == s.scan && Work(Step(s, a)) == Work(s)
  {
    if a.Go? {
      ResetClientIs(s, a.tid);
      StepMovesOneClient(s, a.tid);
      ClientsLeaveDev(s, a.tid);
    }
  }

  lemma StepUsesWork(s: State, a: Action)
    requires Inv(s) && RollHoldsReset(s.scan.pc) && Enabled(s, a)
    ensures Work(Step(s, a)) + (if a.Roll? then 1 else 0) <= Work(s)
  {
    match a
    case Roll(answer) => RollStepUsesWork(s, answer);
    case _ => OthersKeepWork(s, a);
  }

  /** The rollback steps among the actions from `i` up to `j`. */
  function RollSteps(actions: seq<Action>, i: nat, j: nat): nat
    requires i <= j <= |actions|
  {
    if i == j then 0 else RollSteps(actions, i, j - 1) + (if actions[j - 1].Roll? then 1 else 0)
  }

  /**
   A rollback does not run forever: whatever the other threads do, while it holds reset_mtx it
   takes at most as many steps as its work allowed at the start.
   */
  lemma {:induction false} RollbackEnds(states: seq<State>, actions: seq<Action>, i: nat, j: nat)
    requires IsRun(states, actions) && i <= j < |states|
    requires forall m :: i <= m < j ==> RollHoldsReset(states[m].scan.pc)
    ensures Work(states[j]) + RollSteps(actions, i, j) <= Work(states[i])
  {
    if i == j {
    } else {
      RollbackEnds(states, actions, i, j - 1);
      InvAlways(states, actions, j - 1);
      assert IsStep(states, actions, j - 1);
      StepUsesWork(states[j - 1], actions[j - 1]);
    }
  }

  /**
   The loop body runs once for each record on the device and once more to see the end, every
   key has been dealt with, and there was at least one record to begin with.
   */
  lemma RollbackIterations(states: seq<State>, actions: seq<Action>, i: nat)
    requires IsRun(states, actions) && i < |states| && states[i].scan.pc.EraseDev?
    ensures states[i].scan.iterations == |states[i].store.dev| + 1
    ensures states[i].scan.visited == states[i].store.dev.Keys
    ensures states[i].store.dev != map[] && states[i].store.pending == []
  {
    var s := states[i];
    InvAlways(states, actions, i);
    assert Splits([], s.scan.visited, s.store.dev);
    forall k: Key | k in s.store.dev ensures k in s.scan.visited {
      assert !Mentions([], k);
    }
    assert Dev(s.store) == s.store.dev;
  }
}
