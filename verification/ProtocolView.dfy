/**
 The protocol against one plain map of last writes.

 `View` is what the two stores mean together; `Spec` is the map of last writes.  This module has the
 facts about the log, the two provisos on the workload, and what rollback steps do to the view.
 */
module ProtocolView {
  import opened Types
  import opened Protocol
  import opened ProtocolInvariants

  // ---------------------------------------------------------------- facts about the log

  lemma LogAppend(log: seq<Write>, w: Write, k: Key, t: nat)
    ensures Spec(log + [w], k) == if w.visible && w.k == k then Some(w.v) else Spec(log, k)
    ensures Stamp(log + [w], k) == if w.visible && w.k == k then w.at else Stamp(log, k)
    ensures SpecAt(log + [w], k, t)
         == if w.visible && w.k == k && w.at <= t then Some(w.v) else SpecAt(log, k, t)
  {
  }

  /** Some Put of `x` to `k` took effect after instant `lo` and no later than `hi`. */
  ghost predicate WrittenIn(log: seq<Write>, k: Key, lo: nat, hi: nat, x: Option<Value>) {
    exists i :: 0 <= i < |log| && log[i].k == k && Some(log[i].v) == x && lo < log[i].at <= hi
  }

  /** `x` was the value of `k` at some instant from `lo` to `hi`. */
  ghost predicate HeldIn(log: seq<Write>, k: Key, lo: nat, hi: nat, x: Option<Value>) {
    x == SpecAt(log, k, lo) || WrittenIn(log, k, lo, hi, x)
  }

  /** The Put called at instant `op` took effect, later than its call and no later than `hi`. */
  ghost predicate TookEffect(log: seq<Write>, op: nat, k: Key, v: Value, hi: nat) {
    exists i :: 0 <= i < |log| && log[i].op == op && log[i].k == k && log[i].v == v
                && op < log[i].at <= hi
  }

  ghost predicate Fresh(log: seq<Write>, op: nat) {
    forall i :: 0 <= i < |log| ==> log[i].op != op
  }

  lemma {:induction false} SpecIsHeld(log: seq<Write>, k: Key, lo: nat, hi: nat)
    requires forall i :: 0 <= i < |log| ==> log[i].at <= hi
    ensures HeldIn(log, k, lo, hi, Spec(log, k))
  {
    if log == [] {
    } else {
      var n := |log| - 1;
      SpecIsHeld(log[..n], k, lo, hi);
      if log[n].visible && log[n].k == k && log[n].at > lo {
        assert WrittenIn(log, k, lo, hi, Some(log[n].v));
      } else if !(log[n].visible && log[n].k == k) && WrittenIn(log[..n], k, lo, hi, Spec(log, k)) {
        var i :| 0 <= i < n && log[..n][i].k == k && Some(log[..n][i].v) == Spec(log, k)
                 && lo < log[..n][i].at <= hi;
        assert log[i] == log[..n][i];
      }
    }
  }

  lemma {:induction false} StampIsOld(log: seq<Write>, k: Key, hi: nat)
    requires forall i :: 0 <= i < |log| ==> log[i].at < hi
    ensures Stamp(log, k) < hi || Stamp(log, k) == 0
  {
    if log == [] {
    } else {
      StampIsOld(log[..|log| - 1], k, hi);
    }
  }

  lemma HeldAfterAppend(log: seq<Write>, w: Write, k: Key, lo: nat, hi: nat, hi': nat,
                        x: Option<Value>)
    requires HeldIn(log, k, lo, hi, x) && hi <= hi' && (w.visible ==> lo < w.at)
    ensures HeldIn(log + [w], k, lo, hi', x)
  {
  }

  lemma EffectAfterAppend(log: seq<Write>, w: Write, op: nat, k: Key, v: Value, hi: nat, hi': nat)
    requires TookEffect(log, op, k, v, hi) && hi <= hi'
    ensures TookEffect(log + [w], op, k, v, hi')
  {
    var i :| 0 <= i < |log| && log[i].op == op && log[i].k == k && log[i].v == v
             && op < log[i].at <= hi;
    assert (log + [w])[i] == log[i];
  }

  // ---------------------------------------------------------------- the two provisos

  /** An unstalled Put finds at most one tracker entry for its key. */
  predicate SingleEntry(s: State, a: Action) {
    a.Go? && Pc(s, a.tid).PutTracker? ==> s.store.tracker[Pc(s, a.tid).k] <= 1
  }

  /** The running rollback has dealt with `k`, yet `k` is still tracked. */
  predicate Doubled(s: State, k: Key) {
    Scanning(s.scan.pc) && k in s.scan.visited && k in s.store.tracker
  }

  /** A Put that found Dev-LSM empty does not write Main behind the back of the rollback. */
  predicate NotStale(s: State, a: Action) {
    a.Go? && Pc(s, a.tid).PutMain? ==> !Doubled(s, Pc(s, a.tid).k)
  }

  // ---------------------------------------------------------------- rollback keeps the view

  /** If the rollback has dealt with `k` and `k` is still tracked, both sides have the same value. */
  predicate MovedKey(s: State, k: Key) {
    Doubled(s, k) ==> Lookup(s.store.main, k) == Lookup(s.store.dev, k)
  }

  predicate MovedInv(s: State) {
    forall k: Key :: MovedKey(s, k)
  }

  lemma NoHostInRollback(s: State)
    requires LockInv(s) && RollHoldsReset(s.scan.pc)
    ensures !HostClient(s).PutHost?
  {
  }

  lemma MoveKeepsView(s: State, answer: seq<Record>, k: Key)
    requires Inv(s) && s.scan.pc.Move?
    ensures View(Step(s, Roll(answer)), k) == View(s, k)
    ensures InDev(Step(s, Roll(answer)), k) ==> InDev(s, k)
  {
    var n := Step(s, Roll(answer));
    NoHostInRollback(s);
    assert Dev(s.store) == s.store.dev && Dev(n.store) == s.store.dev;
    assert Remaining(s.scan)[0] == Record(s.scan.pc.k, s.scan.pc.v);
    assert Lookup(s.store.dev, s.scan.pc.k) == Some(s.scan.pc.v);
  }

  /** Erasing Dev-LSM keeps the value of a key exactly when it agrees on both sides if still tracked. */
  lemma EraseKeepsKey(s: State, answer: seq<Record>, k: Key)
    requires Inv(s) && s.scan.pc.EraseDev?
    ensures View(Step(s, Roll(answer)), k) == View(s, k) <==> MovedKey(s, k)
    ensures !InDev(Step(s, Roll(answer)), k)
  {
    NoHostInRollback(s);
    assert Dev(s.store) == s.store.dev;
    if k in s.store.tracker {
      assert !Mentions([], k);
      assert k in s.scan.visited;
    }
  }

  lemma EraseKeepsView(s: State, answer: seq<Record>)
    requires Inv(s) && s.scan.pc.EraseDev?
    ensures (forall k: Key :: View(Step(s, Roll(answer)), k) == View(s, k)) <==> MovedInv(s)
  {
    forall k: Key ensures View(Step(s, Roll(answer)), k) == View(s, k) <==> MovedKey(s, k) {
      EraseKeepsKey(s, answer, k);
    }
  }

  /** Every rollback step keeps the logical value of a key; only the erase needs the agreement. */
  lemma RollKeepsView(s: State, answer: seq<Record>, k: Key)
    requires Inv(s) && RollEnabled(s, answer) && (s.scan.pc.EraseDev? ==> MovedKey(s, k))
    ensures View(Step(s, Roll(answer)), k) == View(s, k)
    ensures InDev(Step(s, Roll(answer)), k) ==> InDev(s, k)
  {
    if RollHoldsReset(s.scan.pc) {
      NoHostInRollback(s);
    }
    match s.scan.pc
    case Move(_, _) => MoveKeepsView(s, answer, k);
    case EraseDev => EraseKeepsKey(s, answer, k);
    case Create => CreateKeepsView(s, answer, k);
    case Item(_, _) => ItemKeepsView(s, answer, k);
    case ClearTracker => ClearKeepsView(s, answer, k);
    case _ =>
      if Moving(s.scan.pc) {
        StartKeepsView(s, answer, k);
      } else {
        EndKeepsView(s, answer, k);
      }
  }

  lemma CreateKeepsView(s: State, answer: seq<Record>, k: Key)
    requires Inv(s) && s.scan.pc.Create?
    ensures View(Step(s, Roll(answer)), k) == View(s, k)
    ensures InDev(Step(s, Roll(answer)), k) == InDev(s, k)
  {
    NoHostInRollback(s);
    assert Dev(Flush(s.store)) == Dev(s.store);
  }

  lemma ClearKeepsView(s: State, answer: seq<Record>, k: Key)
    requires Inv(s) && s.scan.pc.ClearTracker?
    ensures View(Step(s, Roll(answer)), k) == View(s, k)
    ensures InDev(Step(s, Roll(answer)), k) ==> InDev(s, k)
  {
    NoHostInRollback(s);
  }

  lemma ItemKeepsView(s: State, answer: seq<Record>, k: Key)
    requires s.scan.pc.Item? && !HostClient(s).PutHost?
    ensures View(Step(s, Roll(answer)), k) == View(s, k)
    ensures InDev(Step(s, Roll(answer)), k) == InDev(s, k)
  {
  }

  predicate Quiet(pc: Rollback) {
    !(pc.Move? || pc.EraseDev? || pc.Create? || pc.Item? || pc.ClearTracker?)
  }

  lemma StartKeepsView(s: State, answer: seq<Record>, k: Key)
    requires RollHoldsReset(s.scan.pc) ==> !HostClient(s).PutHost?
    requires RollEnabled(s, answer) && Quiet(s.scan.pc) && Moving(s.scan.pc)
    ensures View(Step(s, Roll(answer)), k) == View(s, k)
    ensures InDev(Step(s, Roll(answer)), k) == InDev(s, k)
  {
  }

  lemma EndKeepsView(s: State, answer: seq<Record>, k: Key)
    requires !HostClient(s).PutHost?
    requires RollEnabled(s, answer) && Quiet(s.scan.pc) && !Moving(s.scan.pc)
    ensures View(Step(s, Roll(answer)), k) == View(s, k)
    ensures InDev(Step(s, Roll(answer)), k) == InDev(s, k)
  {
    match s.scan.pc case _ =>
  }
}
