/**
 The single steps in which the protocol can part from the map of last writes, and what the shared
 lock gives to a Get.
 */
module ProtocolLimits {
  import opened Types
  import opened Protocol
  import opened ProtocolInvariants
  import opened ProtocolView
  import opened ProtocolSteps
  import opened ProtocolRefinement

  // ---------------------------------------------------------------- the steps that can part

  /** After the tracker entry is dropped the key is still tracked exactly when it had two or more. */
  lemma DropLeavesEntry(s: State, t: Tid)
    requires Pc(s, t).PutTracker?
    ensures var k := Pc(s, t).k;
            k in Step(s, Go(t)).store.tracker <==> s.store.tracker[k] >= 2
  {
  }

  /**
   An unstalled Put agrees with the map of last writes exactly when its key is no longer tracked
   (or Dev-LSM happens to hold the very value it writes).
   */
  lemma HostPutIsLostExactly(s: State, t: Tid)
    requires Inv(s) && Pc(s, t).PutHost?
    ensures var n, c := Step(s, Go(t)), Pc(s, t);
            View(n, c.k) == Spec(n.journal.log, c.k)
            <==> c.k !in s.store.tracker || Lookup(Dev(s.store), c.k) == Some(c.v)
  {
  }

  /**
   A Put that holds no lock leaves the keys the rollback has dealt with in agreement exactly when
   its key is not one of those still tracked (or Dev-LSM holds the very value it writes).  By
   EraseKeepsView that agreement is what erasing Dev-LSM needs.
   */
  lemma StaleWriteBreaksExactly(s: State, t: Tid)
    requires Inv(s) && MovedInv(s) && Pc(s, t).PutMain?
    ensures var n, c := Step(s, Go(t)), Pc(s, t);
            MovedInv(n) <==> !Doubled(s, c.k) || Lookup(s.store.dev, c.k) == Some(c.v)
  {
    var n, c := Step(s, Go(t)), Pc(s, t);
    forall k: Key ensures k != c.k ==> MovedKey(n, k) {
      assert MovedKey(s, k);
    }
    assert Doubled(n, c.k) == Doubled(s, c.k);
    assert MovedInv(n) <==> MovedKey(n, c.k);
  }

  // ---------------------------------------------------------------- Get under the shared lock

  /** What a Get that holds rollback_mtx shared can rely on. */
  predicate SharedOk(s: State, c: Client) {
    && (c.GetTracker? && c.locked ==> !HalfMoved(s, c.k))
    && (c.GetDev? && c.locked ==> c.k in s.store.tracker && !s.scan.pc.ClearTracker?)
    && (c.GetMain? && c.locked ==> c.clean)
  }

  ghost predicate SharedInv(s: State) {
    forall t :: SharedOk(s, Pc(s, t))
  }

  lemma SharedExcludesMoves(s: State, t: Tid, k: Key)
    requires LockInv(s) && HoldsShared(Pc(s, t))
    ensures !HalfMoved(s, k) && !RollHoldsExcl(s.scan.pc) && s.locks.excl.Nobody?
  {
  }

  /** Tracker entries disappear only while rollback_mtx is held exclusively. */
  lemma TrackerShrinksUnderExcl(s: State, a: Action, k: Key)
    requires LockInv(s) && Enabled(s, a) && s.locks.excl.Nobody? && k in s.store.tracker
    ensures k in Step(s, a).store.tracker
  {
    match a
    case Go(t) =>
      HostClientIs(s, t);
      if Touches(Pc(s, t)) {
        match Pc(s, t) case _ =>
      } else {
        QuietClient(s, t, k);
      }
    case Roll(answer) => RollLeavesTracker(s, answer);
    case _ =>
  }

  lemma RollLeavesTracker(s: State, answer: seq<Record>)
    requires RollEnabled(s, answer) && !RollHoldsExcl(s.scan.pc)
    ensures Step(s, Roll(answer)).store.tracker == s.store.tracker
    ensures !Step(s, Roll(answer)).scan.pc.ClearTracker?
  {
  }

  lemma SharedKept(s: State, a: Action)
    requires Inv(s) && SharedInv(s) && Enabled(s, a)
    ensures SharedInv(Step(s, a))
  {
    var n := Step(s, a);
    LocksKept(s, a);
    forall t ensures SharedOk(n, Pc(n, t)) {
      if HoldsShared(Pc(n, t)) {
        SharedExcludesMoves(n, t, Pc(n, t).k);
        if (a.Go? || a.CallPut? || a.CallGet?) && a.tid == t {
          SharedActor(s, a);
        } else {
          OthersStay(s, a, t);
          assert SharedOk(s, Pc(s, t));
          SharedExcludesMoves(s, t, Pc(s, t).k);
          if Pc(s, t).GetDev? { TrackerShrinksUnderExcl(s, a, Pc(s, t).k); }
        }
      }
    }
  }

  lemma SharedActor(s: State, a: Action)
    requires Inv(s) && SharedInv(s) && Enabled(s, a) && a.Go?
    requires HoldsShared(Pc(Step(s, a), a.tid)) && !HalfMoved(Step(s, a), Pc(Step(s, a), a.tid).k)
    ensures SharedOk(Step(s, a), Pc(Step(s, a), a.tid))
  {
    var t := a.tid;
    var c := Pc(s, t);
    assert SharedOk(s, c);
    if c.GetTracker? {
      SharedExcludesMoves(s, t, c.k);
    }
    if IsHostPut(c) {
      match c case _ =>
    } else if IsRedirect(c) {
      match c case _ =>
    } else {
      match c case _ =>
    }
  }

  lemma {:induction false} SharedAlways(states: seq<State>, actions: seq<Action>, i: nat)
    requires IsRun(states, actions) && i < |states|
    ensures SharedInv(states[i])
  {
    if i == 0 {
    } else {
      SharedAlways(states, actions, i - 1);
      InvAlways(states, actions, i - 1);
      assert IsStep(states, actions, i - 1);
      SharedKept(states[i - 1], actions[i - 1]);
    }
  }
}
