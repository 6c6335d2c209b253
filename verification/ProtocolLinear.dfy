/**
 One step against the map of last writes: the condition under which a step does to the logical value
 of a key what it does to the map, and what the provisos on the workload protect.
 */
module ProtocolLinear {
  import opened Types
  import opened Protocol
  import opened ProtocolInvariants
  import opened ProtocolView
  import opened ProtocolSteps

  // ---------------------------------------------------------------- one step and the map of last writes

  /**
   The two places where a step can part from the map of last writes at `k`.  An unstalled Put writes
   Main for a key that is no longer tracked, or Dev-LSM holds the very value it writes; when Dev-LSM
   is erased, a key still tracked has the same value on both sides.
   */
  predicate FaithfulFor(s: State, a: Action, k: Key) {
    && (a.Go? && Pc(s, a.tid).PutHost? && Pc(s, a.tid).k == k ==>
          k !in s.store.tracker || Lookup(Dev(s.store), k) == Some(Pc(s, a.tid).v))
    && (a.Roll? && s.scan.pc.EraseDev? ==> MovedKey(s, k))
  }

  predicate Faithful(s: State, a: Action) {
    forall k: Key :: FaithfulFor(s, a, k)
  }

  lemma ClientStepView(s: State, t: Tid, k: Key)
    requires Inv(s) && FaithfulFor(s, Go(t), k) && Enabled(s, Go(t))
    ensures var n, a := Step(s, Go(t)), Go(t);
            && View(n, k) == (if Sets(s, a, k) then Some(Writes(s, a)[0].v) else View(s, k))
            && (InDev(n, k) ==> InDev(s, k) || Sets(s, a, k))
  {
    HostClientIs(s, t);
    match Pc(s, t)
    case PutMain(_, _, _) => PutMainView(s, t, k);
    case PutTracker(_, _, _) => PutTrackerView(s, t, k);
    case PutHost(_, _, _, _) => PutHostView(s, t, k);
    case RedDev(_, _, _) => RedDevView(s, t, k);
    case RedTrack(_, _, _) => RedTrackView(s, t, k);
    case _ => QuietClient(s, t, k);
  }

  /** A step changes the logical value of the key it writes, to the value written, and no other. */
  lemma StepView(s: State, a: Action, k: Key)
    requires Inv(s) && FaithfulFor(s, a, k) && Enabled(s, a)
    ensures var n := Step(s, a);
            && View(n, k) == (if Sets(s, a, k) then Some(Writes(s, a)[0].v) else View(s, k))
            && (InDev(n, k) ==> InDev(s, k) || Sets(s, a, k))
  {
    match a
    case Go(t) => ClientStepView(s, t, k);
    case Roll(answer) => RollKeepsView(s, answer, k);
    case CallPut(t, _, _) => HostClientIs(s, t);
    case CallGet(t, _) => HostClientIs(s, t);
    case Monitor(_, _) =>
  }

  // ---------------------------------------------------------------- the provisos keep what they protect

  /** The client about to write Main in the host critical section has untracked its key. */
  predicate HostSingle(s: State) {
    HostClient(s).PutHost? ==> HostClient(s).k !in s.store.tracker
  }

  lemma MovedKeptByRoll(s: State, answer: seq<Record>)
    requires Inv(s) && MovedInv(s) && RollEnabled(s, answer)
    ensures MovedInv(Step(s, Roll(answer)))
  {
    var n, sc := Step(s, Roll(answer)), s.scan;
    if InHand(sc.pc) {
      assert Remaining(sc)[0] == Record(sc.pc.k, sc.pc.v);
      assert Lookup(s.store.dev, sc.pc.k) == Some(sc.pc.v);
    }
    forall k: Key ensures MovedKey(n, k) {
      assert MovedKey(s, k);
      if Doubled(n, k) { DoubledOrigin(s, answer, k); }
    }
  }

  lemma DoubledOrigin(s: State, answer: seq<Record>, k: Key)
    requires RollEnabled(s, answer) && Doubled(Step(s, Roll(answer)), k)
    ensures Doubled(s, k) || (s.scan.pc.Move? && s.scan.pc.k == k)
    ensures Step(s, Roll(answer)).store.dev == s.store.dev
    ensures s.scan.pc.Move? || Step(s, Roll(answer)).store.main == s.store.main
  {
    if Moving(s.scan.pc) {
      match s.scan.pc case _ =>
    } else {
      EndDoubles(s, answer, k);
    }
  }

  lemma EndDoubles(s: State, answer: seq<Record>, k: Key)
    requires RollEnabled(s, answer) && !Moving(s.scan.pc) && Doubled(Step(s, Roll(answer)), k)
    ensures Doubled(s, k) && Step(s, Roll(answer)).store.dev == s.store.dev
    ensures Step(s, Roll(answer)).store.main == s.store.main
  {
    match s.scan.pc case _ =>
  }

  lemma MovedKept(s: State, a: Action)
    requires Inv(s) && MovedInv(s) && NotStale(s, a) && Enabled(s, a)
    ensures MovedInv(Step(s, a))
  {
    match a
    case Roll(answer) => MovedKeptByRoll(s, answer);
    case Go(t) =>
      StepMovesOneClient(s, t);
      ResetClientIs(s, t);
      var n := Step(s, a);
      if RollHoldsReset(s.scan.pc) {
        ClientsLeaveDev(s, t);
        InRollbackOnlyMain(s, t);
      }
      forall k: Key ensures MovedKey(n, k) {
        assert MovedKey(s, k);
      }
    case _ =>
      forall k: Key ensures MovedKey(Step(s, a), k) {
        assert MovedKey(s, k);
      }
  }

  /** While a rollback runs, a client changes at most one key of Main and leaves the tracker. */
  lemma InRollbackOnlyMain(s: State, t: Tid)
    requires Enabled(s, Go(t)) && !HoldsReset(Pc(s, t))
    ensures var n, c := Step(s, Go(t)), Pc(s, t);
            && n.store.tracker == s.store.tracker
            && n.store.main == if c.PutMain? then s.store.main[c.k := c.v] else s.store.main
  {
  }

  lemma HostSingleKept(s: State, a: Action)
    requires Inv(s) && HostSingle(s) && SingleEntry(s, a) && Enabled(s, a)
    ensures HostSingle(Step(s, a))
  {
    match a
    case Go(t) => HostSingleKeptByGo(s, t);
    case Roll(answer) =>
      if RollHoldsReset(s.scan.pc) { NoHostInRollback(s); }
      HostSingleKeptByRoll(s, answer);
    case CallPut(t, _, _) => HostClientIs(s, t);
    case CallGet(t, _) => HostClientIs(s, t);
    case Monitor(_, _) =>
  }

  lemma HostSingleKeptByRoll(s: State, answer: seq<Record>)
    requires RollHoldsReset(s.scan.pc) ==> !HostClient(s).PutHost?
    requires HostSingle(s) && RollEnabled(s, answer)
    ensures HostSingle(Step(s, Roll(answer)))
  {
    if Moving(s.scan.pc) {
      match s.scan.pc case _ =>
    } else {
      match s.scan.pc case _ =>
    }
  }

  lemma HostSingleKeptByGo(s: State, t: Tid)
    requires Inv(s) && HostSingle(s) && SingleEntry(s, Go(t)) && Enabled(s, Go(t))
    ensures HostSingle(Step(s, Go(t)))
  {
    var c := Pc(s, t);
    HostClientIs(s, t);
    StepMovesOneClient(s, t);
    if Touches(c) {
      match c
      case RedTrack(_, k, _) => NoHalfMoveInRedirect(s, t, k); NoHostInRedirect(s, t);
      case RedDev(_, _, _) => NoHostInRedirect(s, t);
      case _ =>
    } else {
      QuietClient(s, t, 0);
      StepFollowsLocks(s, t);
    }
  }

  lemma NoHostInRedirect(s: State, t: Tid)
    requires LockInv(s) && HoldsReset(Pc(s, t)) && IsRedirect(Pc(s, t))
    ensures !HostClient(s).PutHost?
  {
  }
}
