/**
 What the two flags decide for a Get: whether it asks the tracker at all, whether it takes the shared
 lock, and what its answer is while a rollback is under way.
 */
module ProtocolFlags {
  import opened Types
  import opened Protocol
  import opened ProtocolInvariants
  import opened ProtocolView
  import opened ProtocolRefinement
  import opened ProtocolGets

  /** In step `m` client `t` reads kache_flag, rollback_flag, or Dev-LSM for its Get. */
  predicate ReadsKache(states: seq<State>, actions: seq<Action>, t: Tid, m: nat)
    requires m < |actions| < |states|
  {
    actions[m] == Go(t) && Pc(states[m], t).GetFlag?
  }

  predicate ReadsRollback(states: seq<State>, actions: seq<Action>, t: Tid, m: nat)
    requires m < |actions| < |states|
  {
    actions[m] == Go(t) && Pc(states[m], t).GetRollbackFlag?
  }

  predicate ReadsDevice(states: seq<State>, actions: seq<Action>, t: Tid, m: nat)
    requires m < |actions| < |states|
  {
    actions[m] == Go(t) && Pc(states[m], t).GetDev?
  }

  // ---------------------------------------------------------------- the lock follows the flag

  lemma {:induction false} LockIsTaken(states: seq<State>, actions: seq<Action>, t: Tid, k: Key,
                                       i: nat, j: nat, m: nat)
    requires IsRun(states, actions) && IsGetOf(states, actions, t, k, i, j) && i < m <= j
    requires Pc(states[m], t).GetLock?
    ensures Pc(states[j], t).locked
    decreases j - m
  {
    GetAdvances(states, actions, t, k, i, j, m);
    if Pc(states[m + 1], t).GetLock? {
      LockIsTaken(states, actions, t, k, i, j, m + 1);
    } else {
      DecidedStays(states, actions, t, k, i, j, m + 1);
    }
  }

  /** A Get holds the shared lock at its return exactly when rollback_flag was set as it read it. */
  lemma LockedExactly(states: seq<State>, actions: seq<Action>, t: Tid, k: Key, i: nat, j: nat, g: nat)
    requires IsRun(states, actions) && IsGetOf(states, actions, t, k, i, j)
    requires i < g < j && ReadsRollback(states, actions, t, g)
    ensures Pc(states[j], t).locked <==> states[g].store.rollbackFlag
  {
    GetAdvances(states, actions, t, k, i, j, g);
    if states[g].store.rollbackFlag {
      LockIsTaken(states, actions, t, k, i, j, g + 1);
    } else {
      DecidedStays(states, actions, t, k, i, j, g + 1);
    }
  }

  /** A Get that has read kache_flag set, and not yet rollback_flag, will read that too. */
  lemma {:induction false} RollbackFlagIsRead(states: seq<State>, actions: seq<Action>, t: Tid, k: Key,
                                              i: nat, j: nat, m: nat) returns (g: nat)
    requires IsRun(states, actions) && IsGetOf(states, actions, t, k, i, j) && i < m <= j
    requires Pc(states[m], t).GetRollbackFlag?
    ensures m <= g < j && ReadsRollback(states, actions, t, g)
    decreases j - m
  {
    GetAdvances(states, actions, t, k, i, j, m);
    if actions[m] == Go(t) {
      g := m;
    } else {
      g := RollbackFlagIsRead(states, actions, t, k, i, j, m + 1);
    }
  }

  lemma {:induction false} NoMoreFlags(states: seq<State>, actions: seq<Action>, t: Tid, k: Key,
                                       i: nat, j: nat, m: nat, g: nat)
    requires IsRun(states, actions) && IsGetOf(states, actions, t, k, i, j) && i < m <= g <= j
    requires Decided(Pc(states[m], t))
    ensures Decided(Pc(states[g], t))
    decreases g - m
  {
    if m == g {
    } else {
      GetAdvances(states, actions, t, k, i, j, m);
      NoMoreFlags(states, actions, t, k, i, j, m + 1, g);
    }
  }

  lemma {:induction false} StillAtFlag(states: seq<State>, actions: seq<Action>, t: Tid, k: Key,
                                       i: nat, j: nat, f: nat, m: nat)
    requires IsRun(states, actions) && IsGetOf(states, actions, t, k, i, j) && i < m <= f <= j
    requires Pc(states[f], t).GetFlag?
    ensures Pc(states[m], t).GetFlag?
    decreases f - m
  {
    if m == f {
    } else {
      StillAtFlag(states, actions, t, k, i, j, f, m + 1);
      GetAdvances(states, actions, t, k, i, j, m);
    }
  }

  /**
   A Get goes on to rollback_flag and the tracker exactly when kache_flag was set as it read it;
   otherwise it takes no lock and answers what Main has.
   */
  lemma AsksTrackerExactly(states: seq<State>, actions: seq<Action>, t: Tid, k: Key, i: nat, j: nat, f: nat)
    requires IsRun(states, actions) && IsGetOf(states, actions, t, k, i, j)
    requires i < f < j && ReadsKache(states, actions, t, f)
    ensures states[f].store.kache <==> exists g :: i < g < j && ReadsRollback(states, actions, t, g)
    ensures !states[f].store.kache ==> !Pc(states[j], t).locked
  {
    GetAdvances(states, actions, t, k, i, j, f);
    if states[f].store.kache {
      var g := RollbackFlagIsRead(states, actions, t, k, i, j, f + 1);
    } else {
      DecidedStays(states, actions, t, k, i, j, f + 1);
      forall g | i < g < j ensures !ReadsRollback(states, actions, t, g) {
        if g <= f {
          StillAtFlag(states, actions, t, k, i, j, f, g);
        } else {
          NoMoreFlags(states, actions, t, k, i, j, f + 1, g);
        }
      }
    }
  }

  // ---------------------------------------------------------------- answers under the lock

  lemma LockedIsUndisturbed(states: seq<State>, actions: seq<Action>, t: Tid, k: Key, i: nat, j: nat)
    requires IsRun(states, actions) && IsGetOf(states, actions, t, k, i, j) && Pc(states[j], t).locked
    requires forall m :: i < m < j && ReadsDevice(states, actions, t, m) ==>
               !Mentions(states[m].store.pending, k)
    ensures Undisturbed(states, actions, t, k, i, j)
  {
    forall m | i < m < j
      ensures var c := Pc(states[m], t); (c.GetTracker? || c.GetDev?) && !c.locked ==> Settled(states[m], k)
    {
      if Decided(Pc(states[m], t)) {
        DecidedStays(states, actions, t, k, i, j, m);
      }
    }
    forall m | i < m < j && Pc(states[m], t).GetDev? && actions[m] == Go(t)
      ensures !Mentions(states[m].store.pending, k)
    {
      assert ReadsDevice(states, actions, t, m);
    }
  }

  /**
   A Get that read rollback_flag set returns a value its key held, if no record of the key was in the
   host buffer when it read the device.
   */
  lemma LockedGetIsLinearizable(states: seq<State>, actions: seq<Action>, t: Tid, k: Key,
                                i: nat, j: nat, g: nat)
    requires IsRun(states, actions) && FaithfulRun(states, actions)
    requires IsGetOf(states, actions, t, k, i, j)
    requires i < g < j && ReadsRollback(states, actions, t, g) && states[g].store.rollbackFlag
    requires forall m :: i < m < j && ReadsDevice(states, actions, t, m) ==>
               !Mentions(states[m].store.pending, k)
    ensures HeldIn(states[j].journal.log, k, states[i].now, states[j].now, Pc(states[j], t).res)
  {
    LockedExactly(states, actions, t, k, i, j, g);
    LockedIsUndisturbed(states, actions, t, k, i, j);
    GetIsLinearizable(states, actions, t, k, i, j);
  }

  /** In every run, faithful or not, its answer was seen meanwhile or hidden behind Dev-LSM. */
  lemma LockedGetAnswersInAnyRun(states: seq<State>, actions: seq<Action>, t: Tid, k: Key,
                                 i: nat, j: nat, g: nat)
    requires IsRun(states, actions) && IsGetOf(states, actions, t, k, i, j)
    requires i < g < j && ReadsRollback(states, actions, t, g) && states[g].store.rollbackFlag
    requires forall m :: i < m < j && ReadsDevice(states, actions, t, m) ==>
               !Mentions(states[m].store.pending, k)
    ensures SeenOrHidden(states, actions, k, i, j, Pc(states[j], t).res)
  {
    LockedExactly(states, actions, t, k, i, j, g);
    LockedIsUndisturbed(states, actions, t, k, i, j);
    GetAnswersInAnyRun(states, actions, t, k, i, j);
  }

  // ---------------------------------------------------------------- answers during a rollback

  predicate FlagsSet(s: State) {
    s.store.kache && s.store.rollbackFlag
  }

  /** While both flags are set a Get is on its way to the lock or has it. */
  lemma {:induction false} FlagsLeadToLock(states: seq<State>, actions: seq<Action>, t: Tid, k: Key,
                                           i: nat, j: nat, m: nat)
    requires IsRun(states, actions) && IsGetOf(states, actions, t, k, i, j) && i < m <= j
    requires forall m :: i < m <= j ==> FlagsSet(states[m])
    ensures var c := Pc(states[m], t);
            c.GetFlag? || c.GetRollbackFlag? || c.GetLock? || (Decided(c) && c.locked)
  {
    if m == i + 1 {
      assert IsStep(states, actions, i);
    } else {
      FlagsLeadToLock(states, actions, t, k, i, j, m - 1);
      GetAdvances(states, actions, t, k, i, j, m - 1);
      assert FlagsSet(states[m - 1]);
    }
  }

  /** Once the scan has flushed the host buffer it stays empty until both flags are cleared. */
  lemma FlushedDuringScan(states: seq<State>, actions: seq<Action>, m: nat)
    requires IsRun(states, actions) && m < |states|
    requires FlagsSet(states[m]) && !states[m].scan.pc.Create?
    ensures states[m].store.pending == []
  {
    InvAlways(states, actions, m);
  }

  lemma RollbackUndisturbed(states: seq<State>, actions: seq<Action>, t: Tid, k: Key, i: nat, j: nat)
    requires IsRun(states, actions) && IsGetOf(states, actions, t, k, i, j)
    requires forall m :: i < m <= j ==> FlagsSet(states[m])
    requires forall m :: i < m < j && ReadsDevice(states, actions, t, m) && states[m].scan.pc.Create? ==>
               !Mentions(states[m].store.pending, k)
    ensures Undisturbed(states, actions, t, k, i, j)
  {
    FlagsLeadToLock(states, actions, t, k, i, j, j);
    forall m | i < m < j && ReadsDevice(states, actions, t, m)
      ensures !Mentions(states[m].store.pending, k)
    {
      if !states[m].scan.pc.Create? {
        FlushedDuringScan(states, actions, m);
      }
    }
    LockedIsUndisturbed(states, actions, t, k, i, j);
  }

  /**
   A Get that runs while a rollback has both flags set returns a value its key held, unless it reads
   the device before the rollback has flushed a buffered record of the key.
   */
  lemma GetDuringRollback(states: seq<State>, actions: seq<Action>, t: Tid, k: Key, i: nat, j: nat)
    requires IsRun(states, actions) && IsGetOf(states, actions, t, k, i, j)
    requires forall m :: i < m <= j ==> FlagsSet(states[m])
    requires forall m :: i < m < j && ReadsDevice(states, actions, t, m) && states[m].scan.pc.Create? ==>
               !Mentions(states[m].store.pending, k)
    ensures FaithfulRun(states, actions) ==>
              HeldIn(states[j].journal.log, k, states[i].now, states[j].now, Pc(states[j], t).res)
    ensures SeenOrHidden(states, actions, k, i, j, Pc(states[j], t).res)
  {
    RollbackUndisturbed(states, actions, t, k, i, j);
    GetAnswersInAnyRun(states, actions, t, k, i, j);
    if FaithfulRun(states, actions) {
      GetIsLinearizable(states, actions, t, k, i, j);
    }
  }
}
