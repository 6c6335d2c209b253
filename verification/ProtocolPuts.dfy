/**
 Where a Put writes, and when a rollback starts, in terms of what the monitor last reported.  A Put
 is followed from its call to its return.
 */
module ProtocolPuts {
  import opened Types
  import opened Protocol
  import opened ProtocolInvariants
  import opened ProtocolSteps
  import opened ProtocolRefinement

  // ---------------------------------------------------------------- what the monitor reported

  function LastLevel(actions: seq<Action>): Level {
    if actions == [] then Low
    else
      var last := actions[|actions| - 1];
      if last.Monitor? then last.level else LastLevel(actions[..|actions| - 1])
  }

  /** The last reported number of Level 0 files. */
  function LastCount(actions: seq<Action>): nat {
    if actions == [] then 0
    else
      var last := actions[|actions| - 1];
      if last.Monitor? then last.l0 else LastCount(actions[..|actions| - 1])
  }

  lemma StepReports(s: State, a: Action)
    requires Enabled(s, a)
    ensures var n := Step(s, a);
            && n.level == (if a.Monitor? then a.level else s.level)
            && n.l0 == (if a.Monitor? then a.l0 else s.l0)
  {
  }

  lemma {:induction false} ReportsAlways(states: seq<State>, actions: seq<Action>, m: nat)
    requires IsRun(states, actions) && m < |states|
    ensures states[m].level == LastLevel(actions[..m]) && states[m].l0 == LastCount(actions[..m])
  {
    if m == 0 {
    } else {
      ReportsAlways(states, actions, m - 1);
      assert IsStep(states, actions, m - 1);
      StepReports(states[m - 1], actions[m - 1]);
      assert actions[..m][..m - 1] == actions[..m - 1];
    }
  }

  // ---------------------------------------------------------------- when a rollback starts

  lemma StepWakes(s: State, a: Action)
    requires Enabled(s, a) && s.scan.pc.Sleep?
    ensures Step(s, a).scan.pc.Sleep? || Step(s, a).scan.pc.WaitReset?
    ensures !Step(s, a).scan.pc.Sleep? <==> a.Roll? && s.l0 <= 26 && s.store.kache
  {
    if a.Go? {
      match Pc(s, a.tid) case _ =>
    }
  }

  /** The rollback thread wakes up exactly when few Level 0 files were reported and keys are redirected. */
  lemma RollbackStartsExactly(states: seq<State>, actions: seq<Action>, i: nat)
    requires IsRun(states, actions) && i < |actions| && states[i].scan.pc.Sleep?
    ensures !states[i + 1].scan.pc.Sleep?
       <==> actions[i].Roll? && LastCount(actions[..i]) <= 26 && states[i].store.kache
  {
    assert IsStep(states, actions, i);
    ReportsAlways(states, actions, i);
    StepWakes(states[i], actions[i]);
  }

  /** Every rollback under way was started so. */
  lemma {:induction false} RollbackWasStarted(states: seq<State>, actions: seq<Action>, m: nat) returns (i: nat)
    requires IsRun(states, actions) && m < |states| && !states[m].scan.pc.Sleep?
    ensures i < m && states[i].scan.pc.Sleep? && actions[i].Roll?
    ensures LastCount(actions[..i]) <= 26 && states[i].store.kache
    ensures forall n :: i < n <= m ==> !states[n].scan.pc.Sleep?
  {
    if states[m - 1].scan.pc.Sleep? {
      i := m - 1;
      RollbackStartsExactly(states, actions, i);
    } else {
      i := RollbackWasStarted(states, actions, m - 1);
    }
  }

  // ---------------------------------------------------------------- what one step of a Put does

  /** Client `t` calls Put in step `i` and returns in step `j`. */
  ghost predicate IsPutOf(states: seq<State>, actions: seq<Action>, t: Tid, k: Key, v: Value, i: nat, j: nat) {
    && i < j < |actions| < |states|
    && actions[i] == CallPut(t, k, v) && actions[j] == Go(t) && Pc(states[j + 1], t).Idle?
    && forall m :: i < m <= j ==> Busy(states, t, m)
  }

  predicate Busy(states: seq<State>, t: Tid, m: nat)
    requires m < |states|
  {
    !Pc(states[m], t).Idle?
  }

  /** The Put that `c` is in the middle of. */
  predicate InPut(c: Client, redirected: bool, op: nat, k: Key, v: Value) {
    && (if redirected then IsRedirect(c) else IsHostPut(c))
    && c.op == op && c.k == k && c.v == v
  }

  lemma PutStepKeeps(s: State, t: Tid, redirected: bool, op: nat, k: Key, v: Value)
    requires Enabled(s, Go(t)) && InPut(Pc(s, t), redirected, op, k, v)
    ensures var c := Pc(Step(s, Go(t)), t); c.Idle? || InPut(c, redirected, op, k, v)
  {
    match Pc(s, t) case _ =>
  }

  /** A Put is redirected exactly when the last reported level at its call was High. */
  lemma {:induction false} PutGoesOn(states: seq<State>, actions: seq<Action>, t: Tid, k: Key, v: Value,
                                     i: nat, j: nat, m: nat)
    requires IsRun(states, actions) && IsPutOf(states, actions, t, k, v, i, j) && i < m <= j
    ensures InPut(Pc(states[m], t), LastLevel(actions[..i]).High?, states[i].now, k, v)
  {
    assert IsStep(states, actions, m - 1);
    if m == i + 1 {
      ReportsAlways(states, actions, i);
    } else {
      PutGoesOn(states, actions, t, k, v, i, j, m - 1);
      assert Busy(states, t, m) && Busy(states, t, m - 1);
      if actions[m - 1] == Go(t) {
        PutStepKeeps(states[m - 1], t, LastLevel(actions[..i]).High?, states[i].now, k, v);
      } else {
        OthersStay(states[m - 1], actions[m - 1], t);
      }
    }
  }

  /** In step `m` client `t` writes `v` for `k` to Main, to Dev-LSM, or adds a tracker entry. */
  predicate WritesMain(states: seq<State>, actions: seq<Action>, t: Tid, k: Key, v: Value, m: nat)
    requires m < |actions| < |states|
  {
    actions[m] == Go(t) && states[m + 1].store == states[m].store.(main := states[m].store.main[k := v])
  }

  predicate WritesDev(states: seq<State>, actions: seq<Action>, t: Tid, k: Key, v: Value, m: nat)
    requires m < |actions| < |states|
  {
    && actions[m] == Go(t) && Dev(states[m + 1].store) == Dev(states[m].store)[k := v]
    && states[m + 1].store.main == states[m].store.main
    && states[m + 1].store.tracker == states[m].store.tracker
  }

  predicate Tracks(states: seq<State>, actions: seq<Action>, t: Tid, k: Key, m: nat)
    requires m < |actions| < |states|
  {
    && actions[m] == Go(t)
    && states[m + 1].store == states[m].store.(tracker := states[m].store.tracker + multiset{k})
  }

  /** In step `m` client `t` drops at most one tracker entry of `k`, or changes no store at all. */
  predicate DropsOnly(states: seq<State>, actions: seq<Action>, t: Tid, k: Key, m: nat)
    requires m < |actions| < |states|
  {
    actions[m] == Go(t) ==>
      || states[m + 1].store == states[m].store
      || (&& states[m + 1].store == states[m].store.(tracker := states[m].store.tracker - multiset{k})
          && states[m].locks.excl == ByClient(t))
  }

  lemma DevStep(s: State, t: Tid)
    requires Inv(s) && Pc(s, t).RedDev?
    ensures var n, c := Step(s, Go(t)).store, Pc(s, t);
            && Dev(n) == Dev(s.store)[c.k := c.v] && n.main == s.store.main && n.tracker == s.store.tracker
            && n.kache == s.store.kache
            && (if |s.store.pending| == 127 then n.pending == [] && n.dev == Dev(n)
                else n.dev == s.store.dev && n.pending == s.store.pending + [Record(c.k, c.v)])
  {
    BufferKeepsOrder(s.store, Record(Pc(s, t).k, Pc(s, t).v));
  }

  /** In every run the host buffer is sent to the device with the 128th record, and by nobody's Put before. */
  lemma BufferFlushesExactly(states: seq<State>, actions: seq<Action>, m: nat, t: Tid)
    requires IsRun(states, actions) && m < |actions| && actions[m] == Go(t) && Pc(states[m], t).RedDev?
    ensures var s, n := states[m].store, states[m + 1].store;
            && |s.pending| <= 127 && Dev(n) == Dev(s)[Pc(states[m], t).k := Pc(states[m], t).v]
            && (n.pending == [] <==> |s.pending| == 127) && (|s.pending| < 127 ==> n.dev == s.dev)
  {
    InvAlways(states, actions, m);
    assert IsStep(states, actions, m);
    DevStep(states[m], t);
  }

  // ---------------------------------------------------------------- a redirected Put

  ghost predicate Redirected(states: seq<State>, actions: seq<Action>, t: Tid, k: Key, v: Value, i: nat, m: nat)
    requires m <= |actions| < |states|
  {
    var c := Pc(states[m], t);
    && (c.RedTrack? || c.RedUnlock? ==> exists d :: i < d < m && WritesDev(states, actions, t, k, v, d))
    && (c.RedUnlock? ==> exists d :: i < d < m && Tracks(states, actions, t, k, d))
  }

  lemma RedirectedStep(states: seq<State>, actions: seq<Action>, t: Tid, k: Key, v: Value, i: nat, m: nat)
    requires IsRun(states, actions) && i < m < |actions| && actions[m] == Go(t)
    requires InPut(Pc(states[m], t), true, states[i].now, k, v) && Redirected(states, actions, t, k, v, i, m)
    ensures Redirected(states, actions, t, k, v, i, m + 1)
  {
    InvAlways(states, actions, m);
    assert IsStep(states, actions, m);
    if Pc(states[m], t).RedDev? {
      DevStep(states[m], t);
      assert WritesDev(states, actions, t, k, v, m);
    } else if Pc(states[m], t).RedTrack? {
      assert Tracks(states, actions, t, k, m);
    }
  }

  lemma {:induction false} RedirectedAlways(states: seq<State>, actions: seq<Action>, t: Tid, k: Key, v: Value,
                                            i: nat, j: nat, m: nat)
    requires IsRun(states, actions) && IsPutOf(states, actions, t, k, v, i, j) && i < m <= j
    requires LastLevel(actions[..i]).High?
    ensures Redirected(states, actions, t, k, v, i, m)
  {
    PutGoesOn(states, actions, t, k, v, i, j, m);
    if m == i + 1 {
      assert IsStep(states, actions, i);
      ReportsAlways(states, actions, i);
    } else {
      RedirectedAlways(states, actions, t, k, v, i, j, m - 1);
      PutGoesOn(states, actions, t, k, v, i, j, m - 1);
      assert IsStep(states, actions, m - 1) && Busy(states, t, m - 1);
      if actions[m - 1] == Go(t) {
        RedirectedStep(states, actions, t, k, v, i, m - 1);
      } else {
        OthersStay(states[m - 1], actions[m - 1], t);
      }
    }
  }

  lemma LeavesMain(s: State, t: Tid)
    requires Enabled(s, Go(t)) && IsRedirect(Pc(s, t))
    ensures Step(s, Go(t)).store.main == s.store.main
  {
    match Pc(s, t) case _ =>
  }

  /** A Put called at level High writes Dev-LSM, then the tracker, and never Main. */
  lemma RedirectedPutWrites(states: seq<State>, actions: seq<Action>, t: Tid, k: Key, v: Value, i: nat, j: nat)
    requires IsRun(states, actions) && IsPutOf(states, actions, t, k, v, i, j)
    requires LastLevel(actions[..i]).High?
    ensures exists d :: i < d < j && WritesDev(states, actions, t, k, v, d)
    ensures exists d :: i < d < j && Tracks(states, actions, t, k, d)
    ensures forall m :: i < m <= j && actions[m] == Go(t) ==> states[m + 1].store.main == states[m].store.main
  {
    PutGoesOn(states, actions, t, k, v, i, j, j);
    RedirectedAlways(states, actions, t, k, v, i, j, j);
    assert IsStep(states, actions, j);
    forall m | i < m <= j && actions[m] == Go(t) ensures states[m + 1].store.main == states[m].store.main {
      PutGoesOn(states, actions, t, k, v, i, j, m);
      assert IsStep(states, actions, m);
      LeavesMain(states[m], t);
    }
  }

  // ---------------------------------------------------------------- an unstalled Put

  ghost predicate Hosted(states: seq<State>, actions: seq<Action>, t: Tid, k: Key, v: Value, i: nat, m: nat)
    requires m <= |actions| < |states|
  {
    var c := Pc(states[m], t);
    c.PutUnlockRollback? || c.PutUnlockReset? ==> exists d :: i < d < m && WritesMain(states, actions, t, k, v, d)
  }

  lemma HostStep(s: State, t: Tid)
    requires Inv(s) && Enabled(s, Go(t)) && IsHostPut(Pc(s, t))
    ensures var n, c := Step(s, Go(t)), Pc(s, t);
            && (c.PutMain? || c.PutHost? ==> n.store == s.store.(main := s.store.main[c.k := c.v]))
            && (c.PutTracker? ==>
                  && n.store == s.store.(tracker := s.store.tracker - multiset{c.k})
                  && s.locks.excl == ByClient(t))
            && (!c.PutMain? && !c.PutHost? && !c.PutTracker? ==> n.store == s.store)
            && (Pc(n, t).Idle? ==> c.PutMain? || c.PutUnlockReset?)
            && (Pc(n, t).PutUnlockRollback? ==> c.PutHost?)
            && (Pc(n, t).PutUnlockReset? ==> c.PutUnlockRollback?)
  {
    match Pc(s, t) case _ =>
  }

  lemma HostedStep(states: seq<State>, actions: seq<Action>, t: Tid, k: Key, v: Value, i: nat, m: nat)
    requires IsRun(states, actions) && i < m < |actions| && actions[m] == Go(t)
    requires InPut(Pc(states[m], t), false, states[i].now, k, v) && Hosted(states, actions, t, k, v, i, m)
    ensures Hosted(states, actions, t, k, v, i, m + 1)
  {
    InvAlways(states, actions, m);
    assert IsStep(states, actions, m);
    HostStep(states[m], t);
    if Pc(states[m], t).PutHost? {
      assert WritesMain(states, actions, t, k, v, m);
    }
  }

  lemma {:induction false} HostedAlways(states: seq<State>, actions: seq<Action>, t: Tid, k: Key, v: Value,
                                        i: nat, j: nat, m: nat)
    requires IsRun(states, actions) && IsPutOf(states, actions, t, k, v, i, j) && i < m <= j
    requires !LastLevel(actions[..i]).High?
    ensures Hosted(states, actions, t, k, v, i, m)
  {
    PutGoesOn(states, actions, t, k, v, i, j, m);
    if m == i + 1 {
      assert IsStep(states, actions, i);
      ReportsAlways(states, actions, i);
    } else {
      HostedAlways(states, actions, t, k, v, i, j, m - 1);
      PutGoesOn(states, actions, t, k, v, i, j, m - 1);
      assert IsStep(states, actions, m - 1) && Busy(states, t, m - 1);
      if actions[m - 1] == Go(t) {
        HostedStep(states, actions, t, k, v, i, m - 1);
      } else {
        OthersStay(states[m - 1], actions[m - 1], t);
      }
    }
  }

  /**
   A Put called at any other level writes Main; apart from that it drops at most one tracker entry of
   its key at a time, under the exclusive lock, and leaves Dev-LSM alone.
   */
  lemma HostPutWrites(states: seq<State>, actions: seq<Action>, t: Tid, k: Key, v: Value, i: nat, j: nat)
    requires IsRun(states, actions) && IsPutOf(states, actions, t, k, v, i, j)
    requires !LastLevel(actions[..i]).High?
    ensures exists d :: i < d <= j && WritesMain(states, actions, t, k, v, d)
    ensures forall m :: i < m <= j && actions[m] == Go(t) ==>
              WritesMain(states, actions, t, k, v, m) || DropsOnly(states, actions, t, k, m)
  {
    PutGoesOn(states, actions, t, k, v, i, j, j);
    HostedAlways(states, actions, t, k, v, i, j, j);
    InvAlways(states, actions, j);
    assert IsStep(states, actions, j);
    HostStep(states[j], t);
    if Pc(states[j], t).PutMain? {
      assert WritesMain(states, actions, t, k, v, j);
    }
    forall m | i < m <= j && actions[m] == Go(t)
      ensures WritesMain(states, actions, t, k, v, m) || DropsOnly(states, actions, t, k, m)
    {
      PutGoesOn(states, actions, t, k, v, i, j, m);
      InvAlways(states, actions, m);
      assert IsStep(states, actions, m);
      HostStep(states[m], t);
    }
  }

  /** What the journal records at the return is the call. */
  lemma PutReturns(states: seq<State>, actions: seq<Action>, t: Tid, k: Key, v: Value, i: nat, j: nat)
    requires IsRun(states, actions) && IsPutOf(states, actions, t, k, v, i, j)
    ensures states[j + 1].journal.done
         == states[j].journal.done + [DonePut(states[i].now, k, v, states[j].now)]
  {
    PutGoesOn(states, actions, t, k, v, i, j, j);
    assert IsStep(states, actions, j);
    ReturnStep(states[j], t);
  }

  lemma ReturnStep(s: State, t: Tid)
    requires Enabled(s, Go(t)) && (IsHostPut(Pc(s, t)) || IsRedirect(Pc(s, t))) && Pc(Step(s, Go(t)), t).Idle?
    ensures var c := Pc(s, t);
            Step(s, Go(t)).journal.done == s.journal.done + [DonePut(c.op, c.k, c.v, s.now)]
  {
    match Pc(s, t) case _ =>
  }
}
