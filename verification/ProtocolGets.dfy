/**
 What a Get returns.  A Get is followed from its call to its return; the conditions under which its
 answer is right speak of the stores and the tracker at the steps in between.
 */
module ProtocolGets {
  import opened Types
  import opened Protocol
  import opened ProtocolInvariants
  import opened ProtocolView
  import opened ProtocolSteps
  import opened ProtocolJournal
  import opened ProtocolRefinement
  import opened ProtocolLimits

  /** Client `t` calls Get of `k` in step `i` and returns in step `j`. */
  ghost predicate IsGetOf(states: seq<State>, actions: seq<Action>, t: Tid, k: Key, i: nat, j: nat) {
    && i < j < |actions| < |states|
    && actions[i] == CallGet(t, k) && actions[j] == Go(t) && Pc(states[j], t).GetDone?
    && forall m :: i < m <= j ==> InGet(states, t, m)
  }

  predicate InGet(states: seq<State>, t: Tid, m: nat)
    requires m < |states|
  {
    IsGet(Pc(states[m], t))
  }

  /** The Get has decided whether to hold the lock. */
  predicate Decided(c: Client) {
    c.GetTracker? || c.GetDev? || c.GetMain? || c.GetDone?
  }

  /** A Get keeps its call and key, the use of the lock once decided, and an answer once read. */
  predicate Follows(b: Client, c: Client) {
    && IsGet(b) && IsGet(c) && c.op == b.op && c.k == b.k
    && (Decided(b) ==> Decided(c) && c.locked == b.locked)
    && (b.GetDone? ==> c == b)
  }

  lemma GetStepKeeps(s: State, a: Action, t: Tid)
    requires Enabled(s, a) && IsGet(Pc(s, t)) && IsGet(Pc(Step(s, a), t))
    ensures Follows(Pc(s, t), Pc(Step(s, a), t))
    ensures a != Go(t) ==> Pc(Step(s, a), t) == Pc(s, t)
  {
    if (a.Go? || a.CallPut? || a.CallGet?) && a.tid == t {
      match Pc(s, t) case _ =>
    } else {
      OthersStay(s, a, t);
    }
  }

  lemma GetAdvances(states: seq<State>, actions: seq<Action>, t: Tid, k: Key, i: nat, j: nat, m: nat)
    requires IsRun(states, actions) && IsGetOf(states, actions, t, k, i, j) && i < m < j
    ensures Enabled(states[m], actions[m]) && states[m + 1] == Step(states[m], actions[m])
    ensures Follows(Pc(states[m], t), Pc(states[m + 1], t))
    ensures actions[m] != Go(t) ==> Pc(states[m + 1], t) == Pc(states[m], t)
    ensures actions[m] == Go(t) ==> !Pc(states[m], t).GetDone?
  {
    var s, n := states[m], states[m + 1];
    assert InGet(states, t, m) && InGet(states, t, m + 1) && IsStep(states, actions, m);
    GetStepKeeps(s, actions[m], t);
  }

  lemma {:induction false} GetGoesOn(states: seq<State>, actions: seq<Action>, t: Tid, k: Key, i: nat, j: nat, m: nat)
    requires IsRun(states, actions) && IsGetOf(states, actions, t, k, i, j) && i < m <= j
    ensures IsGet(Pc(states[m], t)) && Pc(states[m], t).op == states[i].now && Pc(states[m], t).k == k
  {
    if m == i + 1 {
      assert IsStep(states, actions, i);
    } else {
      GetGoesOn(states, actions, t, k, i, j, m - 1);
      GetAdvances(states, actions, t, k, i, j, m - 1);
    }
  }

  /** Once decided, the use of the lock does not change, and an answer read stays the answer. */
  lemma {:induction false} DecidedStays(states: seq<State>, actions: seq<Action>, t: Tid, k: Key,
                                        i: nat, j: nat, m: nat)
    requires IsRun(states, actions) && IsGetOf(states, actions, t, k, i, j) && i < m <= j
    requires Decided(Pc(states[m], t))
    ensures Pc(states[j], t).locked == Pc(states[m], t).locked
    ensures Pc(states[m], t).GetDone? ==> Pc(states[j], t) == Pc(states[m], t)
    decreases j - m
  {
    if m == j {
    } else {
      GetAdvances(states, actions, t, k, i, j, m);
      DecidedStays(states, actions, t, k, i, j, m + 1);
    }
  }

  // ---------------------------------------------------------------- a sufficient condition

  /** No tracker entry of `k` has just been dropped, and the device is not ahead of the tracker. */
  predicate Settled(s: State, k: Key) {
    !HalfMoved(s, k) && !s.scan.pc.ClearTracker?
  }

  /**
   While a Get without the lock stands between asking the tracker and reading the device, its key is
   settled; and whenever the device is read, no record of the key is in the host buffer.
   */
  ghost predicate Undisturbed(states: seq<State>, actions: seq<Action>, t: Tid, k: Key, i: nat, j: nat)
    requires IsGetOf(states, actions, t, k, i, j)
  {
    forall m :: i < m < j ==>
      var c := Pc(states[m], t);
      && ((c.GetTracker? || c.GetDev?) && !c.locked ==> Settled(states[m], k))
      && (c.GetDev? && actions[m] == Go(t) ==> !Mentions(states[m].store.pending, k))
  }

  /** A tracker entry leaves into a half move or with the whole tracker. */
  lemma EntryLeaves(s: State, a: Action, k: Key)
    requires LockInv(s) && Enabled(s, a) && k in s.store.tracker && !s.scan.pc.ClearTracker?
    ensures k in Step(s, a).store.tracker || HalfMoved(Step(s, a), k)
  {
    match a
    case Go(t) =>
      HostClientIs(s, t);
      if Pc(s, t).PutTracker? {
      } else if Touches(Pc(s, t)) {
        match Pc(s, t) case _ =>
      } else {
        QuietClient(s, t, k);
      }
    case Roll(answer) => RollEntryLeaves(s, answer, k);
    case _ =>
  }

  lemma RollEntryLeaves(s: State, answer: seq<Record>, k: Key)
    requires RollEnabled(s, answer) && k in s.store.tracker && !s.scan.pc.ClearTracker?
    ensures k in Step(s, Roll(answer)).store.tracker || HalfMoved(Step(s, Roll(answer)), k)
  {
    if Moving(s.scan.pc) {
      match s.scan.pc case _ =>
    } else {
      match s.scan.pc case _ =>
    }
  }

  /** What an undisturbed Get relies on. */
  predicate OnTrack(s: State, c: Client) {
    && (c.GetMain? || c.GetDone? ==> c.clean)
    && (c.GetDev? && !c.locked ==> c.k in s.store.tracker)
  }

  lemma OwnStepOnTrack(s: State, t: Tid)
    requires Enabled(s, Go(t)) && IsGet(Pc(s, t)) && !Pc(s, t).GetDone?
    requires OnTrack(s, Pc(s, t)) && SharedOk(s, Pc(s, t))
    requires (Pc(s, t).GetTracker? || Pc(s, t).GetDev?) && !Pc(s, t).locked ==> Settled(s, Pc(s, t).k)
    requires Pc(s, t).GetDev? ==> !Mentions(s.store.pending, Pc(s, t).k)
    ensures OnTrack(Step(s, Go(t)), Pc(Step(s, Go(t)), t))
  {
    match Pc(s, t) case _ =>
  }

  lemma StepOnTrack(s: State, a: Action, t: Tid)
    requires LockInv(s) && Enabled(s, a) && IsGet(Pc(s, t)) && (a == Go(t) ==> !Pc(s, t).GetDone?)
    requires OnTrack(s, Pc(s, t)) && SharedOk(s, Pc(s, t))
    requires a != Go(t) ==> Pc(Step(s, a), t) == Pc(s, t)
    requires (Pc(s, t).GetTracker? || Pc(s, t).GetDev?) && !Pc(s, t).locked ==> Settled(s, Pc(s, t).k)
    requires Pc(s, t).GetDev? && a == Go(t) ==> !Mentions(s.store.pending, Pc(s, t).k)
    requires a != Go(t) && Pc(s, t).GetDev? && !Pc(s, t).locked ==> Settled(Step(s, a), Pc(s, t).k)
    ensures OnTrack(Step(s, a), Pc(Step(s, a), t))
  {
    if a == Go(t) {
      OwnStepOnTrack(s, t);
    } else if Pc(s, t).GetDev? && !Pc(s, t).locked {
      EntryLeaves(s, a, Pc(s, t).k);
    }
  }

  lemma GetStarts(states: seq<State>, actions: seq<Action>, t: Tid, k: Key, i: nat, j: nat)
    requires IsRun(states, actions) && IsGetOf(states, actions, t, k, i, j)
    ensures OnTrack(states[i + 1], Pc(states[i + 1], t))
  {
    assert IsStep(states, actions, i);
  }

  lemma TrackKept(states: seq<State>, actions: seq<Action>, t: Tid, k: Key, i: nat, j: nat, m: nat)
    requires IsRun(states, actions) && IsGetOf(states, actions, t, k, i, j) && i < m < j
    requires Undisturbed(states, actions, t, k, i, j) && OnTrack(states[m], Pc(states[m], t))
    ensures OnTrack(states[m + 1], Pc(states[m + 1], t))
  {
    var s, n, a := states[m], states[m + 1], actions[m];
    var c := Pc(s, t);
    GetGoesOn(states, actions, t, k, i, j, m);
    GetAdvances(states, actions, t, k, i, j, m);
    InvAlways(states, actions, m);
    SharedAlways(states, actions, m);
    assert SharedOk(s, c);
    if a != Go(t) && c.GetDev? && !c.locked {
      assert m + 1 < j && Pc(states[m + 1], t) == c;
      assert Settled(n, k);
    }
    StepOnTrack(s, a, t);
  }

  lemma {:induction false} StaysOnTrack(states: seq<State>, actions: seq<Action>, t: Tid, k: Key,
                                        i: nat, j: nat, m: nat)
    requires IsRun(states, actions) && IsGetOf(states, actions, t, k, i, j) && i < m <= j
    requires Undisturbed(states, actions, t, k, i, j)
    ensures OnTrack(states[m], Pc(states[m], t))
  {
    if m == i + 1 {
      GetStarts(states, actions, t, k, i, j);
    } else {
      StaysOnTrack(states, actions, t, k, i, j, m - 1);
      TrackKept(states, actions, t, k, i, j, m - 1);
    }
  }

  /**
   An undisturbed Get of a faithful run returns a value that its key held at some instant from the
   call to the return.
   */
  lemma GetIsLinearizable(states: seq<State>, actions: seq<Action>, t: Tid, k: Key, i: nat, j: nat)
    requires IsRun(states, actions) && FaithfulRun(states, actions)
    requires IsGetOf(states, actions, t, k, i, j) && Undisturbed(states, actions, t, k, i, j)
    ensures HeldIn(states[j].journal.log, k, states[i].now, states[j].now, Pc(states[j], t).res)
  {
    StaysOnTrack(states, actions, t, k, i, j, j);
    GetGoesOn(states, actions, t, k, i, j, j);
    GoodAlways(states, actions, j);
    assert ClientOk(states[j], Pc(states[j], t));
  }

  /** The answer is what the Get's journal entry records. */
  lemma GetReturns(states: seq<State>, actions: seq<Action>, t: Tid, k: Key, i: nat, j: nat)
    requires IsRun(states, actions) && IsGetOf(states, actions, t, k, i, j)
    ensures var d, c := states[j + 1].journal.done, Pc(states[j], t);
            && d == states[j].journal.done + [DoneGet(states[i].now, k, c.res, c.locked, c.clean, states[j].now)]
            && states[j + 1].journal.log == states[j].journal.log
  {
    GetGoesOn(states, actions, t, k, i, j, j);
    assert IsStep(states, actions, j);
    StepReturns(states[j], actions[j]);
    StepCommits(states[j], actions[j]);
  }

  // ---------------------------------------------------------------- exactly when one read is right

  /**
   The store the Get is about to read has the value of its key.  For the device this asks for a key
   that is still in Dev-LSM and has no newer record in the host buffer, or for equal values.
   */
  predicate ReadsCurrent(s: State, c: Client)
    requires c.GetDev? || c.GetMain?
  {
    var st := s.store;
    if c.GetMain? then !InDev(s, c.k) || Lookup(Dev(st), c.k) == Lookup(st.main, c.k)
    else if !InDev(s, c.k) then Lookup(st.dev, c.k) == Lookup(st.main, c.k)
    else !Mentions(st.pending, c.k) || Lookup(Dev(st), c.k) == Lookup(st.dev, c.k)
  }

  lemma ReadIsCurrentExactly(s: State, t: Tid)
    requires Pc(s, t).GetDev? || Pc(s, t).GetMain?
    ensures var c, r := Pc(s, t), Pc(Step(s, Go(t)), t);
            r.GetDone? && (r.res == View(s, c.k) <==> ReadsCurrent(s, c))
  {
    if !Mentions(s.store.pending, Pc(s, t).k) {
      OverlayUntouched(s.store.dev, s.store.pending, Pc(s, t).k);
    }
  }

  /**
   In every run a device read under the shared lock is right exactly when the host buffer has no
   record of the key, or one that leaves its value as it is on the device.
   */
  lemma LockedReadExactly(states: seq<State>, actions: seq<Action>, m: nat, t: Tid)
    requires IsRun(states, actions) && m < |states|
    requires Pc(states[m], t).GetDev? && Pc(states[m], t).locked
    ensures var s, c, st := states[m], Pc(states[m], t), states[m].store;
            && !HalfMoved(s, c.k) && InDev(s, c.k)
            && (Pc(Step(s, Go(t)), t).res == View(s, c.k)
                <==> !Mentions(st.pending, c.k) || Lookup(Dev(st), c.k) == Lookup(st.dev, c.k))
  {
    InvAlways(states, actions, m);
    SharedAlways(states, actions, m);
    assert SharedOk(states[m], Pc(states[m], t));
    SharedExcludesMoves(states[m], t, Pc(states[m], t).k);
    ReadIsCurrentExactly(states[m], t);
  }

  /**
   A Get that finds its key untracked in step `g`, and whose Main value nobody changes before it
   returns, answers the value of the key in state `g` exactly when the key was not half moved, or
   both stores had the same value.  Under the lock it never is half moved.
   */
  lemma UntrackedGetExactly(states: seq<State>, actions: seq<Action>, t: Tid, k: Key, i: nat, j: nat, g: nat)
    requires IsRun(states, actions) && IsGetOf(states, actions, t, k, i, j) && i < g < j
    requires actions[g] == Go(t) && Pc(states[g], t).GetTracker? && k !in states[g].store.tracker
    requires forall m :: g <= m <= j ==> Lookup(states[m].store.main, k) == Lookup(states[g].store.main, k)
    ensures var s := states[g];
            && Pc(states[j], t).res == Lookup(s.store.main, k)
            && (Pc(states[j], t).res == View(s, k)
                <==> !HalfMoved(s, k) || Lookup(Dev(s.store), k) == Lookup(s.store.main, k))
            && (Pc(s, t).locked ==> !HalfMoved(s, k))
  {
    GetGoesOn(states, actions, t, k, i, j, g);
    MainAnswer(states, actions, t, k, i, j, g, j);
    InvAlways(states, actions, g);
    SharedAlways(states, actions, g);
    assert SharedOk(states[g], Pc(states[g], t));
    HalfMovedNotErased(states[g], k);
  }

  lemma HalfMovedNotErased(s: State, k: Key)
    requires LockInv(s)
    ensures HalfMoved(s, k) ==> !s.scan.pc.ClearTracker?
  {
  }

  lemma {:induction false} MainAnswer(states: seq<State>, actions: seq<Action>, t: Tid, k: Key,
                                      i: nat, j: nat, g: nat, m: nat)
    requires IsRun(states, actions) && IsGetOf(states, actions, t, k, i, j) && i < g < m <= j
    requires actions[g] == Go(t) && Pc(states[g], t).GetTracker? && k !in states[g].store.tracker
    requires forall m :: g <= m <= j ==> Lookup(states[m].store.main, k) == Lookup(states[g].store.main, k)
    ensures var c := Pc(states[m], t);
            c.GetMain? || (c.GetDone? && c.res == Lookup(states[g].store.main, k))
  {
    GetGoesOn(states, actions, t, k, i, j, m - 1);
    GetAdvances(states, actions, t, k, i, j, m - 1);
    if m == g + 1 {
    } else {
      MainAnswer(states, actions, t, k, i, j, g, m - 1);
      assert Lookup(states[m - 1].store.main, k) == Lookup(states[g].store.main, k);
    }
  }

  // ---------------------------------------------------------------- exactly when an answer was held

  /** `x` was the value of `k` in some state after step `i` and up to state `j`. */
  ghost predicate Seen(states: seq<State>, k: Key, i: nat, j: nat, x: Option<Value>)
    requires j < |states|
  {
    exists m :: i < m <= j && HasValue(states, k, m, x)
  }

  predicate HasValue(states: seq<State>, k: Key, m: nat, x: Option<Value>)
    requires m < |states|
  {
    View(states[m], k) == x
  }

  /** A Put of `x` to `k` took effect between `lo` and `hi`, just before one that overtook it. */
  ghost predicate Overtaken(log: seq<Write>, k: Key, lo: nat, hi: nat, x: Option<Value>) {
    exists i :: 0 <= i < |log| && !log[i].visible && log[i].k == k && Some(log[i].v) == x
                && lo < log[i].at <= hi
  }

  lemma {:induction false} NowIsIndex(states: seq<State>, actions: seq<Action>, m: nat)
    requires IsRun(states, actions) && m < |states|
    ensures states[m].now == m
  {
    if m == 0 {
    } else {
      NowIsIndex(states, actions, m - 1);
      assert IsStep(states, actions, m - 1);
      StepCommits(states[m - 1], actions[m - 1]);
    }
  }

  lemma {:induction false} AllBefore(log: seq<Write>, k: Key, t: nat)
    requires forall i :: 0 <= i < |log| ==> log[i].at <= t
    ensures SpecAt(log, k, t) == Spec(log, k)
  {
    if log == [] {
    } else {
      AllBefore(log[..|log| - 1], k, t);
    }
  }

  lemma HeldAppend(log: seq<Write>, w: Write, k: Key, lo: nat, hi: nat, x: Option<Value>)
    requires (forall i :: 0 <= i < |log| ==> log[i].at < hi) && w.at <= hi && (w.visible ==> lo < w.at)
    ensures HeldIn(log + [w], k, lo, hi + 1, x)
       <==> HeldIn(log, k, lo, hi, x) || (w.k == k && Some(w.v) == x && lo < w.at)
    ensures Overtaken(log + [w], k, lo, hi + 1, x)
       <==> Overtaken(log, k, lo, hi, x) || (!w.visible && w.k == k && Some(w.v) == x && lo < w.at)
  {
    var all := log + [w];
    LogAppend(log, w, k, lo);
    assert all[|log|] == w && forall i :: 0 <= i < |log| ==> all[i] == log[i];
  }

  lemma HeldLater(log: seq<Write>, k: Key, lo: nat, hi: nat, x: Option<Value>)
    requires forall i :: 0 <= i < |log| ==> log[i].at < hi
    ensures HeldIn(log, k, lo, hi + 1, x) <==> HeldIn(log, k, lo, hi, x)
    ensures Overtaken(log, k, lo, hi + 1, x) <==> Overtaken(log, k, lo, hi, x)
  {
  }

  lemma SeenNext(states: seq<State>, k: Key, i: nat, j: nat, x: Option<Value>)
    requires i < j < |states| - 1
    ensures Seen(states, k, i, j + 1, x) <==> Seen(states, k, i, j, x) || View(states[j + 1], k) == x
  {
    if View(states[j + 1], k) == x {
      assert HasValue(states, k, j + 1, x);
    }
  }

  lemma HeldAfterStep(s: State, a: Action, k: Key, lo: nat, x: Option<Value>)
    requires Good(s) && Enabled(s, a) && ViewInv(Step(s, a)) && lo < s.now
    ensures var n := Step(s, a);
            && (HeldIn(n.journal.log, k, lo, n.now, x)
                <==> || HeldIn(s.journal.log, k, lo, s.now, x) || View(n, k) == x
                     || Overtaken(n.journal.log, k, lo, n.now, x))
            && (Overtaken(s.journal.log, k, lo, s.now, x) ==> Overtaken(n.journal.log, k, lo, n.now, x))
  {
    var log, ws := s.journal.log, Writes(s, a);
    StepCommits(s, a);
    SpecAfterStep(s, a, k);
    assert View(Step(s, a), k) == Spec(Step(s, a).journal.log, k);
    if a.Go? {
      assert ClientOk(s, Pc(s, a.tid));
    }
    WritesBelongToActor(s, a);
    SpecIsHeld(log, k, lo, s.now);
    if ws == [] {
      assert log + ws == log;
      HeldLater(log, k, lo, s.now, x);
    } else {
      assert ws == [ws[0]];
      HeldAppend(log, ws[0], k, lo, s.now, x);
    }
  }

  lemma ViewAlways(states: seq<State>, actions: seq<Action>, i: nat)
    requires IsRun(states, actions) && FaithfulRun(states, actions) && i < |states|
    ensures ViewInv(states[i])
  {
    GoodAlways(states, actions, i);
  }

  lemma HeldAtStart(states: seq<State>, actions: seq<Action>, i: nat, k: Key, x: Option<Value>)
    requires IsRun(states, actions) && FaithfulRun(states, actions) && i + 1 < |states|
    ensures HeldIn(states[i + 1].journal.log, k, i, i + 1, x) <==> View(states[i + 1], k) == x
    ensures !Overtaken(states[i + 1].journal.log, k, i, i + 1, x)
  {
    var log := states[i + 1].journal.log;
    GoodAlways(states, actions, i + 1);
    NowIsIndex(states, actions, i + 1);
    assert View(states[i + 1], k) == Spec(log, k);
    AllBefore(log, k, i);
  }

  lemma HeldOn(states: seq<State>, actions: seq<Action>, i: nat, j: nat, k: Key, x: Option<Value>)
    requires IsRun(states, actions) && FaithfulRun(states, actions) && i < j < |actions|
    ensures HeldIn(states[j + 1].journal.log, k, i, j + 1, x)
       <==> || HeldIn(states[j].journal.log, k, i, j, x) || View(states[j + 1], k) == x
            || Overtaken(states[j + 1].journal.log, k, i, j + 1, x)
    ensures Overtaken(states[j].journal.log, k, i, j, x) ==> Overtaken(states[j + 1].journal.log, k, i, j + 1, x)
  {
    GoodAlways(states, actions, j);
    ViewAlways(states, actions, j + 1);
    NowIsIndex(states, actions, j);
    NowIsIndex(states, actions, j + 1);
    assert IsStep(states, actions, j);
    HeldAfterStep(states[j], actions[j], k, i, x);
  }

  /** What the log says a key held is what its value was in the states in between. */
  lemma {:induction false} HeldExactly(states: seq<State>, actions: seq<Action>, i: nat, j: nat, k: Key,
                                       x: Option<Value>)
    requires IsRun(states, actions) && FaithfulRun(states, actions) && i < j < |states|
    ensures HeldIn(states[j].journal.log, k, i, j, x)
       <==> Seen(states, k, i, j, x) || Overtaken(states[j].journal.log, k, i, j, x)
  {
    if j == i + 1 {
      HeldAtStart(states, actions, i, k, x);
      assert HasValue(states, k, j, x) <==> View(states[j], k) == x;
    } else {
      HeldExactly(states, actions, i, j - 1, k, x);
      HeldOn(states, actions, i, j - 1, k, x);
      SeenNext(states, k, i, j - 1, x);
    }
  }

  /** The value of `k` does not change from the call to the return, and no Put of it is overtaken. */
  ghost predicate Stable(states: seq<State>, k: Key, i: nat, j: nat, x: Option<Value>)
    requires j < |states|
  {
    && (forall m :: i < m <= j ==> HasValue(states, k, m, x))
    && (forall y :: !Overtaken(states[j].journal.log, k, i, j, y))
  }

  lemma StableSeen(states: seq<State>, k: Key, i: nat, j: nat, x: Option<Value>, y: Option<Value>)
    requires i < j < |states| && Stable(states, k, i, j, x)
    ensures Seen(states, k, i, j, y) <==> x == y
  {
    if Seen(states, k, i, j, y) {
      var m :| i < m <= j && HasValue(states, k, m, y);
      assert HasValue(states, k, m, x);
    }
    assert HasValue(states, k, j, x);
  }

  /**
   A Get, with or without the lock, of a key whose value does not change meanwhile returns a value
   the key held exactly when the store it read had the value of the key at that step.
   */
  lemma StableGetExactly(states: seq<State>, actions: seq<Action>, t: Tid, k: Key, i: nat, j: nat, r: nat)
    requires IsRun(states, actions) && FaithfulRun(states, actions)
    requires IsGetOf(states, actions, t, k, i, j) && i < r < j
    requires actions[r] == Go(t) && (Pc(states[r], t).GetDev? || Pc(states[r], t).GetMain?)
    requires Stable(states, k, i, j, View(states[r], k))
    ensures HeldIn(states[j].journal.log, k, states[i].now, states[j].now, Pc(states[j], t).res)
       <==> ReadsCurrent(states[r], Pc(states[r], t))
  {
    var x, res := View(states[r], k), Pc(states[j], t).res;
    NowIsIndex(states, actions, i);
    NowIsIndex(states, actions, j);
    GetGoesOn(states, actions, t, k, i, j, r);
    assert IsStep(states, actions, r);
    ReadIsCurrentExactly(states[r], t);
    DecidedStays(states, actions, t, k, i, j, r + 1);
    HeldExactly(states, actions, i, j, k, res);
    StableSeen(states, k, i, j, x, res);
    assert !Overtaken(states[j].journal.log, k, i, j, res);
  }

  // ---------------------------------------------------------------- answers in any run

  /** In step `m` a Put wrote `x` to Main for `k`, and Dev-LSM held the key, so that it did not show. */
  predicate HidesPut(states: seq<State>, actions: seq<Action>, k: Key, m: nat, x: Option<Value>)
    requires m < |actions| < |states|
  {
    && actions[m].Go?
    && var c := Pc(states[m], actions[m].tid);
       (c.PutMain? || c.PutHost?) && c.k == k && Some(c.v) == x && InDev(states[m + 1], k)
  }

  /** `x` was the value of `k`, or written behind Dev-LSM's back, after step `i` and up to state `j`. */
  ghost predicate SeenOrHidden(states: seq<State>, actions: seq<Action>, k: Key, i: nat, j: nat, x: Option<Value>)
    requires j <= |actions| < |states|
  {
    Seen(states, k, i, j, x) || exists m :: i < m < j && HidesPut(states, actions, k, m, x)
  }

  lemma SeenLater(states: seq<State>, actions: seq<Action>, k: Key, i: nat, j: nat, x: Option<Value>)
    requires i < j < |actions| < |states| && SeenOrHidden(states, actions, k, i, j, x)
    ensures SeenOrHidden(states, actions, k, i, j + 1, x)
  {
    if m :| i < m <= j && HasValue(states, k, m, x) {
      assert i < m <= j + 1;
    } else {
      var m :| i < m < j && HidesPut(states, actions, k, m, x);
      assert i < m < j + 1;
    }
  }

  lemma SeenAt(states: seq<State>, actions: seq<Action>, k: Key, i: nat, j: nat, m: nat)
    requires i < m <= j <= |actions| < |states|
    ensures SeenOrHidden(states, actions, k, i, j, View(states[m], k))
  {
    assert HasValue(states, k, m, View(states[m], k));
  }

  /** A step that changes Main for a key makes the new value visible, or hides it behind Dev-LSM. */
  lemma MainShowsOrHides(s: State, a: Action, k: Key)
    requires Inv(s) && Enabled(s, a)
    ensures var n, x := Step(s, a), Lookup(Step(s, a).store.main, k);
            || x == Lookup(s.store.main, k) || x == View(s, k) || x == View(n, k)
            || (a.Go? && var c := Pc(s, a.tid);
                (c.PutMain? || c.PutHost?) && c.k == k && Some(c.v) == x && InDev(n, k))
  {
    if a.Go? {
      MainAfterClient(s, a.tid, k);
      if Pc(s, a.tid).PutMain? {
        PutMainView(s, a.tid, k);
      } else if Pc(s, a.tid).PutHost? {
        PutHostView(s, a.tid, k);
        HostClientIs(s, a.tid);
      }
    } else if a.Roll? {
      if s.scan.pc.Move? && s.scan.pc.k == k {
        MovedValue(s, k);
      } else if !s.scan.pc.Move? {
        RollLeavesMain(s, a.answer);
      }
    }
  }

  lemma MainAfterClient(s: State, t: Tid, k: Key)
    requires Enabled(s, Go(t))
    ensures var x, c := Lookup(Step(s, Go(t)).store.main, k), Pc(s, t);
            x == Lookup(s.store.main, k) || ((c.PutMain? || c.PutHost?) && c.k == k && Some(c.v) == x)
  {
    MainAfterGo(s, t, k);
    match Pc(s, t) case _ =>
  }

  /** What the rollback moves to Main is the value of the key. */
  lemma MovedValue(s: State, k: Key)
    requires Inv(s) && s.scan.pc.Move? && s.scan.pc.k == k
    ensures View(s, k) == Some(s.scan.pc.v)
  {
    assert Remaining(s.scan)[0] == Record(s.scan.pc.k, s.scan.pc.v);
    assert Lookup(s.store.dev, s.scan.pc.k) == Some(s.scan.pc.v);
    assert Dev(s.store) == s.store.dev;
  }

  /** What a Get on its way finds in a step of its own. */
  lemma OwnStepFinds(s: State, t: Tid)
    requires Inv(s) && Enabled(s, Go(t)) && IsGet(Pc(s, t))
    requires OnTrack(Step(s, Go(t)), Pc(Step(s, Go(t)), t))
    ensures var n, b, c := Step(s, Go(t)), Pc(s, t), Pc(Step(s, Go(t)), t);
            && n.store == s.store
            && (c.GetMain? ==> c.k == b.k && Lookup(s.store.main, c.k) == View(s, c.k))
            && (c.GetDone? ==> c.k == b.k && if b.GetDev? then c.res == View(s, c.k)
                               else b.GetMain? && c.res == Lookup(s.store.main, c.k))
  {
    var b := Pc(s, t);
    if b.GetFlag? && !s.store.kache {
      FlagClearMeansMain(s, b.k);
    } else if b.GetDev? && DevIsCurrent(s, b.k) {
      OverlayUntouched(s.store.dev, s.store.pending, b.k);
    }
    match b case _ =>
  }

  /** What a Get holds or is about to read was seen, or hidden, since its call. */
  ghost predicate Accounted(states: seq<State>, actions: seq<Action>, t: Tid, k: Key, i: nat, m: nat)
    requires m <= |actions| < |states|
  {
    var c := Pc(states[m], t);
    && (c.GetMain? ==> SeenOrHidden(states, actions, k, i, m, Lookup(states[m].store.main, k)))
    && (c.GetDone? ==> SeenOrHidden(states, actions, k, i, m, c.res))
  }

  lemma MainAccounted(states: seq<State>, actions: seq<Action>, k: Key, i: nat, m: nat)
    requires IsRun(states, actions) && i < m < |actions|
    requires SeenOrHidden(states, actions, k, i, m, Lookup(states[m].store.main, k))
    ensures SeenOrHidden(states, actions, k, i, m + 1, Lookup(states[m + 1].store.main, k))
  {
    var x := Lookup(states[m + 1].store.main, k);
    InvAlways(states, actions, m);
    assert IsStep(states, actions, m);
    MainShowsOrHides(states[m], actions[m], k);
    if x == Lookup(states[m].store.main, k) {
      SeenLater(states, actions, k, i, m, x);
    } else if x == View(states[m], k) {
      SeenAt(states, actions, k, i, m + 1, m);
    } else if x == View(states[m + 1], k) {
      SeenAt(states, actions, k, i, m + 1, m + 1);
    } else {
      assert HidesPut(states, actions, k, m, x);
    }
  }

  lemma OwnAccounted(states: seq<State>, actions: seq<Action>, t: Tid, k: Key, i: nat, m: nat)
    requires IsRun(states, actions) && i < m < |actions| && actions[m] == Go(t)
    requires IsGet(Pc(states[m], t)) && Pc(states[m], t).k == k
    requires OnTrack(states[m + 1], Pc(states[m + 1], t)) && Accounted(states, actions, t, k, i, m)
    ensures Accounted(states, actions, t, k, i, m + 1)
  {
    InvAlways(states, actions, m);
    assert IsStep(states, actions, m);
    OwnStepFinds(states[m], t);
    SeenAt(states, actions, k, i, m + 1, m);
    if Pc(states[m], t).GetMain? {
      SeenLater(states, actions, k, i, m, Lookup(states[m].store.main, k));
    }
  }

  lemma {:induction false} AccountedAlways(states: seq<State>, actions: seq<Action>, t: Tid, k: Key,
                                           i: nat, j: nat, m: nat)
    requires IsRun(states, actions) && IsGetOf(states, actions, t, k, i, j) && i < m <= j
    requires Undisturbed(states, actions, t, k, i, j)
    ensures Accounted(states, actions, t, k, i, m)
  {
    if m == i + 1 {
      assert IsStep(states, actions, i);
    } else {
      AccountedAlways(states, actions, t, k, i, j, m - 1);
      GetGoesOn(states, actions, t, k, i, j, m - 1);
      GetAdvances(states, actions, t, k, i, j, m - 1);
      if actions[m - 1] == Go(t) {
        StaysOnTrack(states, actions, t, k, i, j, m);
        OwnAccounted(states, actions, t, k, i, m - 1);
      } else if Pc(states[m - 1], t).GetMain? {
        MainAccounted(states, actions, k, i, m - 1);
      } else if Pc(states[m - 1], t).GetDone? {
        SeenLater(states, actions, k, i, m - 1, Pc(states[m - 1], t).res);
      }
    }
  }

  /**
   In every run, faithful or not: an undisturbed Get answers a value its key had in some state from
   the call to the return, or one that a Put wrote to Main meanwhile while Dev-LSM held the key.
   */
  lemma GetAnswersInAnyRun(states: seq<State>, actions: seq<Action>, t: Tid, k: Key, i: nat, j: nat)
    requires IsRun(states, actions) && IsGetOf(states, actions, t, k, i, j)
    requires Undisturbed(states, actions, t, k, i, j)
    ensures SeenOrHidden(states, actions, k, i, j, Pc(states[j], t).res)
  {
    AccountedAlways(states, actions, t, k, i, j, j);
  }
}
