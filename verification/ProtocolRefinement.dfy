/**
 The main theorems: a run refines the map of last writes exactly when each of its steps is
 faithful, and then every Put takes effect once between its call and its return.
 */
module ProtocolRefinement {
  import opened Types
  import opened Protocol
  import opened ProtocolInvariants
  import opened ProtocolView
  import opened ProtocolSteps
  import opened ProtocolLinear
  import opened ProtocolJournal

  // ---------------------------------------------------------------- the thread that steps

  /** kache_flag == 0 means that Main alone holds every value. */
  lemma FlagClearMeansMain(s: State, k: Key)
    requires Inv(s) && !s.store.kache
    ensures !InDev(s, k)
  {
  }

  lemma OutsideDevIsHeld(s: State, k: Key, op: nat)
    requires ViewInv(s) && LogInv(s) && !InDev(s, k)
    ensures HeldIn(s.journal.log, k, op, s.now + 1, Lookup(s.store.main, k))
  {
    assert View(s, k) == Spec(s.journal.log, k);
    SpecIsHeld(s.journal.log, k, op, s.now + 1);
  }

  lemma CurrentDevIsHeld(s: State, k: Key, op: nat)
    requires ViewInv(s) && LogInv(s) && DevIsCurrent(s, k)
    ensures HeldIn(s.journal.log, k, op, s.now + 1, Lookup(s.store.dev, k))
  {
    assert View(s, k) == Spec(s.journal.log, k);
    OverlayUntouched(s.store.dev, s.store.pending, k);
    SpecIsHeld(s.journal.log, k, op, s.now + 1);
  }

  lemma AppendedTookEffect(log: seq<Write>, w: Write, hi: nat)
    requires w.op < w.at <= hi
    ensures TookEffect(log + [w], w.op, w.k, w.v, hi)
  {
    assert (log + [w])[|log|] == w;
  }

  lemma HostPutActorOk(s: State, t: Tid)
    requires ClientOk(s, Pc(s, t)) && Enabled(s, Go(t)) && IsHostPut(Pc(s, t))
    requires Pc(s, t).PutFlag? && !s.store.kache ==> !InDev(Step(s, Go(t)), Pc(s, t).k)
    ensures ClientOk(Step(s, Go(t)), Pc(Step(s, Go(t)), t))
  {
    var n, c, log := Step(s, Go(t)), Pc(s, t), s.journal.log;
    match c
    case PutHost(op, k, v, _) => AppendedTookEffect(log, Write(op, k, v, s.now, true), n.now);
    case PutUnlockRollback(op, k, v) => EffectLater(log, op, k, v, s.now);
    case _ =>
  }

  lemma EffectLater(log: seq<Write>, op: nat, k: Key, v: Value, hi: nat)
    requires TookEffect(log, op, k, v, hi)
    ensures TookEffect(log, op, k, v, hi + 1)
  {
  }

  lemma RedirectActorOk(s: State, t: Tid)
    requires ClientOk(s, Pc(s, t)) && Enabled(s, Go(t)) && IsRedirect(Pc(s, t))
    ensures ClientOk(Step(s, Go(t)), Pc(Step(s, Go(t)), t))
  {
    var n, c, log := Step(s, Go(t)), Pc(s, t), s.journal.log;
    match c
    case RedDev(op, k, v) =>
      if k in s.store.tracker { AppendedTookEffect(log, Write(op, k, v, s.now, true), n.now); }
    case RedTrack(op, k, v) =>
      if k in s.store.tracker {
        EffectLater(log, op, k, v, s.now);
      } else {
        AppendedTookEffect(log, Write(op, k, v, s.now, true), n.now);
      }
    case _ =>
  }

  /** A Get that goes to a store has seen that the store holds the current value of its key. */
  lemma GetSees(s: State, c: Client)
    requires Inv(s) && ViewInv(s) && LogInv(s) && IsGet(c)
    ensures c.GetFlag? && !s.store.kache ==> !InDev(s, c.k)
    ensures !InDev(s, c.k) ==>
              HeldIn(s.journal.log, c.k, c.op, s.now + 1, Lookup(s.store.main, c.k))
    ensures DevIsCurrent(s, c.k) ==>
              HeldIn(s.journal.log, c.k, c.op, s.now + 1, Lookup(s.store.dev, c.k))
  {
    if !s.store.kache { FlagClearMeansMain(s, c.k); }
    if !InDev(s, c.k) { OutsideDevIsHeld(s, c.k, c.op); }
    if DevIsCurrent(s, c.k) { CurrentDevIsHeld(s, c.k, c.op); }
  }

  lemma GetActorOk(s: State, t: Tid)
    requires ClientOk(s, Pc(s, t)) && Enabled(s, Go(t)) && IsGet(Pc(s, t))
    requires var n, c := Step(s, Go(t)), Pc(s, t);
             && InDev(n, c.k) == InDev(s, c.k)
             && (c.GetFlag? && !s.store.kache ==> !InDev(s, c.k))
             && (!InDev(s, c.k) ==>
                   HeldIn(s.journal.log, c.k, c.op, n.now, Lookup(s.store.main, c.k)))
             && (DevIsCurrent(s, c.k) ==>
                   HeldIn(s.journal.log, c.k, c.op, n.now, Lookup(s.store.dev, c.k)))
    ensures ClientOk(Step(s, Go(t)), Pc(Step(s, Go(t)), t))
  {
    var c := Pc(s, t);
    if c.GetFlag? {
    } else if c.GetTracker? {
    } else if c.GetMain? {
      GetMainActorOk(s, t);
    } else {
      match c case _ =>
    }
  }

  lemma GetMainActorOk(s: State, t: Tid)
    requires ClientOk(s, Pc(s, t)) && Pc(s, t).GetMain?
    ensures ClientOk(Step(s, Go(t)), Pc(Step(s, Go(t)), t))
  {
  }

  lemma ActorOk(s: State, a: Action)
    requires Good(s) && Enabled(s, a) && (a.Go? || a.CallPut? || a.CallGet?)
    ensures ClientOk(Step(s, a), Pc(Step(s, a), a.tid))
  {
    assert ClientOk(s, Pc(s, a.tid));
    match a
    case Go(t) =>
      var c := Pc(s, t);
      if IsHostPut(c) {
        if c.PutFlag? && !s.store.kache {
          FlagClearMeansMain(s, c.k);
          QuietClient(s, t, c.k);
        }
        HostPutActorOk(s, t);
      } else if IsRedirect(c) {
        RedirectActorOk(s, t);
      } else {
        GetSees(s, c);
        QuietClient(s, t, c.k);
        GetActorOk(s, t);
      }
    case CallPut(_, _, _) => CallOk(s, a);
    case CallGet(_, _) => CallOk(s, a);
  }

  lemma CallOk(s: State, a: Action)
    requires LogInv(s) && Enabled(s, a) && (a.CallPut? || a.CallGet?)
    ensures ClientOk(Step(s, a), Pc(Step(s, a), a.tid))
  {
  }

  // ---------------------------------------------------------------- all clients

  /** The calling instant of an operation stays with it, and a new one differs from all others. */
  lemma OpsAfterStep(s: State, a: Action, t: Tid)
    requires Enabled(s, a) && !Pc(Step(s, a), t).Idle?
    ensures if (a.CallPut? || a.CallGet?) && a.tid == t then Pc(Step(s, a), t).op == s.now
            else !Pc(s, t).Idle? && Pc(Step(s, a), t).op == Pc(s, t).op
  {
    match a
    case Go(u) =>
      StepMovesOneClient(s, u);
      var c := Pc(s, u);
      if IsHostPut(c) {
        match c case _ =>
      } else if IsRedirect(c) {
        match c case _ =>
      } else {
        match c case _ =>
      }
    case Roll(_) => RollLeavesClients(s, a);
    case _ =>
  }

  lemma RollLeavesClients(s: State, a: Action)
    requires Enabled(s, a) && (a.Roll? || a.Monitor?)
    ensures Step(s, a).clients == s.clients && Step(s, a).journal.done == s.journal.done
  {
  }

  lemma OthersStay(s: State, a: Action, u: Tid)
    requires Enabled(s, a) && !((a.Go? || a.CallPut? || a.CallGet?) && a.tid == u)
    ensures Pc(Step(s, a), u) == Pc(s, u)
  {
    match a
    case Go(t) => StepMovesOneClient(s, t);
    case Roll(_) => RollLeavesClients(s, a);
    case _ =>
  }

  lemma ClientsKept(s: State, a: Action)
    requires Good(s) && Enabled(s, a) && Faithful(s, a)
    ensures ClientsInv(Step(s, a))
  {
    var n := Step(s, a);
    forall u ensures ClientOk(n, Pc(n, u)) {
      if (a.Go? || a.CallPut? || a.CallGet?) && a.tid == u {
        ActorOk(s, a);
      } else {
        OthersStay(s, a, u);
        assert ClientOk(s, Pc(s, u));
        if !Pc(s, u).Idle? { StepIsCalm(s, a, u); }
        ClientOkKept(s, n, Writes(s, a), Pc(s, u));
      }
    }
    forall t, u | t != u && !Pc(n, t).Idle? && !Pc(n, u).Idle? ensures Pc(n, t).op != Pc(n, u).op {
      OpsAfterStep(s, a, t);
      OpsAfterStep(s, a, u);
      assert ClientOk(s, Pc(s, t)) && ClientOk(s, Pc(s, u));
    }
  }

  // ---------------------------------------------------------------- the log and the returned operations

  lemma LogKept(s: State, a: Action)
    requires Good(s) && Enabled(s, a)
    ensures LogInv(Step(s, a))
  {
    var log, ws := s.journal.log, Writes(s, a);
    StepCommits(s, a);
    if a.Go? {
      assert ClientOk(s, Pc(s, a.tid));
    }
    WritesBelongToActor(s, a);
    if ws == [] {
      assert log + ws == log;
    } else {
      WriterIsFresh(s, a.tid);
      AppendKeepsLog(s, ws[0]);
      assert ws == [ws[0]];
    }
  }

  lemma WriterIsFresh(s: State, t: Tid)
    requires ClientOk(s, Pc(s, t)) && Writes(s, Go(t)) != []
    ensures Fresh(s.journal.log, Pc(s, t).op) && Pc(s, t).op < s.now
  {
  }

  lemma AppendKeepsLog(s: State, w: Write)
    requires LogInv(s) && Fresh(s.journal.log, w.op)
    requires w.op < w.at <= s.now && (w.visible ==> w.at == s.now)
    ensures LogInv(s.(journal := s.journal.(log := s.journal.log + [w]), now := s.now + 1))
  {
  }

  /** The operation, if any, that returns in a step. */
  function Returns(s: State, a: Action): seq<Done> {
    if !a.Go? then []
    else
      match Pc(s, a.tid)
      case PutMain(op, k, v) => [DonePut(op, k, v, s.now)]
      case PutUnlockReset(op, k, v) => [DonePut(op, k, v, s.now)]
      case RedUnlock(op, k, v) => [DonePut(op, k, v, s.now)]
      case GetDone(op, k, locked, clean, res) => [DoneGet(op, k, res, locked, clean, s.now)]
      case _ => []
  }

  lemma StepReturns(s: State, a: Action)
    requires Enabled(s, a)
    ensures Step(s, a).journal.done == s.journal.done + Returns(s, a)
  {
  }

  lemma ReturnedOk(s: State, a: Action)
    requires a.Go? && ClientOk(s, Pc(s, a.tid)) && Returns(s, a) != []
    requires LogInv(s) && |Writes(s, a)| <= 1
    ensures var d := Returns(s, a)[0];
            d.op < s.now && DoneOk(s.journal.log + Writes(s, a), d)
  {
    var c, log := Pc(s, a.tid), s.journal.log;
    assert log + [] == log;
    if c.PutMain? {
      var w := MainWrite(s, c.op, c.k, c.v);
      StampIsOld(log, c.k, s.now);
      AppendedTookEffect(log, w, s.now);
    }
  }

  lemma DoneStays(s: State, a: Action, d: Done)
    requires |Writes(s, a)| <= 1
    requires Writes(s, a) != [] && Writes(s, a)[0].visible ==> Writes(s, a)[0].at == s.now
    requires d.op < s.now && DoneOk(s.journal.log, d)
    ensures DoneOk(s.journal.log + Writes(s, a), d)
  {
    match d
    case DonePut(op, k, v, ret) => EffectAfter(s.journal.log, Writes(s, a), op, k, v, ret, ret);
    case DoneGet(op, k, res, _, clean, ret) =>
      if clean { HeldAfter(s.journal.log, Writes(s, a), k, op, ret, ret, res); }
  }

  lemma DoneKept(s: State, a: Action)
    requires Good(s) && Enabled(s, a)
    ensures DoneInv(Step(s, a))
  {
    var n, done := Step(s, a), s.journal.done;
    StepCommits(s, a);
    StepReturns(s, a);
    if a.Go? {
      assert ClientOk(s, Pc(s, a.tid));
    }
    WritesBelongToActor(s, a);
    forall i | 0 <= i < |n.journal.done|
      ensures n.journal.done[i].op < n.now && DoneOk(n.journal.log, n.journal.done[i])
    {
      if i < |done| {
        assert done[i].op < s.now && DoneOk(s.journal.log, done[i]);
        DoneStays(s, a, done[i]);
      } else {
        ReturnedOk(s, a);
      }
    }
  }

  // ---------------------------------------------------------------- whole runs

  lemma ViewKept(s: State, a: Action)
    requires Inv(s) && ViewInv(s) && Enabled(s, a) && Faithful(s, a)
    ensures ViewInv(Step(s, a))
  {
    forall k: Key ensures View(Step(s, a), k) == Spec(Step(s, a).journal.log, k) {
      StepView(s, a, k);
      SpecAfterStep(s, a, k);
      assert View(s, k) == Spec(s.journal.log, k);
    }
  }

  lemma GoodKept(s: State, a: Action)
    requires Good(s) && Enabled(s, a) && Faithful(s, a)
    ensures Good(Step(s, a))
  {
    InvKept(s, a);
    ViewKept(s, a);
    LogKept(s, a);
    ClientsKept(s, a);
    DoneKept(s, a);
  }

  predicate FaithfulRun(states: seq<State>, actions: seq<Action>)
    requires |states| > |actions|
  {
    forall i :: 0 <= i < |actions| ==> Faithful(states[i], actions[i])
  }

  lemma GoodInit()
    ensures Good(Init)
  {
  }

  lemma {:induction false} GoodAlways(states: seq<State>, actions: seq<Action>, i: nat)
    requires IsRun(states, actions) && FaithfulRun(states, actions) && i < |states|
    ensures Good(states[i])
  {
    if i == 0 {
      GoodInit();
    } else {
      GoodAlways(states, actions, i - 1);
      assert IsStep(states, actions, i - 1);
      GoodKept(states[i - 1], actions[i - 1]);
    }
  }

  /** From agreement at a key a step leads to agreement at it exactly when it is faithful for the key. */
  lemma StepRefinesExactly(s: State, a: Action, k: Key)
    requires Inv(s) && View(s, k) == Spec(s.journal.log, k) && Enabled(s, a)
    ensures View(Step(s, a), k) == Spec(Step(s, a).journal.log, k) <==> FaithfulFor(s, a, k)
  {
    SpecAfterStep(s, a, k);
    if FaithfulFor(s, a, k) {
      StepView(s, a, k);
    } else if a.Go? {
      PutHostView(s, a.tid, k);
    } else {
      EraseKeepsKey(s, a.answer, k);
    }
  }

  predicate AgreesAt(states: seq<State>, k: Key, i: nat)
    requires i < |states|
  {
    View(states[i], k) == Spec(states[i].journal.log, k)
  }

  predicate FaithfulAt(states: seq<State>, actions: seq<Action>, k: Key, i: nat)
    requires i < |actions| < |states|
  {
    FaithfulFor(states[i], actions[i], k)
  }

  lemma {:induction false} KeyAgreesUpTo(states: seq<State>, actions: seq<Action>, k: Key, n: nat)
    requires IsRun(states, actions) && n < |states|
    requires forall i :: 0 <= i < n ==> FaithfulAt(states, actions, k, i)
    ensures AgreesAt(states, k, n)
  {
    if n == 0 {
    } else {
      KeyAgreesUpTo(states, actions, k, n - 1);
      InvAlways(states, actions, n - 1);
      assert IsStep(states, actions, n - 1) && FaithfulAt(states, actions, k, n - 1);
      StepRefinesExactly(states[n - 1], actions[n - 1], k);
    }
  }

  /**
   In every run and for every key: the stores agree with the map of last writes at the key in all
   states exactly when each step is faithful for the key.
   */
  lemma RunRefinesKeyExactly(states: seq<State>, actions: seq<Action>, k: Key)
    requires IsRun(states, actions)
    ensures (forall i :: 0 <= i < |states| ==> AgreesAt(states, k, i))
       <==> (forall i :: 0 <= i < |actions| ==> FaithfulAt(states, actions, k, i))
  {
    if forall i :: 0 <= i < |actions| ==> FaithfulAt(states, actions, k, i) {
      forall i | 0 <= i < |states| ensures AgreesAt(states, k, i) {
        KeyAgreesUpTo(states, actions, k, i);
      }
    }
    if forall i :: 0 <= i < |states| ==> AgreesAt(states, k, i) {
      forall i | 0 <= i < |actions| ensures FaithfulAt(states, actions, k, i) {
        InvAlways(states, actions, i);
        assert IsStep(states, actions, i) && AgreesAt(states, k, i) && AgreesAt(states, k, i + 1);
        StepRefinesExactly(states[i], actions[i], k);
      }
    }
  }

  /** For all keys together. */
  lemma RunRefinesExactly(states: seq<State>, actions: seq<Action>)
    requires IsRun(states, actions)
    ensures (forall i :: 0 <= i < |states| ==> ViewInv(states[i])) <==> FaithfulRun(states, actions)
  {
    if FaithfulRun(states, actions) {
      forall i | 0 <= i < |states| ensures ViewInv(states[i]) {
        GoodAlways(states, actions, i);
      }
    }
    if forall i :: 0 <= i < |states| ==> ViewInv(states[i]) {
      forall i, k: Key | 0 <= i < |actions| ensures FaithfulFor(states[i], actions[i], k) {
        InvAlways(states, actions, i);
        assert IsStep(states, actions, i) && ViewInv(states[i]) && ViewInv(states[i + 1]);
        StepRefinesExactly(states[i], actions[i], k);
      }
    }
  }

  /** Every Put that returned took effect exactly once, after its call and no later than its return. */
  lemma PutsAreLinearizable(states: seq<State>, actions: seq<Action>, i: nat, j: nat)
    requires IsRun(states, actions) && FaithfulRun(states, actions) && i < |states|
    requires j < |states[i].journal.done| && states[i].journal.done[j].DonePut?
    ensures var log, d := states[i].journal.log, states[i].journal.done[j];
            && TookEffect(log, d.op, d.k, d.v, d.ret)
            && forall a, b :: 0 <= a < |log| && 0 <= b < |log| && log[a].op == d.op == log[b].op ==> a == b
  {
    GoodAlways(states, actions, i);
    assert DoneOk(states[i].journal.log, states[i].journal.done[j]);
  }

  // ---------------------------------------------------------------- provisos on the workload

  /** No Put that found Dev-LSM empty writes Main behind the back of the rollback. */
  predicate NeverStale(states: seq<State>, actions: seq<Action>)
    requires |states| > |actions|
  {
    forall i :: 0 <= i < |actions| ==> NotStale(states[i], actions[i])
  }

  /** Moreover no unstalled Put finds two tracker entries of its key. */
  predicate Allowed(states: seq<State>, actions: seq<Action>)
    requires |states| > |actions|
  {
    NeverStale(states, actions) && forall i :: 0 <= i < |actions| ==> SingleEntry(states[i], actions[i])
  }

  lemma {:induction false} MovedAlways(states: seq<State>, actions: seq<Action>, i: nat)
    requires IsRun(states, actions) && NeverStale(states, actions) && i < |states|
    ensures MovedInv(states[i])
  {
    if i == 0 {
      assert states[0] == Init;
    } else {
      MovedAlways(states, actions, i - 1);
      InvAlways(states, actions, i - 1);
      assert IsStep(states, actions, i - 1);
      MovedKept(states[i - 1], actions[i - 1]);
    }
  }

  lemma {:induction false} HostSingleAlways(states: seq<State>, actions: seq<Action>, i: nat)
    requires IsRun(states, actions) && Allowed(states, actions) && i < |states|
    ensures HostSingle(states[i])
  {
    if i == 0 {
      assert states[0] == Init;
    } else {
      HostSingleAlways(states, actions, i - 1);
      InvAlways(states, actions, i - 1);
      assert IsStep(states, actions, i - 1);
      HostSingleKept(states[i - 1], actions[i - 1]);
    }
  }

  /** The two provisos on the workload are enough. */
  lemma AllowedIsFaithful(states: seq<State>, actions: seq<Action>)
    requires IsRun(states, actions) && Allowed(states, actions)
    ensures FaithfulRun(states, actions)
  {
    forall i | 0 <= i < |actions| ensures Faithful(states[i], actions[i]) {
      InvAlways(states, actions, i);
      MovedAlways(states, actions, i);
      HostSingleAlways(states, actions, i);
      if actions[i].Go? {
        HostClientIs(states[i], actions[i].tid);
      }
    }
  }

  /** In every state of every allowed run the two stores together are the map of last writes. */
  lemma RunRefinesLastWrites(states: seq<State>, actions: seq<Action>, i: nat, k: Key)
    requires IsRun(states, actions) && Allowed(states, actions) && i < |states|
    ensures View(states[i], k) == Spec(states[i].journal.log, k)
  {
    AllowedIsFaithful(states, actions);
    GoodAlways(states, actions, i);
  }
}
