/**
 The journal invariant: what is known about each operation that is under way, and what was
 promised about each operation that returned.
 */
module ProtocolJournal {
  import opened Types
  import opened Protocol
  import opened ProtocolInvariants
  import opened ProtocolView
  import opened ProtocolSteps
  import opened ProtocolLinear

  // ---------------------------------------------------------------- operations under way

  predicate BeforeEffect(c: Client) {
    || c.PutFlag? || c.PutMain? || c.PutWaitReset? || c.PutWaitRollback? || c.PutTracker?
    || c.PutHost? || c.RedWaitReset? || c.RedFlag? || c.RedDev?
  }

  predicate AfterEffect(c: Client) {
    c.PutUnlockRollback? || c.PutUnlockReset? || c.RedUnlock?
  }

  /** A thread on its way to Main without a lock: it saw `k` outside Dev-LSM after its call. */
  predicate OnWayToMain(c: Client) {
    c.PutMain? || (c.GetMain? && c.clean)
  }

  ghost predicate ClientOk(s: State, c: Client) {
    var log := s.journal.log;
    c.Idle? ||
    (&& c.op < s.now
     && (BeforeEffect(c) ==> Fresh(log, c.op))
     && (AfterEffect(c) ==> TookEffect(log, c.op, c.k, c.v, s.now))
     && (c.RedTrack? ==> if c.k in s.store.tracker then TookEffect(log, c.op, c.k, c.v, s.now)
                         else Fresh(log, c.op))
     && (OnWayToMain(c) && InDev(s, c.k) ==> c.op < Stamp(log, c.k))
     && (c.GetMain? && c.clean ==> HeldIn(log, c.k, c.op, s.now, Lookup(s.store.main, c.k)))
     && (c.GetDone? && c.clean ==> HeldIn(log, c.k, c.op, s.now, c.res)))
  }

  ghost predicate ClientsInv(s: State) {
    && (forall t :: ClientOk(s, Pc(s, t)))
    && (forall t, u :: t != u && !Pc(s, t).Idle? && !Pc(s, u).Idle? ==> Pc(s, t).op != Pc(s, u).op)
  }

  // ---------------------------------------------------------------- operations that returned

  /** What was promised about an operation when it returned. */
  ghost predicate DoneOk(log: seq<Write>, d: Done) {
    match d
    case DonePut(op, k, v, ret) => TookEffect(log, op, k, v, ret)
    case DoneGet(op, k, res, _, clean, ret) => clean ==> HeldIn(log, k, op, ret, res)
  }

  ghost predicate LogInv(s: State) {
    var log := s.journal.log;
    && (forall i :: 0 <= i < |log| ==> log[i].op < log[i].at < s.now)
    && (forall i, j :: 0 <= i < j < |log| ==> log[i].op != log[j].op)
    && (forall i, j :: 0 <= i < j < |log| && log[i].visible && log[j].visible ==>
          log[i].at < log[j].at)
  }

  ghost predicate DoneInv(s: State) {
    forall i :: 0 <= i < |s.journal.done| ==>
      s.journal.done[i].op < s.now && DoneOk(s.journal.log, s.journal.done[i])
  }

  // ---------------------------------------------------------------- a step and the others

  /**
   What a step may do to an operation of another thread: the log grows by at most one write of
   another operation, the key enters Dev-LSM only through a write of it, and Main changes only
   by a write of the log or to the value the map of last writes has.
   */
  ghost predicate Calm(s: State, n: State, ws: seq<Write>, c: Client)
    requires !c.Idle?
  {
    && n.now == s.now + 1
    && n.journal.log == s.journal.log + ws && |ws| <= 1
    && (ws != [] ==> ws[0].op != c.op && ws[0].at < n.now && (ws[0].visible ==> ws[0].at == s.now))
    && (c.RedTrack? ==> (c.k in n.store.tracker <==> c.k in s.store.tracker))
    && (InDev(n, c.k) ==> InDev(s, c.k) || (ws != [] && ws[0].visible && ws[0].k == c.k))
    && var x := Lookup(n.store.main, c.k);
       || x == Lookup(s.store.main, c.k)
       || x == Spec(s.journal.log, c.k)
       || (ws != [] && ws[0].k == c.k && Some(ws[0].v) == x
           && (ws[0].visible || (InDev(s, c.k) && ws[0].at == Stamp(s.journal.log, c.k))))
  }

  lemma FreshAfter(log: seq<Write>, ws: seq<Write>, op: nat)
    requires Fresh(log, op) && |ws| <= 1 && (ws != [] ==> ws[0].op != op)
    ensures Fresh(log + ws, op)
  {
  }

  lemma EffectAfter(log: seq<Write>, ws: seq<Write>, op: nat, k: Key, v: Value, hi: nat, hi': nat)
    requires TookEffect(log, op, k, v, hi) && hi <= hi' && |ws| <= 1
    ensures TookEffect(log + ws, op, k, v, hi')
  {
    if ws == [] {
      assert log + ws == log;
    } else {
      assert ws == [ws[0]];
      EffectAfterAppend(log, ws[0], op, k, v, hi, hi');
    }
  }

  lemma HeldAfter(log: seq<Write>, ws: seq<Write>, k: Key, lo: nat, hi: nat, hi': nat,
                  x: Option<Value>)
    requires HeldIn(log, k, lo, hi, x) && hi <= hi' && |ws| <= 1
    requires ws != [] && ws[0].visible ==> lo < ws[0].at
    ensures HeldIn(log + ws, k, lo, hi', x)
  {
    if ws == [] {
      assert log + ws == log;
      if WrittenIn(log, k, lo, hi, x) {
        var i :| 0 <= i < |log| && log[i].k == k && Some(log[i].v) == x && lo < log[i].at <= hi;
        assert log[i].at <= hi';
      }
    } else {
      assert ws == [ws[0]];
      HeldAfterAppend(log, ws[0], k, lo, hi, hi', x);
    }
  }

  lemma StampAfter(log: seq<Write>, ws: seq<Write>, k: Key)
    requires |ws| <= 1
    ensures Stamp(log + ws, k) == if ws != [] && ws[0].visible && ws[0].k == k then ws[0].at
                                  else Stamp(log, k)
  {
    if ws == [] {
      assert log + ws == log;
    } else {
      assert ws == [ws[0]];
      LogAppend(log, ws[0], k, 0);
    }
  }

  /** Main as an unlocked reader finds it was held since the reader's call. */
  lemma MainStaysHeld(s: State, n: State, ws: seq<Write>, c: Client)
    requires LogInv(s) && c.GetMain? && c.clean && ClientOk(s, c) && Calm(s, n, ws, c)
    ensures HeldIn(n.journal.log, c.k, c.op, n.now, Lookup(n.store.main, c.k))
  {
    var log, x := s.journal.log, Lookup(n.store.main, c.k);
    if x == Lookup(s.store.main, c.k) {
      HeldAfter(log, ws, c.k, c.op, s.now, n.now, x);
    } else if x == Spec(log, c.k) {
      SpecIsHeld(log, c.k, c.op, s.now);
      HeldAfter(log, ws, c.k, c.op, s.now, n.now, x);
    } else {
      assert (log + ws)[|log|] == ws[0];
      assert WrittenIn(log + ws, c.k, c.op, n.now, x);
    }
  }

  lemma ClientOkKept(s: State, n: State, ws: seq<Write>, c: Client)
    requires LogInv(s) && ClientOk(s, c) && (c.Idle? || Calm(s, n, ws, c))
    ensures ClientOk(n, c)
  {
    if !c.Idle? {
      var log := s.journal.log;
      if Fresh(log, c.op) {
        FreshAfter(log, ws, c.op);
      }
      if AfterEffect(c) || (c.RedTrack? && c.k in s.store.tracker) {
        EffectAfter(log, ws, c.op, c.k, c.v, s.now, n.now);
      }
      StampAfter(log, ws, c.k);
      if c.GetMain? && c.clean {
        MainStaysHeld(s, n, ws, c);
      }
      if c.GetDone? && c.clean {
        HeldAfter(log, ws, c.k, c.op, s.now, n.now, c.res);
      }
    }
  }

  // ---------------------------------------------------------------- every step is calm

  ghost predicate ViewInv(s: State) {
    forall k: Key :: View(s, k) == Spec(s.journal.log, k)
  }

  /** Main changes only by a write of the log, or when the rollback moves a current value there. */
  lemma MainAfterGo(s: State, t: Tid, k: Key)
    requires Enabled(s, Go(t))
    ensures var x, ws := Lookup(Step(s, Go(t)).store.main, k), Writes(s, Go(t));
            || x == Lookup(s.store.main, k)
            || (ws != [] && ws[0].k == k && Some(ws[0].v) == x
                && (ws[0].visible || (InDev(s, k) && ws[0].at == Stamp(s.journal.log, k))))
  {
    var c := Pc(s, t);
    if IsHostPut(c) {
      match c case _ =>
    } else if IsRedirect(c) {
      match c case _ =>
    } else {
      match c case _ =>
    }
  }

  lemma MainAfterRoll(s: State, answer: seq<Record>, k: Key)
    requires Inv(s) && ViewInv(s) && RollEnabled(s, answer)
    ensures var x := Lookup(Step(s, Roll(answer)).store.main, k);
            x == Lookup(s.store.main, k) || x == Spec(s.journal.log, k)
  {
    if s.scan.pc.Move? {
      assert Remaining(s.scan)[0] == Record(s.scan.pc.k, s.scan.pc.v);
      assert Lookup(s.store.dev, s.scan.pc.k) == Some(s.scan.pc.v);
      assert Dev(s.store) == s.store.dev;
      assert View(s, s.scan.pc.k) == Spec(s.journal.log, s.scan.pc.k);
    } else {
      RollLeavesMain(s, answer);
    }
  }

  lemma RollLeavesMain(s: State, answer: seq<Record>)
    requires RollEnabled(s, answer) && !s.scan.pc.Move?
    ensures Step(s, Roll(answer)).store.main == s.store.main
    ensures !RollHoldsReset(s.scan.pc) ==> Step(s, Roll(answer)).store == s.store
  {
    if Moving(s.scan.pc) {
      MoveLeavesMain(s, answer);
    } else {
      EndLeavesMain(s);
    }
  }

  lemma MoveLeavesMain(s: State, answer: seq<Record>)
    requires RollEnabled(s, answer) && Moving(s.scan.pc) && !s.scan.pc.Move?
    ensures MoveStep(s, answer).store.main == s.store.main
    ensures !RollHoldsReset(s.scan.pc) ==> MoveStep(s, answer).store == s.store
  {
  }

  lemma EndLeavesMain(s: State)
    requires !Moving(s.scan.pc)
    ensures EndStep(s).store.main == s.store.main
  {
  }

  /** A redirected Put in its critical section is alone with the tracker. */
  lemma TrackerIsPrivate(s: State, a: Action, u: Tid)
    requires LockInv(s) && Enabled(s, a) && HoldsReset(Pc(s, u)) && !(a.Go? && a.tid == u)
    ensures Step(s, a).store.tracker == s.store.tracker
  {
  }

  lemma WritesBelongToActor(s: State, a: Action)
    requires LogInv(s)
    requires a.Go? && OnWayToMain(Pc(s, a.tid)) && InDev(s, Pc(s, a.tid).k) ==>
               Pc(s, a.tid).op < Stamp(s.journal.log, Pc(s, a.tid).k)
    ensures var ws := Writes(s, a);
            |ws| <= 1 && (ws != [] ==>
              && a.Go? && !Pc(s, a.tid).Idle? && ws[0].op == Pc(s, a.tid).op
              && ws[0].at <= s.now && (ws[0].visible ==> ws[0].at == s.now)
              && (!ws[0].visible ==> ws[0].op < ws[0].at < s.now))
  {
    if a.Go? && Pc(s, a.tid).PutMain? {
      StampIsOld(s.journal.log, Pc(s, a.tid).k, s.now);
    }
  }

  ghost predicate Good(s: State) {
    && Inv(s) && ViewInv(s) && LogInv(s) && ClientsInv(s) && DoneInv(s)
  }

  lemma StepIsCalm(s: State, a: Action, u: Tid)
    requires Good(s) && Enabled(s, a) && Faithful(s, a) && !Pc(s, u).Idle? && !(a.Go? && a.tid == u)
    ensures Calm(s, Step(s, a), Writes(s, a), Pc(s, u))
  {
    var c := Pc(s, u);
    StepCommits(s, a);
    StepView(s, a, c.k);
    if a.Go? {
      assert ClientOk(s, Pc(s, a.tid));
      MainAfterGo(s, a.tid, c.k);
    } else if a.Roll? {
      MainAfterRoll(s, a.answer, c.k);
    }
    WritesBelongToActor(s, a);
    if c.RedTrack? {
      TrackerIsPrivate(s, a, u);
    }
  }
}
