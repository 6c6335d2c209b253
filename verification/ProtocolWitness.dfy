/**
 Concrete runs that show where the guarantees end.  Each is a run of the transition system from
 its initial state.
 */
module ProtocolWitness {
  import opened Types
  import opened Protocol
  import opened ProtocolView
  import opened ProtocolRefinement

  // ---------------------------------------------------------------- reaching a state

  /** The states follow each other by the actions; a strict path obeys both provisos. */
  predicate IsPath(states: seq<State>, actions: seq<Action>, strict: bool) {
    && |states| == |actions| + 1
    && (forall i :: 0 <= i < |actions| ==> IsStep(states, actions, i))
    && (strict ==> Allowed(states, actions))
  }

  ghost predicate Reaches(s: State, n: State, strict: bool) {
    exists states, actions ::
      IsPath(states, actions, strict) && states[0] == s && states[|actions|] == n
  }

  lemma ReachStep(s: State, a: Action, strict: bool)
    requires Enabled(s, a) && (strict ==> SingleEntry(s, a) && NotStale(s, a))
    ensures Reaches(s, Step(s, a), strict)
  {
    var states := [s, Step(s, a)];
    assert IsPath(states, [a], strict);
  }

  lemma ReachOn(s: State, m: State, n: State, strict: bool)
    requires Reaches(s, m, strict) && Reaches(m, n, strict)
    ensures Reaches(s, n, strict)
  {
    var p, a :| IsPath(p, a, strict) && p[0] == s && p[|a|] == m;
    var q, b :| IsPath(q, b, strict) && q[0] == m && q[|b|] == n;
    var states, actions := p + q[1..], a + b;
    forall i | 0 <= i < |actions|
      ensures IsStep(states, actions, i)
      ensures strict ==> SingleEntry(states[i], actions[i]) && NotStale(states[i], actions[i])
    {
      if i < |a| {
        assert IsStep(p, a, i);
        assert states[i] == p[i] && states[i + 1] == p[i + 1];
      } else {
        assert IsStep(q, b, i - |a|);
        assert states[i] == q[i - |a|] && states[i + 1] == q[i - |a| + 1];
      }
    }
    assert IsPath(states, actions, strict);
  }

  lemma ReachGo(s: State, m: State, t: Tid, strict: bool)
    requires Reaches(s, m, strict) && Enabled(m, Go(t))
    requires strict ==> SingleEntry(m, Go(t)) && NotStale(m, Go(t))
    ensures Reaches(s, Step(m, Go(t)), strict)
  {
    ReachStep(m, Go(t), strict);
    ReachOn(s, m, Step(m, Go(t)), strict);
  }

  /** What is reached from the initial state is the end of a run. */
  lemma ReachIsRun(n: State, strict: bool) returns (states: seq<State>, actions: seq<Action>)
    requires Reaches(Init, n, strict)
    ensures IsRun(states, actions) && states[|actions|] == n
    ensures strict ==> Allowed(states, actions)
  {
    states, actions :| IsPath(states, actions, strict)
                       && states[0] == Init && states[|actions|] == n;
  }

  // ---------------------------------------------------------------- whole operations, undisturbed

  /** A redirected Put that has set kache_flag. */
  function RedirectBegun(s: State, t: Tid, k: Key, v: Value): State {
    s.(store := s.store.(kache := true), locks := s.locks.(reset := ByClient(t)),
       clients := s.clients[t := RedDev(s.now, k, v)], now := s.now + 3)
  }

  lemma BeginRedirect(s: State, t: Tid, k: Key, v: Value)
    requires Pc(s, t).Idle? && s.level.High? && s.locks.reset.Nobody?
    ensures Reaches(s, RedirectBegun(s, t, k, v), true)
  {
    ReachStep(s, CallPut(t, k, v), true);
    var s1 := s.(clients := s.clients[t := RedWaitReset(s.now, k, v)], now := s.now + 1);
    assert Step(s, CallPut(t, k, v)) == s1;
    ReachGo(s, s1, t, true);
    var s2 := s1.(locks := s.locks.(reset := ByClient(t)),
                  clients := s1.clients[t := RedFlag(s.now, k, v)], now := s.now + 2);
    assert Step(s1, Go(t)) == s2;
    ReachGo(s, s2, t, true);
    assert Step(s2, Go(t)) == RedirectBegun(s, t, k, v);
  }

  /** A redirected Put that returned: buffered for Dev-LSM and tracked once more. */
  function Redirected(s: State, t: Tid, k: Key, v: Value): State {
    var delay := if k in s.store.tracker then 3 else 4;
    s.(store := s.store.(pending := s.store.pending + [Record(k, v)],
                         tracker := s.store.tracker + multiset{k}, kache := true),
       clients := s.clients[t := Idle],
       journal := Journal(s.journal.log + [Write(s.now, k, v, s.now + delay, true)],
                          s.journal.done + [DonePut(s.now, k, v, s.now + 5)]),
       now := s.now + 6)
  }

  lemma RedirectRuns(s: State, t: Tid, k: Key, v: Value)
    requires Pc(s, t).Idle? && s.level.High? && s.locks.reset.Nobody?
    requires |s.store.pending| + 1 < FLUSH_LIMIT
    ensures Reaches(s, Redirected(s, t, k, v), true)
  {
    BeginRedirect(s, t, k, v);
    FinishRedirect(RedirectBegun(s, t, k, v), t);
    ReachOn(s, RedirectBegun(s, t, k, v), Redirected(s, t, k, v), true) by {
      assert s.locks.(reset := Nobody) == s.locks;
      assert RedirectBegun(s, t, k, v).clients[t := Idle] == s.clients[t := Idle];
    }
  }

  /** The state in which a redirected Put that is about to write to Dev-LSM will have returned. */
  function RedirectEnded(s: State, t: Tid, c: Client): State
    requires c.RedDev?
  {
    var delay := if c.k in s.store.tracker then 0 else 1;
    s.(store := s.store.(pending := s.store.pending + [Record(c.k, c.v)],
                         tracker := s.store.tracker + multiset{c.k}),
       locks := s.locks.(reset := Nobody),
       clients := s.clients[t := Idle],
       journal := Journal(s.journal.log + [Write(c.op, c.k, c.v, s.now + delay, true)],
                          s.journal.done + [DonePut(c.op, c.k, c.v, s.now + 2)]),
       now := s.now + 3)
  }

  lemma FinishRedirect(s: State, t: Tid)
    requires Pc(s, t).RedDev? && |s.store.pending| + 1 < FLUSH_LIMIT
    ensures Reaches(s, RedirectEnded(s, t, Pc(s, t)), true)
  {
    var s1 := Step(s, Go(t));
    ReachStep(s, Go(t), true);
    ReachTracked(s1, t);
    ReachOn(s, s1, Step(Step(s1, Go(t)), Go(t)), true);
    if Pc(s, t).k in s.store.tracker {
      TrackedEnds(s, t);
    } else {
      UntrackedEnds(s, t);
    }
  }

  lemma ReachTracked(s: State, t: Tid)
    requires Pc(s, t).RedTrack?
    ensures Enabled(s, Go(t)) && Enabled(Step(s, Go(t)), Go(t))
    ensures Reaches(s, Step(Step(s, Go(t)), Go(t)), true)
  {
    ReachStep(s, Go(t), true);
    assert Pc(Step(s, Go(t)), t).RedUnlock?;
    ReachGo(s, Step(s, Go(t)), t, true);
  }

  lemma TrackedEnds(s: State, t: Tid)
    requires Pc(s, t).RedDev? && |s.store.pending| + 1 < FLUSH_LIMIT && Pc(s, t).k in s.store.tracker
    ensures Enabled(Step(s, Go(t)), Go(t)) && Enabled(Step(Step(s, Go(t)), Go(t)), Go(t))
    ensures Step(Step(Step(s, Go(t)), Go(t)), Go(t)) == RedirectEnded(s, t, Pc(s, t))
  {
  }

  lemma UntrackedEnds(s: State, t: Tid)
    requires Pc(s, t).RedDev? && |s.store.pending| + 1 < FLUSH_LIMIT && Pc(s, t).k !in s.store.tracker
    ensures Enabled(Step(s, Go(t)), Go(t)) && Enabled(Step(Step(s, Go(t)), Go(t)), Go(t))
    ensures Step(Step(Step(s, Go(t)), Go(t)), Go(t)) == RedirectEnded(s, t, Pc(s, t))
  {
  }

  /** An unstalled Put of a tracked key that has dropped one tracker entry. */
  function HostBegun(s: State, t: Tid, k: Key, v: Value): State {
    s.(store := s.store.(tracker := s.store.tracker - multiset{k}),
       locks := s.locks.(reset := ByClient(t), excl := ByClient(t)),
       clients := s.clients[t := PutHost(s.now, k, v, true)], now := s.now + 5)
  }

  lemma BeginHost(s: State, t: Tid, k: Key, v: Value, strict: bool)
    requires Pc(s, t).Idle? && !s.level.High? && s.store.kache && k in s.store.tracker
    requires s.locks == Locks(Nobody, Nobody, {})
    requires strict ==> s.store.tracker[k] == 1
    ensures Reaches(s, HostBegun(s, t, k, v), strict)
  {
    HostSeesFlag(s, t, k, v, strict);
    var s2 := s.(clients := s.clients[t := PutWaitReset(s.now, k, v)], now := s.now + 2);
    ReachGo(s, s2, t, strict);
    var s3 := s.(locks := s.locks.(reset := ByClient(t)),
                 clients := s.clients[t := PutWaitRollback(s.now, k, v)], now := s.now + 3);
    assert Step(s2, Go(t)) == s3;
    EnterHost(s3, t, strict);
    ReachOn(s, s3, HostBegun(s, t, k, v), strict);
  }

  lemma HostSeesFlag(s: State, t: Tid, k: Key, v: Value, strict: bool)
    requires Pc(s, t).Idle? && !s.level.High? && s.store.kache
    ensures Reaches(s, s.(clients := s.clients[t := PutWaitReset(s.now, k, v)], now := s.now + 2), strict)
  {
    ReachStep(s, CallPut(t, k, v), strict);
    var s1 := s.(clients := s.clients[t := PutFlag(s.now, k, v)], now := s.now + 1);
    ReachGo(s, s1, t, strict);
  }

  lemma EnterHost(s: State, t: Tid, strict: bool)
    requires Pc(s, t).PutWaitRollback? && s.locks.excl.Nobody? && s.locks.shared == {}
    requires Pc(s, t).k in s.store.tracker
    requires strict ==> s.store.tracker[Pc(s, t).k] == 1
    ensures var c := Pc(s, t);
            Reaches(s, s.(store := s.store.(tracker := s.store.tracker - multiset{c.k}),
                          locks := s.locks.(excl := ByClient(t)),
                          clients := s.clients[t := PutHost(c.op, c.k, c.v, true)],
                          now := s.now + 2), strict)
  {
    var c := Pc(s, t);
    ReachStep(s, Go(t), strict);
    var s1 := s.(locks := s.locks.(excl := ByClient(t)),
                 clients := s.clients[t := PutTracker(c.op, c.k, c.v)], now := s.now + 1);
    ReachGo(s, s1, t, strict);
  }

  /** The same Put after it returned. */
  function HostEnded(s: State, t: Tid, k: Key, v: Value): State {
    s.(store := s.store.(tracker := s.store.tracker - multiset{k}, main := s.store.main[k := v]),
       clients := s.clients[t := Idle],
       journal := Journal(s.journal.log + [Write(s.now, k, v, s.now + 5, true)],
                          s.journal.done + [DonePut(s.now, k, v, s.now + 7)]),
       now := s.now + 8)
  }

  lemma HostRuns(s: State, t: Tid, k: Key, v: Value)
    requires Pc(s, t).Idle? && !s.level.High? && s.store.kache && k in s.store.tracker
    requires s.locks == Locks(Nobody, Nobody, {})
    ensures Reaches(s, HostEnded(s, t, k, v), false)
  {
    BeginHost(s, t, k, v, false);
    LeaveHost(HostBegun(s, t, k, v), t);
    ReachOn(s, HostBegun(s, t, k, v), HostEnded(s, t, k, v), false);
  }

  lemma LeaveHost(s: State, t: Tid)
    requires Pc(s, t).PutHost?
    ensures var c := Pc(s, t);
            Reaches(s, s.(store := s.store.(main := s.store.main[c.k := c.v]),
                          locks := s.locks.(reset := Nobody, excl := Nobody),
                          clients := s.clients[t := Idle],
                          journal := Journal(
                            s.journal.log + [Write(c.op, c.k, c.v, s.now, true)],
                            s.journal.done + [DonePut(c.op, c.k, c.v, s.now + 2)]),
                          now := s.now + 3), false)
  {
    var c := Pc(s, t);
    ReachStep(s, Go(t), false);
    var s1 := Step(s, Go(t));
    assert Pc(s1, t) == PutUnlockRollback(c.op, c.k, c.v);
    ReachGo(s, s1, t, false);
    var s2 := Step(s1, Go(t));
    assert Pc(s2, t) == PutUnlockReset(c.op, c.k, c.v);
    ReachGo(s, s2, t, false);
  }

  /** What a Get finds that takes no lock while kache_flag is set. */
  function Found(s: State, k: Key): Option<Value> {
    if k in s.store.tracker then Lookup(s.store.dev, k) else Lookup(s.store.main, k)
  }

  lemma UnlockedGetRuns(s: State, t: Tid, k: Key) returns (n: State)
    requires Pc(s, t).Idle? && s.store.kache && !s.store.rollbackFlag
    requires !s.locks.excl.ByClient? || s.locks.excl.tid != t
    ensures Reaches(s, n, true)
    ensures n.store == s.store && n.journal.log == s.journal.log
    ensures |n.journal.done| == |s.journal.done| + 1 && s.journal.done <= n.journal.done
    ensures var d := n.journal.done[|s.journal.done|];
            d.DoneGet? && d.op == s.now && d.k == k && d.res == Found(s, k) && d.ret == s.now + 5
  {
    var m := GetReachesTracker(s, t, k);
    var m2 := GetFinds(m, t);
    ReachOn(s, m, m2, true);
    ReachGo(s, m2, t, true);
    n := Step(m2, Go(t));
  }

  lemma GetFinds(s: State, t: Tid) returns (n: State)
    requires Pc(s, t).GetTracker? && !Pc(s, t).locked
    ensures Reaches(s, n, true)
    ensures Pc(n, t).GetDone? && n == s.(clients := s.clients[t := Pc(n, t)], now := s.now + 2)
    ensures var c, d := Pc(s, t), Pc(n, t);
            d.op == c.op && d.k == c.k && !d.locked && d.res == Found(s, c.k)
  {
    var s1 := Step(s, Go(t));
    ReachStep(s, Go(t), true);
    assert Pc(s1, t).GetDev? || Pc(s1, t).GetMain?;
    ReachGo(s, s1, t, true);
    n := Step(s1, Go(t));
  }

  lemma GetReachesTracker(s: State, t: Tid, k: Key) returns (n: State)
    requires Pc(s, t).Idle? && s.store.kache && !s.store.rollbackFlag
    ensures Reaches(s, n, true)
    ensures n == s.(clients := s.clients[t := GetTracker(s.now, k, false)], now := s.now + 3)
  {
    ReachStep(s, CallGet(t, k), true);
    var s1 := s.(clients := s.clients[t := GetFlag(s.now, k)], now := s.now + 1);
    ReachGo(s, s1, t, true);
    var s2 := s.(clients := s.clients[t := GetRollbackFlag(s.now, k)], now := s.now + 2);
    assert Step(s1, Go(t)) == s2;
    ReachGo(s, s2, t, true);
    n := Step(s2, Go(t));
  }

  lemma ReachMonitor(s: State, m: State, level: Level, l0: nat, strict: bool)
    requires Reaches(s, m, strict)
    ensures Reaches(s, m.(level := level, l0 := l0, now := m.now + 1), strict)
  {
    ReachStep(m, Monitor(level, l0), strict);
    ReachOn(s, m, Step(m, Monitor(level, l0)), strict);
  }

  // ---------------------------------------------------------------- the witnesses

  const K: Key := 7

  /** Monitor reports a stall; two clients redirect the same key. */
  ghost const Stalled: State := Init.(level := High, now := 1)
  ghost const Once: State := Redirected(Stalled, 0, K, [1])
  ghost const Twice: State := Redirected(Once, 1, K, [2])

  lemma ReachOnce()
    ensures Reaches(Init, Once, true)
  {
    ReachStep(Init, Monitor(High, 0), true);
    assert Step(Init, Monitor(High, 0)) == Stalled;
    RedirectRuns(Stalled, 0, K, [1]);
    ReachOn(Init, Stalled, Once, true);
  }

  lemma ReachTwice()
    ensures Reaches(Init, Twice, true)
  {
    ReachOnce();
    RedirectRuns(Once, 1, K, [2]);
    ReachOn(Init, Once, Twice, true);
  }

  /**
   A Put can be lost: two redirected Puts of a key followed by an unstalled Put of it leave the
   second redirected value in place.
   */
  lemma HostPutLostAfterTwoRedirects()
    returns (states: seq<State>, actions: seq<Action>)
    ensures IsRun(states, actions)
    ensures var s := states[|actions|];
            View(s, K) == Some([2]) && Spec(s.journal.log, K) == Some([3])
  {
    ReachTwice();
    ReachMonitor(Init, Twice, Low, 0, true);
    var calm := Twice.(level := Low, now := Twice.now + 1);
    HostRuns(calm, 2, K, [3]);
    var last := HostEnded(calm, 2, K, [3]);
    Relax(Init, calm);
    ReachOn(Init, calm, last, false);
    states, actions := ReachIsRun(last, false);
    LogAppend(calm.journal.log, Write(calm.now, K, [3], calm.now + 5, true), K, 0);
    OverlayAppend(map[], [Record(K, [1])], Record(K, [2]));
    assert [Record(K, [1])] + [Record(K, [2])] == last.store.pending;
    assert last.store.tracker == multiset{K};
  }

  lemma Relax(s: State, n: State)
    requires Reaches(s, n, true)
    ensures Reaches(s, n, false)
  {
  }

  /**
   A Get can miss a Put that returned: the redirected record is still in the host buffer, and
   the device is asked directly.
   */
  lemma GetMissesBufferedPut()
    returns (states: seq<State>, actions: seq<Action>)
    ensures IsRun(states, actions) && Allowed(states, actions)
    ensures var j := states[|actions|].journal;
            |j.done| == 2 && j.done[0] == DonePut(1, K, [1], 6)
            && j.done[1].DoneGet? && j.done[1].op == 7 && j.done[1].k == K && j.done[1].res == None
            && !HeldIn(j.log, K, 7, j.done[1].ret, None)
  {
    ReachOnce();
    OnceFacts();
    var n := MissAfter(Once, Write(1, K, [1], 5, true));
    states, actions := ReachIsRun(n, true);
  }

  lemma MissAfter(s: State, w: Write) returns (n: State)
    requires Reaches(Init, s, true) && s.store.kache && !s.store.rollbackFlag
    requires Pc(s, 1).Idle? && s.locks.excl.Nobody? && |s.journal.done| == 1
    requires K in s.store.tracker && K !in s.store.dev
    requires s.journal.log == [w] && w.visible && w.k == K && w.at <= s.now
    ensures Reaches(Init, n, true) && |n.journal.done| == 2 && n.journal.done[0] == s.journal.done[0]
    ensures var d := n.journal.done[1];
            d.DoneGet? && d.op == s.now && d.k == K && d.res == None
            && !HeldIn(n.journal.log, K, s.now, d.ret, None)
  {
    n := UnlockedGetRuns(s, 1, K);
    ReachOn(Init, s, n, true);
    OnlyWrite(w, s.now, n.journal.done[1].ret, None);
  }

  lemma OnceFacts()
    ensures Once.journal == Journal([Write(1, K, [1], 5, true)], [DonePut(1, K, [1], 6)])
    ensures Once.now == 7 && Once.store == Store(map[], map[], [Record(K, [1])], multiset{K}, true, false)
    ensures Once.locks == Locks(Nobody, Nobody, {}) && Once.scan.pc == Sleep && Pc(Once, 1) == Idle
  {
  }

  /** After a single write the key holds that value and no other. */
  lemma OnlyWrite(w: Write, lo: nat, hi: nat, x: Option<Value>)
    requires w.visible && w.k == K && w.at <= lo && x != Some(w.v)
    ensures !HeldIn([w], K, lo, hi, x)
  {
  }

  /** Main holds an old value of the key, Dev-LSM the current one; the stall is over. */
  ghost const OldInMain: State :=
    Init.(store := Init.store.(main := map[K := [0]]), clients := map[0 := Idle],
          journal := Journal([Write(0, K, [0], 2, true)], [DonePut(0, K, [0], 2)]), now := 3)
  ghost const NewInDev: State := Redirected(OldInMain.(level := High, now := 4), 0, K, [1])

  lemma ReachOldInMain()
    ensures Reaches(Init, OldInMain, true)
  {
    ReachStep(Init, CallPut(0, K, [0]), true);
    var s1 := Init.(clients := map[0 := PutFlag(0, K, [0])], now := 1);
    assert Step(Init, CallPut(0, K, [0])) == s1;
    ReachGo(Init, s1, 0, true);
    var s2 := Init.(clients := map[0 := PutMain(0, K, [0])], now := 2);
    assert Step(s1, Go(0)) == s2;
    ReachGo(Init, s2, 0, true);
    assert map[0 := PutMain(0, K, [0])][0 := Idle] == map[0 := Idle];
    assert Step(s2, Go(0)) == OldInMain;
  }

  lemma ReachNewInDev()
    ensures Reaches(Init, NewInDev, true)
  {
    ReachOldInMain();
    ReachMonitor(Init, OldInMain, High, 0, true);
    RedirectRuns(OldInMain.(level := High, now := 4), 0, K, [1]);
    ReachOn(Init, OldInMain.(level := High, now := 4), NewInDev, true);
  }

  lemma NewInDevFacts()
    ensures NewInDev.now == 10 && NewInDev.level == High && Pc(NewInDev, 0) == Idle
    ensures NewInDev.journal.log == [Write(0, K, [0], 2, true), Write(4, K, [1], 8, true)]
    ensures |NewInDev.journal.done| == 2
    ensures NewInDev.store
         == Store(map[K := [0]], map[], [Record(K, [1])], multiset{K}, true, false)
    ensures NewInDev.locks == Locks(Nobody, Nobody, {}) && Pc(NewInDev, 1) == Idle
  {
  }

  /**
   A Get that takes no lock can go back in time: while an unstalled Put is between dropping the
   tracker entry and writing Main, it returns the value that was replaced before it was called.
   */
  lemma UnlockedGetReadsReplacedValue()
    returns (states: seq<State>, actions: seq<Action>)
    ensures IsRun(states, actions) && Allowed(states, actions)
    ensures var j := states[|actions|].journal;
            |j.done| == 3 && j.done[2].DoneGet? && j.done[2].k == K && j.done[2].res == Some([0])
            && !HeldIn(j.log, K, j.done[2].op, j.done[2].ret, Some([0]))
  {
    ReachNewInDev();
    NewInDevFacts();
    ReachMonitor(Init, NewInDev, Low, 0, true);
    var calm := NewInDev.(level := Low, now := 11);
    BeginHost(calm, 0, K, [2], true);
    var half := HostBegun(calm, 0, K, [2]);
    ReachOn(Init, calm, half, true);
    var n := UnlockedGetRuns(half, 1, K);
    ReachOn(Init, half, n, true);
    states, actions := ReachIsRun(n, true);
    SecondWriteRules(half.now, n.journal.done[2].ret);
  }

  lemma SecondWriteRules(lo: nat, hi: nat)
    requires 8 <= lo
    ensures !HeldIn([Write(0, K, [0], 2, true), Write(4, K, [1], 8, true)], K, lo, hi, Some([0]))
  {
  }

  // ---------------------------------------------------------------- a stale write and the rollback

  lemma RollOn(s: State, m: State, answer: seq<Record>)
    requires Reaches(s, m, false) && RollEnabled(m, answer)
    ensures Reaches(s, Step(m, Roll(answer)), false)
  {
    ReachStep(m, Roll(answer), false);
    ReachOn(s, m, Step(m, Roll(answer)), false);
  }

  /** The rollback thread up to the scan. */
  function ScanReady(s: State): State {
    s.(store := s.store.(dev := Dev(s.store), pending := [], rollbackFlag := true),
       locks := s.locks.(reset := ByRollback), scan := s.scan.(pc := Seek), now := s.now + 4)
  }

  lemma RollStarts(s: State)
    requires s.scan.pc.Sleep? && s.store.kache && s.l0 <= ROLLBACK_L0_LIMIT && s.locks.reset.Nobody?
    ensures Reaches(s, ScanReady(s), false)
  {
    ReachStep(s, Roll([]), false);
    var s1 := s.(scan := s.scan.(pc := WaitReset), now := s.now + 1);
    RollOn(s, s1, []);
    var s2 := s.(locks := s.locks.(reset := ByRollback), scan := s.scan.(pc := SetFlag),
                 now := s.now + 2);
    assert Step(s1, Roll([])) == s2;
    RollOn(s, s2, []);
    var s3 := s2.(store := s.store.(rollbackFlag := true), scan := s.scan.(pc := Create),
                  now := s.now + 3);
    assert Step(s2, Roll([])) == s3;
    RollOn(s, s3, []);
    assert Dev(s3.store) == Dev(s.store);
  }

  /** The rollback thread after the only record of the device was moved. */
  function OneMoved(s: State, k: Key, v: Value): State {
    s.(store := s.store.(main := s.store.main[k := v], tracker := s.store.tracker - multiset{k}),
       scan := Scan(Next, [], {k}, 1), now := s.now + 5)
  }

  lemma RollMovesOne(s: State, k: Key, v: Value)
    requires s.scan.pc.Seek? && s.store.dev == map[k := v] && k in s.store.tracker
    requires s.locks.excl.Nobody? && s.locks.shared == {}
    ensures Reaches(s, OneMoved(s, k, v), false)
  {
    var answer := [Record(k, v)];
    assert answer[0].key == k;
    assert IsScanOf(answer, s.store.dev);
    ReachStep(s, Roll(answer), false);
    var s1 := s.(scan := Scan(WaitItem(k, v), [], {}, 1), now := s.now + 1);
    assert Step(s, Roll(answer)) == s1;
    RollOn(s, s1, []);
    var s2 := s1.(locks := s.locks.(excl := ByRollback), scan := s1.scan.(pc := Item(k, v)),
                  now := s.now + 2);
    assert Step(s1, Roll([])) == s2;
    MoveOne(s2);
    ReachOn(s, s2, OneMoved(s, k, v), false);
  }

  lemma MoveOne(s: State)
    requires s.scan.pc.Item? && s.scan.pc.k in s.store.tracker
    ensures var k, v := s.scan.pc.k, s.scan.pc.v;
            Reaches(s, s.(store := s.store.(main := s.store.main[k := v],
                                            tracker := s.store.tracker - multiset{k}),
                          locks := s.locks.(excl := Nobody),
                          scan := s.scan.(pc := Next, visited := s.scan.visited + {k}),
                          now := s.now + 3), false)
  {
    var k, v := s.scan.pc.k, s.scan.pc.v;
    ReachStep(s, Roll([]), false);
    var s1 := s.(store := s.store.(tracker := s.store.tracker - multiset{k}),
                 scan := s.scan.(pc := Move(k, v)), now := s.now + 1);
    assert Step(s, Roll([])) == s1;
    RollOn(s, s1, []);
    var s2 := s1.(store := s1.store.(main := s.store.main[k := v]),
                  scan := s.scan.(pc := UnlockItem, visited := s.scan.visited + {k}),
                  now := s.now + 2);
    assert Step(s1, Roll([])) == s2;
    RollOn(s, s2, []);
  }

  /** The rollback thread after Dev-LSM was erased. */
  function Erased(s: State): State {
    s.(store := s.store.(dev := map[]), locks := s.locks.(excl := ByRollback),
       scan := s.scan.(pc := ClearTracker, iterations := s.scan.iterations + 1), now := s.now + 3)
  }

  lemma RollErases(s: State)
    requires s.scan.pc.Next? && s.scan.todo == [] && s.locks.excl.Nobody? && s.locks.shared == {}
    ensures Reaches(s, Erased(s), false)
  {
    ReachStep(s, Roll([]), false);
    var s1 := s.(scan := s.scan.(pc := WaitEnd, iterations := s.scan.iterations + 1),
                 now := s.now + 1);
    assert Step(s, Roll([])) == s1;
    RollOn(s, s1, []);
    var s2 := s1.(locks := s.locks.(excl := ByRollback), scan := s1.scan.(pc := EraseDev),
                  now := s.now + 2);
    assert Step(s1, Roll([])) == s2;
    RollOn(s, s2, []);
  }

  /** Client 2 found kache_flag == 0 and is about to write Main; then the key is redirected twice. */
  ghost const Late: State :=
    Init.(level := High, clients := map[2 := PutMain(0, K, [0])], now := 3)
  ghost const LateTwice: State := Redirected(Redirected(Late, 0, K, [1]), 1, K, [2])

  lemma ReachLateTwice()
    ensures Reaches(Init, LateTwice, false)
  {
    ReachStep(Init, CallPut(2, K, [0]), true);
    var s1 := Init.(clients := map[2 := PutFlag(0, K, [0])], now := 1);
    assert Step(Init, CallPut(2, K, [0])) == s1;
    ReachGo(Init, s1, 2, true);
    var s2 := Init.(clients := map[2 := PutMain(0, K, [0])], now := 2);
    assert Step(s1, Go(2)) == s2;
    ReachMonitor(Init, s2, High, 0, true);
    RedirectRuns(Late, 0, K, [1]);
    ReachOn(Init, Late, Redirected(Late, 0, K, [1]), true);
    RedirectRuns(Redirected(Late, 0, K, [1]), 1, K, [2]);
    ReachOn(Init, Redirected(Late, 0, K, [1]), LateTwice, true);
    Relax(Init, LateTwice);
  }

  lemma LateTwiceFacts()
    ensures LateTwice.scan == Scan(Sleep, [], {}, 0) && LateTwice.l0 == 0
    ensures LateTwice.store
         == Store(map[], map[], [Record(K, [1]), Record(K, [2])], multiset{K, K}, true, false)
    ensures Dev(LateTwice.store) == map[K := [2]]
    ensures LateTwice.locks == Locks(Nobody, Nobody, {})
    ensures Pc(LateTwice, 2) == PutMain(0, K, [0])
    ensures Spec(LateTwice.journal.log, K) == Some([2])
  {
    var log := Redirected(Late, 0, K, [1]).journal.log;
    LogAppend(log, Write(9, K, [2], 12, true), K, 0);
    assert [Record(K, [1])] + [Record(K, [2])] == [Record(K, [1]), Record(K, [2])];
    OverlayAppend(map[], [Record(K, [1])], Record(K, [2]));
  }

  /**
   Erasing Dev-LSM can change a value: a Put that read kache_flag == 0 before two redirected Puts
   of its key writes Main after the rollback moved the key, and the erasure uncovers it.  In the
   same state the key is tracked although the device holds no record of it.
   */
  lemma StaleWriteSurfaces()
    returns (states: seq<State>, actions: seq<Action>)
    ensures IsRun(states, actions)
    ensures var s := states[|actions|];
            && s.scan.pc.ClearTracker? && View(s, K) == Some([0])
            && Spec(s.journal.log, K) == Some([2])
            && K in s.store.tracker && K !in Dev(s.store)
  {
    ReachLateTwice();
    LateTwiceFacts();
    RollStarts(LateTwice);
    var a := ScanReady(LateTwice);
    ReachOn(Init, LateTwice, a, false);
    RollMovesOne(a, K, [2]);
    var b := OneMoved(a, K, [2]);
    ReachOn(Init, a, b, false);
    var c := Step(b, Go(2));
    ReachGo(Init, b, 2, false);
    StaleStep(b);
    RollErases(c);
    ReachOn(Init, c, Erased(c), false);
    states, actions := ReachIsRun(Erased(c), false);
  }

  lemma StaleStep(b: State)
    requires Pc(b, 2) == PutMain(0, K, [0]) && K in b.store.tracker && b.scan.pc.Next?
    ensures var c := Step(b, Go(2));
            && c.store == b.store.(main := b.store.main[K := [0]])
            && c.scan == b.scan && c.locks == b.locks
            && Spec(c.journal.log, K) == Spec(b.journal.log, K)
  {
  }
}
