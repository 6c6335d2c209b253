/**
 The start and finish barrier of a benchmark run: one mutex, one condition variable shared by the
 main thread and `n` workers, and wakeups that may come for no reason.
 */
module Barrier {

  datatype Worker =
    | Unborn
    | Arriving      // wants the mutex for the first time
    | Registering   // holds it, not yet counted
    | Checking      // holds it, at the test of the wait loop
    | Waiting       // in the condition variable, mutex released
    | Woken         // wants the mutex back
    | Running       // the benchmark body
    | Finishing     // wants the mutex for the second time
    | Counting      // holds it, not yet counted as done
    | Leaving       // holds it for the last time
    | Exited

  datatype MainThread =
    | Spawning(next: nat)
    | Locking
    | CheckInit | WaitInit | WokenInit
    | Opening
    | CheckDone | WaitDone | WokenDone
    | Merging       // mutex released for good, statistics are merged

  datatype Lock = Free | ByMain | ByWorker(id: nat)

  datatype State = State(main: MainThread, workers: seq<Worker>, lock: Lock,
                         numInit: nat, numDone: nat, start: bool)

  /** `WakeMain` and `WakeWorker` are wakeups without a signal. */
  datatype Action = Main | Work(id: nat) | WakeMain | WakeWorker(id: nat)

  predicate IsSpurious(a: Action) {
    a.WakeMain? || a.WakeWorker?
  }

  function Init(n: nat): State {
    State(Spawning(0), seq(n, _ => Unborn), Free, 0, 0, false)
  }

  // ---------------------------------------------------------------- steps

  function WakenMain(m: MainThread): MainThread {
    match m
    case WaitInit => WokenInit
    case WaitDone => WokenDone
    case _ => m
  }

  function Waken(w: Worker): Worker {
    if w.Waiting? then Woken else w
  }

  function SignalAll(s: State): (r: State)
    ensures |r.workers| == |s.workers|
  {
    s.(main := WakenMain(s.main),
       workers := seq(|s.workers|, i requires 0 <= i < |s.workers| => Waken(s.workers[i])))
  }

  predicate Enabled(s: State, a: Action) {
    match a
    case Main =>
      (match s.main
       case WaitInit => false
       case WaitDone => false
       case Merging => false
       case Locking => s.lock.Free?
       case WokenInit => s.lock.Free?
       case WokenDone => s.lock.Free?
       case Spawning(k) => k <= |s.workers|
       case _ => true)
    case Work(i) =>
      i < |s.workers| &&
      (match s.workers[i]
       case Unborn => false
       case Waiting => false
       case Exited => false
       case Arriving => s.lock.Free?
       case Woken => s.lock.Free?
       case Finishing => s.lock.Free?
       case _ => true)
    case WakeMain => s.main.WaitInit? || s.main.WaitDone?
    case WakeWorker(i) => i < |s.workers| && s.workers[i].Waiting?
  }

  function MainStep(s: State): State
    requires Enabled(s, Main)
  {
    var n := |s.workers|;
    match s.main
    case Spawning(k) =>
      if k < n then s.(main := Spawning(k + 1), workers := s.workers[k := Arriving]) else s.(main := Locking)
    case Locking => s.(main := CheckInit, lock := ByMain)
    case CheckInit => if s.numInit < n then s.(main := WaitInit, lock := Free) else s.(main := Opening)
    case WokenInit => s.(main := CheckInit, lock := ByMain)
    case Opening => SignalAll(s.(main := CheckDone, start := true))
    case CheckDone => if s.numDone < n then s.(main := WaitDone, lock := Free) else s.(main := Merging, lock := Free)
    case WokenDone => s.(main := CheckDone, lock := ByMain)
    case _ => s
  }

  function Set(s: State, i: nat, w: Worker): State
    requires i < |s.workers|
  {
    s.(workers := s.workers[i := w])
  }

  function WorkerStep(s: State, i: nat): State
    requires Enabled(s, Work(i))
  {
    var n := |s.workers|;
    match s.workers[i]
    case Arriving => Set(s, i, Registering).(lock := ByWorker(i))
    case Registering =>
      var s' := Set(s, i, Checking).(numInit := s.numInit + 1);
      if s'.numInit >= n then SignalAll(s') else s'
    case Checking => Set(s, i, if s.start then Running else Waiting).(lock := Free)
    case Woken => Set(s, i, Checking).(lock := ByWorker(i))
    case Running => Set(s, i, Finishing)
    case Finishing => Set(s, i, Counting).(lock := ByWorker(i))
    case Counting =>
      var s' := Set(s, i, Leaving).(numDone := s.numDone + 1);
      if s'.numDone >= n then SignalAll(s') else s'
    case Leaving => Set(s, i, Exited).(lock := Free)
    case _ => s
  }

  function Step(s: State, a: Action): State
    requires Enabled(s, a)
  {
    match a
    case Main => MainStep(s)
    case Work(i) => WorkerStep(s, i)
    case WakeMain => s.(main := WakenMain(s.main))
    case WakeWorker(i) => Set(s, i, Woken)
  }

  ghost predicate IsRun(n: nat, acts: seq<Action>, states: seq<State>) {
    && |states| == |acts| + 1 && states[0] == Init(n)
    && forall k :: 0 <= k < |acts| ==> Enabled(states[k], acts[k]) && states[k + 1] == Step(states[k], acts[k])
  }

  // ---------------------------------------------------------------- invariant

  predicate Holds(w: Worker) {
    w.Registering? || w.Checking? || w.Counting? || w.Leaving?
  }

  predicate MainHolds(m: MainThread) {
    m.CheckInit? || m.Opening? || m.CheckDone?
  }

  /** Counted in `numInit`. */
  predicate Registered(w: Worker) {
    !w.Unborn? && !w.Arriving? && !w.Registering?
  }

  /** Let through the start barrier. */
  predicate Started(w: Worker) {
    w.Running? || w.Finishing? || w.Counting? || w.Leaving? || w.Exited?
  }

  /** Counted in `numDone`. */
  predicate Finished(w: Worker) {
    w.Leaving? || w.Exited?
  }

  function Registrations(ws: seq<Worker>): nat {
    if ws == [] then 0 else Registrations(ws[..|ws| - 1]) + (if Registered(ws[|ws| - 1]) then 1 else 0)
  }

  function Finishes(ws: seq<Worker>): nat {
    if ws == [] then 0 else Finishes(ws[..|ws| - 1]) + (if Finished(ws[|ws| - 1]) then 1 else 0)
  }

  ghost predicate LockInv(s: State) {
    && (s.lock == ByMain <==> MainHolds(s.main))
    && (s.lock.ByWorker? ==> s.lock.id < |s.workers|)
    && forall i :: 0 <= i < |s.workers| ==> (s.lock == ByWorker(i) <==> Holds(s.workers[i]))
  }

  ghost predicate CountInv(s: State) {
    s.numInit == Registrations(s.workers) && s.numDone == Finishes(s.workers)
  }

  predicate Opened(m: MainThread) {
    m.CheckDone? || m.WaitDone? || m.WokenDone? || m.Merging?
  }

  ghost predicate PhaseInv(s: State) {
    && (s.start <==> Opened(s.main))
    && (s.start || s.main.Opening? ==> s.numInit >= |s.workers|)
    && (forall i :: 0 <= i < |s.workers| && Started(s.workers[i]) ==> s.start)
    && (s.main.Merging? ==> forall i :: 0 <= i < |s.workers| ==> s.workers[i].Exited?)
  }

  ghost predicate SpawnInv(s: State) {
    && (s.main.Spawning? ==> s.main.next <= |s.workers|)
    && forall i :: 0 <= i < |s.workers| ==> (s.workers[i].Unborn? <==> s.main.Spawning? && s.main.next <= i)
  }

  /** No signal is lost: whoever waits, waits for something that has not happened. */
  ghost predicate WaitInv(s: State) {
    && (s.main.WaitInit? ==> s.numInit < |s.workers|)
    && (s.main.WaitDone? ==> s.numDone < |s.workers|)
    && forall i :: 0 <= i < |s.workers| && s.workers[i].Waiting? ==> !s.start
  }

  ghost predicate Core(s: State) {
    LockInv(s) && CountInv(s) && PhaseInv(s) && SpawnInv(s)
  }

  ghost predicate Inv(s: State) {
    Core(s) && WaitInv(s)
  }

  // ---------------------------------------------------------------- counting

  lemma {:induction false} CountSet(ws: seq<Worker>, i: nat, w: Worker)
    requires i < |ws|
    ensures Registrations(ws[i := w]) == Registrations(ws)
      + (if Registered(w) then 1 else 0) - (if Registered(ws[i]) then 1 else 0)
    ensures Finishes(ws[i := w]) == Finishes(ws)
      + (if Finished(w) then 1 else 0) - (if Finished(ws[i]) then 1 else 0)
  {
    var n := |ws| - 1;
    if i == n {
      assert ws[i := w][..n] == ws[..n];
    } else {
      CountSet(ws[..n], i, w);
      assert ws[i := w][..n] == ws[..n][i := w];
    }
  }

  lemma {:induction false} CountSame(ws: seq<Worker>, us: seq<Worker>)
    requires |ws| == |us|
    requires forall i :: 0 <= i < |ws| ==> us[i] == Waken(ws[i])
    ensures Registrations(us) == Registrations(ws) && Finishes(us) == Finishes(ws)
  {
    if ws == [] {
    } else {
      var n := |ws| - 1;
      CountSame(ws[..n], us[..n]);
      assert us[n] == Waken(ws[n]);
    }
  }

  lemma {:induction false} CountBounds(ws: seq<Worker>)
    ensures Finishes(ws) <= Registrations(ws) <= |ws|
    ensures Registrations(ws) == |ws| <==> forall i :: 0 <= i < |ws| ==> Registered(ws[i])
    ensures Finishes(ws) == |ws| <==> forall i :: 0 <= i < |ws| ==> Finished(ws[i])
  {
    if ws == [] {
    } else {
      var n := |ws| - 1;
      CountBounds(ws[..n]);
      assert forall i :: 0 <= i < n ==> ws[..n][i] == ws[i];
    }
  }

  // ---------------------------------------------------------------- every step keeps the invariant

  lemma SignalKeeps(s: State)
    requires Core(s)
    ensures Inv(SignalAll(s))
  {
    CountSame(s.workers, SignalAll(s).workers);
  }

  lemma SpawnKeeps(s: State)
    requires Inv(s) && s.main.Spawning? && s.main.next < |s.workers|
    ensures Inv(MainStep(s))
  {
    CountSet(s.workers, s.main.next, Arriving);
  }

  /** The main thread leaves the mutex for good only when every worker has. */
  lemma MergeKeeps(s: State)
    requires Inv(s) && s.main.CheckDone?
    ensures Inv(MainStep(s))
  {
    CountBounds(s.workers);
  }

  lemma MainKeeps(s: State)
    requires Inv(s) && Enabled(s, Main)
    ensures Inv(MainStep(s))
  {
    if s.main.Spawning? && s.main.next < |s.workers| {
      SpawnKeeps(s);
    } else if s.main.Opening? {
      SignalKeeps(s.(main := CheckDone, start := true));
    } else if s.main.CheckDone? {
      MergeKeeps(s);
    }
  }

  predicate Locks(w: Worker) {
    w.Arriving? || w.Woken? || w.Finishing?
  }

  lemma LockKeeps(s: State, i: nat)
    requires Inv(s) && Enabled(s, Work(i)) && Locks(s.workers[i])
    ensures Inv(WorkerStep(s, i))
  {
    CountSet(s.workers, i, WorkerStep(s, i).workers[i]);
  }

  lemma UnlockKeeps(s: State, i: nat)
    requires Inv(s) && i < |s.workers|
    requires s.workers[i].Checking? || s.workers[i].Running? || s.workers[i].Leaving?
    ensures Inv(WorkerStep(s, i))
  {
    CountSet(s.workers, i, WorkerStep(s, i).workers[i]);
  }

  lemma RegisterKeeps(s: State, i: nat)
    requires Inv(s) && i < |s.workers| && s.workers[i].Registering?
    ensures Inv(WorkerStep(s, i))
  {
    CountSet(s.workers, i, Checking);
    var s' := Set(s, i, Checking).(numInit := s.numInit + 1);
    assert Core(s');
    SignalKeeps(s');
  }

  lemma FinishKeeps(s: State, i: nat)
    requires Inv(s) && i < |s.workers| && s.workers[i].Counting?
    ensures Inv(WorkerStep(s, i))
  {
    CountSet(s.workers, i, Leaving);
    var s' := Set(s, i, Leaving).(numDone := s.numDone + 1);
    assert Core(s');
    SignalKeeps(s');
  }

  lemma WorkerKeeps(s: State, i: nat)
    requires Inv(s) && Enabled(s, Work(i))
    ensures Inv(WorkerStep(s, i))
  {
    if s.workers[i].Registering? {
      RegisterKeeps(s, i);
    } else if s.workers[i].Counting? {
      FinishKeeps(s, i);
    } else if Locks(s.workers[i]) {
      LockKeeps(s, i);
    } else {
      UnlockKeeps(s, i);
    }
  }

  lemma WakeKeeps(s: State, a: Action)
    requires Inv(s) && Enabled(s, a) && IsSpurious(a)
    ensures Inv(Step(s, a))
  {
    if a.WakeWorker? {
      CountSet(s.workers, a.id, Woken);
    }
  }

  lemma StepKeeps(s: State, a: Action)
    requires Inv(s) && Enabled(s, a)
    ensures Inv(Step(s, a)) && |Step(s, a).workers| == |s.workers|
  {
    match a
    case Main => MainKeeps(s);
    case Work(i) => WorkerKeeps(s, i);
    case _ => WakeKeeps(s, a);
  }

  lemma {:induction false} InitCounts(n: nat)
    ensures Registrations(Init(n).workers) == 0 && Finishes(Init(n).workers) == 0
  {
    if n == 0 {
    } else {
      InitCounts(n - 1);
      assert Init(n).workers[..n - 1] == Init(n - 1).workers;
    }
  }

  lemma {:induction false} InvAlways(n: nat, acts: seq<Action>, states: seq<State>, k: nat)
    requires IsRun(n, acts, states) && k < |states|
    ensures Inv(states[k]) && |states[k].workers| == n
  {
    if k == 0 {
      InitCounts(n);
    } else {
      InvAlways(n, acts, states, k - 1);
      StepKeeps(states[k - 1], acts[k - 1]);
    }
  }

  /** No body runs before every thread has registered. */
  lemma StartBarrier(n: nat, acts: seq<Action>, states: seq<State>, k: nat, i: nat, j: nat)
    requires IsRun(n, acts, states) && k < |states|
    requires i < |states[k].workers| && j < |states[k].workers| && Started(states[k].workers[i])
    ensures Registered(states[k].workers[j]) && states[k].numInit == n
  {
    InvAlways(n, acts, states, k);
    CountBounds(states[k].workers);
  }

  /** Worker `j` is past its benchmark body. */
  predicate PastBody(w: Worker) {
    w.Finishing? || w.Counting? || w.Leaving? || w.Exited?
  }

  /** Step `m` ends the benchmark body of worker `j`. */
  predicate EndsBody(acts: seq<Action>, states: seq<State>, j: nat, m: nat)
    requires m < |acts| < |states|
  {
    acts[m] == Work(j) && j < |states[m].workers| && states[m].workers[j].Running?
  }

  /** How often worker `j` has run its benchmark body in the first `k` steps. */
  function Bodies(acts: seq<Action>, states: seq<State>, j: nat, k: nat): nat
    requires k <= |acts| < |states|
  {
    if k == 0 then 0 else Bodies(acts, states, j, k - 1) + (if EndsBody(acts, states, j, k - 1) then 1 else 0)
  }

  lemma BodyStep(s: State, a: Action, j: nat)
    requires Inv(s) && Enabled(s, a) && j < |s.workers| == |Step(s, a).workers|
    ensures PastBody(Step(s, a).workers[j])
       <==> PastBody(s.workers[j]) || (a == Work(j) && s.workers[j].Running?)
  {
    match a
    case Work(i) =>
    case Main =>
    case _ =>
  }

  lemma {:induction false} BodiesExactly(n: nat, acts: seq<Action>, states: seq<State>, j: nat, k: nat)
    requires IsRun(n, acts, states) && k < |states| && j < n
    ensures |states[k].workers| == n
    ensures Bodies(acts, states, j, k) == if PastBody(states[k].workers[j]) then 1 else 0
    ensures PastBody(states[k].workers[j]) ==> exists m :: 0 <= m < k && EndsBody(acts, states, j, m)
  {
    if k == 0 {
    } else {
      BodiesExactly(n, acts, states, j, k - 1);
      InvAlways(n, acts, states, k - 1);
      InvAlways(n, acts, states, k);
      BodyStep(states[k - 1], acts[k - 1], j);
    }
  }

  /**
   Statistics are merged only after every thread has run its benchmark body, once, when all had
   registered, and has finished and let go of the shared state.
   */
  lemma FinishBarrier(n: nat, acts: seq<Action>, states: seq<State>, k: nat, j: nat)
    requires IsRun(n, acts, states) && k < |states| && states[k].main.Merging? && j < n
    ensures |states[k].workers| == n && states[k].workers[j].Exited? && states[k].lock.Free?
    ensures Bodies(acts, states, j, k) == 1
    ensures exists m :: 0 <= m < k && EndsBody(acts, states, j, m) && states[m].numInit == n
  {
    InvAlways(n, acts, states, k);
    BodiesExactly(n, acts, states, j, k);
    var m :| 0 <= m < k && EndsBody(acts, states, j, m);
    StartBarrier(n, acts, states, m, j, j);
  }

  // ---------------------------------------------------------------- progress

  predicate Final(s: State) {
    s.main.Merging? && forall i :: 0 <= i < |s.workers| ==> s.workers[i].Exited?
  }

  /** Something other than a spurious wakeup can happen until the run is over. */
  lemma NoLostWakeup(s: State) returns (a: Action)
    requires Inv(s) && !Final(s)
    ensures Enabled(s, a) && !IsSpurious(a)
  {
    a := Main;
    CountBounds(s.workers);
    if s.lock.ByWorker? {
      a := Work(s.lock.id);
    } else if s.main.WaitInit? {
      var i :| 0 <= i < |s.workers| && !Registered(s.workers[i]);
      a := Work(i);
    } else if s.main.WaitDone? {
      var i :| 0 <= i < |s.workers| && !Finished(s.workers[i]);
      a := Work(i);
    }
  }

  lemma NoLostWakeupInRuns(n: nat, acts: seq<Action>, states: seq<State>)
    requires IsRun(n, acts, states) && !Final(states[|acts|])
    ensures exists a :: Enabled(states[|acts|], a) && !IsSpurious(a)
  {
    InvAlways(n, acts, states, |acts|);
    var a := NoLostWakeup(states[|acts|]);
  }

  /** How many times the condition variable will still be signalled. */
  function Signals(s: State): nat {
    (if s.numInit < |s.workers| then 1 else 0) + (if s.start then 0 else 1)
    + (if s.numDone < |s.workers| then 1 else 0)
  }

  /** The most steps a thread can still take when `k` signals are left. */
  function WorkerRank(w: Worker, k: nat): nat {
    match w
    case Unborn => 10 + 3 * k
    case Arriving => 9 + 3 * k
    case Registering => 8 + 3 * k
    case Woken => 7 + 3 * k
    case Checking => 6 + 3 * k
    case Waiting => 5 + 3 * k
    case Running => 4
    case Finishing => 3
    case Counting => 2
    case Leaving => 1
    case Exited => 0
  }

  function MainRank(m: MainThread, n: nat, k: nat): nat {
    match m
    case Spawning(i) => 9 + 3 * k + (if i < n then n - i else 0)
    case Locking => 8 + 3 * k
    case WokenInit => 8 + 3 * k
    case CheckInit => 7 + 3 * k
    case WaitInit => 6 + 3 * k
    case Opening => 5 + 3 * k
    case WokenDone => 3 + 3 * k
    case CheckDone => 2 + 3 * k
    case WaitDone => 1 + 3 * k
    case Merging => 0
  }

  function WorkerRanks(ws: seq<Worker>, k: nat): nat {
    if ws == [] then 0 else WorkerRanks(ws[..|ws| - 1], k) + WorkerRank(ws[|ws| - 1], k)
  }

  function Remaining(s: State): nat {
    MainRank(s.main, |s.workers|, Signals(s)) + WorkerRanks(s.workers, Signals(s))
  }

  lemma {:induction false} RanksSet(ws: seq<Worker>, i: nat, w: Worker, k: nat)
    requires i < |ws|
    ensures WorkerRanks(ws[i := w], k) == WorkerRanks(ws, k) + WorkerRank(w, k) - WorkerRank(ws[i], k)
  {
    var n := |ws| - 1;
    if i == n {
      assert ws[i := w][..n] == ws[..n];
    } else {
      RanksSet(ws[..n], i, w, k);
      assert ws[i := w][..n] == ws[..n][i := w];
    }
  }

  lemma {:induction false} RanksWaken(ws: seq<Worker>, us: seq<Worker>, k: nat)
    requires |ws| == |us| && forall i :: 0 <= i < |ws| ==> us[i] == Waken(ws[i])
    ensures WorkerRanks(us, k) <= WorkerRanks(ws, k + 1)
  {
    if ws == [] {
    } else {
      var n := |ws| - 1;
      RanksWaken(ws[..n], us[..n], k);
      assert us[n] == Waken(ws[n]);
    }
  }

  lemma SignalRank(s: State, k: nat)
    ensures MainRank(SignalAll(s).main, |s.workers|, k) + WorkerRanks(SignalAll(s).workers, k)
         <= MainRank(s.main, |s.workers|, k + 1) + WorkerRanks(s.workers, k + 1)
  {
    RanksWaken(s.workers, SignalAll(s).workers, k);
  }

  lemma MainDescends(s: State)
    requires Inv(s) && Enabled(s, Main)
    ensures Remaining(MainStep(s)) < Remaining(s)
  {
    if s.main.Spawning? && s.main.next < |s.workers| {
      RanksSet(s.workers, s.main.next, Arriving, Signals(s));
    } else if s.main.Opening? {
      SignalRank(s.(main := CheckDone, start := true), Signals(MainStep(s)));
    }
  }

  lemma RegisterDescends(s: State, i: nat)
    requires Inv(s) && i < |s.workers| && s.workers[i].Registering?
    ensures Remaining(WorkerStep(s, i)) < Remaining(s)
  {
    var k := Signals(s);
    CountBounds(s.workers);
    RanksSet(s.workers, i, Checking, k);
    if s.numInit + 1 >= |s.workers| {
      SignalRank(Set(s, i, Checking).(numInit := s.numInit + 1), k - 1);
    }
  }

  lemma FinishDescends(s: State, i: nat)
    requires Inv(s) && i < |s.workers| && s.workers[i].Counting?
    ensures Remaining(WorkerStep(s, i)) < Remaining(s)
  {
    var k := Signals(s);
    NotAllFinished(s, i);
    RanksSet(s.workers, i, Leaving, k);
    var s' := Set(s, i, Leaving).(numDone := s.numDone + 1);
    if s'.numDone >= |s.workers| {
      assert Signals(WorkerStep(s, i)) == k - 1;
      SignalRank(s', k - 1);
    }
  }

  lemma NotAllFinished(s: State, i: nat)
    requires CountInv(s) && i < |s.workers| && s.workers[i].Counting?
    ensures s.numDone < |s.workers|
  {
    CountBounds(s.workers);
  }

  lemma QuietDescends(s: State, i: nat)
    requires Inv(s) && Enabled(s, Work(i))
    requires !s.workers[i].Registering? && !s.workers[i].Counting?
    ensures Remaining(WorkerStep(s, i)) < Remaining(s)
  {
    RanksSet(s.workers, i, WorkerStep(s, i).workers[i], Signals(s));
  }

  lemma WorkerDescends(s: State, i: nat)
    requires Inv(s) && Enabled(s, Work(i))
    ensures Remaining(WorkerStep(s, i)) < Remaining(s)
  {
    if s.workers[i].Registering? {
      RegisterDescends(s, i);
    } else if s.workers[i].Counting? {
      FinishDescends(s, i);
    } else {
      QuietDescends(s, i);
    }
  }

  lemma WakeAscends(s: State, a: Action)
    requires Enabled(s, a) && IsSpurious(a)
    ensures Remaining(Step(s, a)) <= Remaining(s) + 2
  {
    if a.WakeWorker? {
      RanksSet(s.workers, a.id, Woken, Signals(s));
    }
  }

  lemma StepDescends(s: State, a: Action)
    requires Inv(s) && Enabled(s, a)
    ensures if IsSpurious(a) then Remaining(Step(s, a)) <= Remaining(s) + 2
            else Remaining(Step(s, a)) < Remaining(s)
  {
    match a
    case Main => MainDescends(s);
    case Work(i) => WorkerDescends(s, i);
    case _ => WakeAscends(s, a);
  }

  function Wakes(acts: seq<Action>): nat {
    if acts == [] then 0 else Wakes(acts[..|acts| - 1]) + (if IsSpurious(acts[|acts| - 1]) then 1 else 0)
  }

  lemma {:induction false} InitRank(n: nat)
    ensures WorkerRanks(Init(n).workers, 3) == 19 * n
  {
    if n == 0 {
    } else {
      InitRank(n - 1);
      assert Init(n).workers[..n - 1] == Init(n - 1).workers;
    }
  }

  lemma InitRemaining(n: nat)
    ensures Remaining(Init(n)) <= 20 * n + 18
  {
    InitRank(n);
  }

  lemma {:induction false} RunDescends(n: nat, acts: seq<Action>, states: seq<State>, k: nat)
    requires IsRun(n, acts, states) && k <= |acts|
    ensures Remaining(states[k]) + k <= Remaining(Init(n)) + 3 * Wakes(acts[..k])
  {
    if k == 0 {
    } else {
      RunDescends(n, acts, states, k - 1);
      InvAlways(n, acts, states, k - 1);
      StepDescends(states[k - 1], acts[k - 1]);
      assert acts[..k][..k - 1] == acts[..k - 1];
    }
  }

  /** A run ends: its length is bounded by the threads and the spurious wakeups. */
  lemma RunsEnd(n: nat, acts: seq<Action>, states: seq<State>)
    requires IsRun(n, acts, states)
    ensures |acts| <= 20 * n + 18 + 3 * Wakes(acts)
  {
    RunDescends(n, acts, states, |acts|);
    InitRemaining(n);
    assert acts[..|acts|] == acts;
  }
}
