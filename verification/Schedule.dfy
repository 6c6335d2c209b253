/**
 The benchmark's schedule of disposable and persistent keys.  Disposable keys are inserted in
 batches; a finished batch becomes a job that, once its delay has passed, inserts a batch of
 persistent keys and then deletes the disposable ones.
 */
module Schedule {
  import opened Arith

  datatype Config = Config(disposable: nat, persistent: nat, delay: nat) {
    function Period(): nat {
      disposable + persistent
    }
  }

  datatype Event = Disposable(index: nat) | Persistent(index: nat) | Delete(index: nat)

  /** A clock is read to see whether a job is due, again to retire it, and to schedule a new one. */
  datatype Reading = Reading(due: nat, retire: nat, push: nat)

  datatype Job = Job(time: nat, start: nat)

  /** `failed` records that the assertion behind the two job phases was reached. */
  datatype State = State(index: nat, queue: seq<Job>, cursor: nat, failed: bool, trace: seq<Event>)

  const START := State(0, [], 0, false, [])

  ghost predicate Monotone(rs: seq<Reading>) {
    forall i :: 0 <= i < |rs| ==> rs[i].due <= rs[i].retire
  }

  function Emit(s: State, e: Event): State {
    s.(trace := s.trace + [e])
  }

  predicate Due(s: State, now: nat) {
    s.queue != [] && s.queue[0].time < now
  }

  /** One persistent insert or one delete of the oldest job. */
  function JobStep(c: Config, s: State): State
    requires s.queue != []
  {
    var start := s.queue[0].start;
    if s.cursor < c.persistent then
      Emit(s, Persistent(start + c.disposable + s.cursor)).(cursor := s.cursor + 1)
    else if s.cursor < c.Period() then
      Emit(s, Delete(start + (s.cursor - c.persistent))).(cursor := s.cursor + 1)
    else
      s.(failed := true)
  }

  function Retire(c: Config, s: State, now: nat): State {
    if Due(s, now) && s.cursor == c.Period() then s.(queue := s.queue[1..], cursor := 0) else s
  }

  /** The index after a disposable insert: past the end of a batch, room is left for its results. */
  function NextIndex(c: Config, index: nat): nat
    requires c.disposable > 0
  {
    if (index + 1) % c.disposable == 0 then index + 1 + c.persistent else index + 1
  }

  function InsertStep(c: Config, s: State, now: nat): State
    requires c.disposable > 0
  {
    var next := NextIndex(c, s.index);
    var s' := Emit(s, Disposable(s.index)).(index := next);
    if next % c.Period() == 0 then
      PositiveMultiple(next, c.Period());
      s'.(queue := s.queue + [Job(now + c.delay, next - c.Period())])
    else
      s'
  }

  function Step(c: Config, s: State, r: Reading): State
    requires c.disposable > 0
  {
    if Due(s, r.due) then Retire(c, JobStep(c, s), r.retire) else InsertStep(c, s, r.push)
  }

  function Run(c: Config, rs: seq<Reading>): State
    requires c.disposable > 0
  {
    if rs == [] then START else Step(c, Run(c, rs[..|rs| - 1]), rs[|rs| - 1])
  }

  /**
   What the schedule promises of an operation after those in `t`: no key is inserted twice, and a
   delete hits, once, a key that was inserted as disposable.
   */
  predicate Legal(t: seq<Event>, e: Event) {
    e !in t &&
    match e
    case Disposable(x) => Persistent(x) !in t
    case Persistent(x) => Disposable(x) !in t
    case Delete(x) => Disposable(x) in t
  }

  predicate Sound(t: seq<Event>) {
    t == [] || (Sound(t[..|t| - 1]) && Legal(t[..|t| - 1], t[|t| - 1]))
  }

  lemma {:induction false} SoundEverywhere(t: seq<Event>, i: nat)
    requires Sound(t) && i < |t|
    ensures Legal(t[..i], t[i])
  {
    var n := |t| - 1;
    if i == n {
    } else {
      SoundEverywhere(t[..n], i);
      assert t[..n][..i] == t[..i];
    }
  }

  lemma {:induction false} SoundKinds(t: seq<Event>, x: nat)
    requires Sound(t)
    ensures Persistent(x) in t ==> Disposable(x) !in t
    ensures Delete(x) in t ==> Disposable(x) in t
  {
    if t == [] {
    } else {
      var n := |t| - 1;
      SoundKinds(t[..n], x);
      assert t == t[..n] + [t[n]];
    }
  }

  /** A persistent key is never deleted. */
  lemma PersistentStays(t: seq<Event>, x: nat)
    requires Sound(t) && Persistent(x) in t
    ensures Delete(x) !in t
  {
    SoundKinds(t, x);
  }

  // ---------------------------------------------------------------- aligned batches

  predicate Aligned(c: Config) {
    c.disposable > 0 && c.persistent % c.disposable == 0
  }

  /** Where an index falls inside its period decides which kind of key it names. */
  ghost function Kind(c: Config): nat -> bool
    requires c.disposable > 0
  {
    (x: nat) => x % c.Period() < c.disposable
  }

  function Min(a: nat, b: nat): nat {
    if a < b then a else b
  }

  function Excess(a: nat, b: nat): nat {
    if a < b then 0 else a - b
  }

  /** The disposable inserts have reached `limit`, and so on for the other two kinds. */
  ghost predicate Inserted(kind: nat -> bool, t: seq<Event>, limit: nat) {
    forall x: nat :: Disposable(x) in t <==> x < limit && kind(x)
  }

  ghost predicate Persisted(kind: nat -> bool, t: seq<Event>, limit: nat) {
    forall x: nat :: Persistent(x) in t <==> x < limit && !kind(x)
  }

  ghost predicate Deleted(kind: nat -> bool, t: seq<Event>, limit: nat) {
    forall x: nat :: Delete(x) in t <==> x < limit && kind(x)
  }

  /** How far each kind of operation has come when the oldest job starts at `base`. */
  ghost predicate Fronts(c: Config, kind: nat -> bool, s: State, base: nat) {
    && Sound(s.trace) && Inserted(kind, s.trace, s.index)
    && Persisted(kind, s.trace, base + c.disposable + Min(s.cursor, c.persistent))
    && Deleted(kind, s.trace, base + Excess(s.cursor, c.persistent))
  }

  /** `filled` batches are complete and the jobs of the first `done` have run. */
  ghost predicate Layout(c: Config, s: State, filled: nat, done: nat)
    requires c.disposable > 0
  {
    && c.Period() * filled <= s.index < c.Period() * filled + c.disposable
    && done + |s.queue| == filled
    && (forall i :: 0 <= i < |s.queue| ==> s.queue[i].start == c.Period() * (done + i))
    && s.cursor <= c.Period() && (s.queue == [] ==> s.cursor == 0)
  }

  ghost predicate Inv(c: Config, s: State, filled: nat, done: nat)
    requires c.disposable > 0
  {
    Layout(c, s, filled, done) && Fronts(c, Kind(c), s, c.Period() * done)
  }

  ghost predicate Kept(c: Config, s: State)
    requires c.disposable > 0
  {
    exists filled: nat, done: nat :: Inv(c, s, filled, done)
  }

  lemma PositiveMultiple(x: nat, n: nat)
    requires n > 0 && x > 0 && x % n == 0
    ensures x >= n
  {
  }

  lemma InBatch(c: Config, b: nat, x: nat)
    requires c.disposable > 0 && c.Period() * b <= x < c.Period() * b + c.Period()
    ensures Kind(c)(x) <==> x < c.Period() * b + c.disposable
  {
    Divides(x, c.Period(), b, x - c.Period() * b);
  }

  /** No disposable index lies between the end of a batch and the next one. */
  lemma BatchEnd(c: Config, b: nat, x: nat)
    requires c.disposable > 0
    ensures Kind(c)(x) ==> (x < c.Period() * b + c.disposable <==> x < c.Period() * (b + 1))
    ensures !Kind(c)(x) ==> (x < c.Period() * b + c.disposable <==> x < c.Period() * b)
  {
    assert c.Period() * (b + 1) == c.Period() * b + c.Period();
    if c.Period() * b <= x < c.Period() * (b + 1) {
      InBatch(c, b, x);
    }
  }

  lemma SoundAppend(t: seq<Event>, e: Event)
    requires Sound(t)
    ensures Sound(t + [e]) <==> Legal(t, e)
  {
  }

  lemma NextInBatch(c: Config, b: nat, index: nat)
    requires Aligned(c) && c.Period() * b <= index < c.Period() * b + c.disposable
    ensures var next := NextIndex(c, index);
            if index + 1 < c.Period() * b + c.disposable
            then next == index + 1 && next % c.Period() != 0
            else next == c.Period() * (b + 1) && next % c.Period() == 0
  {
    var n, d, i := c.Period(), c.disposable, index - c.Period() * b;
    DivisionLaw(c.persistent, d);
    var k := c.persistent / d + 1;
    assert n == d * k;
    assert n * b == d * (k * b);
    ModShift(i + 1, d, k * b);
    if i + 1 < d {
      Divides(i + 1, d, 0, i + 1);
      Divides(index + 1, n, b, i + 1);
    } else {
      Divides(d, d, 1, 0);
      assert n * (b + 1) == n * b + n;
      Divides(n * (b + 1), n, b + 1, 0);
    }
  }

  lemma InsertFronts(c: Config, s: State, now: nat, b: nat, base: nat)
    requires Aligned(c) && Fronts(c, Kind(c), s, base)
    requires c.Period() * b <= s.index < c.Period() * b + c.disposable
    ensures Fronts(c, Kind(c), InsertStep(c, s, now), base)
  {
    var s' := InsertStep(c, s, now);
    InBatch(c, b, s.index);
    SoundAppend(s.trace, Disposable(s.index));
    NextInBatch(c, b, s.index);
    forall x: nat ensures Disposable(x) in s'.trace <==> x < s'.index && Kind(c)(x) {
      BatchEnd(c, b, x);
    }
  }

  lemma InsertLayout(c: Config, s: State, now: nat, filled: nat, done: nat)
    requires Aligned(c) && Layout(c, s, filled, done)
    ensures exists m :: Layout(c, InsertStep(c, s, now), m, done)
  {
    var s' := InsertStep(c, s, now);
    NextInBatch(c, filled, s.index);
    if s.index + 1 < c.Period() * filled + c.disposable {
      assert Layout(c, s', filled, done);
    } else {
      assert c.Period() * (filled + 1) - c.Period() == c.Period() * filled;
      assert Layout(c, s', filled + 1, done);
    }
  }

  lemma InsertKeeps(c: Config, s: State, now: nat, filled: nat, done: nat)
    requires Aligned(c) && Inv(c, s, filled, done)
    ensures Kept(c, InsertStep(c, s, now))
  {
    InsertLayout(c, s, now, filled, done);
    InsertFronts(c, s, now, filled, c.Period() * done);
    var s' := InsertStep(c, s, now);
    var m :| Layout(c, s', m, done);
    assert s'.cursor == s.cursor;
    assert Inv(c, s', m, done);
  }

  lemma PersistentFronts(c: Config, kind: nat -> bool, s: State, base: nat)
    requires c.disposable > 0 && s.queue != [] && s.queue[0].start == base
    requires Fronts(c, kind, s, base) && s.cursor < c.persistent
    requires !kind(base + c.disposable + s.cursor)
    ensures Fronts(c, kind, JobStep(c, s), base)
  {
    var x := base + c.disposable + s.cursor;
    SoundAppend(s.trace, Persistent(x));
    AppendPersistent(kind, s.trace, s.index, x, base + Excess(s.cursor, c.persistent));
    assert JobStep(c, s).trace == s.trace + [Persistent(x)];
  }

  lemma AppendPersistent(kind: nat -> bool, t: seq<Event>, i: nat, x: nat, d: nat)
    requires Inserted(kind, t, i) && Persisted(kind, t, x) && Deleted(kind, t, d) && !kind(x)
    ensures var u := t + [Persistent(x)];
            Inserted(kind, u, i) && Persisted(kind, u, x + 1) && Deleted(kind, u, d)
  {
  }

  lemma AppendDelete(kind: nat -> bool, t: seq<Event>, i: nat, p: nat, x: nat)
    requires Inserted(kind, t, i) && Persisted(kind, t, p) && Deleted(kind, t, x) && kind(x)
    ensures var u := t + [Delete(x)];
            Inserted(kind, u, i) && Persisted(kind, u, p) && Deleted(kind, u, x + 1)
  {
  }

  lemma DeleteFronts(c: Config, kind: nat -> bool, s: State, base: nat)
    requires c.disposable > 0 && s.queue != [] && s.queue[0].start == base
    requires Fronts(c, kind, s, base) && c.persistent <= s.cursor < c.Period()
    requires kind(base + (s.cursor - c.persistent)) && base + c.disposable <= s.index
    ensures Fronts(c, kind, JobStep(c, s), base)
  {
    var x := base + (s.cursor - c.persistent);
    SoundAppend(s.trace, Delete(x));
    AppendDelete(kind, s.trace, s.index, base + c.disposable + Min(s.cursor, c.persistent), x);
    assert JobStep(c, s).trace == s.trace + [Delete(x)];
  }

  lemma JobKeeps(c: Config, s: State, filled: nat, done: nat)
    requires Aligned(c) && Inv(c, s, filled, done) && s.queue != []
    ensures Layout(c, JobStep(c, s), filled, done) && Fronts(c, Kind(c), JobStep(c, s), c.Period() * done)
  {
    var base := c.Period() * done;
    MulStep(c.Period(), done, filled);
    assert s.queue[0].start == c.Period() * (done + 0);
    if s.cursor < c.persistent {
      InBatch(c, done, base + c.disposable + s.cursor);
      PersistentFronts(c, Kind(c), s, base);
    } else if s.cursor < c.Period() {
      InBatch(c, done, base + (s.cursor - c.persistent));
      DeleteFronts(c, Kind(c), s, base);
    }
  }

  lemma RetireFronts(c: Config, s: State, now: nat, done: nat)
    requires Aligned(c) && Due(s, now) && s.cursor == c.Period() && Fronts(c, Kind(c), s, c.Period() * done)
    ensures Fronts(c, Kind(c), Retire(c, s, now), c.Period() * (done + 1))
  {
    var next := c.Period() * (done + 1);
    assert next == c.Period() * done + c.Period();
    forall x: nat ensures Persistent(x) in s.trace <==> x < next + c.disposable && !Kind(c)(x) {
      BatchEnd(c, done + 1, x);
    }
    forall x: nat ensures Delete(x) in s.trace <==> x < next && Kind(c)(x) {
      BatchEnd(c, done, x);
    }
  }

  lemma RetireLayout(c: Config, s: State, now: nat, filled: nat, done: nat)
    requires Aligned(c) && Due(s, now) && s.cursor == c.Period() && Layout(c, s, filled, done)
    ensures Layout(c, Retire(c, s, now), filled, done + 1)
  {
  }

  lemma StepKeeps(c: Config, s: State, r: Reading)
    requires Aligned(c) && Kept(c, s)
    ensures Kept(c, Step(c, s, r))
  {
    var filled: nat, done: nat :| Inv(c, s, filled, done);
    if !Due(s, r.due) {
      InsertKeeps(c, s, r.push, filled, done);
    } else {
      JobKeeps(c, s, filled, done);
      var s' := JobStep(c, s);
      if s'.cursor == c.Period() && Due(s', r.retire) {
        RetireFronts(c, s', r.retire, done);
        RetireLayout(c, s', r.retire, filled, done);
        assert Inv(c, Step(c, s, r), filled, done + 1);
      } else {
        assert Inv(c, Step(c, s, r), filled, done);
      }
    }
  }

  /** A disposable insert is legal, and the schedule stays as it should be. */
  lemma InsertIsLegal(c: Config, s: State, now: nat)
    requires Aligned(c) && Kept(c, s)
    ensures Legal(s.trace, Disposable(s.index)) && Kept(c, InsertStep(c, s, now))
  {
    var filled: nat, done: nat :| Inv(c, s, filled, done);
    InsertKeeps(c, s, now, filled, done);
    InBatch(c, filled, s.index);
  }

  /** Work on a job that is not finished performs one more operation, a legal one. */
  lemma JobIsLegal(c: Config, s: State, due: nat, retire: nat)
    requires Aligned(c) && Kept(c, s) && Due(s, due) && s.cursor < c.Period()
    ensures var s' := Retire(c, JobStep(c, s), retire);
            Kept(c, s') && exists e :: Legal(s.trace, e) && s'.trace == s.trace + [e]
  {
    StepKeeps(c, s, Reading(due, retire, 0));
    var filled: nat, done: nat :| Inv(c, s, filled, done);
    JobKeeps(c, s, filled, done);
    var s' := JobStep(c, s);
    var e := s'.trace[|s.trace|];
    assert s'.trace == s.trace + [e];
    SoundAppend(s.trace, e);
  }

  lemma StartInv(c: Config)
    requires c.disposable > 0
    ensures Inv(c, START, 0, 0)
  {
  }

  /** What every run keeps, whatever its clock: where each kind of operation stands. */
  lemma {:induction false} RunKeeps(c: Config, rs: seq<Reading>)
    requires Aligned(c)
    ensures Kept(c, Run(c, rs))
  {
    if rs == [] {
      StartInv(c);
    } else {
      var n := |rs| - 1;
      RunKeeps(c, rs[..n]);
      StepKeeps(c, Run(c, rs[..n]), rs[n]);
    }
  }

  /** Once every job has run at the end of a batch, exactly the inserted disposable keys are gone. */
  lemma AllDisposed(c: Config, rs: seq<Reading>, x: nat)
    requires Aligned(c)
    requires Run(c, rs).queue == [] && Run(c, rs).index % c.Period() == 0
    ensures Disposable(x) in Run(c, rs).trace <==> Delete(x) in Run(c, rs).trace
  {
    RunKeeps(c, rs);
    var s := Run(c, rs);
    var m: nat, d: nat :| Inv(c, s, m, d);
    BatchBoundary(s.index, c.Period(), m, c.disposable);
    assert m == d;
    FrontsMeet(c, Kind(c), s, c.Period() * d, x);
  }

  lemma BatchBoundary(x: nat, n: nat, m: nat, d: nat)
    requires n > 0 && d <= n && n * m <= x < n * m + d && x % n == 0
    ensures x == n * m
  {
    Divides(x, n, m, x - n * m);
  }

  lemma FrontsMeet(c: Config, kind: nat -> bool, s: State, base: nat, x: nat)
    requires Fronts(c, kind, s, base) && base == s.index && s.cursor == 0
    ensures Disposable(x) in s.trace <==> Delete(x) in s.trace
  {
  }

  // ---------------------------------------------------------------- reaching a state

  /** An ordinary clock: no reading is earlier than one before it. */
  ghost predicate Ordered(rs: seq<Reading>) {
    && (forall i :: 0 <= i < |rs| ==> rs[i].due <= rs[i].retire <= rs[i].push)
    && (forall i, j :: 0 <= i < j < |rs| ==> rs[i].push <= rs[j].due)
  }

  /** An ordinary clock that has not passed `now` leads to `s`. */
  ghost predicate Reachable(c: Config, s: State, now: nat)
    requires c.disposable > 0
  {
    exists rs :: LeadsTo(c, rs, s, now)
  }

  ghost predicate LeadsTo(c: Config, rs: seq<Reading>, s: State, now: nat)
    requires c.disposable > 0
  {
    Ordered(rs) && (forall i :: 0 <= i < |rs| ==> rs[i].push <= now) && Run(c, rs) == s
  }

  lemma RunLast(c: Config, rs: seq<Reading>, r: Reading)
    requires c.disposable > 0
    ensures Run(c, rs + [r]) == Step(c, Run(c, rs), r)
  {
  }

  lemma StartReachable(c: Config)
    requires c.disposable > 0
    ensures Reachable(c, START, 0)
  {
    assert LeadsTo(c, [], START, 0);
  }

  lemma StepReachable(c: Config, s: State, r: Reading, now: nat)
    requires c.disposable > 0 && Reachable(c, s, now) && now <= r.due <= r.retire <= r.push
    ensures Reachable(c, Step(c, s, r), r.push)
  {
    var rs :| LeadsTo(c, rs, s, now);
    RunLast(c, rs, r);
    assert LeadsTo(c, rs + [r], Step(c, s, r), r.push);
  }

  lemma LaterReachable(c: Config, s: State, now: nat, later: nat)
    requires c.disposable > 0 && Reachable(c, s, now) && now <= later
    ensures Reachable(c, s, later)
  {
    var rs :| LeadsTo(c, rs, s, now);
    assert LeadsTo(c, rs, s, later);
  }

  const EARLY := Reading(0, 0, 0)

  /** A time at which every job scheduled at time 0 is due. */
  function Late(c: Config): Reading {
    Reading(c.delay + 1, c.delay + 1, c.delay + 1)
  }

  /** The first batch fills as planned. */
  lemma {:induction false} FirstBatch(c: Config, n: nat) returns (s: State)
    requires n < c.disposable
    ensures Reachable(c, s, 0) && s.index == n && s.queue == [] && s.cursor == 0 && !s.failed
    ensures forall x: nat :: Disposable(x) in s.trace ==> x < n
  {
    if n == 0 {
      s := START;
      StartReachable(c);
    } else {
      var before := FirstBatch(c, n - 1);
      s := Step(c, before, EARLY);
      StepReachable(c, before, EARLY, 0);
      Divides(n, c.disposable, 0, n);
      Divides(n, c.Period(), 0, n);
    }
  }

  /** At its end the first job is scheduled. */
  lemma FirstJob(c: Config) returns (s: State)
    requires c.disposable > 0
    ensures Reachable(c, s, 0) && s.index == c.Period() && s.cursor == 0 && !s.failed
    ensures s.queue == [Job(c.delay, 0)]
    ensures forall x: nat :: Disposable(x) in s.trace ==> x < c.disposable
  {
    var before := FirstBatch(c, c.disposable - 1);
    s := Step(c, before, EARLY);
    StepReachable(c, before, EARLY, 0);
    Divides(c.disposable, c.disposable, 1, 0);
    Divides(c.Period(), c.Period(), 1, 0);
  }

  ghost predicate SameInserts(t: seq<Event>, u: seq<Event>) {
    forall x: nat :: Disposable(x) in t <==> Disposable(x) in u
  }

  /** A job that is due is worked on step by step. */
  lemma {:induction false} JobRuns(c: Config, s: State, n: nat) returns (s': State)
    requires c.disposable > 0 && Reachable(c, s, c.delay + 1)
    requires Due(s, c.delay + 1) && s.cursor == 0 && n < c.Period()
    ensures Reachable(c, s', c.delay + 1)
    ensures s'.queue == s.queue && s'.cursor == n && s'.failed == s.failed && SameInserts(s'.trace, s.trace)
  {
    if n == 0 {
      s' := s;
    } else {
      var before := JobRuns(c, s, n - 1);
      s' := Step(c, before, Late(c));
      StepReachable(c, before, Late(c), c.delay + 1);
    }
  }

  // ---------------------------------------------------------------- misaligned batches

  predicate Misaligned(c: Config) {
    c.disposable > 0 && c.persistent % c.disposable != 0
  }

  /** Nothing is due yet; past the first period no multiple of the batch size was inserted. */
  ghost predicate Skewed(c: Config, s: State)
    requires c.disposable > 0
  {
    && s.index >= c.Period() && s.index % c.disposable != 0
    && s.cursor == 0 && s.queue != [] && s.queue[0].start == 0
    && (forall i :: 0 <= i < |s.queue| ==> s.queue[i].time == c.delay)
    && (forall i :: 1 <= i < |s.queue| ==> s.queue[i].start >= c.Period())
    && (forall x: nat :: x >= c.Period() && Disposable(x) in s.trace ==> x % c.disposable != 0)
  }

  lemma SkipKeepsRemainder(c: Config, x: nat)
    requires c.disposable > 0 && x % c.disposable == 0
    ensures (x + c.persistent) % c.disposable == c.persistent % c.disposable
  {
    DivisionLaw(x, c.disposable);
    ModShift(c.persistent, c.disposable, x / c.disposable);
  }

  lemma SecondMultiple(x: nat, n: nat)
    requires n > 0 && x > n && x % n == 0
    ensures x >= 2 * n
  {
  }

  lemma EarlyStepSkewed(c: Config, s: State)
    requires Misaligned(c) && Skewed(c, s)
    ensures Skewed(c, Step(c, s, EARLY)) && Step(c, s, EARLY).index == NextIndex(c, s.index)
    ensures NextIndex(c, s.index) % c.Period() == 0 ==> |Step(c, s, EARLY).queue| >= 2
  {
    var s' := Step(c, s, EARLY);
    if (s.index + 1) % c.disposable == 0 {
      SkipKeepsRemainder(c, s.index + 1);
    }
    if s'.index % c.Period() == 0 {
      SecondMultiple(s'.index, c.Period());
    }
  }

  /** How many inserts a skewed batch has. */
  function Width(c: Config): (w: nat)
    requires c.disposable > 0
    ensures 0 < w <= c.disposable
  {
    c.disposable - c.persistent % c.disposable
  }

  /** After `j` more skewed batches and `i` inserts. */
  function SkewedIndex(c: Config, j: nat, i: nat): nat
    requires c.disposable > 0
  {
    c.Period() + c.disposable * (c.persistent / c.disposable + 1) * j + i
  }

  lemma NextSkewed(c: Config, j: nat, i: nat)
    requires Misaligned(c) && i < Width(c)
    ensures NextIndex(c, SkewedIndex(c, j, i))
         == if i + 1 < Width(c)
            then SkewedIndex(c, j, i + 1) else SkewedIndex(c, j + 1, 0)
  {
    var d, p := c.disposable, c.persistent;
    var q, r := p / d + 1, p % d;
    DivisionLaw(p, d);
    assert d * q == p - r + d;
    assert d * q * (j + 1) == d * q * j + d * q;
    var k := q + q * j;
    assert d * k == d * q + d * q * j;
    assert SkewedIndex(c, j, i) + 1 == (r + i + 1) + d * k;
    ModShift(r + i + 1, d, k);
    if i + 1 < d - r {
      Divides(r + i + 1, d, 0, r + i + 1);
    } else {
      Divides(d, d, 1, 0);
    }
  }

  lemma SkewedIndexMeetsPeriod(c: Config)
    requires c.disposable > 0
    ensures SkewedIndex(c, c.Period(), 0) % c.Period() == 0
  {
    var k := c.disposable * (c.persistent / c.disposable + 1);
    assert k * c.Period() == c.Period() * k;
    ModShift(c.Period(), c.Period(), k);
    Divides(c.Period(), c.Period(), 1, 0);
  }

  ghost predicate SkewedAt(c: Config, s: State, j: nat, i: nat)
    requires c.disposable > 0
  {
    Skewed(c, s) && s.index == SkewedIndex(c, j, i)
  }

  lemma EarlyStepAt(c: Config, s: State, j: nat, i: nat)
    requires Misaligned(c) && SkewedAt(c, s, j, i) && i < Width(c)
    ensures if i + 1 < Width(c)
            then SkewedAt(c, Step(c, s, EARLY), j, i + 1) else SkewedAt(c, Step(c, s, EARLY), j + 1, 0)
  {
    EarlyStepSkewed(c, s);
    NextSkewed(c, j, i);
  }

  lemma LastEarlyStep(c: Config, s: State, i: nat)
    requires Misaligned(c) && SkewedAt(c, s, c.Period() - 1, i)
    requires i + 1 == Width(c)
    ensures Skewed(c, Step(c, s, EARLY)) && |Step(c, s, EARLY).queue| >= 2
  {
    EarlyStepSkewed(c, s);
    NextSkewed(c, c.Period() - 1, i);
    SkewedIndexMeetsPeriod(c);
  }

  /** Sooner or later a second job is scheduled. */
  lemma {:induction false} SecondJob(c: Config, s: State, j: nat, i: nat) returns (s': State)
    requires Misaligned(c) && Reachable(c, s, 0) && SkewedAt(c, s, j, i)
    requires i < Width(c) && j < c.Period()
    ensures Reachable(c, s', 0) && Skewed(c, s') && |s'.queue| >= 2
    decreases c.Period() - j, Width(c) - i
  {
    s' := Step(c, s, EARLY);
    StepReachable(c, s, EARLY, 0);
    if i + 1 == Width(c) && j + 1 == c.Period() {
      LastEarlyStep(c, s, i);
    } else {
      EarlyStepAt(c, s, j, i);
      var j', i' := if i + 1 < Width(c) then j else j + 1, if i + 1 < Width(c) then i + 1 else 0;
      s' := SecondJob(c, s', j', i');
    }
  }

  lemma NextMultiple(b: nat, d: nat) returns (t: nat)
    requires d > 0
    ensures t < d && (b + t) % d == 0
  {
    DivisionLaw(b, d);
    if b % d == 0 {
      t := 0;
    } else {
      t := d - b % d;
      assert b + t == d * (b / d + 1);
      Divides(b + t, d, b / d + 1, 0);
    }
  }

  lemma TwoJobs(c: Config) returns (s: State)
    requires Misaligned(c)
    ensures Reachable(c, s, 0) && Skewed(c, s) && |s.queue| >= 2
  {
    var first := FirstJob(c);
    Divides(c.disposable, c.disposable, 1, 0);
    SkipKeepsRemainder(c, c.disposable);
    s := SecondJob(c, first, 0, 0);
  }

  lemma JobEnds(c: Config, s: State)
    requires c.disposable > 0 && Due(s, c.delay + 1) && s.cursor + 1 == c.Period()
    ensures var s' := Step(c, s, Late(c));
            s'.queue == s.queue[1..] && s'.cursor == 0 && SameInserts(s'.trace, s.trace)
  {
  }

  lemma FirstJobEnds(c: Config, s: State) returns (s': State)
    requires c.disposable > 0 && Reachable(c, s, 0) && s.cursor == 0
    requires |s.queue| >= 2 && s.queue[0].time == s.queue[1].time == c.delay
    ensures Reachable(c, s', c.delay + 1) && s'.cursor == 0 && SameInserts(s'.trace, s.trace)
    ensures Due(s', c.delay + 1) && s'.queue[0].start == s.queue[1].start
  {
    LaterReachable(c, s, 0, c.delay + 1);
    var before := JobRuns(c, s, c.Period() - 1);
    s' := LastJobStep(c, before);
    SameInsertsTransitive(s'.trace, before.trace, s.trace);
  }

  lemma LastJobStep(c: Config, s: State) returns (s': State)
    requires c.disposable > 0 && Reachable(c, s, c.delay + 1)
    requires Due(s, c.delay + 1) && s.cursor + 1 == c.Period()
    ensures Reachable(c, s', c.delay + 1)
    ensures s'.queue == s.queue[1..] && s'.cursor == 0 && SameInserts(s'.trace, s.trace)
  {
    s' := Step(c, s, Late(c));
    JobEnds(c, s);
    StepReachable(c, s, Late(c), c.delay + 1);
  }

  lemma SameInsertsTransitive(t: seq<Event>, u: seq<Event>, v: seq<Event>)
    requires SameInserts(t, u) && SameInserts(u, v)
    ensures SameInserts(t, v)
  {
  }

  lemma NeverInserted(c: Config, s: State, x: nat)
    requires c.disposable > 0 && Skewed(c, s) && x >= c.Period() && x % c.disposable == 0
    ensures Disposable(x) !in s.trace
  {
  }

  /** A job that starts past the first period covers a key that was never inserted. */
  lemma StrayJob(c: Config) returns (s: State, t: nat)
    requires Misaligned(c)
    ensures Reachable(c, s, c.delay + 1) && Due(s, c.delay + 1) && s.cursor == 0
    ensures t < c.disposable && Disposable(s.queue[0].start + t) !in s.trace
  {
    var two := TwoJobs(c);
    s := FirstJobEnds(c, two);
    t := NextMultiple(s.queue[0].start, c.disposable);
    NeverInserted(c, two, s.queue[0].start + t);
  }

  lemma LateDelete(c: Config, s: State)
    requires c.disposable > 0 && Due(s, c.delay + 1) && c.persistent <= s.cursor < c.Period()
    ensures Step(c, s, Late(c)).trace == s.trace + [Delete(s.queue[0].start + (s.cursor - c.persistent))]
  {
  }

  /** Working on it, the state before the stray delete is reached. */
  lemma BeforeStray(c: Config) returns (s: State, x: nat)
    requires Misaligned(c)
    ensures Reachable(c, s, c.delay + 1) && Disposable(x) !in s.trace && Due(s, c.delay + 1)
    ensures c.persistent <= s.cursor < c.Period() && x == s.queue[0].start + (s.cursor - c.persistent)
  {
    var one, t := StrayJob(c);
    x := one.queue[0].start + t;
    s := JobRuns(c, one, c.persistent + t);
    assert Disposable(x) in s.trace <==> Disposable(x) in one.trace;
  }

  /** Misaligned batches: on some ordinary clock a key that was never inserted is deleted. */
  lemma MisalignedFails(c: Config) returns (rs: seq<Reading>, before: seq<Event>, x: nat)
    requires Misaligned(c)
    ensures Ordered(rs) && Run(c, rs).trace == before + [Delete(x)] && Disposable(x) !in before
  {
    var s;
    s, x := BeforeStray(c);
    before := s.trace;
    LateDelete(c, s);
    rs := StrayHistory(c, s, before + [Delete(x)]);
  }

  lemma StrayHistory(c: Config, s: State, t: seq<Event>) returns (rs: seq<Reading>)
    requires c.disposable > 0 && Reachable(c, s, c.delay + 1) && Step(c, s, Late(c)).trace == t
    ensures Ordered(rs) && Run(c, rs).trace == t
  {
    StepReachable(c, s, Late(c), c.delay + 1);
    rs :| LeadsTo(c, rs, Step(c, s, Late(c)), c.delay + 1);
  }

  lemma StrayDelete(t: seq<Event>, x: nat)
    requires Disposable(x) !in t
    ensures !Sound(t + [Delete(x)])
  {
  }

  /**
   A configuration keeps its promise on every clock, and on every ordinary clock, exactly when its
   batches are aligned.
   */
  lemma SoundExactlyWhenAligned(c: Config)
    requires c.disposable > 0
    ensures (forall rs: seq<Reading> :: Sound(Run(c, rs).trace)) <==> Aligned(c)
    ensures (forall rs: seq<Reading> :: Ordered(rs) ==> Sound(Run(c, rs).trace)) <==> Aligned(c)
  {
    if Aligned(c) {
      forall rs: seq<Reading> ensures Sound(Run(c, rs).trace) {
        RunKeeps(c, rs);
      }
    } else {
      var rs, before, x := MisalignedFails(c);
      StrayDelete(before, x);
      assert Ordered(rs) && !Sound(Run(c, rs).trace);
    }
  }

  // ---------------------------------------------------------------- the assertion and the clock

  /**
   The step finishes a job, but the second reading of the clock is not past the time of the job, so
   that the job stays in the queue.
   */
  predicate KeepsFinished(c: Config, s: State, r: Reading) {
    Due(s, r.due) && s.cursor + 1 == c.Period() && r.retire <= s.queue[0].time
  }

  /** Step `i` does so, and a later first reading is past the time of the job. */
  predicate Revisits(c: Config, rs: seq<Reading>, i: nat, j: nat)
    requires c.disposable > 0
  {
    && i < j < |rs| && KeepsFinished(c, Run(c, rs[..i]), rs[i])
    && Run(c, rs[..i]).queue[0].time < rs[j].due
  }

  /** The job at the front is finished and has this time. */
  predicate Stuck(c: Config, s: State, time: nat) {
    s.cursor == c.Period() && s.queue != [] && s.queue[0].time == time
  }

  predicate CursorOk(c: Config, s: State) {
    s.cursor <= c.Period() && (s.queue == [] ==> s.cursor == 0)
  }

  lemma StuckStep(c: Config, s: State, r: Reading, time: nat)
    requires c.disposable > 0 && Stuck(c, s, time)
    ensures if time < r.due then Step(c, s, r).failed else Stuck(c, Step(c, s, r), time)
  {
  }

  lemma KeepStep(c: Config, s: State, r: Reading)
    requires c.disposable > 0 && KeepsFinished(c, s, r)
    ensures Stuck(c, Step(c, s, r), s.queue[0].time)
  {
  }

  /** Where a finished job at the front and where a failure can come from. */
  lemma OriginStep(c: Config, s: State, r: Reading)
    requires c.disposable > 0 && CursorOk(c, s)
    ensures CursorOk(c, Step(c, s, r)) && (s.failed ==> Step(c, s, r).failed)
    ensures Step(c, s, r).cursor == c.Period() && s.cursor < c.Period() ==> KeepsFinished(c, s, r)
    ensures Step(c, s, r).cursor == c.Period() && s.cursor == c.Period() ==>
              s.queue != [] && Stuck(c, Step(c, s, r), s.queue[0].time)
    ensures Step(c, s, r).failed && !s.failed ==> s.cursor == c.Period() && Due(s, r.due)
  {
  }

  /** The states of a run. */
  predicate IsNext(c: Config, rs: seq<Reading>, states: seq<State>, i: nat)
    requires c.disposable > 0 && i < |rs| < |states|
  {
    states[i + 1] == Step(c, states[i], rs[i])
  }

  ghost predicate IsHistory(c: Config, rs: seq<Reading>, states: seq<State>)
    requires c.disposable > 0
  {
    && |states| == |rs| + 1 && states[0] == START
    && forall i :: 0 <= i < |rs| ==> IsNext(c, rs, states, i)
  }

  lemma HistoryOf(c: Config, rs: seq<Reading>) returns (states: seq<State>)
    requires c.disposable > 0
    ensures IsHistory(c, rs, states) && forall n :: 0 <= n <= |rs| ==> states[n] == Run(c, rs[..n])
  {
    states := seq(|rs| + 1, n requires 0 <= n <= |rs| => Run(c, rs[..n]));
    forall i | 0 <= i < |rs| ensures IsNext(c, rs, states, i) {
      assert rs[..i + 1] == rs[..i] + [rs[i]];
      RunLast(c, rs[..i], rs[i]);
    }
    assert rs[..0] == [];
  }

  lemma {:induction false} CursorAlways(c: Config, rs: seq<Reading>, states: seq<State>, n: nat)
    requires c.disposable > 0 && IsHistory(c, rs, states) && n <= |rs|
    ensures CursorOk(c, states[n])
  {
    if n == 0 {
    } else {
      CursorAlways(c, rs, states, n - 1);
      assert IsNext(c, rs, states, n - 1);
      OriginStep(c, states[n - 1], rs[n - 1]);
    }
  }

  lemma {:induction false} FailureStays(c: Config, rs: seq<Reading>, states: seq<State>, m: nat, n: nat)
    requires c.disposable > 0 && IsHistory(c, rs, states) && m <= n <= |rs| && states[m].failed
    ensures states[n].failed
  {
    if m == n {
    } else {
      FailureStays(c, rs, states, m, n - 1);
      CursorAlways(c, rs, states, n - 1);
      assert IsNext(c, rs, states, n - 1);
      OriginStep(c, states[n - 1], rs[n - 1]);
    }
  }

  /** A finished job that stays does so until the assertion is reached. */
  lemma {:induction false} StuckStays(c: Config, rs: seq<Reading>, states: seq<State>, i: nat, n: nat)
    requires c.disposable > 0 && IsHistory(c, rs, states) && i < n <= |rs|
    requires KeepsFinished(c, states[i], rs[i])
    ensures states[n].failed || Stuck(c, states[n], states[i].queue[0].time)
  {
    assert IsNext(c, rs, states, n - 1);
    if n == i + 1 {
      KeepStep(c, states[i], rs[i]);
    } else {
      StuckStays(c, rs, states, i, n - 1);
      if states[n - 1].failed {
        FailureStays(c, rs, states, n - 1, n);
      } else {
        StuckStep(c, states[n - 1], rs[n - 1], states[i].queue[0].time);
      }
    }
  }

  /** A finished job at the front was left there by some step. */
  lemma {:induction false} StuckOrigin(c: Config, rs: seq<Reading>, states: seq<State>, n: nat) returns (i: nat)
    requires c.disposable > 0 && IsHistory(c, rs, states) && n <= |rs| && states[n].cursor == c.Period()
    ensures i < n && KeepsFinished(c, states[i], rs[i]) && Stuck(c, states[n], states[i].queue[0].time)
  {
    assert n > 0;
    CursorAlways(c, rs, states, n - 1);
    assert IsNext(c, rs, states, n - 1);
    OriginStep(c, states[n - 1], rs[n - 1]);
    if states[n - 1].cursor < c.Period() {
      i := n - 1;
      KeepStep(c, states[i], rs[i]);
    } else {
      i := StuckOrigin(c, rs, states, n - 1);
    }
  }

  lemma {:induction false} FailureOrigin(c: Config, rs: seq<Reading>, states: seq<State>, n: nat)
    returns (i: nat, j: nat)
    requires c.disposable > 0 && IsHistory(c, rs, states) && n <= |rs| && states[n].failed
    ensures i < j < n && KeepsFinished(c, states[i], rs[i]) && states[i].queue[0].time < rs[j].due
  {
    assert n > 0;
    if states[n - 1].failed {
      i, j := FailureOrigin(c, rs, states, n - 1);
    } else {
      CursorAlways(c, rs, states, n - 1);
      assert IsNext(c, rs, states, n - 1);
      OriginStep(c, states[n - 1], rs[n - 1]);
      i := StuckOrigin(c, rs, states, n - 1);
      j := n - 1;
    }
  }

  lemma RevisitFails(c: Config, rs: seq<Reading>, states: seq<State>, i: nat, j: nat)
    requires c.disposable > 0 && IsHistory(c, rs, states) && i < j < |rs|
    requires KeepsFinished(c, states[i], rs[i]) && states[i].queue[0].time < rs[j].due
    ensures states[|rs|].failed
  {
    StuckStays(c, rs, states, i, j);
    if states[j].failed {
      FailureStays(c, rs, states, j, |rs|);
    } else {
      assert IsNext(c, rs, states, j);
      StuckStep(c, states[j], rs[j], states[i].queue[0].time);
      FailureStays(c, rs, states, j + 1, |rs|);
    }
  }

  /**
   The assertion is reached exactly when some step finishes a job whose time the second reading is
   not past, and a later first reading is past it.
   */
  lemma AssertionReachedExactly(c: Config, rs: seq<Reading>)
    requires c.disposable > 0
    ensures Run(c, rs).failed <==> exists i: nat, j: nat :: Revisits(c, rs, i, j)
  {
    var states := HistoryOf(c, rs);
    assert rs[..|rs|] == rs && states[|rs|] == Run(c, rs);
    if states[|rs|].failed {
      var i, j := FailureOrigin(c, rs, states, |rs|);
      assert states[i] == Run(c, rs[..i]);
      assert Revisits(c, rs, i, j);
    }
    if i: nat, j: nat :| Revisits(c, rs, i, j) {
      assert states[i] == Run(c, rs[..i]);
      RevisitFails(c, rs, states, i, j);
    }
  }

  /** Whatever the batch sizes, while the clock does not step back no finished job stays. */
  lemma MonotoneNeverFails(c: Config, rs: seq<Reading>)
    requires c.disposable > 0 && Monotone(rs)
    ensures !Run(c, rs).failed && Run(c, rs).cursor < c.Period()
  {
    AssertionReachedExactly(c, rs);
    var states := HistoryOf(c, rs);
    assert rs[..|rs|] == rs && states[|rs|] == Run(c, rs);
    CursorAlways(c, rs, states, |rs|);
    if states[|rs|].cursor == c.Period() {
      var i := StuckOrigin(c, rs, states, |rs|);
    }
  }

  /** For every configuration there is a clock that leads to the assertion. */
  lemma BackwardClockFails(c: Config) returns (rs: seq<Reading>)
    requires c.disposable > 0
    ensures Run(c, rs).failed && !Monotone(rs)
  {
    var first := FirstJob(c);
    LaterReachable(c, first, 0, c.delay + 1);
    var last := JobRuns(c, first, c.Period() - 1);
    var usual :| LeadsTo(c, usual, last, c.delay + 1);
    var back := Reading(c.delay + 1, 0, 0);
    RunLast(c, usual, back);
    RunLast(c, usual + [back], Late(c));
    rs := usual + [back] + [Late(c)];
    if Monotone(rs) {
      MonotoneNeverFails(c, rs);
    }
  }
}
