/**
 When the operations of the schedule happen.  A batch of disposable keys is complete at some reading
 of the clock; its job runs no earlier than the delay after that, and then before anything else.
 */
module ScheduleDelay {
  import opened Arith
  import opened Schedule

  /** Reading `i` performs `e` and nothing else. */
  predicate Performs(c: Config, rs: seq<Reading>, i: nat, e: Event)
    requires c.disposable > 0 && i < |rs|
  {
    Run(c, rs[..i + 1]).trace == Run(c, rs[..i]).trace + [e]
  }

  /** The insert of disposable key `x` completes a batch. */
  predicate Completes(c: Config, x: nat)
    requires c.disposable > 0
  {
    NextIndex(c, x) % (c.disposable + c.persistent) == 0
  }

  /** The first key of the batch that the insert of `x` completes. */
  function FirstKey(c: Config, x: nat): nat
    requires c.disposable > 0 && Completes(c, x)
  {
    PositiveMultiple(NextIndex(c, x), c.disposable + c.persistent);
    NextIndex(c, x) - (c.disposable + c.persistent)
  }

  /** Reading `j` completes a batch with the insert of `x`. */
  predicate CompletesAt(c: Config, rs: seq<Reading>, j: nat, x: nat)
    requires c.disposable > 0 && j < |rs|
  {
    Performs(c, rs, j, Disposable(x)) && Completes(c, x)
  }

  /** `e` belongs to the job of the batch that `x` completes. */
  predicate OfJob(c: Config, x: nat, e: Event)
    requires c.disposable > 0 && Completes(c, x)
  {
    var d, first := c.disposable, FirstKey(c, x);
    match e
    case Disposable(_) => false
    case Persistent(y) => first + d <= y < first + d + c.persistent
    case Delete(y) => first <= y < first + d
  }

  // ---------------------------------------------------------------- the job behind each queue entry

  predicate Does(states: seq<State>, i: nat, e: Event)
    requires i + 1 < |states|
  {
    states[i + 1].trace == states[i].trace + [e]
  }

  /** Step `j` inserts the last key of a batch. */
  predicate Ends(c: Config, rs: seq<Reading>, states: seq<State>, j: nat)
    requires c.disposable > 0 && j < |rs| < |states|
  {
    !Due(states[j], rs[j].due) && Completes(c, states[j].index)
  }

  /** The job of the batch that step `j` completes. */
  predicate IsJobOf(c: Config, rs: seq<Reading>, states: seq<State>, j: nat, job: Job)
    requires c.disposable > 0 && j < |rs| < |states|
  {
    && Ends(c, rs, states, j) && Does(states, j, Disposable(states[j].index))
    && job == Job(rs[j].push + c.delay, FirstKey(c, states[j].index))
  }

  /** The steps `js` completed the batches whose jobs are in the queue after `n` steps, in order. */
  ghost predicate Owners(c: Config, rs: seq<Reading>, states: seq<State>, n: nat, js: seq<nat>)
    requires c.disposable > 0 && n <= |rs| < |states|
  {
    && |js| == |states[n].queue|
    && (forall q :: 0 <= q < |js| ==> js[q] < n && IsJobOf(c, rs, states, js[q], states[n].queue[q]))
    && (forall p, q :: 0 <= p < q < |js| ==> js[p] < js[q])
  }

  lemma InsertShape(c: Config, s: State, r: Reading)
    requires c.disposable > 0 && !Due(s, r.due)
    ensures var s' := Step(c, s, r);
            && s'.trace == s.trace + [Disposable(s.index)] && s'.cursor == s.cursor
            && s'.queue == if Completes(c, s.index) then s.queue + [Job(r.push + c.delay, FirstKey(c, s.index))]
                           else s.queue
  {
  }

  lemma InsertOwners(c: Config, rs: seq<Reading>, states: seq<State>, n: nat, js: seq<nat>)
    requires c.disposable > 0 && IsHistory(c, rs, states) && n < |rs| && Owners(c, rs, states, n, js)
    requires !Due(states[n], rs[n].due)
    ensures Owners(c, rs, states, n + 1, if Completes(c, states[n].index) then js + [n] else js)
  {
    assert IsNext(c, rs, states, n);
    InsertShape(c, states[n], rs[n]);
    if Completes(c, states[n].index) {
      assert IsJobOf(c, rs, states, n, states[n + 1].queue[|js|]);
    }
  }

  lemma WorkStep(c: Config, s: State, r: Reading)
    requires c.disposable > 0 && Due(s, r.due) && CursorOk(c, s)
    ensures var s' := Step(c, s, r);
            && (s'.queue == s.queue || s'.queue == s.queue[1..]) && s'.index == s.index
            && (s'.queue != s.queue ==>
                  s.cursor + 1 >= c.Period() && s.queue[0].time < r.retire && (s.cursor == c.Period() ==> s'.failed))
            && (s.cursor + 1 == c.Period() ==>
                  && s'.trace == s.trace + [Delete(s.queue[0].start + c.disposable - 1)]
                  && (s.queue[0].time < r.retire ==> s'.queue == s.queue[1..]))
            && (s.cursor < c.Period() - 1 ==> s'.queue == s.queue)
  {
  }

  lemma WorkOwners(c: Config, rs: seq<Reading>, states: seq<State>, n: nat, js: seq<nat>)
    requires c.disposable > 0 && n < |rs| < |states| && Owners(c, rs, states, n, js) && js != []
    requires states[n + 1].queue == states[n].queue || states[n + 1].queue == states[n].queue[1..]
    ensures Owners(c, rs, states, n + 1, if states[n + 1].queue == states[n].queue then js else js[1..])
  {
  }

  /** The steps that completed the batches whose jobs are in the queue after `n` steps. */
  lemma {:induction false} OwnersOf(c: Config, rs: seq<Reading>, states: seq<State>, n: nat) returns (js: seq<nat>)
    requires c.disposable > 0 && IsHistory(c, rs, states) && n <= |rs|
    ensures Owners(c, rs, states, n, js)
  {
    if n == 0 {
      js := [];
    } else {
      js := OwnersOf(c, rs, states, n - 1);
      assert IsNext(c, rs, states, n - 1);
      CursorAlways(c, rs, states, n - 1);
      if Due(states[n - 1], rs[n - 1].due) {
        WorkStep(c, states[n - 1], rs[n - 1]);
        WorkOwners(c, rs, states, n - 1, js);
        js := if states[n].queue == states[n - 1].queue then js else js[1..];
      } else {
        InsertOwners(c, rs, states, n - 1, js);
        js := if Completes(c, states[n - 1].index) then js + [n - 1] else js;
      }
    }
  }

  // ---------------------------------------------------------------- jobs that are through

  /** Queued jobs start at different multiples of the period, in order. */
  ghost predicate Spaced(c: Config, s: State)
    requires c.disposable > 0
  {
    && (forall q :: 0 <= q < |s.queue| ==>
          s.queue[q].start % c.Period() == 0 && s.queue[q].start + c.Period() <= s.index)
    && (forall p, q :: 0 <= p < q < |s.queue| ==> s.queue[p].start + c.Period() <= s.queue[q].start)
  }

  lemma NextMultiple(x: nat, y: nat, n: nat)
    requires n > 0 && x % n == 0 && y % n == 0 && x < y
    ensures x + n <= y
  {
    DivisionLaw(x, n);
    DivisionLaw(y, n);
    if x / n < y / n {
      MulStep(n, x / n, y / n);
    } else if y / n < x / n {
      MulStep(n, y / n, x / n);
    }
  }

  lemma PastIndex(c: Config, s: State, start: nat)
    requires c.disposable > 0 && Completes(c, s.index) && start % c.Period() == 0 && start + c.Period() <= s.index
    ensures start + c.Period() <= FirstKey(c, s.index) && FirstKey(c, s.index) % c.Period() == 0
  {
    var n, next := c.Period(), NextIndex(c, s.index);
    ModShift(start, n, 1);
    NextMultiple(start + n, next, n);
    FirstIsMultiple(c, s.index);
  }

  lemma FirstIsMultiple(c: Config, x: nat)
    requires c.disposable > 0 && Completes(c, x)
    ensures FirstKey(c, x) % c.Period() == 0
  {
    ModShift(FirstKey(c, x), c.Period(), 1);
  }

  lemma SpacedStep(c: Config, s: State, r: Reading)
    requires c.disposable > 0 && CursorOk(c, s) && Spaced(c, s)
    ensures Spaced(c, Step(c, s, r))
  {
    if Due(s, r.due) {
      WorkStep(c, s, r);
    } else {
      InsertShape(c, s, r);
      if Completes(c, s.index) {
        FirstIsMultiple(c, s.index);
        forall q | 0 <= q < |s.queue| ensures s.queue[q].start + c.Period() <= FirstKey(c, s.index) {
          PastIndex(c, s, s.queue[q].start);
        }
      }
    }
  }

  lemma {:induction false} SpacedAlways(c: Config, rs: seq<Reading>, states: seq<State>, n: nat)
    requires c.disposable > 0 && IsHistory(c, rs, states) && n <= |rs|
    ensures Spaced(c, states[n])
  {
    if n == 0 {
    } else {
      SpacedAlways(c, rs, states, n - 1);
      assert IsNext(c, rs, states, n - 1);
      CursorAlways(c, rs, states, n - 1);
      SpacedStep(c, states[n - 1], rs[n - 1]);
    }
  }

  /** Step `m` performs the last delete of the job of step `j`, and reads a clock past the time of the job. */
  predicate FinishesJob(c: Config, rs: seq<Reading>, states: seq<State>, j: nat, m: nat)
    requires c.disposable > 0 && j < |rs| < |states| && m < |rs| && Ends(c, rs, states, j)
  {
    && Does(states, m, Delete(FirstKey(c, states[j].index) + c.disposable - 1))
    && rs[j].push + c.delay < rs[m].retire
  }

  ghost predicate FinishedBy(c: Config, rs: seq<Reading>, states: seq<State>, j: nat, n: nat)
    requires c.disposable > 0 && j < |rs| && n <= |rs| < |states| && Ends(c, rs, states, j)
  {
    exists m :: j < m < n && FinishesJob(c, rs, states, j, m)
  }

  /** The batches whose jobs are in the queue are those completed and not finished. */
  ghost predicate Exact(c: Config, rs: seq<Reading>, states: seq<State>, n: nat, js: seq<nat>)
    requires c.disposable > 0 && n <= |rs| < |states|
  {
    forall j: nat :: j < n && Ends(c, rs, states, j) ==> (j in js <==> !FinishedBy(c, rs, states, j, n))
  }

  lemma FinishedNext(c: Config, rs: seq<Reading>, states: seq<State>, j: nat, n: nat)
    requires c.disposable > 0 && j < n < |rs| < |states| && Ends(c, rs, states, j)
    ensures FinishedBy(c, rs, states, j, n + 1)
       <==> FinishedBy(c, rs, states, j, n) || FinishesJob(c, rs, states, j, n)
  {
    if m :| j < m < n && FinishesJob(c, rs, states, j, m) {
      assert j < m < n + 1;
    }
    if m :| j < m < n + 1 && FinishesJob(c, rs, states, j, m) {
      assert m < n || m == n;
    }
  }

  lemma InsertExact(c: Config, rs: seq<Reading>, states: seq<State>, n: nat, js: seq<nat>)
    requires c.disposable > 0 && IsHistory(c, rs, states) && n < |rs|
    requires Owners(c, rs, states, n, js) && Exact(c, rs, states, n, js) && !Due(states[n], rs[n].due)
    ensures Exact(c, rs, states, n + 1, if Completes(c, states[n].index) then js + [n] else js)
  {
    var js' := if Completes(c, states[n].index) then js + [n] else js;
    assert IsNext(c, rs, states, n);
    InsertShape(c, states[n], rs[n]);
    assert states[n + 1].trace[|states[n].trace|] == Disposable(states[n].index);
    forall j: nat | j < n + 1 && Ends(c, rs, states, j)
      ensures j in js' <==> !FinishedBy(c, rs, states, j, n + 1)
    {
      if j < n {
        FinishedNext(c, rs, states, j, n);
      }
    }
  }

  /** Work in step `n` finishes the oldest job and no other, exactly when the job leaves the queue. */
  lemma WorkFinishes(c: Config, rs: seq<Reading>, states: seq<State>, n: nat, js: seq<nat>, q: nat)
    requires c.disposable > 0 && IsHistory(c, rs, states) && n < |rs| && Owners(c, rs, states, n, js) && q < |js|
    requires Due(states[n], rs[n].due) && !states[n + 1].failed
    ensures Ends(c, rs, states, js[q])
    ensures FinishesJob(c, rs, states, js[q], n) <==> q == 0 && states[n + 1].queue != states[n].queue
  {
    var s := states[n];
    assert IsNext(c, rs, states, n);
    CursorAlways(c, rs, states, n);
    SpacedAlways(c, rs, states, n);
    assert IsJobOf(c, rs, states, js[q], s.queue[q]);
    WorkStep(c, s, rs[n]);
    var last := Delete(s.queue[q].start + c.disposable - 1);
    if Does(states, n, last) {
      LastDelete(c, s, rs[n], q);
    }
  }

  lemma LastDelete(c: Config, s: State, r: Reading, q: nat)
    requires c.disposable > 0 && Due(s, r.due) && CursorOk(c, s) && Spaced(c, s) && q < |s.queue|
    requires Step(c, s, r).trace == s.trace + [Delete(s.queue[q].start + c.disposable - 1)]
    ensures q == 0 && s.cursor + 1 == c.Period()
  {
    var e := Delete(s.queue[q].start + c.disposable - 1);
    assert Step(c, s, r).trace[|s.trace|] == e;
  }

  lemma WorkExact(c: Config, rs: seq<Reading>, states: seq<State>, n: nat, js: seq<nat>)
    requires c.disposable > 0 && IsHistory(c, rs, states) && n < |rs|
    requires Owners(c, rs, states, n, js) && Exact(c, rs, states, n, js)
    requires Due(states[n], rs[n].due) && !states[n + 1].failed
    ensures Exact(c, rs, states, n + 1, if states[n + 1].queue == states[n].queue then js else js[1..])
  {
    var stays := states[n + 1].queue == states[n].queue;
    var js' := if stays then js else js[1..];
    forall j: nat | j < n + 1 && Ends(c, rs, states, j)
      ensures j in js' <==> !FinishedBy(c, rs, states, j, n + 1)
    {
      FinishedNext(c, rs, states, j, n);
      if j in js {
        var q :| 0 <= q < |js| && js[q] == j;
        WorkFinishes(c, rs, states, n, js, q);
        InRest(js, q);
      } else {
        assert js == [js[0]] + js[1..];
      }
    }
  }

  lemma InRest(js: seq<nat>, q: nat)
    requires q < |js| && forall a, b :: 0 <= a < b < |js| ==> js[a] < js[b]
    ensures js[q] in js[1..] <==> q > 0
  {
    if q > 0 {
      assert js[1..][q - 1] == js[q];
    }
  }

  lemma {:induction false} QueueOf(c: Config, rs: seq<Reading>, states: seq<State>, n: nat) returns (js: seq<nat>)
    requires c.disposable > 0 && IsHistory(c, rs, states) && n <= |rs| && !states[n].failed
    ensures Owners(c, rs, states, n, js) && Exact(c, rs, states, n, js)
  {
    if n == 0 {
      js := [];
    } else {
      if states[n - 1].failed {
        FailureStays(c, rs, states, n - 1, n);
      }
      js := QueueOf(c, rs, states, n - 1);
      assert IsNext(c, rs, states, n - 1);
      if Due(states[n - 1], rs[n - 1].due) {
        CursorAlways(c, rs, states, n - 1);
        WorkStep(c, states[n - 1], rs[n - 1]);
        WorkOwners(c, rs, states, n - 1, js);
        WorkExact(c, rs, states, n - 1, js);
        js := if states[n].queue == states[n - 1].queue then js else js[1..];
      } else {
        InsertOwners(c, rs, states, n - 1, js);
        InsertExact(c, rs, states, n - 1, js);
        js := if Completes(c, states[n - 1].index) then js + [n - 1] else js;
      }
    }
  }

  // ---------------------------------------------------------------- when operations happen

  /** A batch with `e` in its job was completed at a reading that lies more than the delay back. */
  ghost predicate Waited(c: Config, rs: seq<Reading>, i: nat, e: Event)
    requires c.disposable > 0 && i < |rs|
  {
    exists j: nat, x: nat :: j < i && CompletesAt(c, rs, j, x) && OfJob(c, x, e) && rs[j].push + c.delay < rs[i].due
  }

  /** Reading `m` performs the last delete of the batch completed at reading `j`, past its delay. */
  predicate DeletesLast(c: Config, rs: seq<Reading>, j: nat, x: nat, m: nat)
    requires c.disposable > 0 && j < |rs| && m < |rs| && Completes(c, x)
  {
    Performs(c, rs, m, Delete(FirstKey(c, x) + c.disposable - 1)) && rs[j].push + c.delay < rs[m].retire
  }

  /** The job of the batch completed with `x` at reading `j` was finished before reading `i`. */
  ghost predicate JobDone(c: Config, rs: seq<Reading>, i: nat, j: nat, x: nat)
    requires c.disposable > 0 && j < i < |rs| && Completes(c, x)
  {
    exists m: nat :: j < m < i && DeletesLast(c, rs, j, x, m)
  }

  /** At reading `i` the batch completed at `j` is not done, while all completed before it are. */
  ghost predicate IsOldest(c: Config, rs: seq<Reading>, i: nat, j: nat, x: nat)
    requires c.disposable > 0 && j < i < |rs|
  {
    && CompletesAt(c, rs, j, x) && !JobDone(c, rs, i, j, x)
    && forall j': nat, x': nat :: j' < j && CompletesAt(c, rs, j', x') ==> JobDone(c, rs, i, j', x')
  }

  /** The oldest batch that is not done has waited for its delay. */
  ghost predicate OldestIsDue(c: Config, rs: seq<Reading>, i: nat, j: nat, x: nat)
    requires c.disposable > 0 && i < |rs|
  {
    j < i && IsOldest(c, rs, i, j, x) && rs[j].push + c.delay < rs[i].due
  }

  lemma StepEmits(c: Config, s: State, r: Reading, e: Event)
    requires c.disposable > 0 && Step(c, s, r).trace == s.trace + [e]
    ensures if Due(s, r.due)
            then var first, d := s.queue[0].start, c.disposable;
                 (e.Persistent? && first + d <= e.index < first + d + c.persistent)
                 || (e.Delete? && first <= e.index < first + d)
            else e == Disposable(s.index)
  {
    var s' := Step(c, s, r);
    assert s'.trace[|s.trace|] == e;
  }

  /** Reading `i` performs what the states around it say. */
  lemma PerformsIs(c: Config, rs: seq<Reading>, states: seq<State>, i: nat, e: Event)
    requires c.disposable > 0 && i < |rs| == |states| - 1
    requires forall n :: 0 <= n <= |rs| ==> states[n] == Run(c, rs[..n])
    ensures Performs(c, rs, i, e) <==> Does(states, i, e)
  {
    assert states[i] == Run(c, rs[..i]) && states[i + 1] == Run(c, rs[..i + 1]);
  }

  lemma OwnerPerforms(c: Config, rs: seq<Reading>, states: seq<State>, j: nat, job: Job)
    requires c.disposable > 0 && j < |rs| == |states| - 1
    requires forall n :: 0 <= n <= |rs| ==> states[n] == Run(c, rs[..n])
    requires IsJobOf(c, rs, states, j, job)
    ensures CompletesAt(c, rs, j, states[j].index)
  {
    PerformsIs(c, rs, states, j, Disposable(states[j].index));
  }

  lemma InsertsAt(c: Config, rs: seq<Reading>, states: seq<State>, i: nat, y: nat)
    requires c.disposable > 0 && IsHistory(c, rs, states) && i < |rs|
    requires forall n :: 0 <= n <= |rs| ==> states[n] == Run(c, rs[..n])
    requires Performs(c, rs, i, Disposable(y))
    ensures !Due(states[i], rs[i].due) && y == states[i].index
  {
    PerformsIs(c, rs, states, i, Disposable(y));
    assert IsNext(c, rs, states, i);
    StepEmits(c, states[i], rs[i], Disposable(y));
  }

  /** A persistent insert or a delete happens only once the delay after its batch has passed. */
  lemma JobsWait(c: Config, rs: seq<Reading>, i: nat, e: Event)
    requires c.disposable > 0 && i < |rs| && Performs(c, rs, i, e) && !e.Disposable?
    ensures Waited(c, rs, i, e)
  {
    var states := HistoryOf(c, rs);
    var js := OwnersOf(c, rs, states, i);
    PerformsIs(c, rs, states, i, e);
    assert IsNext(c, rs, states, i);
    StepEmits(c, states[i], rs[i], e);
    var j := js[0];
    assert IsJobOf(c, rs, states, j, states[i].queue[0]);
    OwnerPerforms(c, rs, states, j, states[i].queue[0]);
    assert OfJob(c, states[j].index, e);
  }

  /** The completion of a batch, as a reading and as a step. */
  lemma CompletesIs(c: Config, rs: seq<Reading>, states: seq<State>, j: nat, x: nat)
    requires c.disposable > 0 && IsHistory(c, rs, states) && j < |rs|
    requires forall n :: 0 <= n <= |rs| ==> states[n] == Run(c, rs[..n])
    ensures CompletesAt(c, rs, j, x) <==> Ends(c, rs, states, j) && x == states[j].index
  {
    if CompletesAt(c, rs, j, x) {
      InsertsAt(c, rs, states, j, x);
    }
    if Ends(c, rs, states, j) {
      assert IsNext(c, rs, states, j);
      InsertShape(c, states[j], rs[j]);
      PerformsIs(c, rs, states, j, Disposable(states[j].index));
    }
  }

  lemma DeletesIs(c: Config, rs: seq<Reading>, states: seq<State>, j: nat, m: nat)
    requires c.disposable > 0 && j < |rs| && m < |rs| == |states| - 1
    requires states[m] == Run(c, rs[..m]) && states[m + 1] == Run(c, rs[..m + 1])
    requires Ends(c, rs, states, j)
    ensures DeletesLast(c, rs, j, states[j].index, m) <==> FinishesJob(c, rs, states, j, m)
  {
  }

  lemma DoneIs(c: Config, rs: seq<Reading>, states: seq<State>, i: nat, j: nat)
    requires c.disposable > 0 && j < i < |rs| == |states| - 1
    requires forall n :: 0 <= n <= |rs| ==> states[n] == Run(c, rs[..n])
    requires Ends(c, rs, states, j)
    ensures JobDone(c, rs, i, j, states[j].index) <==> FinishedBy(c, rs, states, j, i)
  {
    var x := states[j].index;
    if m: nat :| j < m < i && DeletesLast(c, rs, j, x, m) {
      DeletesIs(c, rs, states, j, m);
      assert FinishesJob(c, rs, states, j, m);
    }
    if m :| j < m < i && FinishesJob(c, rs, states, j, m) {
      DeletesIs(c, rs, states, j, m);
      assert DeletesLast(c, rs, j, x, m);
    }
  }

  /** The oldest batch that is not done is the one at the front of the queue. */
  lemma OldestIs(c: Config, rs: seq<Reading>, states: seq<State>, i: nat, js: seq<nat>, j: nat, x: nat)
    requires c.disposable > 0 && IsHistory(c, rs, states) && j < i < |rs|
    requires forall n :: 0 <= n <= |rs| ==> states[n] == Run(c, rs[..n])
    requires Owners(c, rs, states, i, js) && Exact(c, rs, states, i, js)
    requires IsOldest(c, rs, i, j, x)
    ensures js != [] && j == js[0]
  {
    CompletesIs(c, rs, states, j, x);
    DoneIs(c, rs, states, i, j);
    assert j in js;
    if js[0] < j {
      var j' := js[0];
      assert IsJobOf(c, rs, states, j', states[i].queue[0]);
      CompletesIs(c, rs, states, j', states[j'].index);
      DoneIs(c, rs, states, i, j');
    }
  }

  lemma FrontIsOldest(c: Config, rs: seq<Reading>, states: seq<State>, i: nat, js: seq<nat>)
    requires c.disposable > 0 && IsHistory(c, rs, states) && i < |rs|
    requires forall n :: 0 <= n <= |rs| ==> states[n] == Run(c, rs[..n])
    requires Owners(c, rs, states, i, js) && Exact(c, rs, states, i, js) && js != []
    ensures IsOldest(c, rs, i, js[0], states[js[0]].index)
  {
    var j := js[0];
    assert IsJobOf(c, rs, states, j, states[i].queue[0]);
    CompletesIs(c, rs, states, j, states[j].index);
    DoneIs(c, rs, states, i, j);
    forall j': nat, x': nat | j' < j && CompletesAt(c, rs, j', x') ensures JobDone(c, rs, i, j', x') {
      CompletesIs(c, rs, states, j', x');
      DoneIs(c, rs, states, i, j');
      assert j' !in js;
    }
  }

  /**
   Until the assertion is reached, a reading performs a disposable insert exactly when the oldest
   batch whose job is not done has not waited for its delay, or there is none.
   */
  lemma InsertsExactly(c: Config, rs: seq<Reading>, i: nat)
    requires c.disposable > 0 && i < |rs| && !Run(c, rs[..i]).failed
    ensures (exists y: nat :: Performs(c, rs, i, Disposable(y)))
       <==> !exists j: nat, x: nat :: OldestIsDue(c, rs, i, j, x)
  {
    var states := HistoryOf(c, rs);
    var js := QueueOf(c, rs, states, i);
    assert IsNext(c, rs, states, i);
    if Due(states[i], rs[i].due) {
      FrontIsOldest(c, rs, states, i, js);
      assert IsJobOf(c, rs, states, js[0], states[i].queue[0]);
      assert OldestIsDue(c, rs, i, js[0], states[js[0]].index);
      forall y: nat ensures !Performs(c, rs, i, Disposable(y)) {
        if Performs(c, rs, i, Disposable(y)) {
          InsertsAt(c, rs, states, i, y);
        }
      }
    } else {
      InsertShape(c, states[i], rs[i]);
      PerformsIs(c, rs, states, i, Disposable(states[i].index));
      forall j: nat, x: nat ensures !OldestIsDue(c, rs, i, j, x) {
        if OldestIsDue(c, rs, i, j, x) {
          OldestIs(c, rs, states, i, js, j, x);
        }
      }
    }
  }

  /** Until then, work is done for the oldest batch only. */
  lemma WorksForOldest(c: Config, rs: seq<Reading>, i: nat, e: Event)
    requires c.disposable > 0 && i < |rs| && !Run(c, rs[..i]).failed
    requires Performs(c, rs, i, e) && !e.Disposable?
    ensures exists j: nat, x: nat :: OldestIsDue(c, rs, i, j, x) && OfJob(c, x, e)
  {
    var states := HistoryOf(c, rs);
    var js := QueueOf(c, rs, states, i);
    PerformsIs(c, rs, states, i, e);
    assert IsNext(c, rs, states, i);
    StepEmits(c, states[i], rs[i], e);
    FrontIsOldest(c, rs, states, i, js);
    assert IsJobOf(c, rs, states, js[0], states[i].queue[0]);
    assert OldestIsDue(c, rs, i, js[0], states[js[0]].index) && OfJob(c, states[js[0]].index, e);
  }

  lemma {:induction false} SomeOldest(c: Config, rs: seq<Reading>, i: nat, j: nat, x: nat) returns (j0: nat, x0: nat)
    requires c.disposable > 0 && j < i < |rs| && CompletesAt(c, rs, j, x) && !JobDone(c, rs, i, j, x)
    ensures j0 <= j && IsOldest(c, rs, i, j0, x0)
    decreases j
  {
    if j': nat, x': nat :| j' < j && CompletesAt(c, rs, j', x') && !JobDone(c, rs, i, j', x') {
      j0, x0 := SomeOldest(c, rs, i, j', x');
    } else {
      j0, x0 := j, x;
    }
  }

  /** On an ordinary clock no disposable key is inserted while any job that is due is not done. */
  lemma OrdinaryJobsGoFirst(c: Config, rs: seq<Reading>, i: nat, y: nat, j: nat, x: nat)
    requires c.disposable > 0 && j < i < |rs| && Ordered(rs)
    requires Performs(c, rs, i, Disposable(y)) && CompletesAt(c, rs, j, x)
    ensures JobDone(c, rs, i, j, x) || rs[i].due <= rs[j].push + c.delay
  {
    MonotoneNeverFails(c, rs[..i]);
    InsertsExactly(c, rs, i);
    if !JobDone(c, rs, i, j, x) {
      var j0, x0 := SomeOldest(c, rs, i, j, x);
      assert !OldestIsDue(c, rs, i, j0, x0);
    }
  }

  /** Unless the assertion is reached, every reading performs one operation. */
  lemma OneOperation(c: Config, rs: seq<Reading>, i: nat)
    requires c.disposable > 0 && i < |rs| && !Run(c, rs).failed
    ensures exists e :: Performs(c, rs, i, e)
  {
    var states := HistoryOf(c, rs);
    assert rs[..|rs|] == rs;
    if states[i + 1].failed {
      FailureStays(c, rs, states, i + 1, |rs|);
    }
    assert IsNext(c, rs, states, i);
    var e := StepOnce(c, states[i], rs[i]);
    PerformsIs(c, rs, states, i, e);
  }

  lemma StepOnce(c: Config, s: State, r: Reading) returns (e: Event)
    requires c.disposable > 0 && !Step(c, s, r).failed
    ensures Step(c, s, r).trace == s.trace + [e]
  {
    e := Step(c, s, r).trace[|s.trace|];
  }

  /** On a clock that steps back a job that is due can wait behind one that is not. */
  lemma DueJobMayWait()
    ensures var c, rs := Config(1, 0, 0), [Reading(0, 0, 100), Reading(0, 0, 10), Reading(50, 50, 50)];
            && Performs(c, rs, 2, Disposable(2)) && CompletesAt(c, rs, 1, 1)
            && !JobDone(c, rs, 2, 1, 1) && rs[1].push + c.delay < rs[2].due
  {
    var c, rs := Config(1, 0, 0), [Reading(0, 0, 100), Reading(0, 0, 10), Reading(50, 50, 50)];
    var s1 := State(1, [Job(100, 0)], 0, false, [Disposable(0)]);
    var s2 := State(2, [Job(100, 0), Job(10, 1)], 0, false, [Disposable(0), Disposable(1)]);
    assert rs[..0] == [] && rs[..1] == [rs[0]] && rs[..2] == [rs[0]] + [rs[1]] && rs[..3] == [rs[0], rs[1]] + [rs[2]];
    RunLast(c, [], rs[0]);
    assert Run(c, rs[..1]) == s1;
    RunLast(c, rs[..1], rs[1]);
    assert Run(c, rs[..2]) == s2;
    RunLast(c, rs[..2], rs[2]);
    assert rs[..3] == rs[..2] + [rs[2]];
    assert Run(c, rs[..3]).trace == s2.trace + [Disposable(2)];
  }

  /** What the clock allows, for the whole history. */
  ghost predicate Timely(c: Config, rs: seq<Reading>)
    requires c.disposable > 0
  {
    && (forall i: nat, e :: i < |rs| && Performs(c, rs, i, e) && !e.Disposable? ==> Waited(c, rs, i, e))
    && (forall i: nat :: i < |rs| && !Run(c, rs[..i]).failed ==> InsertsOrWorks(c, rs, i))
  }

  /** A disposable key is inserted exactly when no job is to be done first. */
  ghost predicate InsertsOrWorks(c: Config, rs: seq<Reading>, i: nat)
    requires c.disposable > 0 && i < |rs|
  {
    (exists y: nat :: Performs(c, rs, i, Disposable(y))) <==> !exists j: nat, x: nat :: OldestIsDue(c, rs, i, j, x)
  }

  lemma AlwaysTimely(c: Config, rs: seq<Reading>)
    requires c.disposable > 0
    ensures Timely(c, rs)
  {
    forall i: nat, e | i < |rs| && Performs(c, rs, i, e) && !e.Disposable? ensures Waited(c, rs, i, e) {
      JobsWait(c, rs, i, e);
    }
    forall i: nat | i < |rs| && !Run(c, rs[..i]).failed ensures InsertsOrWorks(c, rs, i) {
      InsertsExactly(c, rs, i);
    }
  }
}
