/** The write loop of the benchmark with disposable and persistent keys. */
module ScheduleLoop {
  import opened Schedule
  import opened ScheduleDelay

  method WorkOnJob(c: Config, s: State, retire: nat) returns (s': State)
    requires c.disposable > 0 && s.queue != []
    ensures s' == Retire(c, JobStep(c, s), retire)
    ensures Aligned(c) && Kept(c, s) && s.cursor < c.Period() ==>
              Kept(c, s') && exists e :: Legal(s.trace, e) && s'.trace == s.trace + [e]
  {
    if Aligned(c) && Kept(c, s) && s.cursor < c.Period() {
      JobIsLegal(c, s, s.queue[0].time + 1, retire);
    }
    var ops, cursor, failed := s.trace, s.cursor, s.failed;
    if cursor < c.persistent {
      ops := ops + [Persistent(s.queue[0].start + c.disposable + cursor)];
      cursor := cursor + 1;
    } else if cursor < c.Period() {
      ops := ops + [Delete(s.queue[0].start + (cursor - c.persistent))];
      cursor := cursor + 1;
    } else {
      failed := true;
    }
    var queue := s.queue;
    if queue[0].time < retire && cursor == c.Period() {
      queue, cursor := queue[1..], 0;
    }
    s' := State(s.index, queue, cursor, failed, ops);
  }

  method InsertDisposable(c: Config, s: State, push: nat) returns (s': State)
    requires c.disposable > 0
    ensures s' == InsertStep(c, s, push)
    ensures Aligned(c) && Kept(c, s) ==> Kept(c, s') && Legal(s.trace, Disposable(s.index))
  {
    if Aligned(c) && Kept(c, s) {
      InsertIsLegal(c, s, push);
    }
    var index, queue := s.index + 1, s.queue;
    if index % c.disposable == 0 {
      index := index + c.persistent;
    }
    if index % c.Period() == 0 {
      PositiveMultiple(index, c.Period());
      queue := queue + [Job(push + c.delay, index - c.Period())];
    }
    s' := State(index, queue, s.cursor, s.failed, s.trace + [Disposable(s.index)]);
  }

  /** The write loop over the readings of its clock. */
  method DoWrites(c: Config, rs: seq<Reading>) returns (ops: seq<Event>, failed: bool)
    requires c.disposable > 0
    ensures ops == Run(c, rs).trace && failed == Run(c, rs).failed
    ensures Aligned(c) ==> Sound(ops)
    ensures failed <==> exists i: nat, j: nat :: Revisits(c, rs, i, j)
    ensures Timely(c, rs) && (!failed ==> |ops| == |rs|)
  {
    var s := START;
    for i := 0 to |rs|
      invariant s == Run(c, rs[..i]) && (!s.failed ==> |s.trace| == i)
    {
      RunLast(c, rs[..i], rs[i]);
      assert rs[..i + 1] == rs[..i] + [rs[i]];
      if s.queue != [] && s.queue[0].time < rs[i].due {
        s := WorkOnJob(c, s, rs[i].retire);
      } else {
        s := InsertDisposable(c, s, rs[i].push);
      }
    }
    assert rs[..|rs|] == rs;
    if Aligned(c) {
      RunKeeps(c, rs);
    }
    AssertionReachedExactly(c, rs);
    AlwaysTimely(c, rs);
    return s.trace, s.failed;
  }
}
