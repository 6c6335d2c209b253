/** What one step of a client does to the logical value of every key, and to the log. */
module ProtocolSteps {
  import opened Types
  import opened Protocol
  import opened ProtocolInvariants
  import opened ProtocolView

  /** The Put, if any, that takes effect in a step. */
  function Writes(s: State, a: Action): seq<Write> {
    if !a.Go? then []
    else
      match Pc(s, a.tid)
      case PutMain(op, k, v) => [MainWrite(s, op, k, v)]
      case PutHost(op, k, v, _) => [Write(op, k, v, s.now, true)]
      case RedDev(op, k, v) => if k in s.store.tracker then [Write(op, k, v, s.now, true)] else []
      case RedTrack(op, k, v) => if k in s.store.tracker then [] else [Write(op, k, v, s.now, true)]
      case _ => []
  }

  lemma StepCommits(s: State, a: Action)
    requires Enabled(s, a)
    ensures Step(s, a).journal.log == s.journal.log + Writes(s, a)
    ensures Step(s, a).now == s.now + 1
  {
  }

  /** The step writes `k` in the map of last writes. */
  predicate Sets(s: State, a: Action, k: Key) {
    var ws := Writes(s, a);
    ws != [] && ws[0].visible && ws[0].k == k
  }

  lemma SpecAfterStep(s: State, a: Action, k: Key)
    requires Enabled(s, a)
    ensures Spec(Step(s, a).journal.log, k)
         == if Sets(s, a, k) then Some(Writes(s, a)[0].v) else Spec(s.journal.log, k)
    ensures Sets(s, a, k) ==> Stamp(Step(s, a).journal.log, k) == s.now
  {
    StepCommits(s, a);
    var ws := Writes(s, a);
    if ws == [] {
      assert s.journal.log + ws == s.journal.log;
    } else {
      LogAppend(s.journal.log, ws[0], k, 0);
    }
  }

  lemma HostClientIs(s: State, t: Tid)
    requires LockInv(s)
    ensures HoldsExcl(Pc(s, t)) ==> HostClient(s) == Pc(s, t)
    ensures HoldsExcl(Pc(s, t)) ==> !RollHoldsExcl(s.scan.pc)
    ensures !HoldsExcl(Pc(s, t)) ==> s.locks.excl != ByClient(t)
  {
  }

  /** No key is half moved while a redirected Put is in its critical section. */
  lemma NoHalfMoveInRedirect(s: State, t: Tid, k: Key)
    requires LockInv(s) && HoldsReset(Pc(s, t)) && IsRedirect(Pc(s, t))
    ensures !HalfMoved(s, k) && !s.scan.pc.ClearTracker?
  {
  }

  predicate Touches(c: Client) {
    c.PutMain? || c.PutTracker? || c.PutHost? || c.RedDev? || c.RedTrack?
  }

  /** Steps that touch neither a store nor the tracker change no logical value. */
  lemma QuietClient(s: State, t: Tid, k: Key)
    requires LockInv(s) && Enabled(s, Go(t)) && !Touches(Pc(s, t))
    ensures var n := Step(s, Go(t));
            InDev(n, k) == InDev(s, k) && View(n, k) == View(s, k)
            && n.store.main == s.store.main && n.store.tracker == s.store.tracker
  {
    HostClientIs(s, t);
    StepMovesOneClient(s, t);
    ClientsLeaveDev(s, t);
    var n := Step(s, Go(t));
    var c := Pc(s, t);
    if IsHostPut(c) {
      match c case _ =>
    } else if IsRedirect(c) {
      match c case _ =>
    } else {
      match c case _ =>
    }
  }

  lemma PutMainView(s: State, t: Tid, k: Key)
    requires LockInv(s) && Pc(s, t).PutMain?
    ensures var n, c := Step(s, Go(t)), Pc(s, t);
            && InDev(n, k) == InDev(s, k)
            && View(n, k) == if c.k == k && !InDev(s, k) then Some(c.v) else View(s, k)
  {
  }

  /** Dropping the tracker entry leaves the key half moved, so its logical value stays. */
  lemma PutTrackerView(s: State, t: Tid, k: Key)
    requires LockInv(s) && Pc(s, t).PutTracker?
    ensures var n := Step(s, Go(t));
            InDev(n, k) == InDev(s, k) && View(n, k) == View(s, k)
  {
  }

  /** An unstalled Put shows unless its key is still tracked. */
  lemma PutHostView(s: State, t: Tid, k: Key)
    requires LockInv(s) && Pc(s, t).PutHost?
    ensures var n, c := Step(s, Go(t)), Pc(s, t);
            && (InDev(n, k) ==> InDev(s, k))
            && View(n, k) == if c.k != k then View(s, k)
                             else if k in s.store.tracker then Lookup(Dev(s.store), k)
                             else Some(c.v)
  {
  }

  lemma RedDevView(s: State, t: Tid, k: Key)
    requires LockInv(s) && KacheInv(s) && Pc(s, t).RedDev?
    ensures var n, c := Step(s, Go(t)), Pc(s, t);
            && InDev(n, k) == InDev(s, k)
            && View(n, k) == if c.k == k && k in s.store.tracker then Some(c.v) else View(s, k)
  {
    NoHalfMoveInRedirect(s, t, k);
    HostClientIs(s, t);
    var c := Pc(s, t);
    BufferKeepsOrder(s.store, Record(c.k, c.v));
  }

  lemma RedTrackView(s: State, t: Tid, k: Key)
    requires LockInv(s) && FlagInv(s) && Pc(s, t).RedTrack?
    ensures var n, c := Step(s, Go(t)), Pc(s, t);
            && (InDev(n, k) ==> InDev(s, k) || c.k == k)
            && View(n, k) == if c.k == k then Some(c.v) else View(s, k)
  {
  }
}
