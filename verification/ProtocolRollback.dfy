/**
 What a rollback does to the logical values, in any run: duplicate tracker entries, lost Puts and
 direct Puts that race with the rollback included.
 */
module ProtocolRollback {
  import opened Types
  import opened Protocol
  import opened ProtocolInvariants
  import opened ProtocolView
  import opened ProtocolSteps
  import opened ProtocolLinear
  import opened ProtocolRefinement

  /**
   In every run, every rollback step other than the erase of Dev-LSM keeps every value; the erase
   does so exactly when the keys still tracked have the same value on both sides.
   */
  lemma RollStepsKeepViewExactly(states: seq<State>, actions: seq<Action>, i: nat)
    requires IsRun(states, actions) && i < |actions| && actions[i].Roll?
    ensures (forall k: Key :: View(states[i + 1], k) == View(states[i], k))
       <==> (states[i].scan.pc.EraseDev? ==> MovedInv(states[i]))
  {
    InvAlways(states, actions, i);
    assert IsStep(states, actions, i);
    if states[i].scan.pc.EraseDev? {
      EraseKeepsView(states[i], actions[i].answer);
    } else {
      forall k: Key ensures View(states[i + 1], k) == View(states[i], k) {
        RollKeepsView(states[i], actions[i].answer, k);
      }
    }
  }

  /** The value of a key after the writes `ws`, when it was `x` before. */
  function Replay(x: Option<Value>, ws: seq<Write>, k: Key): Option<Value> {
    if ws == [] then x
    else
      var last := ws[|ws| - 1];
      if last.visible && last.k == k then Some(last.v) else Replay(x, ws[..|ws| - 1], k)
  }

  lemma ReplayAppend(x: Option<Value>, ws: seq<Write>, w: Write, k: Key)
    ensures Replay(x, ws + [w], k) == if w.visible && w.k == k then Some(w.v) else Replay(x, ws, k)
  {
    assert (ws + [w])[..|ws|] == ws;
  }

  lemma {:induction false} ReplayIsSpec(log: seq<Write>, ws: seq<Write>, k: Key)
    ensures Replay(Spec(log, k), ws, k) == Spec(log + ws, k)
  {
    if ws == [] {
      assert log + ws == log;
    } else {
      var n := |ws| - 1;
      ReplayIsSpec(log, ws[..n], k);
      LogAppend(log + ws[..n], ws[n], k, 0);
      assert log + ws == log + ws[..n] + [ws[n]];
    }
  }

  /** The rollback holds reset_mtx from state `i` up to state `j`. */
  predicate Holding(states: seq<State>, i: nat, j: nat)
    requires i <= j < |states|
  {
    forall m :: i <= m < j ==> RollHoldsReset(states[m].scan.pc)
  }

  /** When Dev-LSM is erased between `i` and `j`, the keys still tracked agree on both sides. */
  predicate ErasesAgree(states: seq<State>, actions: seq<Action>, i: nat, j: nat)
    requires i <= j <= |actions| < |states|
  {
    forall m :: i <= m < j && actions[m].Roll? && states[m].scan.pc.EraseDev? ==> MovedInv(states[m])
  }

  lemma RollbackStepIsFaithful(s: State, a: Action)
    requires Inv(s) && Enabled(s, a) && RollHoldsReset(s.scan.pc)
    requires a.Roll? && s.scan.pc.EraseDev? ==> MovedInv(s)
    ensures Faithful(s, a)
  {
    if a.Go? {
      NoHostInRollback(s);
      HostClientIs(s, a.tid);
    }
  }

  lemma WritesSince(log: seq<Write>, now: seq<Write>, ws: seq<Write>)
    requires |ws| <= 1 && log <= now
    ensures log <= now + ws
    ensures (now + ws)[|log|..] == if ws == [] then now[|log|..] else now[|log|..] + [ws[0]]
  {
    if ws == [] {
      assert now + ws == now;
    } else {
      assert ws == [ws[0]];
    }
  }

  /**
   While a rollback runs, the value of a key changes only by Puts that take effect meanwhile: it is
   the value at the start, overwritten by those.
   */
  lemma {:induction false} RollbackKeepsMeaning(states: seq<State>, actions: seq<Action>, i: nat, j: nat, k: Key)
    requires IsRun(states, actions) && i <= j < |states|
    requires Holding(states, i, j) && ErasesAgree(states, actions, i, j)
    ensures states[i].journal.log <= states[j].journal.log
    ensures View(states[j], k)
         == Replay(View(states[i], k), states[j].journal.log[|states[i].journal.log|..], k)
  {
    var log := states[i].journal.log;
    if i == j {
      assert log[|log|..] == [];
    } else {
      RollbackKeepsMeaning(states, actions, i, j - 1, k);
      var s, a := states[j - 1], actions[j - 1];
      InvAlways(states, actions, j - 1);
      assert IsStep(states, actions, j - 1);
      RollbackStepIsFaithful(s, a);
      StepView(s, a, k);
      StepCommits(s, a);
      OneWrite(s, a);
      WritesSince(log, s.journal.log, Writes(s, a));
      if Writes(s, a) != [] {
        ReplayAppend(View(states[i], k), s.journal.log[|log|..], Writes(s, a)[0], k);
      }
    }
  }

  lemma OneWrite(s: State, a: Action)
    ensures |Writes(s, a)| <= 1
  {
  }

  /**
   When the rollback has cleared both flags, tracker, Dev-LSM and host buffer are empty, and Main
   alone has for every key its value from before the rollback, overwritten by the Puts that took
   effect meanwhile.  If the stores agreed with the map of last writes before, Main does now.
   */
  lemma RollbackLeavesAllInMain(states: seq<State>, actions: seq<Action>, i: nat, j: nat, k: Key)
    requires IsRun(states, actions) && i <= j < |states| && states[j].scan.pc.UnlockRollback?
    requires Holding(states, i, j) && ErasesAgree(states, actions, i, j)
    ensures var st, log := states[j].store, states[i].journal.log;
            && st.tracker == multiset{} && st.dev == map[] && st.pending == []
            && !st.kache && !st.rollbackFlag
            && log <= states[j].journal.log
            && Lookup(st.main, k) == Replay(View(states[i], k), states[j].journal.log[|log|..], k)
            && (View(states[i], k) == Spec(log, k) ==> Lookup(st.main, k) == Spec(states[j].journal.log, k))
  {
    var log, now := states[i].journal.log, states[j].journal.log;
    RollbackKeepsMeaning(states, actions, i, j, k);
    InvAlways(states, actions, j);
    FlagClearMeansMain(states[j], k);
    ReplayIsSpec(log, now[|log|..], k);
    assert log + now[|log|..] == now;
  }

  /** Without stale writes every rollback has this property, also with duplicate tracker entries. */
  lemma NeverStaleErasesAgree(states: seq<State>, actions: seq<Action>, i: nat, j: nat)
    requires IsRun(states, actions) && NeverStale(states, actions) && i <= j < |states|
    ensures ErasesAgree(states, actions, i, j)
  {
    forall m | i <= m < j ensures MovedInv(states[m]) {
      MovedAlways(states, actions, m);
    }
  }
}
