/**
 Selection of hot key ranges in the benchmark.  Each range owns as many integers as its access
 weight; a uniform draw picks the range that owns it.  The floating-point distribution behind the
 weights is left out: the weights are given.
 */
module HotRange {
  import opened Arith

  datatype Range = Range(start: nat, access: nat)

  function Sum(ws: seq<nat>): nat {
    if ws == [] then 0 else Sum(ws[..|ws| - 1]) + ws[|ws| - 1]
  }

  function Accesses(rs: seq<Range>): (ws: seq<nat>)
    ensures |ws| == |rs| && forall i :: 0 <= i < |rs| ==> ws[i] == rs[i].access
  {
    seq(|rs|, i requires 0 <= i < |rs| => rs[i].access)
  }

  /** The integers owned by all ranges. */
  function Total(rs: seq<Range>): nat {
    Sum(Accesses(rs))
  }

  /** The starts are the prefix sums of the weights, so the ranges tile [0, Total). */
  ghost predicate Tiled(rs: seq<Range>) {
    forall i :: 0 <= i < |rs| ==> rs[i].start == Sum(Accesses(rs)[..i])
  }

  predicate Owns(r: Range, x: nat) {
    r.start <= x < r.start + r.access
  }

  // ---------------------------------------------------------------- sums

  lemma SumStep(ws: seq<nat>, i: nat)
    requires i < |ws|
    ensures Sum(ws[..i + 1]) == Sum(ws[..i]) + ws[i]
  {
    assert ws[..i + 1][..i] == ws[..i];
  }

  lemma {:induction false} SumMonotone(ws: seq<nat>, i: nat, j: nat)
    requires i <= j <= |ws|
    ensures Sum(ws[..i]) <= Sum(ws[..j])
  {
    if i == j {
    } else {
      SumMonotone(ws, i, j - 1);
      SumStep(ws, j - 1);
    }
  }

  lemma {:induction false} SumSet(ws: seq<nat>, i: nat, v: nat)
    requires i < |ws|
    ensures Sum(ws[i := v]) == Sum(ws) - ws[i] + v
  {
    var n := |ws| - 1;
    if i == n {
      assert ws[i := v][..n] == ws[..n];
    } else {
      SumSet(ws[..n], i, v);
      assert ws[i := v][..n] == ws[..n][i := v];
    }
  }

  // ---------------------------------------------------------------- the shuffle

  /** `r` is `s` with the elements at `i` and `j` in each other's place. */
  ghost predicate Swapped<T>(s: seq<T>, r: seq<T>, i: nat, j: nat) {
    && |r| == |s| && i < |s| && j < |s|
    && r[i] == s[j] && r[j] == s[i]
    && forall k :: 0 <= k < |s| && k != i && k != j ==> r[k] == s[k]
  }

  function Swap<T>(s: seq<T>, i: nat, j: nat): (r: seq<T>)
    requires i < |s| && j < |s|
    ensures |r| == |s| && r[i] == s[j] && r[j] == s[i]
    ensures forall k :: 0 <= k < |s| && k != i && k != j ==> r[k] == s[k]
  {
    s[i := s[j]][j := s[i]]
  }

  /** From each of `n` lists of weights to the next, place `i` changes with one drawn among the first `bound`. */
  ghost predicate Swaps(steps: seq<seq<nat>>, draws: seq<nat>, bound: nat, n: nat) {
    && |steps| == n + 1 && n <= bound && n <= |draws|
    && forall i :: 0 <= i < n ==>
         bound <= |steps[i]| && Swapped(steps[i], steps[i + 1], i, draws[i] % bound)
  }

  /** How many places the shuffle visits. */
  function Places(requested: int): nat {
    if requested <= 0 then 0 else requested
  }

  lemma SwapsNext(steps: seq<seq<nat>>, draws: seq<nat>, bound: nat, n: nat, next: seq<nat>)
    requires Swaps(steps, draws, bound, n) && n < bound <= |steps[n]| && n < |draws|
    requires Swapped(steps[n], next, n, draws[n] % bound)
    ensures Swaps(steps + [next], draws, bound, n + 1)
  {
  }

  lemma SwapKeepsSum(ws: seq<nat>, us: seq<nat>, i: nat, j: nat)
    requires Swapped(ws, us, i, j)
    ensures Sum(us) == Sum(ws)
  {
    SumSet(ws, i, ws[j]);
    SumSet(ws[i := ws[j]], j, ws[i]);
    assert us == ws[i := ws[j]][j := ws[i]];
  }

  lemma SwapPermutes(ws: seq<nat>, us: seq<nat>, i: nat, j: nat)
    requires Swapped(ws, us, i, j)
    ensures multiset(us) == multiset(ws)
  {
    assert us == ws[i := ws[j]][j := ws[i]];
  }

  // ---------------------------------------------------------------- ownership

  /** Every integer below the total is owned by one range and no other. */
  lemma OwnerIsUnique(rs: seq<Range>, i: nat, j: nat, x: nat)
    requires Tiled(rs) && i < |rs| && j < |rs| && Owns(rs[i], x) && Owns(rs[j], x)
    ensures i == j
  {
    var ws := Accesses(rs);
    if i < j {
      SumStep(ws, i);
      SumMonotone(ws, i + 1, j);
    } else if j < i {
      SumStep(ws, j);
      SumMonotone(ws, j + 1, i);
    }
  }

  lemma OwnedBelowTotal(rs: seq<Range>, i: nat, x: nat)
    requires Tiled(rs) && i < |rs| && Owns(rs[i], x)
    ensures x < Total(rs)
  {
    var ws := Accesses(rs);
    SumStep(ws, i);
    SumMonotone(ws, i + 1, |ws|);
    assert ws[..|ws|] == ws;
  }

  /** The draws that select range `i`. */
  ghost function DrawsOf(rs: seq<Range>, i: nat): set<nat>
    requires i < |rs|
  {
    set x: nat | x < Total(rs) && Owns(rs[i], x)
  }

  /** A range is selected by exactly as many draws as its weight. */
  lemma DrawsMatchWeight(rs: seq<Range>, i: nat)
    requires Tiled(rs) && i < |rs|
    ensures |DrawsOf(rs, i)| == rs[i].access
  {
    var lo, n := rs[i].start, rs[i].access;
    forall x: nat | Owns(rs[i], x) ensures x < Total(rs) {
      OwnedBelowTotal(rs, i, x);
    }
    assert DrawsOf(rs, i) == Interval(lo, n) by {
      forall x: nat ensures x in DrawsOf(rs, i) <==> x in Interval(lo, n) {
        assert x in DrawsOf(rs, i) <==> Owns(rs[i], x);
        assert x in Interval(lo, n) <==> Owns(Range(lo, n), x);
      }
    }
    IntervalSize(lo, n);
  }

  ghost function Interval(lo: nat, n: nat): set<nat> {
    set x: nat | x < lo + n && Owns(Range(lo, n), x)
  }

  lemma {:induction false} IntervalSize(lo: nat, n: nat)
    ensures |Interval(lo, n)| == n
  {
    if n == 0 {
      assert Interval(lo, n) == {};
    } else {
      IntervalSize(lo, n - 1);
      assert Interval(lo, n) == Interval(lo, n - 1) + {lo + n - 1};
    }
  }

  // ---------------------------------------------------------------- the class

  class TwoTermExpKeys {
    var randMax: nat
    var size: nat
    var num: nat
    var ranges: seq<Range>

    ghost predicate Ready(totalKeys: nat)
      reads this
    {
      && num > 0 && |ranges| == num
      && Tiled(ranges) && randMax == Total(ranges)
      && size * num <= totalKeys
    }

    constructor ()
      ensures randMax == 0 && size == 0 && num == 0 && ranges == []
    {
      randMax, size, num, ranges := 0, 0, 0, [];
    }

    /**
     `requested` is the keyrange_num flag, `weights` the access weight of each range in the order
     they are computed, `draws` the numbers the shuffle draws; `steps` lists the weights between swaps.
     */
    method Initiate(totalKeys: nat, requested: int, weights: seq<nat>, draws: seq<nat>)
      returns (ghost steps: seq<seq<nat>>)
      requires ranges == []
      requires |weights| == if requested <= 0 then 1 else requested
      requires |draws| >= requested
      modifies this
      ensures Ready(totalKeys) && num == |weights| && size == totalKeys / num
      ensures multiset(Accesses(ranges)) == multiset(weights) && randMax == Sum(weights)
      ensures Swaps(steps, draws, Places(requested), Places(requested))
      ensures steps[0] == weights && steps[|steps| - 1] == Accesses(ranges)
    {
      num := if requested <= 0 then 1 else requested;
      size := totalKeys / num;
      ProductFits(totalKeys, num);
      Fill(weights);
      steps := Shuffle(requested, draws);
      Restart();
    }

    method Fill(weights: seq<nat>)
      requires ranges == []
      modifies this`ranges, this`randMax
      ensures Accesses(ranges) == weights && randMax == Sum(weights)
    {
      var start, i := 0, 0;
      while i < |weights|
        invariant i <= |weights| && Accesses(ranges) == weights[..i] && start == Sum(weights[..i])
      {
        ranges := ranges + [Range(start, weights[i])];
        SumStep(weights, i);
        start := start + weights[i];
        i := i + 1;
      }
      randMax := start;
      assert weights[..|weights|] == weights;
    }

    /** Every range changes places with a randomly drawn one; `steps` lists the weights in between. */
    method Shuffle(requested: int, draws: seq<nat>) returns (ghost steps: seq<seq<nat>>)
      requires requested <= |ranges| && requested <= |draws|
      modifies this`ranges
      ensures multiset(Accesses(ranges)) == old(multiset(Accesses(ranges)))
      ensures |ranges| == old(|ranges|) && Total(ranges) == old(Total(ranges))
      ensures Swaps(steps, draws, Places(requested), Places(requested))
      ensures steps[0] == old(Accesses(ranges)) && steps[|steps| - 1] == Accesses(ranges)
    {
      ghost var ws := Accesses(ranges);
      steps := [ws];
      var i := 0;
      while i < requested
        invariant 0 <= i <= Places(requested) && |ranges| == |ws|
        invariant multiset(Accesses(ranges)) == multiset(ws) && Total(ranges) == Sum(ws)
        invariant Swaps(steps, draws, Places(requested), i) && steps[0] == ws && steps[i] == Accesses(ranges)
      {
        Exchange(i, draws[i] % requested);
        SwapsNext(steps, draws, requested, i, Accesses(ranges));
        steps := steps + [Accesses(ranges)];
        i := i + 1;
      }
    }

    method Exchange(i: nat, j: nat)
      requires i < |ranges| && j < |ranges|
      modifies this`ranges
      ensures Swapped(old(Accesses(ranges)), Accesses(ranges), i, j)
      ensures multiset(Accesses(ranges)) == old(multiset(Accesses(ranges)))
      ensures Total(ranges) == old(Total(ranges))
    {
      ghost var ws := Accesses(ranges);
      ranges := Swap(ranges, i, j);
      SwapKeepsSum(ws, Accesses(ranges), i, j);
      SwapPermutes(ws, Accesses(ranges), i, j);
    }

    /** The starts are computed again after the shuffle. */
    method Restart()
      modifies this`ranges
      ensures Accesses(ranges) == old(Accesses(ranges)) && Tiled(ranges)
    {
      var offset, i := 0, 0;
      ghost var ws := Accesses(ranges);
      while i < |ranges|
        invariant i <= |ranges| == |ws| && Accesses(ranges) == ws && offset == Sum(ws[..i])
        invariant forall j :: 0 <= j < i ==> ranges[j].start == Sum(ws[..j])
      {
        ranges := ranges[i := ranges[i].(start := offset)];
        SumStep(ws, i);
        offset := offset + ranges[i].access;
        i := i + 1;
      }
    }

    /** Binary search for the range that owns the draw. */
    method FindRange(x: nat) returns (r: nat)
      requires num > 0 && |ranges| == num && Tiled(ranges) && x < Total(ranges)
      ensures r < num && Owns(ranges[r], x)
    {
      ghost var ws := Accesses(ranges);
      var start, end := 0, |ranges|;
      assert ws[..|ws|] == ws;
      while start + 1 < end
        invariant start < end <= |ranges|
        invariant Sum(ws[..start]) <= x < Sum(ws[..end])
      {
        var mid := start + (end - start) / 2;
        if x < ranges[mid].start {
          end := mid;
        } else {
          start := mid;
        }
      }
      r := start;
      SumStep(ws, start);
    }

    /**
     A key of the selected range.  The offset inside it is a function of the same draw, given here
     as `seeded`: the draw itself, or the first number of a generator seeded from it.
     */
    method DistGetKeyID(iniRand: nat, seeded: nat, ghost totalKeys: nat) returns (id: nat)
      requires Ready(totalKeys) && randMax > 0 && size > 0
      ensures id < totalKeys && id % size == seeded % size
      ensures id / size < num && Owns(ranges[id / size], iniRand % randMax)
    {
      var r := FindRange(iniRand % randMax);
      id := size * r + seeded % size;
      KeyInRange(size, num, r, seeded % size);
    }
  }

  lemma ProductFits(total: nat, num: nat)
    requires num > 0
    ensures (total / num) * num <= total
  {
  }

  /** Key ids of different ranges do not meet. */
  lemma KeyInRange(size: nat, num: nat, r: nat, offset: nat)
    requires offset < size && r < num
    ensures (size * r + offset) / size == r && (size * r + offset) % size == offset
    ensures size * r + offset < size * num
  {
    Divides(size * r + offset, size, r, offset);
    MulStep(size, r, num);
  }
}
