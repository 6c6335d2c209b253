/**
 The key tracker: a fixed number of bucket chains.  Insert never merges entries with equal keys,
 and removal fills the gap with the last entry of the bucket.  It refines a multiset of entries.
 */
module KeyTracker {

  datatype Entry<V> = Entry(key: nat, value: V)

  type Bucket<V> = seq<Entry<V>>

  // ---------------------------------------------------------------- sums of multisets

  lemma SumSwap<T>(a: multiset<T>, b: multiset<T>, c: multiset<T>, d: multiset<T>, z: multiset<T>)
    requires a + c == b + d
    ensures (a + z) + c == (b + z) + d
  {
    assert (a + z) + c == (a + c) + z;
    assert (b + z) + d == (b + d) + z;
  }

  lemma SumCancel<T>(a: multiset<T>, b: multiset<T>, c: multiset<T>, m: multiset<T>)
    requires a + (b + m) == c + b
    ensures a == c - m && a + m == c
  {
    forall x: T ensures a[x] + m[x] == c[x] {
      assert (a + (b + m))[x] == (c + b)[x];
    }
  }

  // ---------------------------------------------------------------- one bucket

  /** `r` is `b` without its last entry, which stands at `i` instead. */
  ghost predicate LastInPlace<V>(b: Bucket<V>, r: Bucket<V>, i: nat) {
    i < |b| == |r| + 1 && forall j :: 0 <= j < |r| ==> r[j] == if j == i then b[|r|] else b[j]
  }

  /** Removal of the entry at `i`: the last entry takes its place. */
  function SwapOut<V>(b: Bucket<V>, i: nat): (r: Bucket<V>)
    requires i < |b|
    ensures multiset(r) == multiset(b) - multiset{b[i]}
    ensures LastInPlace(b, r, i)
  {
    var last := |b| - 1;
    SwapOutDrops(b, i);
    if i == last then b[..last] else b[i := b[last]][..last]
  }

  lemma SwapOutDrops<V>(b: Bucket<V>, i: nat)
    requires i < |b|
    ensures multiset(if i == |b| - 1 then b[..|b| - 1] else b[i := b[|b| - 1]][..|b| - 1])
         == multiset(b) - multiset{b[i]}
  {
    if i == |b| - 1 {
      WithoutLast(b);
    } else {
      MovedDrops(b, b[i := b[|b| - 1]], i);
    }
  }

  lemma MovedDrops<T>(b: seq<T>, u: seq<T>, i: nat)
    requires i < |b| - 1 && u == b[i := b[|b| - 1]]
    ensures multiset(u[..|u| - 1]) == multiset(b) - multiset{b[i]}
  {
    var last := b[|b| - 1];
    assert multiset(u) == multiset(b) - multiset{b[i]} + multiset{last};
    WithoutLast(u);
    Cancel(multiset(u[..|u| - 1]), multiset(b) - multiset{b[i]}, last);
  }

  lemma Cancel<T>(a: multiset<T>, b: multiset<T>, x: T)
    requires a + multiset{x} == b + multiset{x}
    ensures a == b
  {
    forall y: T ensures a[y] == b[y] {
      assert (a + multiset{x})[y] == (b + multiset{x})[y];
    }
  }

  lemma WithoutLast<T>(u: seq<T>)
    requires u != []
    ensures multiset(u) == multiset(u[..|u| - 1]) + multiset{u[|u| - 1]}
  {
    assert u == u[..|u| - 1] + [u[|u| - 1]];
  }

  /** The search that Contains, Delete and Get share. */
  method FindIf<V>(b: Bucket<V>, key: nat) returns (i: nat)
    ensures i <= |b|
    ensures i < |b| ==> b[i].key == key
    ensures forall j :: 0 <= j < i ==> b[j].key != key
  {
    i := 0;
    while i < |b| && b[i].key != key
      invariant i <= |b|
      invariant forall j :: 0 <= j < i ==> b[j].key != key
    {
      i := i + 1;
    }
  }

  /** The entry at `i` is the first of its key. */
  ghost predicate IsFirst<V>(b: Bucket<V>, key: nat, i: nat) {
    i < |b| && b[i].key == key && forall j :: 0 <= j < i ==> b[j].key != key
  }

  /** `r` is `b` without the first entry of the key, if there is one; the last entry has taken its place. */
  ghost predicate FirstRemoved<V>(b: Bucket<V>, r: Bucket<V>, key: nat) {
    if exists i: nat :: IsFirst(b, key, i) then exists i: nat :: IsFirst(b, key, i) && LastInPlace(b, r, i)
    else r == b
  }

  // ---------------------------------------------------------------- all buckets

  ghost function All<V>(t: seq<Bucket<V>>): multiset<Entry<V>> {
    if t == [] then multiset{} else All(t[..|t| - 1]) + multiset(t[|t| - 1])
  }

  lemma {:induction false} AllHolds<V>(t: seq<Bucket<V>>, i: nat)
    requires i < |t|
    ensures multiset(t[i]) <= All(t)
  {
    if i == |t| - 1 {
    } else {
      AllHolds(t[..|t| - 1], i);
    }
  }

  /** Replacing one bucket replaces its entries and no others. */
  lemma {:induction false} AllUpdate<V>(t: seq<Bucket<V>>, i: nat, b: Bucket<V>)
    requires i < |t|
    ensures All(t[i := b]) + multiset(t[i]) == All(t) + multiset(b)
  {
    var n := |t| - 1;
    if i == n {
      assert t[i := b][..n] == t[..n];
    } else {
      assert t[i := b][..n] == t[..n][i := b];
      AllUpdate(t[..n], i, b);
      SumSwap(All(t[..n][i := b]), All(t[..n]), multiset(t[i]), multiset(b), multiset(t[n]));
    }
  }

  lemma SwapOutRemovesOne<V>(t: seq<Bucket<V>>, n: nat, i: nat)
    requires n < |t| && i < |t[n]|
    ensures var e, r := t[n][i], t[n := SwapOut(t[n], i)];
            e in All(t) && All(r) == All(t) - multiset{e} && (Placed(t) ==> Placed(r))
  {
    var e, b := t[n][i], SwapOut(t[n], i);
    AllUpdate(t, n, b);
    assert e in multiset(t[n]);
    assert multiset(t[n]) == multiset(b) + multiset{e};
    SumCancel(All(t[n := b]), multiset(b), All(t), multiset{e});
    assert e in All(t[n := b]) + multiset{e};
    SwapOutKeepsPlaces(t, n, i);
  }

  lemma SwapOutKeepsPlaces<V>(t: seq<Bucket<V>>, n: nat, i: nat)
    requires n < |t| && i < |t[n]|
    ensures Placed(t) ==> Placed(t[n := SwapOut(t[n], i)])
  {
  }

  lemma InsertAddsOne<V>(t: seq<Bucket<V>>, n: nat, e: Entry<V>)
    requires n < |t|
    ensures All(t[n := t[n] + [e]]) == All(t) + multiset{e}
  {
    AllUpdate(t, n, t[n] + [e]);
    assert multiset(t[n] + [e]) == multiset(t[n]) + multiset{e};
    var a, b := All(t[n := t[n] + [e]]), multiset(t[n]);
    assert a + b == All(t) + (b + multiset{e});
    SumCancel(All(t), b, a, multiset{e});
  }

  lemma {:induction false} AllFrom<V>(t: seq<Bucket<V>>, e: Entry<V>)
    requires e in All(t)
    ensures exists i :: 0 <= i < |t| && e in t[i]
  {
    if e in t[|t| - 1] {
    } else {
      AllFrom(t[..|t| - 1], e);
      var i :| 0 <= i < |t| - 1 && e in t[..|t| - 1][i];
      assert e in t[i];
    }
  }

  lemma {:induction false} AllEmpty<V>(t: seq<Bucket<V>>)
    requires forall i :: 0 <= i < |t| ==> t[i] == []
    ensures All(t) == multiset{}
  {
    if t == [] {
    } else {
      AllEmpty(t[..|t| - 1]);
    }
  }

  /** `u` is `t` without the first entry of the key in its bucket, if there is one. */
  ghost predicate FirstDropped<V>(t: seq<Bucket<V>>, u: seq<Bucket<V>>, key: nat) {
    && |u| == |t| > 0 && u == t[key % |t| := u[key % |t|]]
    && FirstRemoved(t[key % |t|], u[key % |t|], key)
  }

  lemma DropsFirst<V>(t: seq<Bucket<V>>, key: nat, i: nat)
    requires t != [] && i <= |t[key % |t|]|
    requires i < |t[key % |t|]| ==> t[key % |t|][i].key == key
    requires forall j :: 0 <= j < i ==> t[key % |t|][j].key != key
    ensures var n := key % |t|;
            FirstDropped(t, if i < |t[n]| then t[n := SwapOut(t[n], i)] else t, key)
  {
    var b := t[key % |t|];
    if i < |b| {
      assert IsFirst(b, key, i);
      assert FirstRemoved(b, SwapOut(b, i), key);
    } else {
      assert FirstRemoved(b, b, key);
      assert t == t[key % |t| := b];
    }
  }

  /** Every entry sits in the bucket its key selects. */
  ghost predicate Placed<V>(t: seq<Bucket<V>>) {
    forall i, j :: 0 <= i < |t| && 0 <= j < |t[i]| ==> t[i][j].key % |t| == i
  }

  ghost predicate HasKey<V>(m: multiset<Entry<V>>, key: nat) {
    exists e :: e in m && e.key == key
  }

  /** `r` is `m` without one entry of the key, or `m` itself when there is none. */
  ghost predicate DropsOne<V>(m: multiset<Entry<V>>, r: multiset<Entry<V>>, key: nat) {
    if HasKey(m, key) then exists e :: e in m && e.key == key && r == m - multiset{e} else r == m
  }

  /** A key is stored exactly when its own bucket has it. */
  lemma KeyIsInItsBucket<V>(t: seq<Bucket<V>>, key: nat)
    requires t != [] && Placed(t)
    ensures HasKey(All(t), key) <==> exists j :: 0 <= j < |t[key % |t|]| && t[key % |t|][j].key == key
  {
    var b := t[key % |t|];
    if HasKey(All(t), key) {
      var e :| e in All(t) && e.key == key;
      AllFrom(t, e);
      var i :| 0 <= i < |t| && e in t[i];
      var j :| 0 <= j < |t[i]| && t[i][j] == e;
      assert t[i][j].key % |t| == i;
    }
    if j :| 0 <= j < |b| && b[j].key == key {
      AllHolds(t, key % |t|);
      assert b[j] in multiset(b);
      assert b[j] in All(t);
    }
  }

  // ---------------------------------------------------------------- Pop

  /** The first bucket that is not empty. */
  ghost function FirstFull<V>(t: seq<Bucket<V>>): (i: nat)
    requires All(t) != multiset{}
    ensures i < |t| && t[i] != [] && forall j :: 0 <= j < i ==> t[j] == []
  {
    var e :| e in All(t);
    AllFrom(t, e);
    var n :| 0 <= n < |t| && e in t[n];
    FirstFullFrom(t, 0, n)
  }

  ghost function FirstFullFrom<V>(t: seq<Bucket<V>>, from: nat, n: nat): (i: nat)
    requires from <= n < |t| && t[n] != [] && forall j :: 0 <= j < from ==> t[j] == []
    ensures i < |t| && t[i] != [] && forall j :: 0 <= j < i ==> t[j] == []
    decreases n - from
  {
    if t[from] != [] then from else FirstFullFrom(t, from + 1, n)
  }

  ghost function Popped<V>(t: seq<Bucket<V>>): seq<Bucket<V>>
    requires All(t) != multiset{}
  {
    var i := FirstFull(t);
    t[i := SwapOut(t[i], 0)]
  }

  lemma PopRemovesOne<V>(t: seq<Bucket<V>>)
    requires All(t) != multiset{}
    ensures var e := t[FirstFull(t)][0];
            e in All(t) && All(Popped(t)) == All(t) - multiset{e}
    ensures Placed(t) ==> Placed(Popped(t))
  {
    SwapOutRemovesOne(t, FirstFull(t), 0);
  }

  /** The values that successive Pops return until nothing is left. */
  ghost function PopAll<V>(t: seq<Bucket<V>>): (r: seq<Entry<V>>)
    decreases |All(t)|
  {
    if All(t) == multiset{} then []
    else
      PopRemovesOne(t);
      [t[FirstFull(t)][0]] + PopAll(Popped(t))
  }

  /** As many Pops as there are entries return every entry once. */
  lemma {:induction false} PopAllReturnsEverything<V>(t: seq<Bucket<V>>)
    ensures multiset(PopAll(t)) == All(t) && |PopAll(t)| == |All(t)|
    decreases |All(t)|
  {
    if All(t) == multiset{} {
    } else {
      PopRemovesOne(t);
      PopAllReturnsEverything(Popped(t));
    }
  }

  // ---------------------------------------------------------------- the class

  class HashMap<V> {
    const size: nat
    var table: array<Bucket<V>>
    var count: int

    ghost predicate Valid()
      reads this, table
    {
      && size > 0 && table.Length == size
      && Placed(table[..])
      && count == |All(table[..])|
    }

    ghost function Entries(): multiset<Entry<V>>
      reads this, table
    {
      All(table[..])
    }

    constructor (size: nat)
      requires size > 0
      ensures Valid() && fresh(table) && this.size == size && Entries() == multiset{}
    {
      this.size := size;
      table := new Bucket<V>[size](_ => []);
      count := 0;
      new;
      AllEmpty(table[..]);
    }

    method Clear()
      requires Valid()
      modifies this`count, table
      ensures Valid() && Entries() == multiset{} && count == 0
    {
      count := 0;
      var i := 0;
      while i < size
        invariant i <= size && count == 0
        invariant forall j :: 0 <= j < i ==> table[j] == []
      {
        table[i] := [];
        i := i + 1;
      }
      AllEmpty(table[..]);
    }

    method Contains(key: nat) returns (found: bool)
      requires Valid()
      ensures found <==> HasKey(Entries(), key)
    {
      var b := table[key % size];
      var i := FindIf(b, key);
      found := i < |b|;
      KeyIsInItsBucket(table[..], key);
    }

    method Insert(key: nat, value: V)
      requires Valid()
      modifies this`count, table
      ensures Valid() && Entries() == old(Entries()) + multiset{Entry(key, value)}
      ensures count == old(count) + 1
      ensures table[key % size] == old(table[key % size]) + [Entry(key, value)]
      ensures forall n :: 0 <= n < size && n != key % size ==> table[n] == old(table[n])
    {
      var i := key % size;
      InsertAddsOne(table[..], i, Entry(key, value));
      table[i] := table[i] + [Entry(key, value)];
      assert table[..] == old(table[..])[i := old(table[i]) + [Entry(key, value)]];
      count := count + 1;
    }

    /** Removes exactly one entry of the key, if there is one: the first in its bucket. */
    method Delete(key: nat)
      requires Valid()
      modifies this`count, table
      ensures Valid()
      ensures DropsOne(old(Entries()), Entries(), key)
      ensures count == if old(HasKey(Entries(), key)) then old(count) - 1 else old(count)
      ensures FirstDropped(old(table[..]), table[..], key)
    {
      ghost var t := table[..];
      var n := key % size;
      var b := table[n];
      var i := FindIf(b, key);
      KeyIsInItsBucket(t, key);
      if i < |b| {
        assert IsFirst(b, key, i);
        SwapOutRemovesOne(t, n, i);
        table[n] := SwapOut(b, i);
        assert table[..] == t[n := SwapOut(b, i)];
        count := count - 1;
      }
      DropsFirst(t, key, i);
    }

    /** Removes one entry of the first bucket that has any. */
    method Pop() returns (value: V)
      requires Valid() && count > 0
      modifies this`count, table
      ensures Valid() && count == old(count) - 1
      ensures table[..] == Popped(old(table[..]))
      ensures value == old(table[..])[FirstFull(old(table[..]))][0].value
    {
      var i := 0;
      ghost var first := FirstFull(table[..]);
      while table[i] == []
        invariant i <= first
        invariant forall j :: 0 <= j < i ==> table[j] == []
        decreases first - i
      {
        i := i + 1;
      }
      assert i == first;
      value := table[i][0].value;
      PopRemovesOne(table[..]);
      table[i] := SwapOut(table[i], 0);
      assert table[..] == Popped(old(table[..]));
      count := count - 1;
    }

    /** The value of the first entry of the key; the key must be there. */
    method Get(key: nat) returns (value: V)
      requires Valid() && HasKey(Entries(), key)
      ensures Entry(key, value) in Entries()
      ensures var b := table[key % size]; exists i: nat :: IsFirst(b, key, i) && b[i].value == value
    {
      var b := table[key % size];
      var i := FindIf(b, key);
      KeyIsInItsBucket(table[..], key);
      value := b[i].value;
      AllHolds(table[..], key % size);
      assert b[i] in multiset(b);
      assert IsFirst(b, key, i) && Entry(key, value) == b[i];
    }
  }
}
