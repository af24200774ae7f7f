/** The LINQ grouping that both the price selection and the click statistics
    use: `GroupBy` enumerates its groups in the order in which their keys first
    appear, `Count()` gives a group's size, and `OrderByDescending(g =>
    g.Count()).First()` (a stable sort) picks the first of the largest groups. */
module Grouping {

  /** Number of occurrences of `k` in `xs`. */
  function Count<K(==)>(xs: seq<K>, k: K): (n: nat)
    ensures n <= |xs|
  {
    if xs == [] then 0
    else Count(xs[..|xs| - 1], k) + (if xs[|xs| - 1] == k then 1 else 0)
  }

  /** A value occurs at least once exactly when it is in the sequence. */
  lemma {:induction false} CountPositive<K>(xs: seq<K>, k: K)
    ensures Count(xs, k) > 0 <==> k in xs
  {
    if xs != [] {
      var n := |xs| - 1;
      CountPositive(xs[..n], k);
      assert xs == xs[..n] + [xs[n]];
    }
  }

  /** Counting distributes over concatenation. */
  lemma {:induction false} CountAppend<K>(a: seq<K>, b: seq<K>, k: K)
    ensures Count(a + b, k) == Count(a, k) + Count(b, k)
  {
    if b != [] {
      assert (a + b)[..|a + b| - 1] == a + b[..|b| - 1];
      assert (a + b)[|a + b| - 1] == b[|b| - 1];
      CountAppend(a, b[..|b| - 1], k);
    } else {
      assert a + b == a;
    }
  }

  /** Position of the first occurrence of `k` in `xs`. */
  function FirstIndex<K(==)>(xs: seq<K>, k: K): (i: nat)
    requires k in xs
    ensures i < |xs| && xs[i] == k
    ensures forall j :: 0 <= j < i ==> xs[j] != k
  {
    var init := xs[..|xs| - 1];
    if k in init then FirstIndex(init, k) else |xs| - 1
  }

  predicate NoDuplicates<K(==)>(ks: seq<K>)
  {
    forall i, j :: 0 <= i < j < |ks| ==> ks[i] != ks[j]
  }

  /** The distinct values of `xs` in order of first appearance: the keys that
      `GroupBy` enumerates, and what `Distinct()` yields. */
  function Keys<K(==)>(xs: seq<K>): (ks: seq<K>)
    ensures forall k :: k in ks ==> k in xs
    ensures forall i :: 0 <= i < |xs| ==> xs[i] in ks
    ensures NoDuplicates(ks)
    ensures |ks| <= |xs|
  {
    if xs == [] then []
    else
      var ks := Keys(xs[..|xs| - 1]);
      if xs[|xs| - 1] in ks then ks else ks + [xs[|xs| - 1]]
  }

  /** `Distinct().Count()`: the number of keys is the number of distinct values. */
  lemma {:induction false} KeysCountDistinct<K>(xs: seq<K>)
    ensures |Keys(xs)| == |set x | x in xs|
  {
    if xs != [] {
      var init, x := xs[..|xs| - 1], xs[|xs| - 1];
      KeysCountDistinct(init);
      assert xs == init + [x];
      assert (set y | y in xs) == (set y | y in init) + {x};
    }
  }

  /** Keys come out in the order in which they first occur in the input. */
  lemma {:induction false} KeysInFirstAppearanceOrder<K>(xs: seq<K>, i: nat, j: nat)
    requires i < j < |Keys(xs)|
    ensures FirstIndex(xs, Keys(xs)[i]) < FirstIndex(xs, Keys(xs)[j])
  {
    var init := xs[..|xs| - 1];
    var ks := Keys(init);
    var a, b := Keys(xs)[i], Keys(xs)[j];
    assert a in ks;
    if j < |ks| {
      KeysInFirstAppearanceOrder(init, i, j);
      assert b in ks;
    }
  }

  /** A group of equal keys and its size. */
  datatype Group<K> = Group(key: K, size: nat)

  /** The groups of `xs` for the keys `ks`, in the order of `ks`. */
  function GroupsFor<K(==)>(xs: seq<K>, ks: seq<K>): seq<Group<K>>
  {
    seq(|ks|, i requires 0 <= i < |ks| => Group(ks[i], Count(xs, ks[i])))
  }

  /** `xs.GroupBy(x => x).Select(g => (g.Key, g.Count()))`. */
  function GroupCounts<K(==)>(xs: seq<K>): seq<Group<K>>
  {
    GroupsFor(xs, Keys(xs))
  }

  /** Sum of the group sizes. */
  function Total<K>(gs: seq<Group<K>>): nat
  {
    if gs == [] then 0 else Total(gs[..|gs| - 1]) + gs[|gs| - 1].size
  }

  lemma {:induction false} TotalAppendInput<K>(xs: seq<K>, x: K, ks: seq<K>)
    ensures Total(GroupsFor(xs + [x], ks)) == Total(GroupsFor(xs, ks)) + Count(ks, x)
  {
    if ks != [] {
      var n := |ks| - 1;
      assert GroupsFor(xs + [x], ks)[..n] == GroupsFor(xs + [x], ks[..n]);
      assert GroupsFor(xs, ks)[..n] == GroupsFor(xs, ks[..n]);
      TotalAppendInput(xs, x, ks[..n]);
      CountAppend(xs, [x], ks[n]);
      assert ks == ks[..n] + [ks[n]];
      CountAppend(ks[..n], [ks[n]], x);
    }
  }

  lemma CountUnique<K>(ks: seq<K>, k: K)
    requires NoDuplicates(ks) && k in ks
    ensures Count(ks, k) == 1
  {
    var init := ks[..|ks| - 1];
    if ks[|ks| - 1] == k {
      assert k !in init;
      CountPositive(init, k);
    } else {
      CountUnique(init, k);
    }
  }

  /** The group sizes add up to the length of the input: every element lands in
      exactly one group. */
  lemma {:induction false} GroupCountsTotal<K>(xs: seq<K>)
    ensures Total(GroupCounts(xs)) == |xs|
  {
    if xs != [] {
      var init, x := xs[..|xs| - 1], xs[|xs| - 1];
      assert xs == init + [x];
      var ks := Keys(init);
      GroupCountsTotal(init);
      TotalAppendInput(init, x, ks);
      if x in ks {
        CountUnique(ks, x);
      } else {
        CountPositive(ks, x);
        CountPositive(init, x);
        var n := |ks|;
        assert GroupsFor(xs, ks + [x])[..n] == GroupsFor(xs, ks);
        CountAppend(init, [x], x);
      }
    }
  }

  /** `OrderByDescending(g => g.Size).First()`: the position of the first group
      of the largest size (the sort is stable). */
  function LargestAt<K>(gs: seq<Group<K>>): (i: nat)
    requires |gs| > 0
    ensures i < |gs|
    ensures forall j :: 0 <= j < |gs| ==> gs[j].size <= gs[i].size
    ensures forall j :: 0 <= j < i ==> gs[j].size < gs[i].size
  {
    if |gs| == 1 then 0
    else
      var k := LargestAt(gs[1..]) + 1;
      if gs[0].size >= gs[k].size then 0 else k
  }

  /** `xs.GroupBy(x => x).OrderByDescending(g => g.Count()).First().Key`: the
      most frequent value, ties going to the value that occurs first. */
  function Mode<K(==)>(xs: seq<K>): (r: K)
    requires |xs| > 0
    ensures r in xs
    ensures forall y :: y in xs ==> Count(xs, y) <= Count(xs, r)
    ensures forall y :: y in xs && Count(xs, y) == Count(xs, r) ==> FirstIndex(xs, r) <= FirstIndex(xs, y)
  {
    var ks := Keys(xs);
    var gs := GroupsFor(xs, ks);
    var i := LargestAt(gs);
    assert forall y :: y in xs ==> Count(xs, y) <= Count(xs, ks[i]) && (Count(xs, y) == Count(xs, ks[i]) ==> FirstIndex(xs, ks[i]) <= FirstIndex(xs, y)) by {
      forall y | y in xs
        ensures Count(xs, y) <= Count(xs, ks[i])
        ensures Count(xs, y) == Count(xs, ks[i]) ==> FirstIndex(xs, ks[i]) <= FirstIndex(xs, y)
      {
        var j :| 0 <= j < |ks| && ks[j] == y;
        assert gs[j].size <= gs[i].size;
        if Count(xs, y) == Count(xs, ks[i]) && j != i {
          assert i < j;
          KeysInFirstAppearanceOrder(xs, i, j);
        }
      }
    }
    ks[i]
  }

  /** The mode is determined by its three properties. */
  lemma ModeIsUnique<K>(xs: seq<K>, m: K)
    requires |xs| > 0 && m in xs
    requires forall y :: y in xs ==> Count(xs, y) <= Count(xs, m)
    requires forall y :: y in xs && Count(xs, y) == Count(xs, m) ==> FirstIndex(xs, m) <= FirstIndex(xs, y)
    ensures m == Mode(xs)
  {
    var r := Mode(xs);
    assert FirstIndex(xs, m) <= FirstIndex(xs, r) && FirstIndex(xs, r) <= FirstIndex(xs, m);
  }
}
