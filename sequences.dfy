/** The loop shapes the extraction code is built from, over plain sequences:
    "try each in order and stop at the first success" (`FirstSome`), "keep the
    successes" (`Somes`) and "append every pattern's results" (`Flatten`). */
module Sequences {
  import opened Wrappers
  import opened Grouping

  /** Position of the first `Some`, or `|xs|` when every entry is `None`. */
  function FirstSomeIndex<T>(xs: seq<Option<T>>): (i: nat)
    ensures i <= |xs|
    ensures i < |xs| ==> xs[i].Some?
    ensures forall j :: 0 <= j < i ==> xs[j].None?
  {
    if xs == [] then 0 else if xs[0].Some? then 0 else 1 + FirstSomeIndex(xs[1..])
  }

  /** The first `Some` entry, or `None` when there is none. */
  function FirstSome<T>(xs: seq<Option<T>>): (r: Option<T>)
  {
    var i := FirstSomeIndex(xs);
    if i < |xs| then xs[i] else None
  }

  /** `FirstSome` is the entry at the first success, and `None` exactly when
      nothing succeeds. */
  lemma FirstSomeIsFirst<T>(xs: seq<Option<T>>, i: nat)
    requires i < |xs| && xs[i].Some?
    requires forall j :: 0 <= j < i ==> xs[j].None?
    ensures FirstSome(xs) == xs[i]
  {
    var k := FirstSomeIndex(xs);
    assert !(k < i) && !(i < k);
  }

  lemma FirstSomeNone<T>(xs: seq<Option<T>>)
    ensures FirstSome(xs).None? <==> forall j :: 0 <= j < |xs| ==> xs[j].None?
  {
  }

  /** The values of the `Some` entries, in order. */
  function Somes<T>(xs: seq<Option<T>>): (r: seq<T>)
    ensures |r| <= |xs|
  {
    if xs == [] then []
    else
      var n := |xs| - 1;
      Somes(xs[..n]) + (if xs[n].Some? then [xs[n].value] else [])
  }

  /** Every kept value comes from a `Some` entry. */
  lemma {:induction false} SomesFrom<T>(xs: seq<Option<T>>, x: T)
    requires x in Somes(xs)
    ensures Some(x) in xs
  {
    var n := |xs| - 1;
    if x in Somes(xs[..n]) {
      SomesFrom(xs[..n], x);
      assert Some(x) in xs[..n];
    } else {
      assert xs[n] == Some(x);
    }
  }

  /** All sequences of `xss` one after the other. */
  function Flatten<T>(xss: seq<seq<T>>): seq<T>
  {
    if xss == [] then [] else Flatten(xss[..|xss| - 1]) + xss[|xss| - 1]
  }

  /** Every element of the result comes from one of the sequences. */
  lemma {:induction false} FlattenFrom<T>(xss: seq<seq<T>>, x: T)
    requires x in Flatten(xss)
    ensures exists i :: 0 <= i < |xss| && x in xss[i]
  {
    var n := |xss| - 1;
    if x !in xss[n] {
      FlattenFrom(xss[..n], x);
      var i :| 0 <= i < n && x in xss[..n][i];
      assert xss[..n][i] == xss[i];
    }
  }

  /** Each sequence's occurrences of `x` are all counted in the result. */
  lemma {:induction false} CountFlattenOne<T>(xss: seq<seq<T>>, i: nat, x: T)
    requires i < |xss|
    ensures Count(Flatten(xss), x) >= Count(xss[i], x)
  {
    var n := |xss| - 1;
    CountAppend(Flatten(xss[..n]), xss[n], x);
    if i < n {
      assert xss[..n][i] == xss[i];
      CountFlattenOne(xss[..n], i, x);
    }
  }

  /** The occurrences of `x` in two different sequences are counted
      separately: a value found by two patterns is counted twice. */
  lemma {:induction false} CountFlattenTwo<T>(xss: seq<seq<T>>, i: nat, j: nat, x: T)
    requires i < j < |xss|
    ensures Count(Flatten(xss), x) >= Count(xss[i], x) + Count(xss[j], x)
  {
    var n := |xss| - 1;
    CountAppend(Flatten(xss[..n]), xss[n], x);
    assert xss[..n][i] == xss[i];
    if j < n {
      assert xss[..n][j] == xss[j];
      CountFlattenTwo(xss[..n], i, j, x);
    } else {
      CountFlattenOne(xss[..n], i, x);
    }
  }
}
