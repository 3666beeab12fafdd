/**
 * RandomSource: uniform draws with entropy accounting, and sampling without
 * replacement (`RandomSource#random`, `RandomSource#pick_n_from_m`).
 *
 * Ruby's `rand()` is replaced by an oracle passed in explicitly: `oracle(i, max)`
 * is the i-th draw of the source, asked for a value in `[0, max)`, reduced into
 * that range. The float `@entropy` is replaced by the sequence of ranges the
 * draws were taken from: the entropy in bits is `log2(EntropySpace())`, the
 * logarithm of their product, so `@entropy += log2(max)` becomes "append `max`".
 */
module Randomness {
  import opened Base

  /** `(0...m).to_a`. */
  function Range(m: nat): (r: seq<nat>)
    ensures |r| == m && forall i :: 0 <= i < m ==> r[i] == i
  {
    if m == 0 then [] else Range(m - 1) + [m - 1]
  }

  /** The ranges of the draws `pick_n_from_m(n, m)` makes: the pool shrinks by one per draw. */
  function CountDown(m: nat, n: nat): (r: seq<nat>)
    requires n <= m
    ensures |r| == n
  {
    if n == 0 then [] else CountDown(m, n - 1) + [m - n + 1]
  }

  /** The pool left after deleting, one after another, at the drawn offsets. */
  function PoolAfter(pool: seq<nat>, offsets: seq<nat>): (r: seq<nat>)
    requires |offsets| <= |pool| && Within(CountDown(|pool|, |offsets|), offsets)
    ensures |r| == |pool| - |offsets|
    decreases |offsets|
  {
    if offsets == [] then pool
    else
      var init := offsets[..|offsets| - 1];
      Remove(PoolAfter(pool, init), offsets[|offsets| - 1])
  }

  /** The elements deleted from the pool, in the order they were drawn (`target` before sorting). */
  function Picks(pool: seq<nat>, offsets: seq<nat>): (r: seq<nat>)
    requires |offsets| <= |pool| && Within(CountDown(|pool|, |offsets|), offsets)
    ensures |r| == |offsets|
    decreases |offsets|
  {
    if offsets == [] then []
    else
      var init := offsets[..|offsets| - 1];
      Picks(pool, init) + [PoolAfter(pool, init)[offsets[|offsets| - 1]]]
  }

  predicate Ascending(s: seq<nat>)
  {
    forall i, j :: 0 <= i < j < |s| ==> s[i] <= s[j]
  }

  function InsertSorted(x: nat, s: seq<nat>): seq<nat>
  {
    if s == [] then [x]
    else if x <= s[0] then [x] + s
    else [s[0]] + InsertSorted(x, s[1..])
  }

  /** `Array#sort` on naturals. */
  function SortAsc(s: seq<nat>): seq<nat>
  {
    if s == [] then [] else InsertSorted(s[0], SortAsc(s[1..]))
  }

  /** The indices `pick_n_from_m(|offsets|, m)` returns when its draws were `offsets`. */
  function PickedIndices(m: nat, offsets: seq<nat>): seq<nat>
    requires |offsets| <= m && Within(CountDown(m, |offsets|), offsets)
  {
    SortAsc(Picks(Range(m), offsets))
  }

  lemma {:induction false} InsertSortedElements(x: nat, s: seq<nat>)
    ensures multiset(InsertSorted(x, s)) == multiset(s) + multiset{x}
    ensures forall y :: y in InsertSorted(x, s) <==> y == x || y in s
    decreases |s|
  {
    if s != [] && x > s[0] {
      InsertSortedElements(x, s[1..]);
      assert s == [s[0]] + s[1..];
    }
  }

  lemma {:induction false} InsertSortedAscending(x: nat, s: seq<nat>)
    requires Ascending(s)
    ensures Ascending(InsertSorted(x, s))
    decreases |s|
  {
    if s != [] && x > s[0] {
      InsertSortedAscending(x, s[1..]);
      InsertSortedElements(x, s[1..]);
      var t := InsertSorted(x, s[1..]);
      assert forall y :: y in t ==> s[0] <= y;
      assert forall j :: 0 <= j < |t| ==> t[j] in t;
    }
  }

  lemma {:induction false} InsertSortedStrict(x: nat, s: seq<nat>)
    requires StrictlyIncreasing(s) && x !in s
    ensures StrictlyIncreasing(InsertSorted(x, s))
    decreases |s|
  {
    if s != [] && x > s[0] {
      InsertSortedStrict(x, s[1..]);
      InsertSortedElements(x, s[1..]);
      var t := InsertSorted(x, s[1..]);
      assert forall y :: y in t ==> s[0] < y;
      assert forall j :: 0 <= j < |t| ==> t[j] in t;
    }
  }

  /** Sorting yields a permutation of its input. */
  lemma {:induction false} SortAscPermutes(s: seq<nat>)
    ensures multiset(SortAsc(s)) == multiset(s)
    decreases |s|
  {
    if s != [] {
      SortAscPermutes(s[1..]);
      InsertSortedElements(s[0], SortAsc(s[1..]));
      assert s == [s[0]] + s[1..];
    }
  }

  /** Sorting yields an ascending sequence. */
  lemma {:induction false} SortAscAscending(s: seq<nat>)
    ensures Ascending(SortAsc(s))
    decreases |s|
  {
    if s != [] {
      SortAscAscending(s[1..]);
      InsertSortedAscending(s[0], SortAsc(s[1..]));
    }
  }

  /** Sorting an input without repeats yields a strictly ascending sequence. */
  lemma {:induction false} SortAscStrict(s: seq<nat>)
    requires Distinct(s)
    ensures StrictlyIncreasing(SortAsc(s))
    decreases |s|
  {
    if s != [] {
      assert Distinct(s[1..]);
      SortAscStrict(s[1..]);
      SortAscPermutes(s[1..]);
      assert s[0] !in multiset(s[1..]);
      InsertSortedStrict(s[0], SortAsc(s[1..]));
    }
  }

  /**
   * Deleting at valid offsets from a pool without repeats picks elements of the pool,
   * never the same one twice, and the picks and the rest of the pool are disjoint.
   */
  lemma RemoveDistinct(p: seq<nat>, o: nat)
    requires Distinct(p) && o < |p|
    ensures Distinct(Remove(p, o))
    ensures forall x :: x in Remove(p, o) <==> x in p && x != p[o]
  {
    var r := Remove(p, o);
    forall x | x in p && x != p[o] ensures x in r {
      var k :| 0 <= k < |p| && p[k] == x;
      if k < o { assert r[k] == x; } else { assert r[k - 1] == x; }
    }
  }

  lemma {:induction false} PicksDistinct(pool: seq<nat>, offsets: seq<nat>)
    requires Distinct(pool)
    requires |offsets| <= |pool| && Within(CountDown(|pool|, |offsets|), offsets)
    ensures Distinct(Picks(pool, offsets)) && Distinct(PoolAfter(pool, offsets))
    ensures forall x :: x in Picks(pool, offsets) ==> x in pool && x !in PoolAfter(pool, offsets)
    ensures forall x :: x in PoolAfter(pool, offsets) ==> x in pool
    decreases |offsets|
  {
    if offsets != [] {
      var init := offsets[..|offsets| - 1];
      var o := offsets[|offsets| - 1];
      PicksDistinct(pool, init);
      var p := PoolAfter(pool, init);
      RemoveDistinct(p, o);
      var picked := Picks(pool, init);
      assert Picks(pool, offsets) == picked + [p[o]];
      assert p[o] in p;
      assert p[o] !in picked;
    }
  }

  /** The state of `pick_n_from_m` after the draws `offsets`: the pool left and the picks so far. */
  ghost predicate PickState(m: nat, offsets: seq<nat>, source: seq<nat>, target: seq<nat>)
  {
    && |offsets| <= m && Within(CountDown(m, |offsets|), offsets)
    && source == PoolAfter(Range(m), offsets)
    && target == Picks(Range(m), offsets)
  }

  /** One more draw of `pick_n_from_m`: the element at the new offset moves from the pool to the picks. */
  lemma PickStep(m: nat, offsets: seq<nat>, source: seq<nat>, target: seq<nat>, o: nat)
    requires PickState(m, offsets, source, target) && o < |source|
    ensures PickState(m, offsets + [o], Remove(source, o), target + [source[o]])
  {
    assert (offsets + [o])[..|offsets|] == offsets;
  }

  /** `PickState`, together with the draws recorded so far: one range and one value per draw. */
  ghost predicate PickProgress(m: nat, offsets: seq<nat>, source: seq<nat>, target: seq<nat>,
                               ranges0: seq<nat>, ranges: seq<nat>, drawn0: seq<nat>, drawn: seq<nat>)
  {
    && PickState(m, offsets, source, target)
    && ranges == ranges0 + CountDown(m, |offsets|)
    && drawn == drawn0 + offsets
  }

  /** A draw of `o` over the pool left, recorded after the earlier ones, keeps `PickProgress`. */
  lemma PickProgressStep(m: nat, offsets: seq<nat>, source: seq<nat>, target: seq<nat>,
                         ranges0: seq<nat>, ranges: seq<nat>, drawn0: seq<nat>, drawn: seq<nat>, o: nat)
    requires PickProgress(m, offsets, source, target, ranges0, ranges, drawn0, drawn)
    requires o < |source|
    ensures PickProgress(m, offsets + [o], Remove(source, o), target + [source[o]],
                         ranges0, ranges + [|source|], drawn0, drawn + [o])
  {
    PickStep(m, offsets, source, target, o);
    assert CountDown(m, |offsets| + 1) == CountDown(m, |offsets|) + [|source|];
    AppendAssoc(ranges0, CountDown(m, |offsets|), [|source|]);
    AppendAssoc(drawn0, offsets, [o]);
  }

  /** `pick_n_from_m(n, m)` returns n distinct indices below m, in ascending order. */
  lemma {:induction false} PickedIndicesSound(m: nat, offsets: seq<nat>)
    requires |offsets| <= m && Within(CountDown(m, |offsets|), offsets)
    ensures |PickedIndices(m, offsets)| == |offsets|
    ensures StrictlyIncreasing(PickedIndices(m, offsets))
    ensures forall i :: 0 <= i < |offsets| ==> PickedIndices(m, offsets)[i] < m
  {
    var picks := Picks(Range(m), offsets);
    PicksDistinct(Range(m), offsets);
    SortAscPermutes(picks);
    SortAscStrict(picks);
    var r := SortAsc(picks);
    assert |r| == |offsets| by {
      assert |multiset(r)| == |multiset(picks)|;
    }
    forall i | 0 <= i < |r| ensures r[i] < m {
      assert r[i] in multiset(picks);
      assert r[i] in Range(m);
    }
  }

  /** The number of ways to draw `n` ordered picks from `m`: m!/(m-n)!. */
  lemma {:induction false} CountDownProduct(m: nat, n: nat)
    requires n <= m
    ensures Product(CountDown(m, n)) * Fact(m - n) == Fact(m)
  {
    if n > 0 {
      CountDownProduct(m, n - 1);
      var prev := CountDown(m, n - 1);
      var k := m - n + 1;
      assert CountDown(m, n) == prev + [k];
      assert (prev + [k])[..|prev|] == prev;
      MulAssoc(Product(prev), k, Fact(m - n));
    }
  }

  /** The entropy a pick adds: the log2 of m!/(m-n)!. */
  lemma PickEntropy(before: seq<nat>, m: nat, n: nat)
    requires n <= m
    ensures Product(before + CountDown(m, n)) * Fact(m - n) == Product(before) * Fact(m)
  {
    ProductAppend(before, CountDown(m, n));
    CountDownProduct(m, n);
    MulAssoc(Product(before), Product(CountDown(m, n)), Fact(m - n));
  }

  lemma MulAssoc(a: nat, b: nat, c: nat)
    ensures (a * b) * c == a * (b * c)
  {
  }

  class RandomSource {
    /** `oracle(i, max)`: the i-th draw, asked for a value in `[0, max)`. */
    const oracle: (nat, nat) -> nat
    /** The range of every draw made so far: the entropy record. */
    var ranges: seq<nat>
    /** The value every draw returned. */
    ghost var drawn: seq<nat>

    ghost predicate Valid()
      reads this
    {
      Drawn(ranges, drawn)
    }

    /**
     * The number of equally likely outcomes consumed so far; the entropy is its log2,
     * and a space of 0, left by a draw over an empty range, is an entropy of -Infinity.
     */
    function EntropySpace(): (r: nat)
      reads this
      ensures ranges == [] ==> r == 1
      ensures r == 0 <==> exists i :: 0 <= i < |ranges| && ranges[i] == 0
    {
      ProductZero(ranges);
      Product(ranges)
    }

    constructor (oracle: (nat, nat) -> nat)
      ensures Valid() && this.oracle == oracle
      ensures ranges == [] && drawn == [] && EntropySpace() == 1
    {
      this.oracle := oracle;
      ranges := [];
      drawn := [];
    }

    /** `random(max)`: a value in `[0, max)`, or 0 when `max` is 0, charging log2(max) bits. */
    method Random(max: nat) returns (v: nat)
      requires Valid()
      modifies this
      ensures Valid() && (v < max || v == 0)
      ensures v == if max == 0 then 0 else oracle(|old(ranges)|, max) % max
      ensures ranges == old(ranges) + [max] && drawn == old(drawn) + [v]
      ensures EntropySpace() == old(EntropySpace()) * max
    {
      v := if max == 0 then 0 else oracle(|ranges|, max) % max;
      ranges := ranges + [max];
      drawn := drawn + [v];
      assert ranges[..|ranges| - 1] == old(ranges);
    }

    /**
     * The draws of `pick_n_from_m(n, m)`: n draws over the shrinking pool `0...m`,
     * each deleting the element at the drawn offset and keeping it as a pick.
     */
    method PickDraws(n: nat, m: nat) returns (target: seq<nat>, ghost offsets: seq<nat>)
      requires Valid() && n <= m
      modifies this
      ensures Valid() && drawn == old(drawn) + offsets
      ensures ranges == old(ranges) + CountDown(m, n)
      ensures |offsets| == n && Within(CountDown(m, n), offsets)
      ensures target == Picks(Range(m), offsets)
    {
      var source := Range(m);
      target := [];
      offsets := [];
      var i := 0;
      while i < n
        invariant 0 <= i <= n && |offsets| == i && Valid()
        invariant PickProgress(m, offsets, source, target, old(ranges), ranges, old(drawn), drawn)
      {
        ghost var ranges0, drawn0 := ranges, drawn;
        var offset := Random(|source|);
        PickProgressStep(m, offsets, source, target, old(ranges), ranges0, old(drawn), drawn0, offset);
        target := target + [source[offset]];
        source := Remove(source, offset);
        offsets := offsets + [offset];
        i := i + 1;
      }
    }

    /** `pick_n_from_m(n, m)`: the picks of `PickDraws`, returned sorted. */
    method PickNFromM(n: nat, m: nat) returns (r: seq<nat>, ghost offsets: seq<nat>)
      requires Valid() && n <= m
      modifies this
      ensures Valid() && drawn == old(drawn) + offsets
      ensures ranges == old(ranges) + CountDown(m, n)
      ensures |offsets| == n && Within(CountDown(m, n), offsets)
      ensures r == PickedIndices(m, offsets)
      ensures |r| == n && StrictlyIncreasing(r) && forall i :: 0 <= i < n ==> r[i] < m
      ensures EntropySpace() * Fact(m - n) == old(EntropySpace()) * Fact(m)
    {
      var target;
      target, offsets := PickDraws(n, m);
      r := SortAsc(target);
      PickedIndicesSound(m, offsets);
      PickEntropy(old(ranges), m, n);
    }
  }
}
