/** Small value types and sequence helpers shared by the whole model. */
module Base {

  datatype Option<T> = None | Some(value: T)

  /** The outcome of an operation the Ruby code can abort with `raise`. */
  datatype Result<T> = Ok(value: T) | Err(error: string)

  /** Every value lies strictly below the range it was drawn from. */
  predicate Within(ranges: seq<nat>, values: seq<nat>)
  {
    |values| == |ranges| && forall i :: 0 <= i < |values| ==> values[i] < ranges[i]
  }

  /**
   * The values `random(ranges[i])` can return, one per range: below the range,
   * and 0 for a range of 0, where `(0 * rand()).to_i` is 0.
   */
  predicate Drawn(ranges: seq<nat>, values: seq<nat>)
  {
    |values| == |ranges| && forall i :: 0 <= i < |values| ==> values[i] < ranges[i] || values[i] == 0
  }

  predicate Distinct<T(==)>(s: seq<T>)
  {
    forall i, j :: 0 <= i < j < |s| ==> s[i] != s[j]
  }

  predicate StrictlyIncreasing(s: seq<nat>)
  {
    forall i, j :: 0 <= i < j < |s| ==> s[i] < s[j]
  }

  /** Product of a sequence of naturals; the empty product is 1. */
  function Product(s: seq<nat>): nat
  {
    if s == [] then 1 else Product(s[..|s| - 1]) * s[|s| - 1]
  }

  function Pow(b: nat, e: nat): nat
  {
    if e == 0 then 1 else b * Pow(b, e - 1)
  }

  function Fact(n: nat): nat
  {
    if n == 0 then 1 else n * Fact(n - 1)
  }

  /** `Array#delete_at` on a valid index: the sequence without its `i`-th element. */
  function Remove<T>(s: seq<T>, i: nat): (r: seq<T>)
    requires i < |s|
    ensures |r| == |s| - 1
    ensures forall k :: 0 <= k < i ==> r[k] == s[k]
    ensures forall k :: i <= k < |r| ==> r[k] == s[k + 1]
  {
    s[..i] + s[i + 1..]
  }

  /** `Array#insert(i, x)` with `i <= |s|`. */
  function Insert<T>(s: seq<T>, i: nat, x: T): (r: seq<T>)
    requires i <= |s|
    ensures |r| == |s| + 1 && r[i] == x
    ensures forall k :: 0 <= k < i ==> r[k] == s[k]
    ensures forall k :: i < k < |r| ==> r[k] == s[k - 1]
  {
    s[..i] + [x] + s[i..]
  }

  /** `n` copies of `x`. */
  function Repeat<T>(x: T, n: nat): (r: seq<T>)
    ensures |r| == n && forall i :: 0 <= i < n ==> r[i] == x
  {
    if n == 0 then [] else Repeat(x, n - 1) + [x]
  }

  /** `String#*`: the string `s` written `n` times. */
  function Times(s: string, n: nat): (r: string)
    ensures |r| == n * |s|
  {
    if n == 0 then "" else s + Times(s, n - 1)
  }

  /** `Array#join('')` on strings, and the flattening of a sequence of sequences in general. */
  function Concat<T>(ss: seq<seq<T>>): seq<T>
  {
    if ss == [] then [] else ss[0] + Concat(ss[1..])
  }

  /** The total number of characters of a list of words. */
  function TotalLength(ws: seq<string>): nat
  {
    if ws == [] then 0 else |ws[0]| + TotalLength(ws[1..])
  }

  /**
   * `Array#join(sep)` on strings: every character of every word and one separator
   * between each two words, starting with the first word.
   */
  function Join(ws: seq<string>, sep: string): (r: string)
    ensures |r| == TotalLength(ws) + (if ws == [] then 0 else (|ws| - 1) * |sep|)
    ensures ws != [] ==> r[..|ws[0]|] == ws[0]
  {
    if |ws| == 0 then ""
    else if |ws| == 1 then ws[0]
    else ws[0] + sep + Join(ws[1..], sep)
  }

  /** The elements of `s` whose mask bit is set, in their original order. */
  function Keep<T>(s: seq<T>, mask: seq<bool>): seq<T>
    requires |mask| == |s|
  {
    if s == [] then []
    else (if mask[0] then [s[0]] else []) + Keep(s[1..], mask[1..])
  }

  function CountFalse(mask: seq<bool>): nat
  {
    if mask == [] then 0 else (if mask[0] then 0 else 1) + CountFalse(mask[1..])
  }

  /** `words[offsets[k]] = news[k]` for each `k` in turn. */
  function Replace<T>(s: seq<T>, offsets: seq<nat>, news: seq<T>): (r: seq<T>)
    requires |news| == |offsets| && forall k :: 0 <= k < |offsets| ==> offsets[k] < |s|
    ensures |r| == |s|
  {
    if offsets == [] then s
    else
      var n := |offsets| - 1;
      Replace(s, offsets[..n], news[..n])[offsets[n] := news[n]]
  }

  lemma ReplaceExtend<T>(s: seq<T>, offsets: seq<nat>, news: seq<T>, o: nat, x: T)
    requires |news| == |offsets| && forall k :: 0 <= k < |offsets| ==> offsets[k] < |s|
    requires o < |s|
    ensures Replace(s, offsets + [o], news + [x]) == Replace(s, offsets, news)[o := x]
  {
    assert (offsets + [o])[..|offsets|] == offsets;
    assert (news + [x])[..|offsets|] == news;
  }

  /**
   * Replacing at distinct offsets puts `news[k]` at `offsets[k]` and leaves
   * every other element as it was.
   */
  lemma {:induction false} ReplaceSound<T>(s: seq<T>, offsets: seq<nat>, news: seq<T>)
    requires |news| == |offsets| && forall k :: 0 <= k < |offsets| ==> offsets[k] < |s|
    requires Distinct(offsets)
    ensures forall j :: 0 <= j < |s| && j !in offsets ==> Replace(s, offsets, news)[j] == s[j]
    ensures forall k :: 0 <= k < |offsets| ==> Replace(s, offsets, news)[offsets[k]] == news[k]
    decreases |offsets|
  {
    if offsets != [] {
      var n := |offsets| - 1;
      ReplaceSound(s, offsets[..n], news[..n]);
      forall j | 0 <= j < |s| && j !in offsets
        ensures Replace(s, offsets, news)[j] == s[j]
      {
        assert j !in offsets[..n];
      }
      forall k | 0 <= k < n
        ensures Replace(s, offsets, news)[offsets[k]] == news[k]
      {
        assert offsets[..n][k] == offsets[k] != offsets[n];
        assert news[..n][k] == news[k];
      }
    }
  }

  lemma AppendAssoc<T>(a: seq<T>, b: seq<T>, c: seq<T>)
    ensures a + (b + c) == (a + b) + c
  {
  }

  /** A sequence that starts with `a` is `a` followed by the rest of it. */
  lemma PrefixSplit<T>(a: seq<T>, b: seq<T>)
    requires a <= b
    ensures b == a + b[|a|..]
  {
    assert b[..|a|] == a;
  }

  lemma DrawnAppend(ranges: seq<nat>, values: seq<nat>, ranges': seq<nat>, values': seq<nat>)
    requires Drawn(ranges, values) && Drawn(ranges', values')
    ensures Drawn(ranges + ranges', values + values')
  {
  }

  lemma {:induction false} ProductAppend(a: seq<nat>, b: seq<nat>)
    ensures Product(a + b) == Product(a) * Product(b)
    decreases |b|
  {
    if b == [] {
      assert a + b == a;
    } else {
      var b' := b[..|b| - 1];
      assert (a + b)[..|a + b| - 1] == a + b';
      ProductAppend(a, b');
    }
  }

  /** A product is 0 exactly when one of its factors is. */
  lemma {:induction false} ProductZero(s: seq<nat>)
    ensures Product(s) == 0 <==> exists i :: 0 <= i < |s| && s[i] == 0
    decreases |s|
  {
    if s != [] {
      var p := s[..|s| - 1];
      ProductZero(p);
      if exists i :: 0 <= i < |p| && p[i] == 0 {
        var i :| 0 <= i < |p| && p[i] == 0;
        assert s[i] == 0;
      }
      if exists i :: 0 <= i < |s| && s[i] == 0 {
        var i :| 0 <= i < |s| && s[i] == 0;
        if i < |p| {
          assert p[i] == 0;
        }
      }
    }
  }

  /** A power of a positive base is positive. */
  lemma {:induction false} PowPositive(b: nat, e: nat)
    requires b >= 1
    ensures Pow(b, e) >= 1
  {
    if e > 0 {
      PowPositive(b, e - 1);
    }
  }

  lemma {:induction false} ProductRepeat(x: nat, n: nat)
    ensures Product(Repeat(x, n)) == Pow(x, n)
  {
    if n > 0 {
      assert Repeat(x, n)[..n - 1] == Repeat(x, n - 1);
      ProductRepeat(x, n - 1);
    }
  }

  lemma {:induction false} ConcatAppend<T>(a: seq<seq<T>>, b: seq<seq<T>>)
    ensures Concat(a + b) == Concat(a) + Concat(b)
    decreases |a|
  {
    if a == [] {
      assert a + b == b;
    } else {
      assert (a + b)[1..] == a[1..] + b;
      ConcatAppend(a[1..], b);
    }
  }
}
