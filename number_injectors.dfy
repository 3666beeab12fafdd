/**
 * The number injectors: `NumbersBetweenWordsInjector` inserts `count` tokens
 * "0".."99" between the words of the list, `NumbersInsideWordsInjector` splices
 * such a token into each of `count` sampled words.
 */
module NumberInjectors {
  import opened Base
  import opened Text
  import opened Randomness

  /** A token the injectors add: the decimal form of a value of `random(100)`. */
  predicate NumberToken(s: string)
  {
    exists v :: v < 100 && s == NumberString(v)
  }

  // ---------------------------------------------------------------- between

  /** The two draws of one step of the between injector: the offset to insert at, then the number. */
  datatype Placement = Placement(at: nat, number: nat)

  /**
   * The draws `random(words.size)` and `random(100)` can return at every step, the
   * list having grown by one token per earlier step: the offset is below the
   * current size, or 0 on an empty list.
   */
  predicate Placements(n: nat, ps: seq<Placement>)
  {
    forall j :: 0 <= j < |ps| ==> (ps[j].at < n + j || ps[j].at == 0) && ps[j].number < 100
  }

  /** The ranges of one step on a list of `size` entries. */
  function StepRanges(size: nat): seq<nat>
  {
    [size, 100]
  }

  /** The ranges of `k` steps on a list that starts with `n` entries. */
  function BetweenRanges(n: nat, k: nat): (r: seq<nat>)
    ensures |r| == 2 * k
  {
    if k == 0 then [] else BetweenRanges(n, k - 1) + StepRanges(n + k - 1)
  }

  /** The values the steps drew, offset before number. */
  function PlacementDraws(ps: seq<Placement>): (r: seq<nat>)
    ensures |r| == 2 * |ps|
  {
    if ps == [] then [] else PlacementDraws(ps[..|ps| - 1]) + [ps[|ps| - 1].at, ps[|ps| - 1].number]
  }

  /** The list after the steps `ps`: each inserts its number's token at its offset. */
  function InsertNumbers(words: seq<string>, ps: seq<Placement>): (r: seq<string>)
    requires Placements(|words|, ps)
    ensures |r| == |words| + |ps|
  {
    if ps == [] then words
    else
      var p := ps[|ps| - 1];
      Insert(InsertNumbers(words, ps[..|ps| - 1]), p.at, NumberString(p.number))
  }

  /** Which entries of `InsertNumbers(words, ps)` are original words (true) and which inserted tokens (false). */
  function InsertMask(words: seq<string>, ps: seq<Placement>): (mask: seq<bool>)
    requires Placements(|words|, ps)
    ensures |mask| == |words| + |ps|
  {
    if ps == [] then Repeat(true, |words|)
    else Insert(InsertMask(words, ps[..|ps| - 1]), ps[|ps| - 1].at, false)
  }

  lemma {:induction false} KeepAll<T>(s: seq<T>)
    ensures Keep(s, Repeat(true, |s|)) == s && CountFalse(Repeat(true, |s|)) == 0
    decreases |s|
  {
    if s != [] {
      assert Repeat(true, |s|)[1..] == Repeat(true, |s| - 1);
      KeepAll(s[1..]);
    }
  }

  /** Inserting an element together with a false mask bit leaves what the mask keeps unchanged. */
  lemma {:induction false} KeepInsert<T>(s: seq<T>, mask: seq<bool>, i: nat, x: T)
    requires |mask| == |s| && i <= |s|
    ensures Keep(Insert(s, i, x), Insert(mask, i, false)) == Keep(s, mask)
    ensures CountFalse(Insert(mask, i, false)) == CountFalse(mask) + 1
    decreases i
  {
    var t, mt := Insert(s, i, x), Insert(mask, i, false);
    if i == 0 {
      assert t[1..] == s && mt[1..] == mask;
    } else {
      assert t[1..] == Insert(s[1..], i - 1, x) && mt[1..] == Insert(mask[1..], i - 1, false);
      KeepInsert(s[1..], mask[1..], i - 1, x);
    }
  }

  /** Dropping the inserted entries gives back the original words in their order. */
  lemma {:induction false} BetweenKeeps(words: seq<string>, ps: seq<Placement>)
    requires Placements(|words|, ps)
    ensures Keep(InsertNumbers(words, ps), InsertMask(words, ps)) == words
    ensures CountFalse(InsertMask(words, ps)) == |ps|
    decreases |ps|
  {
    if ps == [] {
      KeepAll(words);
    } else {
      var n := |ps| - 1;
      var p := ps[n];
      BetweenKeeps(words, ps[..n]);
      KeepInsert(InsertNumbers(words, ps[..n]), InsertMask(words, ps[..n]), p.at, NumberString(p.number));
    }
  }

  /** Every entry the mask drops is a number token. */
  predicate TokensOutside(r: seq<string>, mask: seq<bool>)
  {
    |mask| == |r| && forall i :: 0 <= i < |r| && !mask[i] ==> NumberToken(r[i])
  }

  lemma {:induction false} BetweenTokens(words: seq<string>, ps: seq<Placement>)
    requires Placements(|words|, ps)
    ensures TokensOutside(InsertNumbers(words, ps), InsertMask(words, ps))
    decreases |ps|
  {
    if ps != [] {
      var n := |ps| - 1;
      var p := ps[n];
      BetweenTokens(words, ps[..n]);
      var prev, mask := InsertNumbers(words, ps[..n]), InsertMask(words, ps[..n]);
      var r, mask' := InsertNumbers(words, ps), InsertMask(words, ps);
      assert r == Insert(prev, p.at, NumberString(p.number));
      assert mask' == Insert(mask, p.at, false);
      forall i | 0 <= i < |r| && !mask'[i] ensures NumberToken(r[i]) {
        if i == p.at {
          assert ps[n].number < 100 && r[i] == NumberString(p.number);
        } else if i < p.at {
          assert r[i] == prev[i] && !mask[i];
          assert NumberToken(prev[i]);
        } else {
          assert r[i] == prev[i - 1] && !mask[i - 1];
          assert NumberToken(prev[i - 1]);
        }
      }
    }
  }

  /**
   * What the between injector does to the list: it grows by one entry per step;
   * dropping the inserted entries gives back the original words in their order;
   * every inserted entry is a number token.
   */
  lemma BetweenSound(words: seq<string>, ps: seq<Placement>)
    requires Placements(|words|, ps)
    ensures var r, mask := InsertNumbers(words, ps), InsertMask(words, ps);
      && |r| == |words| + |ps| && |mask| == |r|
      && Keep(r, mask) == words && CountFalse(mask) == |ps|
      && TokensOutside(r, mask)
  {
    BetweenKeeps(words, ps);
    BetweenTokens(words, ps);
  }

  /** Every offset is below the size of the list it is drawn for, so a non-empty list keeps its last word last. */
  lemma {:induction false} BetweenKeepsLast(words: seq<string>, ps: seq<Placement>)
    requires Placements(|words|, ps) && words != []
    ensures InsertNumbers(words, ps)[|words| + |ps| - 1] == words[|words| - 1]
    decreases |ps|
  {
    if ps != [] {
      var n := |ps| - 1;
      var p := ps[n];
      var prev := InsertNumbers(words, ps[..n]);
      assert prev[|prev| - 1] == words[|words| - 1] by {
        BetweenKeepsLast(words, ps[..n]);
      }
      assert p.at < |prev|;
      assert InsertNumbers(words, ps) == Insert(prev, p.at, NumberString(p.number));
    }
  }

  /** No steps: no draws, no ranges and the same list. */
  lemma BetweenNone(words: seq<string>)
    ensures Placements(|words|, []) && InsertNumbers(words, []) == words
    ensures PlacementDraws([]) == [] && BetweenRanges(|words|, 0) == []
  {
  }

  /** Where the `@number_count.times` loop stands after the steps `ps`. */
  ghost predicate BetweenState(words: seq<string>, ps: seq<Placement>, r: seq<string>,
                               ranges0: seq<nat>, ranges: seq<nat>, drawn0: seq<nat>, drawn: seq<nat>)
  {
    && Placements(|words|, ps)
    && r == InsertNumbers(words, ps)
    && ranges == ranges0 + BetweenRanges(|words|, |ps|)
    && drawn == drawn0 + PlacementDraws(ps)
  }

  lemma BetweenStep(words: seq<string>, ps: seq<Placement>, r: seq<string>,
                    ranges0: seq<nat>, ranges: seq<nat>, drawn0: seq<nat>, drawn: seq<nat>, p: Placement)
    requires BetweenState(words, ps, r, ranges0, ranges, drawn0, drawn)
    requires (p.at < |r| || p.at == 0) && p.number < 100
    ensures BetweenState(words, ps + [p], Insert(r, p.at, NumberString(p.number)), ranges0,
                         ranges + StepRanges(|r|), drawn0, drawn + [p.at, p.number])
  {
    var ps' := ps + [p];
    assert ps'[..|ps|] == ps;
    assert Placements(|words|, ps') by {
      forall j | 0 <= j < |ps'| ensures (ps'[j].at < |words| + j || ps'[j].at == 0) && ps'[j].number < 100 {
        if j < |ps| {
          assert ps'[j] == ps[j];
        }
      }
    }
    AppendAssoc(ranges0, BetweenRanges(|words|, |ps|), StepRanges(|r|));
    AppendAssoc(drawn0, PlacementDraws(ps), [p.at, p.number]);
  }

  /** One step: `random(words.size)`, then `random(100)`. */
  method DrawPlacement(size: nat, rs: RandomSource) returns (at: nat, number: nat)
    requires rs.Valid()
    modifies rs
    ensures rs.Valid() && rs.drawn == old(rs.drawn) + [at, number]
    ensures rs.ranges == old(rs.ranges) + StepRanges(size)
    ensures (at < size || at == 0) && number < 100
  {
    at := rs.Random(size);
    number := rs.Random(100);
  }

  /** `NumbersBetweenWordsInjector.mutate`: `count` times, insert a number token at a drawn offset. */
  method MutateBetween(count: nat, words: seq<string>, rs: RandomSource) returns (r: seq<string>, ghost ps: seq<Placement>)
    requires rs.Valid()
    modifies rs
    ensures rs.Valid() && |ps| == count
    ensures BetweenState(words, ps, r, old(rs.ranges), rs.ranges, old(rs.drawn), rs.drawn)
  {
    r := words;
    ps := [];
    for i := 0 to count
      invariant rs.Valid() && |ps| == i
      invariant BetweenState(words, ps, r, old(rs.ranges), rs.ranges, old(rs.drawn), rs.drawn)
    {
      ghost var ranges, drawn := rs.ranges, rs.drawn;
      var offset, number := DrawPlacement(|r|, rs);
      BetweenStep(words, ps, r, old(rs.ranges), ranges, old(rs.drawn), drawn, Placement(offset, number));
      r := Insert(r, offset, NumberString(number));
      ps := ps + [Placement(offset, number)];
    }
  }

  // ----------------------------------------------------------------- inside

  /** The two draws for one sampled word: the number, then the position to splice it at. */
  datatype Injection = Injection(number: nat, at: nat)

  /** The draws `random(100)` and `random(word.size)` can return for the word `w`. */
  predicate InjectionFor(w: string, inj: Injection)
  {
    inj.number < 100 && (inj.at < |w| || inj.at == 0)
  }

  /** `word.insert(at, number.to_s)`. */
  function Injected(w: string, inj: Injection): string
    requires InjectionFor(w, inj)
  {
    w[..inj.at] + NumberString(inj.number) + w[inj.at..]
  }

  /**
   * A spliced word is the word with a number token inserted strictly before its
   * last character, so a non-empty word keeps its last character last, and cutting
   * the token out gives the word back.
   */
  lemma InjectedShape(w: string, inj: Injection)
    requires InjectionFor(w, inj)
    ensures var r, t := Injected(w, inj), NumberString(inj.number);
      && NumberToken(t) && |r| == |w| + |t|
      && r[..inj.at] == w[..inj.at] && r[inj.at..inj.at + |t|] == t
      && r[..inj.at] + r[inj.at + |t|..] == w
      && (w != [] ==> inj.at < |w| && r[|r| - 1] == w[|w| - 1])
  {
    var r, t := Injected(w, inj), NumberString(inj.number);
    assert r[inj.at + |t|..] == w[inj.at..];
    assert w == w[..inj.at] + w[inj.at..];
  }

  /** Every sampled word has draws it can be given. */
  predicate Injections(words: seq<string>, offsets: seq<nat>, injs: seq<Injection>)
  {
    && |injs| == |offsets|
    && forall k :: 0 <= k < |offsets| ==> offsets[k] < |words| && InjectionFor(words[offsets[k]], injs[k])
  }

  /** The ranges of the draws for the sampled words, in sampling order: `[100, |word|]` each. */
  function InsideRanges(words: seq<string>, offsets: seq<nat>): (r: seq<nat>)
    requires forall k :: 0 <= k < |offsets| ==> offsets[k] < |words|
    ensures |r| == 2 * |offsets|
  {
    if offsets == [] then []
    else InsideRanges(words, offsets[..|offsets| - 1]) + [100, |words[offsets[|offsets| - 1]]|]
  }

  /** The values drawn for the sampled words: number before position. */
  function InjectionDraws(injs: seq<Injection>): seq<nat>
  {
    if injs == [] then [] else InjectionDraws(injs[..|injs| - 1]) + [injs[|injs| - 1].number, injs[|injs| - 1].at]
  }

  /** The spliced forms of the sampled words. */
  function InsideWords(words: seq<string>, offsets: seq<nat>, injs: seq<Injection>): (r: seq<string>)
    requires Injections(words, offsets, injs)
    ensures |r| == |offsets|
  {
    seq(|offsets|, k requires 0 <= k < |offsets| => Injected(words[offsets[k]], injs[k]))
  }

  /** Where the `offsets.each` loop of `mutate` stands after the words at `offsets`. */
  ghost predicate InsideState(words: seq<string>, offsets: seq<nat>, injs: seq<Injection>, r: seq<string>,
                              ranges0: seq<nat>, ranges: seq<nat>, drawn0: seq<nat>, drawn: seq<nat>)
  {
    && Injections(words, offsets, injs)
    && r == Replace(words, offsets, InsideWords(words, offsets, injs))
    && ranges == ranges0 + InsideRanges(words, offsets)
    && drawn == drawn0 + InjectionDraws(injs)
  }

  lemma InsidePending(words: seq<string>, offsets: seq<nat>, injs: seq<Injection>, r: seq<string>,
                      ranges0: seq<nat>, ranges: seq<nat>, drawn0: seq<nat>, drawn: seq<nat>, o: nat)
    requires InsideState(words, offsets, injs, r, ranges0, ranges, drawn0, drawn)
    requires Distinct(offsets) && o < |words| && o !in offsets
    ensures r[o] == words[o]
  {
    ReplaceSound(words, offsets, InsideWords(words, offsets, injs));
  }

  lemma InsideExtend(words: seq<string>, offsets: seq<nat>, injs: seq<Injection>, o: nat, inj: Injection)
    requires Injections(words, offsets, injs)
    requires o < |words| && InjectionFor(words[o], inj)
    ensures Injections(words, offsets + [o], injs + [inj])
    ensures InsideRanges(words, offsets + [o]) == InsideRanges(words, offsets) + [100, |words[o]|]
    ensures InjectionDraws(injs + [inj]) == InjectionDraws(injs) + [inj.number, inj.at]
    ensures InsideWords(words, offsets + [o], injs + [inj]) == InsideWords(words, offsets, injs) + [Injected(words[o], inj)]
  {
    var offsets', injs' := offsets + [o], injs + [inj];
    assert offsets'[..|offsets|] == offsets && injs'[..|injs|] == injs;
    assert Injections(words, offsets', injs') by {
      forall k | 0 <= k < |offsets'| ensures offsets'[k] < |words| && InjectionFor(words[offsets'[k]], injs'[k]) {
        if k < |offsets| {
          assert offsets'[k] == offsets[k] && injs'[k] == injs[k];
        }
      }
    }
    var l, s := InsideWords(words, offsets', injs'), InsideWords(words, offsets, injs) + [Injected(words[o], inj)];
    forall k | 0 <= k < |offsets'| ensures l[k] == s[k] {
      if k < |offsets| {
        assert offsets'[k] == offsets[k] && injs'[k] == injs[k];
      }
    }
  }

  lemma InsideStep(words: seq<string>, offsets: seq<nat>, injs: seq<Injection>, r: seq<string>,
                   ranges0: seq<nat>, ranges: seq<nat>, drawn0: seq<nat>, drawn: seq<nat>, o: nat, inj: Injection)
    requires InsideState(words, offsets, injs, r, ranges0, ranges, drawn0, drawn)
    requires o < |words| && r[o] == words[o] && InjectionFor(words[o], inj)
    ensures InsideState(words, offsets + [o], injs + [inj], r[o := Injected(words[o], inj)], ranges0,
                        ranges + [100, |words[o]|], drawn0, drawn + [inj.number, inj.at])
  {
    InsideExtend(words, offsets, injs, o, inj);
    ReplaceExtend(words, offsets, InsideWords(words, offsets, injs), o, Injected(words[o], inj));
    AppendAssoc(ranges0, InsideRanges(words, offsets), [100, |words[o]|]);
    AppendAssoc(drawn0, InjectionDraws(injs), [inj.number, inj.at]);
  }

  /** `random(100).to_s`, then `inject_number_in_word`: `random(word.size)` and `String#insert`. */
  method InjectNumberInWord(word: string, rs: RandomSource) returns (r: string, ghost inj: Injection)
    requires rs.Valid()
    modifies rs
    ensures rs.Valid() && rs.drawn == old(rs.drawn) + [inj.number, inj.at]
    ensures rs.ranges == old(rs.ranges) + [100, |word|]
    ensures InjectionFor(word, inj) && r == Injected(word, inj)
  {
    var number := rs.Random(100);
    var token := NumberString(number);
    var at := rs.Random(|word|);
    r := word[..at] + token + word[at..];
    inj := Injection(number, at);
  }

  /** The `offsets.each` loop of `mutate`: splice a number into the sampled words in turn. */
  method InjectSampled(words: seq<string>, offsets: seq<nat>, rs: RandomSource) returns (r: seq<string>, ghost injs: seq<Injection>)
    requires rs.Valid() && StrictlyIncreasing(offsets)
    requires forall k :: 0 <= k < |offsets| ==> offsets[k] < |words|
    modifies rs
    ensures rs.Valid()
    ensures InsideState(words, offsets, injs, r, old(rs.ranges), rs.ranges, old(rs.drawn), rs.drawn)
  {
    r := words;
    injs := [];
    for i := 0 to |offsets|
      invariant rs.Valid()
      invariant InsideState(words, offsets[..i], injs, r, old(rs.ranges), rs.ranges, old(rs.drawn), rs.drawn)
    {
      var offset := offsets[i];
      assert offsets[..i + 1] == offsets[..i] + [offset];
      InsidePending(words, offsets[..i], injs, r, old(rs.ranges), rs.ranges, old(rs.drawn), rs.drawn, offset);
      ghost var ranges, drawn := rs.ranges, rs.drawn;
      var x;
      ghost var inj;
      x, inj := InjectNumberInWord(r[offset], rs);
      InsideStep(words, offsets[..i], injs, r, old(rs.ranges), ranges, old(rs.drawn), drawn, offset, inj);
      r := r[offset := x];
      injs := injs + [inj];
    }
    assert offsets[..|offsets|] == offsets;
  }

  /** `NumbersInsideWordsInjector.mutate`: sample `count` distinct words and splice a number into each. */
  method MutateInside(count: nat, words: seq<string>, rs: RandomSource)
    returns (r: seq<string>, ghost picks: seq<nat>, ghost injs: seq<Injection>)
    requires rs.Valid() && count <= |words|
    modifies rs
    ensures rs.Valid() && rs.drawn == old(rs.drawn) + picks + InjectionDraws(injs)
    ensures |picks| == count && Within(CountDown(|words|, count), picks)
    ensures var offsets := PickedIndices(|words|, picks);
      && StrictlyIncreasing(offsets) && Injections(words, offsets, injs)
      && rs.ranges == old(rs.ranges) + CountDown(|words|, count) + InsideRanges(words, offsets)
      && r == Replace(words, offsets, InsideWords(words, offsets, injs))
    ensures old(rs.ranges) <= rs.ranges && NumberRun(Inside(count), words, r, rs.ranges[|old(rs.ranges)|..], picks + InjectionDraws(injs))
  {
    var offsets;
    offsets, picks := rs.PickNFromM(count, |words|);
    r, injs := InjectSampled(words, offsets, rs);
    AppendAssoc(old(rs.drawn), picks, InjectionDraws(injs));
    AppendAssoc(old(rs.ranges), CountDown(|words|, count), InsideRanges(words, offsets));
    assert InsideOutcome(count, words, picks, injs, r);
    ghost var draws := picks + InjectionDraws(injs);
    assert draws[..count] == picks && draws[count..] == InjectionDraws(injs);
    assert rs.ranges[|old(rs.ranges)|..] == CountDown(|words|, count) + InsideRanges(words, offsets);
  }

  /**
   * What the inside injector does to the list: the word count is unchanged, words
   * not sampled are left as they were, and sampled word `k` has its number token
   * spliced in at its drawn position.
   */
  lemma InsideSound(words: seq<string>, offsets: seq<nat>, injs: seq<Injection>)
    requires StrictlyIncreasing(offsets) && Injections(words, offsets, injs)
    ensures var r := Replace(words, offsets, InsideWords(words, offsets, injs));
      && |r| == |words|
      && (forall j :: 0 <= j < |words| && j !in offsets ==> r[j] == words[j])
      && forall k :: 0 <= k < |offsets| ==>
           var w, p, t := words[offsets[k]], injs[k].at, NumberString(injs[k].number);
           r[offsets[k]] == w[..p] + t + w[p..] && (w != [] ==> p < |w|)
  {
    ReplaceSound(words, offsets, InsideWords(words, offsets, injs));
  }

  // --------------------------------------------------------------- dispatch

  /** The number injectors `build_number_injector` can produce, and the default `NullModifier`. */
  datatype NumberInjector = NoNumbers | Between(count: nat) | Inside(count: nat)

  /** `number_injector.mutate(words, random_source)`. */
  method InjectNumbers(injector: NumberInjector, words: seq<string>, rs: RandomSource) returns (r: seq<string>, ghost draws: seq<nat>)
    requires rs.Valid()
    requires injector.Inside? ==> injector.count <= |words|
    modifies rs
    ensures rs.Valid() && rs.drawn == old(rs.drawn) + draws
    ensures injector.NoNumbers? ==> r == words && draws == [] && rs.ranges == old(rs.ranges)
    ensures injector.Between? ==> exists ps ::
      && |ps| == injector.count && Placements(|words|, ps)
      && r == InsertNumbers(words, ps) && draws == PlacementDraws(ps)
      && rs.ranges == old(rs.ranges) + BetweenRanges(|words|, injector.count)
    ensures injector.Inside? ==> exists picks, injs ::
      && |picks| == injector.count && Within(CountDown(|words|, injector.count), picks)
      && var offsets := PickedIndices(|words|, picks);
      && StrictlyIncreasing(offsets) && Injections(words, offsets, injs)
      && r == Replace(words, offsets, InsideWords(words, offsets, injs))
      && draws == picks + InjectionDraws(injs)
      && rs.ranges == old(rs.ranges) + CountDown(|words|, injector.count) + InsideRanges(words, offsets)
    ensures Numbering(injector, words, r)
    ensures old(rs.ranges) <= rs.ranges
    ensures NumberRun(injector, words, r, rs.ranges[|old(rs.ranges)|..], draws)
  {
    match injector
    case NoNumbers =>
      r, draws := words, [];
    case Between(count) =>
      ghost var ps;
      r, ps := MutateBetween(count, words, rs);
      draws := PlacementDraws(ps);
    case Inside(count) =>
      ghost var picks, injs;
      r, picks, injs := MutateInside(count, words, rs);
      draws := picks + InjectionDraws(injs);
      AppendAssoc(old(rs.drawn), picks, InjectionDraws(injs));
      assert InsideOutcome(count, words, picks, injs, r);
  }

  /** The outcome `MutateInside` promises for the sampling draws `picks` and the draws `injs`. */
  ghost predicate InsideOutcome(count: nat, words: seq<string>, picks: seq<nat>, injs: seq<Injection>, r: seq<string>)
  {
    && count <= |words| && |picks| == count && Within(CountDown(|words|, count), picks)
    && var offsets := PickedIndices(|words|, picks);
    && StrictlyIncreasing(offsets) && Injections(words, offsets, injs)
    && r == Replace(words, offsets, InsideWords(words, offsets, injs))
  }

  /** `r` is a list `injector.mutate` can make of `words`. */
  ghost predicate Numbering(injector: NumberInjector, words: seq<string>, r: seq<string>)
  {
    match injector
    case NoNumbers => r == words
    case Between(count) => exists ps :: |ps| == count && Placements(|words|, ps) && r == InsertNumbers(words, ps)
    case Inside(count) => exists picks, injs :: InsideOutcome(count, words, picks, injs, r)
  }

  /**
   * `r` is the list `injector.mutate` makes of `words` from the values `draws`, and
   * `ranges` the ranges they are drawn from.
   */
  ghost predicate NumberRun(injector: NumberInjector, words: seq<string>, r: seq<string>, ranges: seq<nat>, draws: seq<nat>)
  {
    match injector
    case NoNumbers => r == words && ranges == [] && draws == []
    case Between(count) =>
      && (exists ps :: |ps| == count && Placements(|words|, ps) && r == InsertNumbers(words, ps) && draws == PlacementDraws(ps))
      && ranges == BetweenRanges(|words|, count)
    case Inside(count) =>
      && |draws| >= count
      && exists injs ::
           && InsideOutcome(count, words, draws[..count], injs, r) && draws[count..] == InjectionDraws(injs)
           && ranges == CountDown(|words|, count) + InsideRanges(words, PickedIndices(|words|, draws[..count]))
  }

  /**
   * The draws a number step charges: none for `NullModifier`, an offset and a number
   * per token for the between injector, and for the inside injector the `count`
   * sampling draws followed by a number of 100 and a position per sampled word.
   */
  lemma NumberRunSound(injector: NumberInjector, words: seq<string>, r: seq<string>, ranges: seq<nat>, draws: seq<nat>)
    requires NumberRun(injector, words, r, ranges, draws)
    ensures Numbering(injector, words, r)
    ensures injector.NoNumbers? ==> ranges == [] && draws == []
    ensures injector.Between? ==> ranges == BetweenRanges(|words|, injector.count)
    ensures injector.Inside? ==> |ranges| == 3 * injector.count && ranges[..injector.count] == CountDown(|words|, injector.count)
  {
    match injector
    case NoNumbers =>
    case Between(count) =>
      var ps :| |ps| == count && Placements(|words|, ps) && r == InsertNumbers(words, ps) && draws == PlacementDraws(ps);
      assert |ps| == count && Placements(|words|, ps) && r == InsertNumbers(words, ps);
    case Inside(count) =>
      InsideRunSound(count, words, r, ranges, draws);
  }

  /** The inside injector's part of `NumberRunSound`. */
  lemma InsideRunSound(count: nat, words: seq<string>, r: seq<string>, ranges: seq<nat>, draws: seq<nat>)
    requires NumberRun(Inside(count), words, r, ranges, draws)
    ensures Numbering(Inside(count), words, r)
    ensures |ranges| == 3 * count && ranges[..count] == CountDown(|words|, count)
  {
    var picks := draws[..count];
    var injs :| && InsideOutcome(count, words, picks, injs, r) && draws[count..] == InjectionDraws(injs)
      && ranges == CountDown(|words|, count) + InsideRanges(words, PickedIndices(|words|, picks));
    PickedIndicesSound(|words|, picks);
  }

  /** The number of entries an injector adds to the list. */
  function Added(injector: NumberInjector): nat
  {
    if injector.Between? then injector.count else 0
  }

  /**
   * Whatever the draws: the list grows by `Added(injector)`; the between injector
   * keeps the original words in order around number tokens; the inside injector
   * leaves each word as it was or splices one number token into it.
   */
  lemma NumberingSound(injector: NumberInjector, words: seq<string>, r: seq<string>)
    requires Numbering(injector, words, r)
    ensures |r| == |words| + Added(injector)
    ensures injector.Between? ==> exists mask :: |mask| == |r| && Keep(r, mask) == words && CountFalse(mask) == injector.count
                                                && TokensOutside(r, mask)
    ensures injector.Inside? ==> forall j :: 0 <= j < |words| ==>
      r[j] == words[j] || exists inj :: InjectionFor(words[j], inj) && r[j] == Injected(words[j], inj)
  {
    match injector
    case NoNumbers =>
    case Between(count) =>
      var ps :| |ps| == count && Placements(|words|, ps) && r == InsertNumbers(words, ps);
      BetweenSound(words, ps);
    case Inside(count) =>
      var picks, injs :| InsideOutcome(count, words, picks, injs, r);
      var offsets := PickedIndices(|words|, picks);
      InsideSound(words, offsets, injs);
      forall j | 0 <= j < |words| && j in offsets
        ensures exists inj :: InjectionFor(words[j], inj) && r[j] == Injected(words[j], inj)
      {
        var k :| 0 <= k < |offsets| && offsets[k] == j;
        assert InjectionFor(words[j], injs[k]);
      }
  }
}
