/**
 * The word-wise case modifiers: `NullModifier`, `UpCaseModifier`, `DownCaseModifier`,
 * `CapitalizeCaseModifier`, `RandomWordCaseModifier` and `AlternateCaseModifier`.
 * Each maps `mutate_word` over the list, so the word count never changes and
 * every word keeps its letters, up to case.
 */
module CaseModifiers {
  import opened Base
  import opened Text
  import opened Randomness

  /** The three mappings a word-wise modifier can apply to a word. */
  datatype WordCase = Upper | Lower | Capital

  function ApplyCase(c: WordCase, w: string): (r: string)
    ensures SameIgnoringCase(r, w) && |r| == |w|
  {
    match c
    case Upper => Upcase(w)
    case Lower => Downcase(w)
    case Capital => Capitalize(w)
  }

  /** `WordWiseModifier#mutate` with a `mutate_word` that applies the same mapping to every word. */
  function MapCase(c: WordCase, words: seq<string>): (r: seq<string>)
    ensures |r| == |words|
    ensures forall i :: 0 <= i < |r| ==> SameIgnoringCase(r[i], words[i])
  {
    seq(|words|, i requires 0 <= i < |words| => ApplyCase(c, words[i]))
  }

  /** The mapping `RandomWordCaseModifier#mutate_word` applies for a draw of `random(3)`. */
  function RandomWordCase(d: nat): (c: WordCase)
    requires d < 3
    ensures d == 0 <==> c == Upper
    ensures d == 1 <==> c == Lower
    ensures d == 2 <==> c == Capital
  {
    if d == 0 then Upper else if d == 1 then Lower else Capital
  }

  /** One draw of `random(3)` per word. */
  predicate CaseDraws(words: seq<string>, draws: seq<nat>)
  {
    |draws| == |words| && forall i :: 0 <= i < |draws| ==> draws[i] < 3
  }

  /** The words `RandomWordCaseModifier#mutate` makes when word `i` draws `draws[i]`. */
  function RandomCased(words: seq<string>, draws: seq<nat>): seq<string>
    requires CaseDraws(words, draws)
  {
    seq(|words|, i requires 0 <= i < |words| => ApplyCase(RandomWordCase(draws[i]), words[i]))
  }

  /**
   * Every word of `RandomCased` is its original word upcased, downcased or
   * capitalized, and each of the three is the outcome of one draw value.
   */
  lemma RandomCasedSound(words: seq<string>, draws: seq<nat>)
    requires CaseDraws(words, draws)
    ensures |RandomCased(words, draws)| == |words|
    ensures forall i :: 0 <= i < |words| ==>
      && (draws[i] == 0 ==> RandomCased(words, draws)[i] == Upcase(words[i]))
      && (draws[i] == 1 ==> RandomCased(words, draws)[i] == Downcase(words[i]))
      && (draws[i] == 2 ==> RandomCased(words, draws)[i] == Capitalize(words[i]))
      && SameIgnoringCase(RandomCased(words, draws)[i], words[i])
  {
  }

  /** One more word at the end, mapped by its own draw. */
  lemma RandomCasedSnoc(words: seq<string>, draws: seq<nat>, w: string, d: nat)
    requires CaseDraws(words, draws) && d < 3
    ensures CaseDraws(words + [w], draws + [d])
    ensures RandomCased(words + [w], draws + [d]) == RandomCased(words, draws) + [ApplyCase(RandomWordCase(d), w)]
  {
    var n := |words|;
    var left, right := RandomCased(words + [w], draws + [d]), RandomCased(words, draws) + [ApplyCase(RandomWordCase(d), w)];
    forall k | 0 <= k < n + 1 ensures left[k] == right[k] {
      if k < n {
        assert (words + [w])[k] == words[k] && (draws + [d])[k] == draws[k];
      }
    }
  }

  /** `RandomWordCaseModifier#mutate_word`: one three-way draw picks the mapping. */
  method RandomWordMutateWord(word: string, rs: RandomSource) returns (r: string, d: nat)
    requires rs.Valid()
    modifies rs
    ensures rs.Valid() && rs.ranges == old(rs.ranges) + [3] && rs.drawn == old(rs.drawn) + [d]
    ensures d < 3 && r == ApplyCase(RandomWordCase(d), word)
  {
    d := rs.Random(3);
    r := ApplyCase(RandomWordCase(d), word);
  }

  /** `RandomWordCaseModifier#mutate`: one draw of `random(3)` per word, in word order. */
  method RandomWordMutate(words: seq<string>, rs: RandomSource) returns (r: seq<string>, ghost draws: seq<nat>)
    requires rs.Valid()
    modifies rs
    ensures rs.Valid() && rs.drawn == old(rs.drawn) + draws
    ensures rs.ranges == old(rs.ranges) + Repeat(3, |words|)
    ensures CaseDraws(words, draws) && r == RandomCased(words, draws)
  {
    r := [];
    draws := [];
    for i := 0 to |words|
      invariant rs.Valid() && rs.drawn == old(rs.drawn) + draws
      invariant rs.ranges == old(rs.ranges) + Repeat(3, i)
      invariant CaseDraws(words[..i], draws) && r == RandomCased(words[..i], draws)
    {
      ghost var ranges := rs.ranges;
      var w, d := RandomWordMutateWord(words[i], rs);
      RandomCasedSnoc(words[..i], draws, words[i], d);
      assert words[..i + 1] == words[..i] + [words[i]];
      AppendAssoc(old(rs.ranges), Repeat(3, i), [3]);
      AppendAssoc(old(rs.drawn), draws, [d]);
      r := r + [w];
      draws := draws + [d];
    }
    assert words[..|words|] == words;
  }

  /** The mapping `AlternateCaseModifier` applies to a word under polarity `up`. */
  function PolarCase(up: bool, w: string): string
  {
    if up then Upcase(w) else Downcase(w)
  }

  /** The words `AlternateCaseModifier` makes from polarity `up`: upcase when it is set, then the opposite. */
  function AlternateFrom(words: seq<string>, up: bool): (r: seq<string>)
    ensures |r| == |words|
  {
    if words == [] then []
    else [PolarCase(up, words[0])] + AlternateFrom(words[1..], !up)
  }

  /** Strict alternation: word `i` is upcased exactly when `i` has the parity of the starting polarity. */
  lemma {:induction false} AlternateFromAt(words: seq<string>, up: bool, i: nat)
    requires i < |words|
    ensures AlternateFrom(words, up)[i] == PolarCase((i % 2 == 0) == up, words[i])
  {
    if i > 0 {
      AlternateFromAt(words[1..], !up, i - 1);
      assert AlternateFrom(words, up)[i] == AlternateFrom(words[1..], !up)[i - 1];
      assert words[1..][i - 1] == words[i];
      ParityFlip(i);
    }
  }

  /** Stepping back one position flips the parity. */
  lemma ParityFlip(i: nat)
    requires i > 0
    ensures ((i - 1) % 2 == 0) == !(i % 2 == 0)
  {
  }

  /** The polarity after mapping `n` words from polarity `up`: each word flips it. */
  function PolarityAfter(up: bool, n: nat): bool
  {
    if n == 0 then up else !PolarityAfter(up, n - 1)
  }

  /** After an even number of words the polarity is back where it started. */
  lemma {:induction false} PolarityAfterParity(up: bool, n: nat)
    ensures PolarityAfter(up, n) == ((n % 2 == 0) == up)
  {
    if n > 0 {
      PolarityAfterParity(up, n - 1);
    }
  }

  /** Starting one word later with the opposite polarity ends at the same polarity. */
  lemma {:induction false} PolarityShift(up: bool, n: nat)
    ensures PolarityAfter(!up, n) == PolarityAfter(up, n + 1)
  {
    if n > 0 {
      PolarityShift(up, n - 1);
    }
  }

  /** One more word at the end gets the polarity the words before it left. */
  lemma {:induction false} AlternateFromSnoc(words: seq<string>, w: string, up: bool)
    ensures AlternateFrom(words + [w], up)
         == AlternateFrom(words, up) + [PolarCase(PolarityAfter(up, |words|), w)]
    decreases |words|
  {
    if words == [] {
      assert AlternateFrom([w], up) == [PolarCase(up, w)] + AlternateFrom([], !up);
    } else {
      assert (words + [w])[1..] == words[1..] + [w];
      AlternateFromSnoc(words[1..], w, !up);
      PolarityShift(up, |words| - 1);
    }
  }

  /** The polarity the first word is mapped with: the stored one, or `random(2) == 1` when there is none yet. */
  function FirstPolarity(upcase: Option<bool>, draws: seq<nat>): bool
    requires upcase.None? ==> |draws| == 1
  {
    if upcase.Some? then upcase.value else draws[0] == 1
  }

  class AlternateCaseModifier {
    /** `@upcase`: `None` until the first word, then the case the next word gets. */
    var upcase: Option<bool>

    constructor ()
      ensures upcase == None
    {
      upcase := None;
    }

    /** `mutate_word`: draw the polarity on first use, apply it, then flip it. */
    method MutateWord(word: string, rs: RandomSource) returns (r: string, ghost draws: seq<nat>)
      requires rs.Valid()
      modifies this, rs
      ensures rs.Valid() && rs.drawn == old(rs.drawn) + draws
      ensures old(upcase).Some? ==> draws == [] && rs.ranges == old(rs.ranges)
      ensures old(upcase).None? ==> |draws| == 1 && draws[0] < 2 && rs.ranges == old(rs.ranges) + [2]
      ensures old(upcase).None? ==> draws[0] == rs.oracle(|old(rs.ranges)|, 2) % 2
      ensures var up := FirstPolarity(old(upcase), draws);
        r == PolarCase(up, word) && upcase == Some(!up)
    {
      draws := [];
      if upcase.None? {
        var coin := rs.Random(2);
        upcase := Some(coin == 1);
        draws := [coin];
      }
      if upcase.value {
        upcase := Some(false);
        r := Upcase(word);
      } else {
        upcase := Some(true);
        r := Downcase(word);
      }
    }

    /** The words after the first: the polarity is set, so no draw is made. */
    method MutateRest(words: seq<string>, rs: RandomSource) returns (r: seq<string>)
      requires rs.Valid() && upcase.Some?
      modifies this, rs
      ensures rs.Valid() && rs.ranges == old(rs.ranges) && rs.drawn == old(rs.drawn)
      ensures r == AlternateFrom(words, old(upcase).value)
      ensures upcase == Some(PolarityAfter(old(upcase).value, |words|))
    {
      r := [];
      for i := 0 to |words|
        invariant rs.Valid() && rs.ranges == old(rs.ranges) && rs.drawn == old(rs.drawn)
        invariant r == AlternateFrom(words[..i], old(upcase).value)
        invariant upcase == Some(PolarityAfter(old(upcase).value, i))
      {
        var w;
        ghost var none;
        w, none := MutateWord(words[i], rs);
        AlternateFromSnoc(words[..i], words[i], old(upcase).value);
        assert words[..i + 1] == words[..i] + [words[i]];
        r := r + [w];
      }
      assert words[..|words|] == words;
    }

    /**
     * `mutate`: alternate upcase and downcase along the list, continuing from the
     * polarity left by earlier calls; randomness is drawn at most once per instance.
     */
    method Mutate(words: seq<string>, rs: RandomSource) returns (r: seq<string>, ghost draws: seq<nat>)
      requires rs.Valid()
      modifies this, rs
      ensures rs.Valid() && rs.drawn == old(rs.drawn) + draws
      ensures old(upcase).Some? || words == [] ==> draws == [] && rs.ranges == old(rs.ranges)
      ensures old(upcase).None? && words != [] ==> |draws| == 1 && draws[0] < 2 && rs.ranges == old(rs.ranges) + [2]
      ensures words == [] ==> r == [] && upcase == old(upcase)
      ensures words != [] ==>
        var up := FirstPolarity(old(upcase), draws);
        r == AlternateFrom(words, up) && upcase == Some(PolarityAfter(up, |words|))
    {
      if words == [] {
        r, draws := [], [];
        return;
      }
      var first;
      first, draws := MutateWord(words[0], rs);
      ghost var up := FirstPolarity(old(upcase), draws);
      var rest := MutateRest(words[1..], rs);
      r := [first] + rest;
      PolarityShift(up, |words| - 1);
    }
  }

  /**
   * The case modifier `create_pass_phrase` applies; `AlternateCase` refers to its
   * modifier object, whose polarity persists from one `mutate` to the next.
   */
  datatype CaseModifier =
    | NullCase
    | UpCase
    | DownCase
    | CapitalizeCase
    | RandomWordCase
    | AlternateCase(alternate: AlternateCaseModifier)
  {
    /** The objects `mutate` may change besides the random source. */
    function Footprint(): set<object>
    {
      if AlternateCase? then {alternate} else {}
    }
  }

  /** `mutate` of every case modifier: Null leaves the list as it is, the other three fixed ones map every word. */
  method CaseMutate(cm: CaseModifier, words: seq<string>, rs: RandomSource) returns (r: seq<string>, ghost draws: seq<nat>)
    requires rs.Valid() && rs !in cm.Footprint()
    modifies rs, cm.Footprint()
    ensures rs.Valid() && rs.drawn == old(rs.drawn) + draws
    ensures |r| == |words|
    ensures cm.NullCase? ==> r == words && draws == [] && rs.ranges == old(rs.ranges)
    ensures cm.UpCase? ==> r == MapCase(Upper, words) && draws == [] && rs.ranges == old(rs.ranges)
    ensures cm.DownCase? ==> r == MapCase(Lower, words) && draws == [] && rs.ranges == old(rs.ranges)
    ensures cm.CapitalizeCase? ==> r == MapCase(Capital, words) && draws == [] && rs.ranges == old(rs.ranges)
    ensures cm.RandomWordCase? ==>
      && rs.ranges == old(rs.ranges) + Repeat(3, |words|)
      && CaseDraws(words, draws) && r == RandomCased(words, draws)
    ensures cm.AlternateCase? ==>
      && (old(cm.alternate.upcase).Some? || words == [] ==> draws == [] && rs.ranges == old(rs.ranges))
      && (old(cm.alternate.upcase).None? && words != [] ==> |draws| == 1 && draws[0] < 2 && rs.ranges == old(rs.ranges) + [2])
      && (words == [] ==> cm.alternate.upcase == old(cm.alternate.upcase))
      && (words != [] ==>
            var up := FirstPolarity(old(cm.alternate.upcase), draws);
            r == AlternateFrom(words, up) && cm.alternate.upcase == Some(PolarityAfter(up, |words|)))
    ensures Casing(cm, old(Polarity(cm)), words, draws, r, Polarity(cm))
    ensures rs.ranges == old(rs.ranges) + CaseRanges(cm, old(Polarity(cm)), |words|)
  {
    match cm
    case NullCase =>
      r, draws := words, [];
    case UpCase =>
      r, draws := MapCase(Upper, words), [];
    case DownCase =>
      r, draws := MapCase(Lower, words), [];
    case CapitalizeCase =>
      r, draws := MapCase(Capital, words), [];
    case RandomWordCase =>
      r, draws := RandomWordMutate(words, rs);
    case AlternateCase(alternate) =>
      r, draws := alternate.Mutate(words, rs);
  }

  /**
   * Three words through a fresh `AlternateCaseModifier` whose one draw is 0: the
   * polarity starts off, so the words come out lower, upper, lower case.
   */
  method AlternateExample() returns (first: string, second: string, third: string)
    ensures first == "this" && second == "THIS" && third == "this"
  {
    var rs := new RandomSource((i: nat, max: nat) => 0);
    var modifier := new AlternateCaseModifier();
    ghost var d;
    first, d := modifier.MutateWord("ThiS", rs);
    second, d := modifier.MutateWord("ThiS", rs);
    third, d := modifier.MutateWord("ThiS", rs);
    CaseExamples();
  }

  /** The polarity a case modifier carries into its next `mutate`: only `AlternateCase` has one. */
  function Polarity(cm: CaseModifier): Option<bool>
    reads cm.Footprint()
  {
    if cm.AlternateCase? then cm.alternate.upcase else None
  }

  /**
   * The ranges `cm.mutate` draws from for a list of `n` words when it starts from
   * polarity `up0`: one range of 3 per word for the random-word modifier, a single
   * coin for an alternating modifier that has no polarity yet, nothing otherwise.
   */
  function CaseRanges(cm: CaseModifier, up0: Option<bool>, n: nat): seq<nat>
  {
    match cm
    case RandomWordCase => Repeat<nat>(3, n)
    case AlternateCase(_) => if up0.None? && n > 0 then [2] else []
    case _ => []
  }

  /**
   * The entropy a case step adds: `n * log2(3)` bits for the random-word modifier,
   * one bit the first time an alternating modifier is used on words, none for the
   * fixed modifiers.
   */
  lemma CaseEntropy(cm: CaseModifier, up0: Option<bool>, n: nat)
    ensures cm.RandomWordCase? ==> Product(CaseRanges(cm, up0, n)) == Pow(3, n)
    ensures cm.AlternateCase? ==> Product(CaseRanges(cm, up0, n)) == if up0.None? && n > 0 then 2 else 1
    ensures cm.NullCase? || cm.UpCase? || cm.DownCase? || cm.CapitalizeCase? ==> CaseRanges(cm, up0, n) == []
  {
    if cm.RandomWordCase? {
      ProductRepeat(3, n);
    } else if cm.AlternateCase? && up0.None? && n > 0 {
      assert [2][..0] == [];
    }
  }

  /** The draws of an alternating modifier: a single coin when it has no polarity yet, none once it has one. */
  predicate AlternateDraws(up0: Option<bool>, draws: seq<nat>)
  {
    if up0.Some? then draws == [] else |draws| == 1 && draws[0] < 2
  }

  /**
   * `r` is the list `cm.mutate` makes of `words` from the values `draws` when it
   * starts from polarity `up0`, and `up1` the polarity it leaves for the next call.
   */
  ghost predicate Casing(cm: CaseModifier, up0: Option<bool>, words: seq<string>, draws: seq<nat>, r: seq<string>, up1: Option<bool>)
  {
    match cm
    case NullCase => r == words && draws == [] && up1 == up0
    case UpCase => r == MapCase(Upper, words) && draws == [] && up1 == up0
    case DownCase => r == MapCase(Lower, words) && draws == [] && up1 == up0
    case CapitalizeCase => r == MapCase(Capital, words) && draws == [] && up1 == up0
    case RandomWordCase => CaseDraws(words, draws) && r == RandomCased(words, draws) && up1 == up0
    case AlternateCase(_) =>
      if words == [] then r == [] && draws == [] && up1 == up0
      else
        && AlternateDraws(up0, draws)
        && var up := FirstPolarity(up0, draws);
        && r == AlternateFrom(words, up) && up1 == Some(PolarityAfter(up, |words|))
  }

  /** Whatever the modifier and its draws, `mutate` keeps the word count and every word up to case. */
  lemma CasingSound(cm: CaseModifier, up0: Option<bool>, words: seq<string>, draws: seq<nat>, r: seq<string>, up1: Option<bool>)
    requires Casing(cm, up0, words, draws, r, up1)
    ensures |r| == |words|
    ensures forall j :: 0 <= j < |words| ==> SameIgnoringCase(r[j], words[j])
  {
    match cm
    case RandomWordCase =>
      RandomCasedSound(words, draws);
    case AlternateCase(_) =>
      if words != [] {
        var up := FirstPolarity(up0, draws);
        forall j | 0 <= j < |words| ensures SameIgnoringCase(r[j], words[j]) {
          AlternateFromAt(words, up, j);
        }
      }
    case _ =>
  }

  /**
   * An alternating modifier draws its coin at most once: after a call on at least
   * one word it holds a polarity, so every later call draws nothing, and a polarity
   * it already held is carried on, flipped once per word.
   */
  lemma {:induction false} AlternateOnce(cm: CaseModifier, up0: Option<bool>, words: seq<string>, draws: seq<nat>, r: seq<string>, up1: Option<bool>, n: nat)
    requires Casing(cm, up0, words, draws, r, up1) && cm.AlternateCase?
    ensures |draws| == |CaseRanges(cm, up0, |words|)|
    ensures words != [] ==> up1.Some? && CaseRanges(cm, up1, n) == []
    ensures up0.Some? && words != [] ==> up1 == Some(PolarityAfter(up0.value, |words|))
    ensures words != [] && |words| % 2 == 0 ==> up1 == Some(FirstPolarity(up0, draws))
  {
    if words != [] && |words| % 2 == 0 {
      PolarityAfterParity(FirstPolarity(up0, draws), |words|);
    }
  }
}
