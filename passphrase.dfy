/**
 * `PassPhrase`: the words of one phrase, the separator they are shown with, and
 * the random source every step draws from. `create_pass_phrase` picks the words
 * and then runs them through the modifiers in a fixed order: stutter, case,
 * letters, numbers.
 */
module PassPhrases {
  import opened Base
  import opened Text
  import opened Randomness
  import StutterModifier
  import opened CaseModifiers
  import LetterModifier
  import opened NumberInjectors
  import Haystack

  /** The entries of the options hash `create_pass_phrase` reads. */
  datatype Options = Options(
    wordCount: nat,
    separator: string,
    stutterCount: nat,
    caseMode: CaseModifier,
    letters: LetterModifier.Letters,
    numberInjector: NumberInjector)

  /** A word list as `read_dictionary_file` returns it: every entry matches /^[a-zA-Z]+$/. */
  predicate Dictionary(wordList: seq<string>)
  {
    forall i :: 0 <= i < |wordList| ==> AllLetters(wordList[i]) && wordList[i] != []
  }

  /** The words `random_words` picks with the offsets `offsets`, in drawing order. */
  function PickWords(wordList: seq<string>, offsets: seq<nat>): seq<string>
    requires forall i :: 0 <= i < |offsets| ==> offsets[i] < |wordList|
  {
    seq(|offsets|, i requires 0 <= i < |offsets| => wordList[offsets[i]])
  }

  /** A word added at the end shows up after the phrase so far and one more separator. */
  lemma {:induction false} JoinSnoc(ws: seq<string>, w: string, sep: string)
    requires ws != []
    ensures Join(ws + [w], sep) == Join(ws, sep) + sep + w
  {
    if |ws| == 1 {
      assert (ws + [w])[1..] == [w];
    } else {
      assert (ws + [w])[1..] == ws[1..] + [w];
      JoinSnoc(ws[1..], w, sep);
    }
  }

  /** The phrase of the single word `w` is `w` itself, and an empty phrase shows nothing. */
  lemma JoinShort(w: string, sep: string)
    ensures Join([w], sep) == w && Join([], sep) == ""
  {
  }

  /** Where the `number_of_words.times` loop of `random_words` stands after `offsets`. */
  ghost predicate WordsState(wordList: seq<string>, offsets: seq<nat>, words: seq<string>,
                            ranges0: seq<nat>, ranges: seq<nat>, drawn0: seq<nat>, drawn: seq<nat>)
  {
    && Within(Repeat<nat>(|wordList|, |offsets|), offsets)
    && words == PickWords(wordList, offsets)
    && ranges == ranges0 + Repeat<nat>(|wordList|, |offsets|)
    && drawn == drawn0 + offsets
  }

  lemma WordsStep(wordList: seq<string>, offsets: seq<nat>, words: seq<string>,
                 ranges0: seq<nat>, ranges: seq<nat>, drawn0: seq<nat>, drawn: seq<nat>, o: nat)
    requires WordsState(wordList, offsets, words, ranges0, ranges, drawn0, drawn) && o < |wordList|
    ensures WordsState(wordList, offsets + [o], words + [wordList[o]], ranges0, ranges + [|wordList|], drawn0, drawn + [o])
  {
    var offsets' := offsets + [o];
    assert Repeat<nat>(|wordList|, |offsets'|) == Repeat<nat>(|wordList|, |offsets|) + [|wordList|];
    var l, r := PickWords(wordList, offsets'), words + [wordList[o]];
    forall i | 0 <= i < |offsets'| ensures l[i] == r[i] {
      if i < |offsets| {
        assert offsets'[i] == offsets[i];
      }
    }
    AppendAssoc(ranges0, Repeat<nat>(|wordList|, |offsets|), [|wordList|]);
    AppendAssoc(drawn0, offsets, [o]);
  }

  /** Every picked word is an entry of the word list, so from a dictionary every picked word is all letters. */
  lemma PickWordsSound(wordList: seq<string>, offsets: seq<nat>)
    requires forall i :: 0 <= i < |offsets| ==> offsets[i] < |wordList|
    ensures |PickWords(wordList, offsets)| == |offsets|
    ensures forall i :: 0 <= i < |offsets| ==> PickWords(wordList, offsets)[i] in wordList
    ensures Dictionary(wordList) ==> forall i :: 0 <= i < |offsets| ==> StutterModifier.Stutterable(PickWords(wordList, offsets)[i])
  {
  }

  /** The entropy of `n` picks from a list of `size` words: `n * log2(size)` bits, a space of `size^n`. */
  lemma WordsEntropy(before: seq<nat>, size: nat, n: nat)
    ensures Product(before + Repeat(size, n)) == Product(before) * Pow(size, n)
  {
    ProductAppend(before, Repeat(size, n));
    ProductRepeat(size, n);
  }

  class PassPhrase {
    /** `@words`. */
    var words: seq<string>
    /** `@separator`. */
    var separator: string
    /** `@random_source`. */
    const source: RandomSource

    /** `PassPhrase.new(random_source)`: no words yet, a single space as separator. */
    constructor (source: RandomSource)
      ensures words == [] && separator == " " && this.source == source
    {
      words := [];
      separator := " ";
      this.source := source;
    }

    /**
     * `to_s`: the words joined with the separator, so every character of every
     * word and one separator between each two words; a single word shows as itself.
     */
    function ToString(): (r: string)
      reads this
      ensures |r| == TotalLength(words) + (if words == [] then 0 else (|words| - 1) * |separator|)
      ensures |words| == 1 ==> r == words[0]
    {
      Join(words, separator)
    }

    /**
     * `entropy`, as the number of equally likely outcomes of the draws so far: the
     * bit count is its log2. It is the random source's, so a phrase whose source has
     * drawn nothing has 0 bits.
     */
    function EntropySpace(): (r: nat)
      reads this, source
      ensures r == Product(source.ranges)
      ensures source.ranges == [] ==> r == 1
    {
      source.EntropySpace()
    }

    /** `haystack`: the brute-force search space of the phrase `to_s` shows; never below 0 bits, and 0 bits with no words. */
    function HaystackSpace(): (r: nat)
      reads this
      ensures r >= 1
      ensures words == [] ==> r == 1
    {
      Haystack.HaystackSpace(ToString())
    }

    /** `random_words(word_list, number_of_words)`: one draw over the whole list per word. */
    method RandomWords(wordList: seq<string>, count: nat) returns (ghost offsets: seq<nat>)
      requires source.Valid() && (count > 0 ==> |wordList| > 0)
      modifies this, source
      ensures source.Valid() && separator == old(separator)
      ensures |offsets| == count && Within(Repeat<nat>(|wordList|, count), offsets)
      ensures words == PickWords(wordList, offsets)
      ensures source.ranges == old(source.ranges) + Repeat<nat>(|wordList|, count)
      ensures source.drawn == old(source.drawn) + offsets
      ensures EntropySpace() == old(EntropySpace()) * Pow(|wordList|, count)
    {
      words := [];
      offsets := [];
      for i := 0 to count
        invariant source.Valid() && |offsets| == i && separator == old(separator)
        invariant WordsState(wordList, offsets, words, old(source.ranges), source.ranges, old(source.drawn), source.drawn)
      {
        ghost var ranges, drawn := source.ranges, source.drawn;
        var offset := source.Random(|wordList|);
        WordsStep(wordList, offsets, words, old(source.ranges), ranges, old(source.drawn), drawn, offset);
        words := words + [wordList[offset]];
        offsets := offsets + [offset];
      }
      WordsEntropy(old(source.ranges), |wordList|, count);
    }

    /**
     * `create_pass_phrase(options, wordlist)`: pick the words, take the separator,
     * then stutter, change case, change letters and add numbers, in that order,
     * each step working on the list the step before it made and drawing from the
     * same source after the steps before it. The case modifier is left with the
     * polarity the case step hands on.
     */
    method CreatePassPhrase(options: Options, wordList: seq<string>) returns (ghost offsets: seq<nat>, ghost t: Trace)
      requires source.Valid() && source !in options.caseMode.Footprint()
      requires options.wordCount > 0 ==> |wordList| > 0
      requires options.stutterCount > 0 ==> Dictionary(wordList)
      requires options.stutterCount <= options.wordCount && options.letters.count <= options.wordCount
      requires options.numberInjector.Inside? ==> options.numberInjector.count <= options.wordCount
      modifies this, source, options.caseMode.Footprint()
      ensures source.Valid() && separator == options.separator
      ensures |offsets| == options.wordCount && Within(Repeat<nat>(|wordList|, options.wordCount), offsets)
      ensures t.picked == PickWords(wordList, offsets)
      ensures Pipeline(options, old(Polarity(options.caseMode)), t) && words == t.numbers.words
      ensures Polarity(options.caseMode) == t.polarity
      ensures source.drawn == old(source.drawn) + offsets + Draws(t)
      ensures source.ranges == old(source.ranges) + Repeat<nat>(|wordList|, options.wordCount) + Charged(t)
      ensures EntropySpace() == old(EntropySpace()) * Pow(|wordList|, options.wordCount) * Product(Charged(t))
      ensures Defaults(options) ==> EntropySpace() == old(EntropySpace()) * Pow(|wordList|, options.wordCount)
    {
      ghost var up0 := Polarity(options.caseMode);
      offsets := RandomWords(wordList, options.wordCount);
      PickWordsSound(wordList, offsets);
      separator := options.separator;
      assert Polarity(options.caseMode) == up0;
      t := Mutations(options);
      if Defaults(options) {
        PassPhraseSound(options, up0, t);
      }
      PhraseEntropy(old(source.ranges), |wordList|, options.wordCount, Charged(t));
      AppendAssoc(old(source.drawn), offsets, Draws(t));
    }

    /** The four steps of `create_pass_phrase` after the picks, each on the list the one before made. */
    method Mutations(options: Options) returns (ghost t: Trace)
      requires source.Valid() && source !in options.caseMode.Footprint()
      requires options.stutterCount > 0 ==> forall i :: 0 <= i < |words| ==> StutterModifier.Stutterable(words[i])
      requires options.stutterCount <= |words| && options.letters.count <= |words|
      requires options.numberInjector.Inside? ==> options.numberInjector.count <= |words|
      modifies this, source, options.caseMode.Footprint()
      ensures source.Valid() && separator == old(separator) && t.picked == old(words)
      ensures Pipeline(options, old(Polarity(options.caseMode)), t) && words == t.numbers.words
      ensures Polarity(options.caseMode) == t.polarity
      ensures source.ranges == old(source.ranges) + Charged(t)
      ensures source.drawn == old(source.drawn) + Draws(t)
    {
      ghost var up0 := Polarity(options.caseMode);
      ghost var picked := words;
      ghost var stutter := AddStutter(options.stutterCount);
      assert Polarity(options.caseMode) == up0;
      ghost var casing, up1 := ChangeCase(options.caseMode);
      ghost var letters := ChangeLetters(options.letters);
      ghost var numbers := AddDigits(options.numberInjector);
      assert Polarity(options.caseMode) == up1;
      t := Trace(picked, stutter, casing, letters, numbers, up1);
      assert Pipeline(options, up0, t);
      TraceAppend(old(source.ranges), old(source.drawn), t);
    }

    /** `@words = stutter_injector.mutate(@words, @random_source)`, with the values it draws and their ranges. */
    method AddStutter(stutterCount: nat) returns (ghost stage: Stage)
      requires source.Valid() && stutterCount <= |words|
      requires stutterCount > 0 ==> forall i :: 0 <= i < |words| ==> StutterModifier.Stutterable(words[i])
      modifies this, source
      ensures source.Valid() && separator == old(separator) && words == stage.words
      ensures StutterModifier.StutterRun(stutterCount, old(words), words, stage.ranges, stage.draws)
      ensures source.ranges == old(source.ranges) + stage.ranges && source.drawn == old(source.drawn) + stage.draws
    {
      var stuttered;
      ghost var draws;
      stuttered, draws := StutterModifier.Mutate(stutterCount, words, source);
      stage := Stage(stuttered, source.ranges[|old(source.ranges)|..], draws);
      PrefixSplit(old(source.ranges), source.ranges);
      words := stuttered;
    }

    /**
     * `@words = case_mode.mutate(@words, @random_source)`, with the values it draws,
     * their ranges, and the polarity the modifier is left with.
     */
    method ChangeCase(caseMode: CaseModifier) returns (ghost stage: Stage, ghost up1: Option<bool>)
      requires source.Valid() && source !in caseMode.Footprint()
      modifies this, source, caseMode.Footprint()
      ensures source.Valid() && separator == old(separator) && words == stage.words
      ensures Casing(caseMode, old(Polarity(caseMode)), old(words), stage.draws, words, up1) && Polarity(caseMode) == up1
      ensures stage.ranges == CaseRanges(caseMode, old(Polarity(caseMode)), |old(words)|)
      ensures source.ranges == old(source.ranges) + stage.ranges && source.drawn == old(source.drawn) + stage.draws
    {
      var cased;
      ghost var draws;
      cased, draws := CaseMutate(caseMode, words, source);
      stage := Stage(cased, CaseRanges(caseMode, old(Polarity(caseMode)), |words|), draws);
      up1 := Polarity(caseMode);
      words := cased;
    }

    /** `@words = letter_map.mutate(@words, @random_source)`, with the values it draws and their ranges. */
    method ChangeLetters(letters: LetterModifier.Letters) returns (ghost stage: Stage)
      requires source.Valid() && letters.count <= |words|
      modifies this, source
      ensures source.Valid() && separator == old(separator) && words == stage.words
      ensures LetterModifier.LetterRun(letters, old(words), words, stage.ranges, stage.draws)
      ensures source.ranges == old(source.ranges) + stage.ranges && source.drawn == old(source.drawn) + stage.draws
    {
      var lettered;
      ghost var picks, coins;
      lettered, picks, coins := LetterModifier.Mutate(letters, words, source);
      stage := Stage(lettered, source.ranges[|old(source.ranges)|..], picks + LetterModifier.ListDraws(coins));
      PrefixSplit(old(source.ranges), source.ranges);
      AppendAssoc(old(source.drawn), picks, LetterModifier.ListDraws(coins));
      words := lettered;
    }

    /** `@words = number_injector.mutate(@words, @random_source)`, with the values it draws and their ranges. */
    method AddDigits(injector: NumberInjector) returns (ghost stage: Stage)
      requires source.Valid()
      requires injector.Inside? ==> injector.count <= |words|
      modifies this, source
      ensures source.Valid() && separator == old(separator) && words == stage.words
      ensures NumberRun(injector, old(words), words, stage.ranges, stage.draws)
      ensures source.ranges == old(source.ranges) + stage.ranges && source.drawn == old(source.drawn) + stage.draws
    {
      var injected;
      ghost var draws;
      injected, draws := InjectNumbers(injector, words, source);
      stage := Stage(injected, source.ranges[|old(source.ranges)|..], draws);
      PrefixSplit(old(source.ranges), source.ranges);
      words := injected;
    }
  }

  /**
   * One word from a list of two with the default options: a fresh source ends up
   * with exactly the one bit of the single pick.
   */
  method DefaultPhraseExample() returns (space: nat)
    ensures space == 2
  {
    var rs := new RandomSource((i: nat, max: nat) => 0);
    var phrase := new PassPhrase(rs);
    var options := Options(1, " ", 0, NullCase, LetterModifier.Letters(map[], 0), NoNumbers);
    assert Defaults(options) && options.caseMode.Footprint() == {};
    ghost var offsets, t := phrase.CreatePassPhrase(options, ["correct", "horse"]);
    assert Pow(2, 1) == 2;
    space := phrase.EntropySpace();
  }

  /**
   * One phrase of one word from a list of two, with the alternating case modifier
   * `modifier` and a fresh source: the pick has two outcomes, and the case step
   * doubles them only when the modifier has no polarity yet.
   */
  method AlternatePhrase(modifier: AlternateCaseModifier) returns (space: nat)
    modifies modifier
    ensures space == if old(modifier.upcase).None? then 4 else 2
    ensures modifier.upcase.Some?
  {
    var options := Options(1, " ", 0, AlternateCase(modifier), LetterModifier.Letters(map[], 0), NoNumbers);
    var source := new RandomSource((i: nat, max: nat) => 0);
    var phrase := new PassPhrase(source);
    ghost var up0 := modifier.upcase;
    assert phrase.EntropySpace() == 1;
    ghost var offsets, t := phrase.CreatePassPhrase(options, ["correct", "horse"]);
    AlternatePhrases(options, up0, t, 0);
    PassPhraseSound(options, up0, t);
    assert Charged(t) == CaseRanges(options.caseMode, up0, 1);
    CaseEntropy(options.caseMode, up0, 1);
    ghost var charge := Product(Charged(t));
    assert charge == if up0.None? then 2 else 1;
    space := phrase.EntropySpace();
    assert Pow(2, 1) == 2;
    assert space == 2 * charge;
  }

  /**
   * Two phrases as `main` makes them: each has a fresh source, but both share the
   * options and so the alternating modifier, and only the first pays for its coin.
   */
  method AlternatePhrasesExample() returns (first: nat, second: nat)
    ensures first == 4 && second == 2
  {
    var modifier := new AlternateCaseModifier();
    first := AlternatePhrase(modifier);
    second := AlternatePhrase(modifier);
  }

  /** What one step of `create_pass_phrase` leaves: the list it makes, the ranges it draws from and the values it draws. */
  datatype Stage = Stage(words: seq<string>, ranges: seq<nat>, draws: seq<nat>)

  /**
   * The steps of one `create_pass_phrase` after `random_words` picked `picked`:
   * stutter, case, letters and numbers, whose last list is the phrase, and the
   * polarity the case modifier hands on to the next phrase.
   */
  datatype Trace = Trace(picked: seq<string>, stutter: Stage, casing: Stage, letters: Stage, numbers: Stage, polarity: Option<bool>)

  /** The ranges of all the draws after the word picks, step after step. */
  function Charged(t: Trace): seq<nat>
  {
    t.stutter.ranges + t.casing.ranges + t.letters.ranges + t.numbers.ranges
  }

  /** The values of all the draws after the word picks, step after step. */
  function Draws(t: Trace): seq<nat>
  {
    t.stutter.draws + t.casing.draws + t.letters.draws + t.numbers.draws
  }

  lemma TraceAppend(ranges: seq<nat>, drawn: seq<nat>, t: Trace)
    ensures ranges + t.stutter.ranges + t.casing.ranges + t.letters.ranges + t.numbers.ranges == ranges + Charged(t)
    ensures drawn + t.stutter.draws + t.casing.draws + t.letters.draws + t.numbers.draws == drawn + Draws(t)
  {
  }

  /**
   * `t` is what the four steps make of `t.picked` from the values they draw, each
   * step on the list the one before it made, the case step starting from polarity `up0`.
   */
  ghost predicate Pipeline(options: Options, up0: Option<bool>, t: Trace)
  {
    && StutterModifier.StutterRun(options.stutterCount, t.picked, t.stutter.words, t.stutter.ranges, t.stutter.draws)
    && Casing(options.caseMode, up0, t.stutter.words, t.casing.draws, t.casing.words, t.polarity)
    && t.casing.ranges == CaseRanges(options.caseMode, up0, |t.stutter.words|)
    && LetterModifier.LetterRun(options.letters, t.casing.words, t.letters.words, t.letters.ranges, t.letters.draws)
    && NumberRun(options.numberInjector, t.letters.words, t.numbers.words, t.numbers.ranges, t.numbers.draws)
  }

  /** The default options: no stutter, `NullModifier` for case, no letters, no numbers. */
  predicate Defaults(options: Options)
  {
    options.stutterCount == 0 && options.caseMode.NullCase? && options.letters.count == 0 && options.numberInjector.NoNumbers?
  }

  /**
   * The entropy of a phrase: `n * log2(size)` bits for the picks, plus the bits of
   * every draw the steps make after them.
   */
  lemma PhraseEntropy(before: seq<nat>, size: nat, n: nat, charged: seq<nat>)
    ensures Product(before + Repeat<nat>(size, n) + charged) == Product(before) * Pow(size, n) * Product(charged)
    ensures charged == [] ==> Product(before + Repeat<nat>(size, n) + charged) == Product(before) * Pow(size, n)
  {
    ProductAppend(before + Repeat<nat>(size, n), charged);
    WordsEntropy(before, size, n);
  }

  /**
   * Whatever the draws: the phrase has `wordCount` words plus the tokens the
   * between injector adds, and with the default options it is exactly the picked
   * words and the steps draw nothing.
   */
  lemma PassPhraseSound(options: Options, up0: Option<bool>, t: Trace)
    requires Pipeline(options, up0, t)
    ensures |t.numbers.words| == |t.picked| + Added(options.numberInjector)
    ensures Defaults(options) ==> t.numbers.words == t.picked && Charged(t) == [] && Draws(t) == [] && t.polarity == up0
    ensures options.stutterCount == 0 && options.letters.count == 0 && options.numberInjector.NoNumbers? ==>
      Charged(t) == CaseRanges(options.caseMode, up0, |t.picked|)
  {
    StutterModifier.StutteringSound(options.stutterCount, t.picked, t.stutter.words) by {
      StutterModifier.StutterRunSound(options.stutterCount, t.picked, t.stutter.words, t.stutter.ranges, t.stutter.draws);
    }
    CasingSound(options.caseMode, up0, t.stutter.words, t.casing.draws, t.casing.words, t.polarity);
    LetterModifier.LetteringSound(options.letters, t.casing.words, t.letters.words) by {
      LetterModifier.LetterRunSound(options.letters, t.casing.words, t.letters.words, t.letters.ranges, t.letters.draws);
    }
    NumberingSound(options.numberInjector, t.letters.words, t.numbers.words) by {
      NumberRunSound(options.numberInjector, t.letters.words, t.numbers.words, t.numbers.ranges, t.numbers.draws);
    }
    if options.stutterCount == 0 && options.letters.count == 0 && options.numberInjector.NoNumbers? {
      QuietSteps(options, up0, t);
    }
  }

  /** With no stutter, no letters and no numbers, only the case step can draw, and the other steps pass the list on. */
  lemma QuietSteps(options: Options, up0: Option<bool>, t: Trace)
    requires Pipeline(options, up0, t)
    requires options.stutterCount == 0 && options.letters.count == 0 && options.numberInjector.NoNumbers?
    ensures t.stutter.words == t.picked && t.numbers.words == t.casing.words
    ensures Charged(t) == t.casing.ranges && Draws(t) == t.casing.draws
  {
    StutterModifier.StutterRunSound(options.stutterCount, t.picked, t.stutter.words, t.stutter.ranges, t.stutter.draws);
    StutterModifier.StutteringNone(t.picked, t.stutter.words);
    LetterModifier.LetterRunSound(options.letters, t.casing.words, t.letters.words, t.letters.ranges, t.letters.draws);
    LetterModifier.LetteringNone(options.letters, t.casing.words, t.letters.words);
  }

  /**
   * `main` hands the same options, and so the same alternating modifier, to every
   * phrase: once a phrase has words, the modifier holds a polarity and no later
   * phrase draws a case coin.
   */
  lemma AlternatePhrases(options: Options, up0: Option<bool>, t: Trace, n: nat)
    requires Pipeline(options, up0, t) && options.caseMode.AlternateCase? && |t.picked| > 0
    ensures t.polarity.Some? && CaseRanges(options.caseMode, t.polarity, n) == []
  {
    StutterModifier.StutterRunSound(options.stutterCount, t.picked, t.stutter.words, t.stutter.ranges, t.stutter.draws);
    StutterModifier.StutteringSound(options.stutterCount, t.picked, t.stutter.words);
    AlternateOnce(options.caseMode, up0, t.stutter.words, t.casing.draws, t.casing.words, t.polarity, n);
  }
}
