/**
 * core/prompt_engine.py: sample terms from the vocabulary and render them
 * through a template.
 *
 * `random.sample(words, k)` is modelled by its outcome: `draws` holds, per
 * sampled category, the positions it picked (k distinct positions below
 * `len(words)`). A targeted call uses `draws[0]`; a call over every category
 * uses `draws[i]` for the i-th category in key order.
 */
module PromptEngine {
  import opened Wrappers
  import opened PyStrings
  import opened Sampling
  import TemplateEngine
  import opened PrefixMaps

  /** The separator of `", ".join(parts)`. */
  const PartSep := ", "

  /** ", " cannot overlap itself, so parts free of it come back from `split` unchanged. */
  lemma PartSepUnbordered()
    ensures PartSep != [] && Unbordered(PartSep)
  {
    var sep := PartSep;
    assert sep[1..] != sep[..1] by {
      assert sep[1..][0] == ' ' && sep[..1][0] == ',';
    }
  }

  /** `categories()`: the vocabulary's keys, in insertion order. */
  function Categories(vocab: Vocab): seq<string>
  {
    Names(vocab)
  }

  /** `templates()`: the names the renderer knows. */
  function Templates(): (names: seq<string>)
    ensures names == ["plain", "instruction", "cot"]
  {
    TemplateEngine.AvailableTemplates()
  }

  /** `category and category in self.vocab`: sampling is restricted to that category. */
  predicate Targets(vocab: Vocab, category: Option<string>)
  {
    category.Some? && category.value != "" && WordsOf(vocab, category.value).Some?
  }

  function TargetWords(vocab: Vocab, category: Option<string>): seq<string>
    requires Targets(vocab, category)
  {
    WordsOf(vocab, category.value).value
  }

  /** A category name selects targeted sampling exactly when it is a non-empty key. */
  lemma CategoriesSelectTargets(vocab: Vocab, name: string)
    ensures name != "" && name in Categories(vocab) <==> Targets(vocab, Some(name))
  {
    WordsOfNames(vocab, name);
  }

  /**
   * `random.sample` raises ValueError: the size `min(diff_level, len(words))`
   * is negative for the first category it is asked to sample.
   */
  predicate SampleFails(vocab: Vocab, d: int, category: Option<string>)
  {
    d < 0 && (Targets(vocab, category) || |vocab| > 0)
  }

  /** `picks` is what `random.sample(words, min(d, len(words)))` can return (nothing is returned when d < 0). */
  predicate DrawnFrom(picks: seq<nat>, words: seq<string>, d: int)
  {
    d >= 0 ==> IsSample(picks, |words|, SampleSize(d, |words|))
  }

  /** The outcomes of every `random.sample` call one `generate_prompt` makes. */
  predicate ValidDraws(vocab: Vocab, d: int, category: Option<string>, draws: seq<seq<nat>>)
  {
    if Targets(vocab, category) then
      |draws| == 1 && DrawnFrom(draws[0], TargetWords(vocab, category), d)
    else
      |draws| == |vocab| && forall i :: 0 <= i < |vocab| ==> DrawnFrom(draws[i], vocab[i].words, d)
  }

  /** The samples of the first n categories, in key order. */
  function Samples(vocab: Vocab, draws: seq<seq<nat>>, n: nat): seq<seq<string>>
    requires n <= |vocab| && n <= |draws|
    requires forall i :: 0 <= i < n ==> InRange(draws[i], |vocab[i].words|)
  {
    seq(n, i requires 0 <= i < n => Select(vocab[i].words, draws[i]))
  }

  /** What repeated `parts.extend(sample)` builds. */
  function Flatten(samples: seq<seq<string>>): seq<string>
  {
    if samples == [] then [] else Flatten(samples[..|samples| - 1]) + samples[|samples| - 1]
  }

  /** The terms `generate_prompt` joins, when sampling does not fail. */
  function Parts(vocab: Vocab, d: int, category: Option<string>, draws: seq<seq<nat>>): seq<string>
    requires ValidDraws(vocab, d, category, draws) && !SampleFails(vocab, d, category)
  {
    if Targets(vocab, category) then Select(TargetWords(vocab, category), draws[0])
    else Flatten(Samples(vocab, draws, |vocab|))
  }

  /** The prompt `generate_prompt` returns, or the exception it raises. */
  function PromptOf(vocab: Vocab, d: int, baseline: string, category: Option<string>,
                    template: string, draws: seq<seq<nat>>): Result<string, GenError>
    requires ValidDraws(vocab, d, category, draws)
  {
    if SampleFails(vocab, d, category) then Failure(NegativeSampleSize)
    else Success(TemplateEngine.Render(Join(Parts(vocab, d, category, draws), PartSep), baseline, template))
  }

  /** `PromptEngine.generate_prompt(diff_level, baseline, category, template)`. */
  method GeneratePrompt(vocab: Vocab, diffLevel: int, baseline: string, category: Option<string>,
                        template: string, draws: seq<seq<nat>>)
    returns (r: Result<string, GenError>)
    requires ValidDraws(vocab, diffLevel, category, draws)
    ensures r == PromptOf(vocab, diffLevel, baseline, category, template, draws)
  {
    var parts: seq<string> := [];
    if category.Some? && category.value != "" && WordsOf(vocab, category.value).Some? {
      var words := WordsOf(vocab, category.value).value;
      var k := SampleSize(diffLevel, |words|);
      if k < 0 {
        return Failure(NegativeSampleSize);
      }
      parts := parts + Select(words, draws[0]);
      assert parts == Parts(vocab, diffLevel, category, draws);
    } else {
      for i := 0 to |vocab|
        invariant i > 0 ==> diffLevel >= 0
        invariant parts == Flatten(Samples(vocab, draws, i))
      {
        var words := vocab[i].words;
        var k := SampleSize(diffLevel, |words|);
        if k < 0 {
          return Failure(NegativeSampleSize);
        }
        assert Samples(vocab, draws, i + 1)[..i] == Samples(vocab, draws, i);
        parts := parts + Select(words, draws[i]);
      }
      assert parts == Parts(vocab, diffLevel, category, draws);
    }
    var content := Join(parts, PartSep);
    r := Success(TemplateEngine.Render(content, baseline, template));
  }

  /** `generate_prompt` as a function of its draws, the other arguments fixed. */
  ghost function Prompt(vocab: Vocab, d: int, baseline: string, category: Option<string>, template: string)
    : seq<seq<nat>> --> Result<string, GenError>
  {
    draws requires ValidDraws(vocab, d, category, draws) => PromptOf(vocab, d, baseline, category, template, draws)
  }

  /** One call of the batch: the prompt for the next draws, appended to the results so far. */
  method NextPrompt(vocab: Vocab, d: int, baseline: string, category: Option<string>, template: string,
                    draws: seq<seq<seq<nat>>>, i: nat, ghost results: seq<Result<string, GenError>>)
    returns (p: Result<string, GenError>)
    requires i == |results| < |draws|
    requires forall i :: 0 <= i < |draws| ==> ValidDraws(vocab, d, category, draws[i])
    requires MapsPrefix(results, draws, Prompt(vocab, d, baseline, category, template))
    ensures p.Failure? <==> SampleFails(vocab, d, category)
    ensures MapsPrefix(results + [p], draws, Prompt(vocab, d, baseline, category, template))
  {
    p := GeneratePrompt(vocab, d, baseline, category, template, draws[i]);
    MapsPrefixSnoc(results, draws, Prompt(vocab, d, baseline, category, template), p);
  }

  /** Results that are the prompts of the first draws, each a success, give those prompts. */
  lemma BatchPrompts(vocab: Vocab, d: int, baseline: string, category: Option<string>, template: string,
                     draws: seq<seq<seq<nat>>>, results: seq<Result<string, GenError>>, batch: seq<string>)
    requires forall i :: 0 <= i < |draws| ==> ValidDraws(vocab, d, category, draws[i])
    requires MapsPrefix(results, draws, Prompt(vocab, d, baseline, category, template))
    requires |results| == |batch| && forall j :: 0 <= j < |batch| ==> results[j] == Success(batch[j])
    ensures forall i :: 0 <= i < |batch| ==>
              PromptOf(vocab, d, baseline, category, template, draws[i]) == Success(batch[i])
  {
    forall i | 0 <= i < |batch|
      ensures PromptOf(vocab, d, baseline, category, template, draws[i]) == Success(batch[i])
    {
      assert results[i] == Prompt(vocab, d, baseline, category, template)(draws[i]);
    }
  }

  /** `generate_batch(n, ...)`: n calls of `generate_prompt`, each with its own draws. */
  method GenerateBatch(vocab: Vocab, n: int, d: int, baseline: string, category: Option<string>,
                       template: string, draws: seq<seq<seq<nat>>>)
    returns (r: Result<seq<string>, GenError>)
    requires n <= |draws|
    requires forall i :: 0 <= i < |draws| ==> ValidDraws(vocab, d, category, draws[i])
    ensures r.Failure? <==> n > 0 && SampleFails(vocab, d, category)
    ensures r.Success? ==> |r.value| == (if n > 0 then n else 0)
    ensures r.Success? ==>
              forall i :: 0 <= i < |r.value| ==>
                PromptOf(vocab, d, baseline, category, template, draws[i]) == Success(r.value[i])
  {
    var batch: seq<string> := [];
    ghost var results: seq<Result<string, GenError>> := [];
    for i := 0 to (if n > 0 then n else 0)
      invariant |batch| == i && |results| == i
      invariant i > 0 ==> !SampleFails(vocab, d, category)
      invariant MapsPrefix(results, draws, Prompt(vocab, d, baseline, category, template))
      invariant forall j :: 0 <= j < i ==> results[j] == Success(batch[j])
    {
      var p := NextPrompt(vocab, d, baseline, category, template, draws, i, results);
      if p.Failure? {
        return Failure(p.error);
      }
      results := results + [p];
      batch := batch + [p.value];
    }
    BatchPrompts(vocab, d, baseline, category, template, draws, results, batch);
    r := Success(batch);
  }

  // ---------------------------------------------------------------------------
  // properties of one call

  /**
   * With a category of the vocabulary: exactly `min(diff_level, len(words))`
   * terms, each a term of that category, drawn at distinct positions, so
   * never more than the category holds and no term twice unless the list
   * repeats it.
   */
  lemma TargetedSample(vocab: Vocab, d: int, category: Option<string>, draws: seq<seq<nat>>)
    requires ValidDraws(vocab, d, category, draws) && Targets(vocab, category) && d >= 0
    ensures var words := TargetWords(vocab, category);
            var parts := Parts(vocab, d, category, draws);
            && |parts| == SampleSize(d, |words|) <= |words|
            && (forall t :: t in parts ==> t in words)
            && (Distinct(words) ==> Distinct(parts))
  {
    SelectFromWords(TargetWords(vocab, category), draws[0]);
  }

  /** A category that is absent, empty or unknown samples every category, without error for d >= 0. */
  lemma UnknownCategoryFallsBack(vocab: Vocab, d: int, baseline: string, category: Option<string>,
                                 template: string, draws: seq<seq<nat>>)
    requires ValidDraws(vocab, d, category, draws) && !Targets(vocab, category)
    ensures ValidDraws(vocab, d, None, draws)
    ensures PromptOf(vocab, d, baseline, category, template, draws)
         == PromptOf(vocab, d, baseline, None, template, draws)
    ensures PromptOf(vocab, d, baseline, category, template, draws).Failure? <==> d < 0 && |vocab| > 0
  {
  }

  /** `sum(min(d, len(words)) for words in vocab.values())` over the first n categories. */
  function TotalSampleSize(vocab: Vocab, d: int, n: nat): int
    requires n <= |vocab|
  {
    if n == 0 then 0 else TotalSampleSize(vocab, d, n - 1) + SampleSize(d, |vocab[n - 1].words|)
  }

  lemma {:induction false} SamplesCount(vocab: Vocab, d: int, draws: seq<seq<nat>>, n: nat)
    requires n <= |vocab| && n <= |draws|
    requires forall i :: 0 <= i < n ==> InRange(draws[i], |vocab[i].words|)
    requires forall i :: 0 <= i < n ==> |draws[i]| == SampleSize(d, |vocab[i].words|)
    ensures |Flatten(Samples(vocab, draws, n))| == TotalSampleSize(vocab, d, n)
    decreases n
  {
    if n > 0 {
      SamplesCount(vocab, d, draws, n - 1);
      assert Samples(vocab, draws, n)[..n - 1] == Samples(vocab, draws, n - 1);
    }
  }

  lemma {:induction false} SamplesMembers(vocab: Vocab, draws: seq<seq<nat>>, n: nat, t: string)
    requires n <= |vocab| && n <= |draws|
    requires forall i :: 0 <= i < n ==> InRange(draws[i], |vocab[i].words|)
    requires t in Flatten(Samples(vocab, draws, n))
    ensures exists i :: 0 <= i < n && t in vocab[i].words
    decreases n
  {
    var samples := Samples(vocab, draws, n);
    assert samples[..n - 1] == Samples(vocab, draws, n - 1);
    if t in samples[n - 1] {
      var j :| 0 <= j < |samples[n - 1]| && samples[n - 1][j] == t;
      assert t == vocab[n - 1].words[draws[n - 1][j]];
    } else {
      SamplesMembers(vocab, draws, n - 1, t);
    }
  }

  /**
   * Sampling every category: the parts are the categories' samples, in key
   * order; the sample of category i holds `min(d, len(words))` terms of that
   * category's own list, with no repeats when the list has none; in all there
   * are the sum of those sizes, every one from the vocabulary.
   */
  lemma AllCategorySample(vocab: Vocab, d: int, category: Option<string>, draws: seq<seq<nat>>)
    requires ValidDraws(vocab, d, category, draws) && !Targets(vocab, category) && d >= 0
    ensures Parts(vocab, d, category, draws) == Flatten(Samples(vocab, draws, |vocab|))
    ensures forall i :: 0 <= i < |vocab| ==>
              var sample := Samples(vocab, draws, |vocab|)[i];
              && |sample| == SampleSize(d, |vocab[i].words|)
              && (forall t :: t in sample ==> t in vocab[i].words)
              && (Distinct(vocab[i].words) ==> Distinct(sample))
    ensures |Parts(vocab, d, category, draws)| == TotalSampleSize(vocab, d, |vocab|)
    ensures forall t :: t in Parts(vocab, d, category, draws) ==>
              exists i :: 0 <= i < |vocab| && t in vocab[i].words
  {
    forall i | 0 <= i < |vocab|
      ensures var sample := Samples(vocab, draws, |vocab|)[i];
              && |sample| == SampleSize(d, |vocab[i].words|)
              && (forall t :: t in sample ==> t in vocab[i].words)
              && (Distinct(vocab[i].words) ==> Distinct(sample))
    {
      SelectFromWords(vocab[i].words, draws[i]);
    }
    SamplesCount(vocab, d, draws, |vocab|);
    forall t | t in Parts(vocab, d, category, draws)
      ensures exists i :: 0 <= i < |vocab| && t in vocab[i].words
    {
      SamplesMembers(vocab, draws, |vocab|, t);
    }
  }

  lemma {:induction false} NoSizeNoTerms(vocab: Vocab, n: nat)
    requires n <= |vocab|
    ensures TotalSampleSize(vocab, 0, n) == 0
    decreases n
  {
    if n > 0 {
      NoSizeNoTerms(vocab, n - 1);
    }
  }

  /** `diff_level = 0`: no term is sampled and the prompt is the template applied to empty content. */
  lemma ZeroDiffRendersEmpty(vocab: Vocab, baseline: string, category: Option<string>,
                             template: string, draws: seq<seq<nat>>)
    requires ValidDraws(vocab, 0, category, draws)
    ensures PromptOf(vocab, 0, baseline, category, template, draws)
         == Success(TemplateEngine.Render("", baseline, template))
  {
    if Targets(vocab, category) {
      TargetedSample(vocab, 0, category, draws);
    } else {
      AllCategorySample(vocab, 0, category, draws);
      NoSizeNoTerms(vocab, |vocab|);
    }
    assert Parts(vocab, 0, category, draws) == [];
  }
}
