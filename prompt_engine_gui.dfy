/**
 * prompt_engine_gui.py, without its Tk front end: the older engine, which
 * emits one term per category, and the older `save_prompts`, which writes a
 * bare JSON list and knows no "gpt" format.
 *
 * Each category's randomness is modelled by its outcome: the positions
 * `random.sample(words, min(diff_level, len(words)))` picked and the index
 * `random.choice(sample)` chose among them.
 */
module GuiPromptEngine {
  import opened Wrappers
  import opened PyStrings
  import opened Sampling
  import opened JsonValues
  import opened Output
  import PromptEngine

  /** What one category draws: the sampled positions, and the index chosen among them. */
  datatype Pick = Pick(sample: seq<nat>, choice: nat)

  /**
   * `pick` is what the two calls can return for `words`: a sample of the
   * asked size (none is returned for a negative size), and an index into it
   * when it is not empty (`random.choice` raises on an empty one).
   */
  predicate PickedFrom(pick: Pick, words: seq<string>, d: int)
  {
    d >= 0 ==>
      && IsSample(pick.sample, |words|, SampleSize(d, |words|))
      && (pick.sample != [] ==> pick.choice < |pick.sample|)
  }

  predicate ValidPicks(vocab: Vocab, d: int, picks: seq<Pick>)
  {
    |picks| == |vocab| && forall i :: 0 <= i < |vocab| ==> PickedFrom(picks[i], vocab[i].words, d)
  }

  /**
   * The exception `generate_prompt` raises, if any. The first category
   * already raises ValueError for a negative size; otherwise the first
   * category whose sample is empty raises IndexError in `random.choice`.
   */
  function GuiError(vocab: Vocab, d: int): Option<GenError>
  {
    if vocab == [] then None
    else if d < 0 then Some(NegativeSampleSize)
    else if exists i :: 0 <= i < |vocab| && SampleSize(d, |vocab[i].words|) == 0 then Some(ChoiceFromEmpty)
    else None
  }

  /** Without an exception every category has a sample to choose from. */
  lemma NoErrorChoosable(vocab: Vocab, d: int, picks: seq<Pick>, i: nat)
    requires ValidPicks(vocab, d, picks) && GuiError(vocab, d).None? && i < |vocab|
    ensures picks[i].choice < |picks[i].sample| && picks[i].sample[picks[i].choice] < |vocab[i].words|
  {
    assert SampleSize(d, |vocab[i].words|) != 0;
  }

  /** The term `random.choice(sample)` returns for category i. */
  function Chosen(vocab: Vocab, d: int, picks: seq<Pick>, i: nat): string
    requires ValidPicks(vocab, d, picks) && GuiError(vocab, d).None? && i < |vocab|
  {
    NoErrorChoosable(vocab, d, picks, i);
    vocab[i].words[picks[i].sample[picks[i].choice]]
  }

  /** The terms `generate_prompt` joins: the chosen term of every category, in key order. */
  function Terms(vocab: Vocab, d: int, picks: seq<Pick>): seq<string>
    requires ValidPicks(vocab, d, picks) && GuiError(vocab, d).None?
  {
    seq(|vocab|, i requires 0 <= i < |vocab| => Chosen(vocab, d, picks, i))
  }

  /** The prompt `generate_prompt(diff_level)` returns, or the exception it raises. */
  function GuiPromptOf(vocab: Vocab, d: int, picks: seq<Pick>): Result<string, GenError>
    requires ValidPicks(vocab, d, picks)
  {
    match GuiError(vocab, d)
    case Some(e) => Failure(e)
    case None => Success(Join(Terms(vocab, d, picks), PromptEngine.PartSep))
  }

  /** `PromptEngine.generate_prompt(diff_level)` of prompt_engine_gui.py. */
  method GeneratePrompt(vocab: Vocab, diffLevel: int, picks: seq<Pick>) returns (r: Result<string, GenError>)
    requires ValidPicks(vocab, diffLevel, picks)
    ensures r == GuiPromptOf(vocab, diffLevel, picks)
  {
    var promptParts: seq<string> := [];
    for i := 0 to |vocab|
      invariant i > 0 ==> diffLevel > 0
      invariant forall j :: 0 <= j < i ==> SampleSize(diffLevel, |vocab[j].words|) > 0
      invariant |promptParts| == i
      invariant forall j :: 0 <= j < i ==>
                  picks[j].choice < |picks[j].sample| && picks[j].sample[picks[j].choice] < |vocab[j].words|
                  && promptParts[j] == vocab[j].words[picks[j].sample[picks[j].choice]]
    {
      var words := vocab[i].words;
      var k := SampleSize(diffLevel, |words|);
      if k < 0 {
        return Failure(NegativeSampleSize);
      }
      var sample := Select(words, picks[i].sample);
      if |sample| == 0 {
        return Failure(ChoiceFromEmpty);
      }
      promptParts := promptParts + [sample[picks[i].choice]];
    }
    assert GuiError(vocab, diffLevel).None?;
    assert promptParts == Terms(vocab, diffLevel, picks);
    r := Success(Join(promptParts, PromptEngine.PartSep));
  }

  /**
   * A call fails exactly when the vocabulary has a category and the size is
   * not positive or some category has no terms; a negative size raises
   * ValueError, anything else IndexError.
   */
  lemma GuiFailures(vocab: Vocab, d: int, picks: seq<Pick>)
    requires ValidPicks(vocab, d, picks)
    ensures GuiPromptOf(vocab, d, picks).Failure? <==>
              vocab != [] && (d <= 0 || exists i :: 0 <= i < |vocab| && vocab[i].words == [])
    ensures GuiPromptOf(vocab, d, picks) == Failure(NegativeSampleSize) <==> vocab != [] && d < 0
  {
    if vocab != [] && d == 0 {
      assert SampleSize(d, |vocab[0].words|) == 0;
    }
    if vocab != [] && d > 0 {
      if exists i :: 0 <= i < |vocab| && vocab[i].words == [] {
        var i :| 0 <= i < |vocab| && vocab[i].words == [];
        assert SampleSize(d, |vocab[i].words|) == 0;
      }
    }
  }

  /**
   * A prompt holds exactly one term per category, in key order, each a term
   * of its category; with terms free of ", " it splits back into them.
   */
  lemma OneTermPerCategory(vocab: Vocab, d: int, picks: seq<Pick>)
    requires ValidPicks(vocab, d, picks) && GuiError(vocab, d).None?
    ensures var terms := Terms(vocab, d, picks);
            && |terms| == |vocab|
            && forall i :: 0 <= i < |vocab| ==> terms[i] in vocab[i].words
    ensures var terms := Terms(vocab, d, picks);
            vocab != [] && (forall i :: 0 <= i < |terms| ==> !Contains(terms[i], PromptEngine.PartSep)) ==>
              Split(GuiPromptOf(vocab, d, picks).value, PromptEngine.PartSep) == terms
  {
    var terms := Terms(vocab, d, picks);
    forall i | 0 <= i < |vocab| ensures terms[i] in vocab[i].words {
      NoErrorChoosable(vocab, d, picks, i);
    }
    if vocab != [] && (forall i :: 0 <= i < |terms| ==> !Contains(terms[i], PromptEngine.PartSep)) {
      PromptEngine.PartSepUnbordered();
      SplitJoin(terms, PromptEngine.PartSep);
    }
  }

  /** `generate_batch(n, diff_level)`: n calls of `generate_prompt`, each with its own draws. */
  method GenerateBatch(vocab: Vocab, n: int, d: int, picks: seq<seq<Pick>>) returns (r: Result<seq<string>, GenError>)
    requires n <= |picks|
    requires forall i :: 0 <= i < |picks| ==> ValidPicks(vocab, d, picks[i])
    ensures r.Failure? <==> n > 0 && GuiError(vocab, d).Some?
    ensures r.Success? ==> |r.value| == (if n > 0 then n else 0)
    ensures r.Success? ==>
              forall i :: 0 <= i < |r.value| ==> GuiPromptOf(vocab, d, picks[i]) == Success(r.value[i])
  {
    var batch: seq<string> := [];
    for i := 0 to (if n > 0 then n else 0)
      invariant |batch| == i
      invariant i > 0 ==> GuiError(vocab, d).None?
      invariant forall j :: 0 <= j < i ==> GuiPromptOf(vocab, d, picks[j]) == Success(batch[j])
    {
      var p := GeneratePrompt(vocab, d, picks[i]);
      if p.Failure? {
        return Failure(p.error);
      }
      batch := batch + [p.value];
    }
    r := Success(batch);
  }

  /** What the older `save_prompts` writes for a format, or `None` when the format is not supported. */
  function GuiRendered(format: string, prompts: seq<string>): Option<FileContent>
  {
    if format == "json" then Some(JsonDoc(StringArray(prompts)))
    else if format == "txt" then Some(Text(Lines(prompts)))
    else if format == "csv" then Some(Text(Lines(CsvLines(prompts, None))))
    else None
  }

  /**
   * Against core/output.py without a model: "txt" and "csv" write the same
   * text, "json" writes the bare list instead of an object holding it, and
   * "gpt" is refused.
   */
  lemma GuiRenderedVsCore(format: string, prompts: seq<string>)
    ensures format == "txt" || format == "csv" ==> GuiRendered(format, prompts) == Rendered(format, prompts, None)
    ensures format == "json" ==>
              && GuiRendered(format, prompts).Some?
              && Strings(GuiRendered(format, prompts).value.doc) == Some(prompts)
              && Get(GuiRendered(format, prompts).value.doc, "prompts") == None
    ensures GuiRendered(format, prompts).Some? <==> format in ["json", "txt", "csv"]
  {
    StringsOfStringArray(prompts);
    assert TxtLines(prompts, None) == prompts;
  }

  /**
   * `save_prompts(prompts, format, tag=tag)` of prompt_engine_gui.py: the
   * batch file is written and one ledger line is appended per prompt, in
   * order; any other format, "gpt" included, fails before the file or the
   * ledger is touched.
   */
  method GuiSavePrompts(prompts: seq<string>, format: string, tag: string,
                        stamp: string, hashStamps: seq<string>, sha256: string -> string,
                        dir: OutputDir, ledger: TextFile)
    returns (r: Result<string, SaveError>)
    requires |hashStamps| == |prompts|
    modifies dir, ledger
    ensures r.Failure? <==> format !in ["json", "txt", "csv"]
    ensures r.Failure? ==> dir.files == old(dir.files) && ledger.content == old(ledger.content)
    ensures r.Success? ==>
              && r.value == FileName(stamp, tag, format)
              && dir.files == old(dir.files)[r.value := GuiRendered(format, prompts).value]
              && ledger.content == old(ledger.content) + Lines(LedgerTexts(hashStamps, prompts, sha256))
  {
    var name := FileName(stamp, tag, format);
    var content: FileContent;
    if format == "json" {
      content := JsonDoc(StringArray(prompts));
    } else if format == "txt" {
      var text := WriteLines(prompts);
      content := Text(text);
    } else if format == "csv" {
      var text := WriteLines(CsvLines(prompts, None));
      content := Text(text);
    } else {
      return Failure(UnsupportedFormat);
    }
    dir.Write(name, content);
    SavePromptHashes(prompts, hashStamps, sha256, ledger);
    r := Success(name);
  }
}
