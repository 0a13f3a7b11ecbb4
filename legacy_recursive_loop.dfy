/**
 * recursive_loop.py: the older copy of the remix daemon at the top of the
 * repository. It generates with the engine's defaults (empty baseline, no
 * category, the "plain" template) and remixes with two independent draws:
 * the slot that is overwritten and the part whose evolved copy is written
 * there.
 *
 * In `parts[randint(...)] = "evolved " + parts[randint(...)]` Python
 * evaluates the right-hand side first, so the first draw picks the source
 * part and the second the target slot. Each draw is a function that keeps to
 * its range, as in the newer daemon.
 */
module LegacyRemixDaemon {
  import opened Wrappers
  import opened PyStrings
  import opened Sampling
  import PromptEngine
  import opened RemixDaemon
  import opened PrefixMaps

  /** What one iteration draws: its timestamp, the samples, and the two draws of the remix in call order. */
  datatype LegacyRound = LegacyRound(stamp: string, draws: seq<seq<nat>>, source: Randint, target: Randint)

  /** `review_and_remix(prompt)`. */
  function LegacyRemix(prompt: string, source: Randint, target: Randint): string
    requires InclusiveRange(source) && InclusiveRange(target)
  {
    var parts := Split(prompt, PromptEngine.PartSep);
    if |parts| > 2 then
      var j := source(0, |parts| - 1);
      var i := target(0, |parts| - 1);
      Join(parts[i := Marker + parts[j]], PromptEngine.PartSep)
    else Join(parts, PromptEngine.PartSep)
  }

  /**
   * `review_and_remix` as the code runs it: the evolved copy of the right-hand
   * side is computed first, then stored in place into the target slot.
   * `LegacyRemix` is the same operation as a value, kept because the
   * specification functions and lemmas need it; this method is proved equal to it.
   */
  method LegacyReviewAndRemix(prompt: string, source: Randint, target: Randint) returns (r: string)
    requires InclusiveRange(source) && InclusiveRange(target)
    ensures r == LegacyRemix(prompt, source, target)
  {
    var parts := Split(prompt, PromptEngine.PartSep);
    if |parts| > 2 {
      var evolved := Marker + parts[source(0, |parts| - 1)];
      parts := parts[target(0, |parts| - 1) := evolved];
    }
    r := Join(parts, PromptEngine.PartSep);
  }

  /**
   * A prompt of at most two parts comes back unchanged. Otherwise the parts
   * of the result are the original parts, as many, with slot `i` replaced by
   * the evolved copy of part `j`; every other slot keeps its part, and the
   * text changes length by the marker plus the difference of the two parts.
   */
  lemma LegacyRemixProperties(prompt: string, source: Randint, target: Randint)
    requires InclusiveRange(source) && InclusiveRange(target)
    ensures var parts := Split(prompt, PromptEngine.PartSep);
            |parts| <= 2 ==> LegacyRemix(prompt, source, target) == prompt
    ensures var parts := Split(prompt, PromptEngine.PartSep);
            var j, i := source(0, |parts| - 1), target(0, |parts| - 1);
            var after := Split(LegacyRemix(prompt, source, target), PromptEngine.PartSep);
            |parts| > 2 ==>
              && 0 <= i < |parts| && 0 <= j < |parts|
              && after == parts[i := Marker + parts[j]]
              && |after| == |parts|
              && (forall k :: 0 <= k < |parts| && k != i ==> after[k] == parts[k])
              && |LegacyRemix(prompt, source, target)| == |prompt| + |Marker| + |parts[j]| - |parts[i]|
  {
    var sep := PromptEngine.PartSep;
    var parts := Split(prompt, sep);
    JoinSplit(prompt, sep);
    if |parts| > 2 {
      var j, i := source(0, |parts| - 1), target(0, |parts| - 1);
      var updated := parts[i := Marker + parts[j]];
      PromptEngine.PartSepUnbordered();
      SplitPartsAreFree(prompt, sep);
      MarkedPartIsFree(parts[j]);
      SplitJoin(updated, sep);
      JoinReplacePart(parts, i, Marker + parts[j], sep);
    }
  }

  /**
   * When the two draws differ, the part that stood in the target slot can
   * vanish: with distinct parts, it no longer appears among the result's
   * parts unless it happens to equal the evolved copy.
   */
  lemma OverwrittenPartVanishes(prompt: string, source: Randint, target: Randint)
    requires InclusiveRange(source) && InclusiveRange(target)
    requires var parts := Split(prompt, PromptEngine.PartSep);
             var j, i := source(0, |parts| - 1), target(0, |parts| - 1);
             && |parts| > 2 && Distinct(parts)
             && parts[i] != Marker + parts[j]
    ensures var parts := Split(prompt, PromptEngine.PartSep);
            parts[target(0, |parts| - 1)] !in Split(LegacyRemix(prompt, source, target), PromptEngine.PartSep)
  {
    var parts := Split(prompt, PromptEngine.PartSep);
    var j, i := source(0, |parts| - 1), target(0, |parts| - 1);
    LegacyRemixProperties(prompt, source, target);
    var after := Split(LegacyRemix(prompt, source, target), PromptEngine.PartSep);
    forall k | 0 <= k < |after| ensures after[k] != parts[i] {
      if k != i {
        assert after[k] == parts[k];
      }
    }
  }

  /** A round is what the loop can draw: valid samples and two draws that keep to their range. */
  ghost predicate ValidLegacyRound(vocab: Vocab, diff: int, round: LegacyRound)
  {
    PromptEngine.ValidDraws(vocab, diff, None, round.draws)
    && InclusiveRange(round.source) && InclusiveRange(round.target)
  }

  /**
   * `entry` is what one iteration records for `round`: its timestamp, the
   * prompt `generate_prompt(diff)` returns, its remix and the remix's digest.
   */
  predicate LegacyRecords(vocab: Vocab, diff: int, sha256: string -> string, round: LegacyRound, entry: HistoryEntry)
    requires ValidLegacyRound(vocab, diff, round)
  {
    && entry.timestamp == round.stamp
    && PromptEngine.PromptOf(vocab, diff, "", None, "plain", round.draws) == Success(entry.original)
    && entry.remixed == LegacyRemix(entry.original, round.source, round.target)
    && entry.hash == sha256(entry.remixed)
  }

  /** The entry one iteration appends for `round`. */
  function LegacyEntryOf(vocab: Vocab, diff: int, sha256: string -> string, round: LegacyRound): HistoryEntry
    requires ValidLegacyRound(vocab, diff, round) && !PromptEngine.SampleFails(vocab, diff, None)
  {
    var original := PromptEngine.PromptOf(vocab, diff, "", None, "plain", round.draws).value;
    var remixed := LegacyRemix(original, round.source, round.target);
    HistoryEntry(round.stamp, original, remixed, sha256(remixed))
  }

  /** An entry records a round exactly when it is the entry the loop builds for that round. */
  lemma LegacyRecordsIsEntryOf(vocab: Vocab, diff: int, sha256: string -> string, round: LegacyRound, e: HistoryEntry)
    requires ValidLegacyRound(vocab, diff, round) && !PromptEngine.SampleFails(vocab, diff, None)
    ensures LegacyRecords(vocab, diff, sha256, round, e) <==> e == LegacyEntryOf(vocab, diff, sha256, round)
  {
  }

  /** `LegacyEntryOf` as a function of the round alone. */
  ghost function LegacyEntry(vocab: Vocab, diff: int, sha256: string -> string): LegacyRound --> HistoryEntry
  {
    round requires ValidLegacyRound(vocab, diff, round) && !PromptEngine.SampleFails(vocab, diff, None)
      => LegacyEntryOf(vocab, diff, sha256, round)
  }

  /** `entries` are what the loop appends for the first `|entries|` of `rounds`, in order. */
  ghost predicate LegacyLogged(vocab: Vocab, diff: int, sha256: string -> string,
                               entries: seq<HistoryEntry>, rounds: seq<LegacyRound>)
    requires forall i :: 0 <= i < |rounds| ==> ValidLegacyRound(vocab, diff, rounds[i])
    requires entries != [] ==> !PromptEngine.SampleFails(vocab, diff, None)
  {
    && |entries| <= |rounds|
    && (entries != [] ==> MapsPrefix(entries, rounds, LegacyEntry(vocab, diff, sha256)))
  }

  /** Every logged entry records its round. */
  lemma LegacyLoggedRecords(vocab: Vocab, diff: int, sha256: string -> string,
                            entries: seq<HistoryEntry>, rounds: seq<LegacyRound>, i: nat)
    requires forall i :: 0 <= i < |rounds| ==> ValidLegacyRound(vocab, diff, rounds[i])
    requires entries != [] ==> !PromptEngine.SampleFails(vocab, diff, None)
    requires LegacyLogged(vocab, diff, sha256, entries, rounds) && i < |entries|
    ensures LegacyRecords(vocab, diff, sha256, rounds[i], entries[i])
  {
    assert entries[i] == LegacyEntry(vocab, diff, sha256)(rounds[i]);
  }

  class LegacyPromptDaemon {
    /** The engine's vocabulary. */
    const vocab: Vocab
    /** `self.prompt_history`. */
    var promptHistory: seq<HistoryEntry>
    /** The history file: what was last written to it, or `None` while it does not exist. */
    var historyFile: Option<seq<HistoryEntry>>

    /** `__init__` with `load_history`: the stored file, or empty when there is none. */
    constructor (vocab: Vocab, stored: Option<seq<HistoryEntry>>)
      ensures this.vocab == vocab && historyFile == stored && promptHistory == stored.GetOr([])
    {
      this.vocab := vocab;
      promptHistory := stored.GetOr([]);
      historyFile := stored;
    }

    /** `save_history`: the file is overwritten with the in-memory history. */
    method SaveHistory()
      modifies this
      ensures promptHistory == old(promptHistory) && historyFile == Some(promptHistory)
    {
      historyFile := Some(promptHistory);
    }

    /** The body of the loop: generate one prompt with the defaults, remix it and build its entry. */
    method RecordRound(diff: int, round: LegacyRound, sha256: string -> string)
      returns (r: Result<HistoryEntry, GenError>)
      requires ValidLegacyRound(vocab, diff, round)
      ensures r.Failure? <==> PromptEngine.SampleFails(vocab, diff, None)
      ensures r.Success? ==> r.value == LegacyEntryOf(vocab, diff, sha256, round)
    {
      var original := PromptEngine.GeneratePrompt(vocab, diff, "", None, "plain", round.draws);
      if original.Failure? {
        return Failure(original.error);
      }
      var remixed := LegacyReviewAndRemix(original.value, round.source, round.target);
      r := Success(HistoryEntry(round.stamp, original.value, remixed, sha256(remixed)));
    }

    /** One iteration of the loop: record the next round and append its entry. */
    method AppendRound(diff: int, rounds: seq<LegacyRound>, start: nat, sha256: string -> string)
      returns (r: Result<string, GenError>)
      requires forall i :: 0 <= i < |rounds| ==> ValidLegacyRound(vocab, diff, rounds[i])
      requires start <= |promptHistory| && |promptHistory| - start < |rounds|
      requires |promptHistory| > start ==> !PromptEngine.SampleFails(vocab, diff, None)
      requires LegacyLogged(vocab, diff, sha256, promptHistory[start..], rounds)
      modifies this
      ensures r.Failure? <==> PromptEngine.SampleFails(vocab, diff, None)
      ensures r.Failure? ==> promptHistory == old(promptHistory)
      ensures r.Success? ==>
                && |promptHistory| == |old(promptHistory)| + 1
                && promptHistory[..|old(promptHistory)|] == old(promptHistory)
                && LegacyLogged(vocab, diff, sha256, promptHistory[start..], rounds)
                && r.value == promptHistory[|old(promptHistory)|].remixed
      ensures historyFile == old(historyFile)
    {
      var entries := promptHistory[start..];
      var entry := RecordRound(diff, rounds[|entries|], sha256);
      if entry.Failure? {
        return Failure(entry.error);
      }
      MapsPrefixSnoc(entries, rounds, LegacyEntry(vocab, diff, sha256), entry.value);
      promptHistory := promptHistory + [entry.value];
      assert promptHistory[start..] == entries + [entry.value];
      r := Success(entry.value.remixed);
    }

    /**
     * `run_recursive_loop(iterations, diff)`: the entries of the first
     * `iterations` rounds appended in generation order, their remixes
     * returned, the history saved once after the loop. A negative `diff`
     * over a non-empty vocabulary fails in the first iteration, before
     * anything is appended or saved.
     */
    method RunRecursiveLoop(iterations: int, diff: int, rounds: seq<LegacyRound>, sha256: string -> string)
      returns (r: Result<seq<string>, GenError>)
      requires iterations <= |rounds|
      requires forall i :: 0 <= i < |rounds| ==> ValidLegacyRound(vocab, diff, rounds[i])
      modifies this
      ensures r.Failure? <==> iterations > 0 && PromptEngine.SampleFails(vocab, diff, None)
      ensures r.Failure? ==> promptHistory == old(promptHistory) && historyFile == old(historyFile)
      ensures r.Success? ==>
                var n, start := if iterations > 0 then iterations else 0, |old(promptHistory)|;
                && |promptHistory| == start + n && promptHistory[..start] == old(promptHistory)
                && LegacyLogged(vocab, diff, sha256, promptHistory[start..], rounds)
                && historyFile == Some(promptHistory)
                && |r.value| == n
                && forall i :: 0 <= i < n ==> r.value[i] == promptHistory[start + i].remixed
    {
      var n := if iterations > 0 then iterations else 0;
      var start := |promptHistory|;
      var batch: seq<string> := [];
      for i := 0 to n
        invariant i > 0 ==> !PromptEngine.SampleFails(vocab, diff, None)
        invariant |promptHistory| == start + i && promptHistory[..start] == old(promptHistory)
        invariant LegacyLogged(vocab, diff, sha256, promptHistory[start..], rounds)
        invariant historyFile == old(historyFile)
        invariant |batch| == i
        invariant forall j :: 0 <= j < i ==> batch[j] == promptHistory[start + j].remixed
      {
        var remixed := AppendRound(diff, rounds, start, sha256);
        if remixed.Failure? {
          return Failure(remixed.error);
        }
        batch := batch + [remixed.value];
      }
      SaveHistory();
      r := Success(batch);
    }
  }
}
