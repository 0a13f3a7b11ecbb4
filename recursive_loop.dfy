/**
 * core/recursive_loop.py: generate prompts, remix each by marking one of its
 * ", "-separated parts as evolved, and keep a history of every remix.
 *
 * `random.randint` is modelled by a function that keeps to its range;
 * `datetime.now()` by the timestamp string it produced; SHA-256 by a deterministic function
 * `sha256` from the remixed text to its hex digest. The history file is the
 * value last written to it, `None` while it does not exist.
 */
module RemixDaemon {
  import opened Wrappers
  import opened PyStrings
  import opened Sampling
  import PromptEngine
  import opened PrefixMaps

  /** The prefix a remixed part gains. */
  const Marker := "evolved "

  /** One record of `self.history`. */
  datatype HistoryEntry = HistoryEntry(timestamp: string, original: string, remixed: string, hash: string)

  /**
   * `random.randint(a, b)` as the source a run draws from: any function that
   * answers within `[a, b]` whenever that range is non-empty.
   */
  type Randint = (int, int) -> int

  ghost predicate InclusiveRange(randint: Randint)
  {
    forall a, b :: a <= b ==> a <= randint(a, b) <= b
  }

  /** What one iteration of the loop draws: its timestamp, the samples, the random source of the remix. */
  datatype Round = Round(stamp: string, draws: seq<seq<nat>>, randint: Randint)

  /** `_review_and_remix(prompt)`, drawing from `randint`. */
  function Remix(prompt: string, randint: Randint): string
    requires InclusiveRange(randint)
  {
    var parts := Split(prompt, PromptEngine.PartSep);
    if |parts| > 2 then
      var idx := randint(0, |parts| - 1);
      Join(parts[idx := Marker + parts[idx]], PromptEngine.PartSep)
    else Join(parts, PromptEngine.PartSep)
  }

  /**
   * `_review_and_remix` as the code runs it: the list of parts is updated in
   * place with `parts[idx] = "evolved " + parts[idx]`. `Remix` is the same
   * operation as a value, kept because the specification functions and lemmas
   * (which cannot call a method) need it; this method is proved equal to it.
   */
  method ReviewAndRemix(prompt: string, randint: Randint) returns (r: string)
    requires InclusiveRange(randint)
    ensures r == Remix(prompt, randint)
  {
    var parts := Split(prompt, PromptEngine.PartSep);
    if |parts| > 2 {
      var idx := randint(0, |parts| - 1);
      parts := parts[idx := Marker + parts[idx]];
    }
    r := Join(parts, PromptEngine.PartSep);
  }

  /** Prefixing the marker keeps a part free of ", ": the marker has no ','. */
  lemma MarkedPartIsFree(p: string)
    requires !Contains(p, PromptEngine.PartSep)
    ensures !Contains(Marker + p, PromptEngine.PartSep)
  {
    PrefixKeepsFree(Marker, p, PromptEngine.PartSep);
  }

  /**
   * A prompt of at most two parts comes back unchanged; otherwise splitting
   * the result gives the same parts with exactly the drawn one marked as
   * evolved, and the text grows by exactly the marker's eight characters.
   */
  lemma RemixProperties(prompt: string, randint: Randint)
    requires InclusiveRange(randint)
    ensures var parts := Split(prompt, PromptEngine.PartSep);
            |parts| <= 2 ==> Remix(prompt, randint) == prompt
    ensures var parts := Split(prompt, PromptEngine.PartSep);
            var idx := randint(0, |parts| - 1);
            |parts| > 2 ==>
              && 0 <= idx < |parts|
              && Split(Remix(prompt, randint), PromptEngine.PartSep) == parts[idx := Marker + parts[idx]]
              && |Remix(prompt, randint)| == |prompt| + 8
  {
    var sep := PromptEngine.PartSep;
    var parts := Split(prompt, sep);
    JoinSplit(prompt, sep);
    if |parts| > 2 {
      var idx := randint(0, |parts| - 1);
      var updated := parts[idx := Marker + parts[idx]];
      PromptEngine.PartSepUnbordered();
      SplitPartsAreFree(prompt, sep);
      MarkedPartIsFree(parts[idx]);
      SplitJoin(updated, sep);
      JoinReplacePart(parts, idx, Marker + parts[idx], sep);
    }
  }

  /** A round is what the loop can draw: valid samples and a `randint` that keeps to its range. */
  ghost predicate ValidRound(vocab: Vocab, diff: int, template: string, round: Round)
  {
    PromptEngine.ValidDraws(vocab, diff, None, round.draws) && InclusiveRange(round.randint)
  }

  /**
   * `entry` is what one iteration records for `round`: its timestamp, the
   * prompt `generate_prompt(diff, template=template)` returns, its remix and
   * the remix's digest.
   */
  predicate Records(vocab: Vocab, diff: int, template: string, sha256: string -> string,
                    round: Round, entry: HistoryEntry)
    requires ValidRound(vocab, diff, template, round)
  {
    && entry.timestamp == round.stamp
    && PromptEngine.PromptOf(vocab, diff, "", None, template, round.draws) == Success(entry.original)
    && entry.remixed == Remix(entry.original, round.randint)
    && entry.hash == sha256(entry.remixed)
  }

  /** The entry one iteration appends for `round`. */
  function EntryOf(vocab: Vocab, diff: int, template: string, sha256: string -> string, round: Round): HistoryEntry
    requires ValidRound(vocab, diff, template, round) && !PromptEngine.SampleFails(vocab, diff, None)
  {
    var original := PromptEngine.PromptOf(vocab, diff, "", None, template, round.draws).value;
    var remixed := Remix(original, round.randint);
    HistoryEntry(round.stamp, original, remixed, sha256(remixed))
  }

  /** An entry records a round exactly when it is the entry the loop builds for that round. */
  lemma RecordsIsEntryOf(vocab: Vocab, diff: int, template: string, sha256: string -> string,
                         round: Round, e: HistoryEntry)
    requires ValidRound(vocab, diff, template, round) && !PromptEngine.SampleFails(vocab, diff, None)
    ensures Records(vocab, diff, template, sha256, round, e) <==> e == EntryOf(vocab, diff, template, sha256, round)
  {
  }

  /** `EntryOf` as a function of the round alone. */
  ghost function Entry(vocab: Vocab, diff: int, template: string, sha256: string -> string): Round --> HistoryEntry
  {
    round requires ValidRound(vocab, diff, template, round) && !PromptEngine.SampleFails(vocab, diff, None)
      => EntryOf(vocab, diff, template, sha256, round)
  }

  /**
   * `entries` are what the loop appends for the first `|entries|` of `rounds`,
   * in generation order.
   */
  ghost predicate Logged(vocab: Vocab, diff: int, template: string, sha256: string -> string,
                         entries: seq<HistoryEntry>, rounds: seq<Round>)
    requires forall i :: 0 <= i < |rounds| ==> ValidRound(vocab, diff, template, rounds[i])
    requires entries != [] ==> !PromptEngine.SampleFails(vocab, diff, None)
  {
    && |entries| <= |rounds|
    && (entries != [] ==> MapsPrefix(entries, rounds, Entry(vocab, diff, template, sha256)))
  }

  /** Every logged entry records its round: its prompt, the prompt's remix and the remix's digest. */
  lemma LoggedRecords(vocab: Vocab, diff: int, template: string, sha256: string -> string,
                      entries: seq<HistoryEntry>, rounds: seq<Round>, i: nat)
    requires forall i :: 0 <= i < |rounds| ==> ValidRound(vocab, diff, template, rounds[i])
    requires entries != [] ==> !PromptEngine.SampleFails(vocab, diff, None)
    requires Logged(vocab, diff, template, sha256, entries, rounds) && i < |entries|
    ensures Records(vocab, diff, template, sha256, rounds[i], entries[i])
  {
    assert entries[i] == Entry(vocab, diff, template, sha256)(rounds[i]);
  }

  class RecursivePromptDaemon {
    /** The engine's vocabulary. */
    const vocab: Vocab
    /** `self.history`. */
    var history: seq<HistoryEntry>
    /** The history file: what was last written to it, or `None` while it does not exist. */
    var historyFile: Option<seq<HistoryEntry>>

    /** `__init__`: the history starts as the stored file, or empty when there is none. */
    constructor (vocab: Vocab, stored: Option<seq<HistoryEntry>>)
      ensures this.vocab == vocab && historyFile == stored && history == stored.GetOr([])
    {
      this.vocab := vocab;
      history := stored.GetOr([]);
      historyFile := stored;
    }

    /** `_save_history`: the file is overwritten with the in-memory history. */
    method SaveHistory()
      modifies this
      ensures history == old(history) && historyFile == Some(history)
    {
      historyFile := Some(history);
    }

    /** The body of the loop: generate one prompt, remix it and build its history entry. */
    method RecordRound(diff: int, template: string, round: Round, sha256: string -> string)
      returns (r: Result<HistoryEntry, GenError>)
      requires ValidRound(vocab, diff, template, round)
      ensures r.Failure? <==> PromptEngine.SampleFails(vocab, diff, None)
      ensures r.Success? ==> r.value == EntryOf(vocab, diff, template, sha256, round)
    {
      var original := PromptEngine.GeneratePrompt(vocab, diff, "", None, template, round.draws);
      if original.Failure? {
        return Failure(original.error);
      }
      var remixed := ReviewAndRemix(original.value, round.randint);
      r := Success(HistoryEntry(round.stamp, original.value, remixed, sha256(remixed)));
    }

    /**
     * One iteration of the loop over `rounds`, whose entries from `start` on
     * log the rounds so far: record the next round and append its entry.
     */
    method AppendRound(diff: int, template: string, rounds: seq<Round>, start: nat, sha256: string -> string)
      returns (r: Result<string, GenError>)
      requires forall i :: 0 <= i < |rounds| ==> ValidRound(vocab, diff, template, rounds[i])
      requires start <= |history| && |history| - start < |rounds|
      requires |history| > start ==> !PromptEngine.SampleFails(vocab, diff, None)
      requires Logged(vocab, diff, template, sha256, history[start..], rounds)
      modifies this
      ensures r.Failure? <==> PromptEngine.SampleFails(vocab, diff, None)
      ensures r.Failure? ==> history == old(history)
      ensures r.Success? ==>
                && |history| == |old(history)| + 1 && history[..|old(history)|] == old(history)
                && Logged(vocab, diff, template, sha256, history[start..], rounds)
                && r.value == history[|old(history)|].remixed
      ensures historyFile == old(historyFile)
    {
      var entries := history[start..];
      var entry := RecordRound(diff, template, rounds[|entries|], sha256);
      if entry.Failure? {
        return Failure(entry.error);
      }
      MapsPrefixSnoc(entries, rounds, Entry(vocab, diff, template, sha256), entry.value);
      history := history + [entry.value];
      assert history[start..] == entries + [entry.value];
      r := Success(entry.value.remixed);
    }

    /**
     * `run_recursive_loop(iterations, diff, template)`: the entries of the
     * first `iterations` rounds appended to the history in generation order,
     * their remixes returned as the batch, and the history saved once after
     * the loop. A negative `diff` over a non-empty vocabulary fails in the
     * first iteration, before anything is appended or saved.
     */
    method RunRecursiveLoop(iterations: int, diff: int, template: string, rounds: seq<Round>,
                            sha256: string -> string)
      returns (r: Result<seq<string>, GenError>)
      requires iterations <= |rounds|
      requires forall i :: 0 <= i < |rounds| ==> ValidRound(vocab, diff, template, rounds[i])
      modifies this
      ensures r.Failure? <==> iterations > 0 && PromptEngine.SampleFails(vocab, diff, None)
      ensures r.Failure? ==> history == old(history) && historyFile == old(historyFile)
      ensures r.Success? ==>
                var n, start := if iterations > 0 then iterations else 0, |old(history)|;
                && |history| == start + n && history[..start] == old(history)
                && Logged(vocab, diff, template, sha256, history[start..], rounds)
                && historyFile == Some(history)
                && |r.value| == n
                && forall i :: 0 <= i < n ==> r.value[i] == history[start + i].remixed
    {
      var n := if iterations > 0 then iterations else 0;
      var start := |history|;
      var batch: seq<string> := [];
      for i := 0 to n
        invariant i > 0 ==> !PromptEngine.SampleFails(vocab, diff, None)
        invariant |history| == start + i && history[..start] == old(history)
        invariant Logged(vocab, diff, template, sha256, history[start..], rounds)
        invariant historyFile == old(historyFile)
        invariant |batch| == i
        invariant forall j :: 0 <= j < i ==> batch[j] == history[start + j].remixed
      {
        var remixed := AppendRound(diff, template, rounds, start, sha256);
        if remixed.Failure? {
          return Failure(remixed.error);
        }
        batch := batch + [remixed.value];
      }
      SaveHistory();
      r := Success(batch);
    }
  }
}
