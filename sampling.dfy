/**
 * The vocabulary bank and what `random.sample` / `random.choice` can return.
 *
 * A vocabulary is the JSON object the engine loads: category names, in
 * insertion order, each with its ordered list of terms. Randomness is not
 * executed: a draw is the list of positions that `random.sample` picked,
 * supplied by the caller and constrained to what the library can return.
 */
module Sampling {
  import opened Wrappers

  datatype Category = Category(name: string, words: seq<string>)

  type Vocab = seq<Category>

  /** The exceptions sampling raises: `ValueError` from `random.sample` on a
      negative size, `IndexError` from `random.choice` on an empty list. */
  datatype GenError = NegativeSampleSize | ChoiceFromEmpty

  /** `list(vocab.keys())`: the category names in insertion order. */
  function Names(vocab: Vocab): (names: seq<string>)
  {
    seq(|vocab|, i requires 0 <= i < |vocab| => vocab[i].name)
  }

  /** `vocab.get(name)`. */
  function WordsOf(vocab: Vocab, name: string): Option<seq<string>>
  {
    if vocab == [] then None
    else if vocab[0].name == name then Some(vocab[0].words)
    else WordsOf(vocab[1..], name)
  }

  /** `name in vocab` holds exactly for the names `keys()` lists. */
  lemma {:induction false} WordsOfNames(vocab: Vocab, name: string)
    ensures WordsOf(vocab, name).Some? <==> name in Names(vocab)
    decreases |vocab|
  {
    if vocab != [] {
      WordsOfNames(vocab[1..], name);
      assert Names(vocab) == [vocab[0].name] + Names(vocab[1..]);
    }
  }

  /** `min(diff_level, len(words))`, the size handed to `random.sample`. */
  function SampleSize(d: int, n: nat): int
  {
    if d < n then d else n
  }

  predicate InRange(picks: seq<nat>, n: nat)
  {
    forall i :: 0 <= i < |picks| ==> picks[i] < n
  }

  predicate Distinct<T(==)>(xs: seq<T>)
  {
    forall i, j :: 0 <= i < j < |xs| ==> xs[i] != xs[j]
  }

  /** `picks` is a possible outcome of `random.sample(range(n), k)`: k distinct positions below n. */
  predicate IsSample(picks: seq<nat>, n: nat, k: int)
  {
    |picks| == k && InRange(picks, n) && Distinct(picks)
  }

  /** The terms at the drawn positions, in draw order. */
  function Select(words: seq<string>, picks: seq<nat>): seq<string>
    requires InRange(picks, |words|)
  {
    seq(|picks|, i requires 0 <= i < |picks| => words[picks[i]])
  }

  /** A sample holds terms of the list it was drawn from, and no term twice when the list has none twice. */
  lemma SelectFromWords(words: seq<string>, picks: seq<nat>)
    requires InRange(picks, |words|) && Distinct(picks)
    ensures |Select(words, picks)| == |picks|
    ensures forall t :: t in Select(words, picks) ==> t in words
    ensures Distinct(words) ==> Distinct(Select(words, picks))
  {
  }

  /** `random.sample(words, k)` can answer for every k from 0 to `len(words)`. */
  lemma SampleExists(n: nat, k: nat)
    requires k <= n
    ensures IsSample(seq(k, i => i), n, k)
  {
  }

  /**
   * Distinct positions below n are at most n of them: a sample never holds
   * more terms than its list.
   */
  lemma {:induction false} SampleNeverExceeds(picks: seq<nat>, n: nat)
    requires InRange(picks, n) && Distinct(picks)
    ensures |picks| <= n
    decreases n
  {
    if picks != [] {
      var v := picks[0];
      var rest := picks[1..];
      // rename n - 1 to v: the rest then lies below n - 1 and stays distinct
      var renamed := seq(|rest|, i requires 0 <= i < |rest| => if rest[i] == n - 1 then v else rest[i]);
      forall i | 0 <= i < |rest| ensures renamed[i] < n - 1 {
        assert rest[i] == picks[i + 1] && picks[i + 1] != picks[0];
      }
      forall i, j | 0 <= i < j < |rest| ensures renamed[i] != renamed[j] {
        assert rest[i] == picks[i + 1] && rest[j] == picks[j + 1];
        assert picks[i + 1] != picks[0] && picks[j + 1] != picks[0];
      }
      SampleNeverExceeds(renamed, n - 1);
    }
  }
}
