/**
 * Order-preserving filters over a list, and the subsequence relation they
 * produce: the semantics of `[x for x in xs if p(x)]`.
 */
module Filters {
  /** `[x for x in xs if p(x)]`. */
  function Filter<T(!new)>(xs: seq<T>, p: T -> bool): (r: seq<T>)
    ensures |r| <= |xs|
    ensures forall x :: x in r <==> x in xs && p(x)
  {
    if xs == [] then []
    else
      var rest := Filter(xs[1..], p);
      assert forall x :: x in xs <==> x == xs[0] || x in xs[1..];
      if p(xs[0]) then [xs[0]] + rest else rest
  }

  /** `xs` is `ys` with some elements left out, the rest kept in order. */
  ghost predicate Subsequence<T>(xs: seq<T>, ys: seq<T>)
    decreases |ys|
  {
    if xs == [] then true
    else if ys == [] then false
    else (xs[0] == ys[0] && Subsequence(xs[1..], ys[1..])) || Subsequence(xs, ys[1..])
  }

  /** Filtering keeps the order of what it keeps. */
  lemma {:induction false} FilterIsSubsequence<T(!new)>(xs: seq<T>, p: T -> bool)
    ensures Subsequence(Filter(xs, p), xs)
    decreases |xs|
  {
    if xs != [] {
      FilterIsSubsequence(xs[1..], p);
      var rest := Filter(xs[1..], p);
      if p(xs[0]) {
        assert ([xs[0]] + rest)[1..] == rest;
      } else {
        SubsequenceOfTail(rest, xs);
      }
    }
  }

  /** A subsequence of the tail is a subsequence of the whole. */
  lemma SubsequenceOfTail<T>(xs: seq<T>, ys: seq<T>)
    requires ys != [] && Subsequence(xs, ys[1..])
    ensures Subsequence(xs, ys)
  {
  }

  /** Filtering the concatenation is concatenating the filters: order is kept across an append. */
  lemma {:induction false} FilterAppend<T(!new)>(xs: seq<T>, ys: seq<T>, p: T -> bool)
    ensures Filter(xs + ys, p) == Filter(xs, p) + Filter(ys, p)
    decreases |xs|
  {
    if xs != [] {
      var zs := xs + ys;
      assert zs[0] == xs[0] && zs[1..] == xs[1..] + ys;
      FilterAppend(xs[1..], ys, p);
      var a, b := Filter(xs[1..], p), Filter(ys, p);
      assert [xs[0]] + (a + b) == ([xs[0]] + a) + b;
    } else {
      assert xs + ys == ys;
    }
  }

  /** A list whose every element passes comes back whole. */
  lemma {:induction false} FilterAll<T(!new)>(xs: seq<T>, p: T -> bool)
    requires forall i :: 0 <= i < |xs| ==> p(xs[i])
    ensures Filter(xs, p) == xs
    decreases |xs|
  {
    if xs != [] {
      FilterAll(xs[1..], p);
      assert [xs[0]] + xs[1..] == xs;
    }
  }
}

/**
 * core/memory_vault.py: an append-only store of prompts with their
 * timestamp, category and tags, saved to its file after every addition,
 * and two queries that select entries by tag or by category.
 *
 * The vault file is the value last written to it, `None` while it does not
 * exist; `datetime.now()` is the timestamp string it produced.
 */
module MemoryVault {
  import opened Wrappers
  import opened Filters

  /**
   * One record of the vault. Records read back from the file may lack keys:
   * a missing or null category is `None`, a missing tag list is `None`.
   */
  datatype VaultEntry = VaultEntry(prompt: string, timestamp: string,
                                   category: Option<string>, tags: Option<seq<string>>)

  /** The category `add_entry` uses when the caller gives none. */
  const DefaultCategory := "general"

  /** `p.get("tags", [])`. */
  function TagsOf(e: VaultEntry): seq<string>
  {
    e.tags.GetOr([])
  }

  /** `tag in p.get("tags", [])`. */
  predicate HasTag(e: VaultEntry, tag: string)
  {
    tag in TagsOf(e)
  }

  /** `p.get("category") == category`. */
  predicate InCategory(e: VaultEntry, category: Option<string>)
  {
    e.category == category
  }

  /** The record `add_entry` builds: `tags or []` stores a missing tag list as the empty one. */
  function NewEntry(prompt: string, stamp: string, category: Option<string>, tags: Option<seq<string>>)
    : (e: VaultEntry)
    ensures e.prompt == prompt && e.timestamp == stamp && e.category == category
    ensures e.tags.Some? && (tags.None? ==> TagsOf(e) == [])
    ensures forall t :: HasTag(e, t) <==> tags.Some? && t in tags.value
  {
    VaultEntry(prompt, stamp, category, Some(tags.GetOr([])))
  }

  /** `search_by_tag(tag)` over a list of records. */
  function SearchByTag(vault: seq<VaultEntry>, tag: string): seq<VaultEntry>
  {
    Filter(vault, e => HasTag(e, tag))
  }

  /** `filter_by_category(category)` over a list of records. */
  function FilterByCategory(vault: seq<VaultEntry>, category: Option<string>): seq<VaultEntry>
  {
    Filter(vault, e => InCategory(e, category))
  }

  /**
   * `search_by_tag` returns exactly the records that carry the tag, in vault
   * order: a subsequence of the vault, and records added later come after.
   */
  lemma SearchByTagSpec(vault: seq<VaultEntry>, more: seq<VaultEntry>, tag: string)
    ensures forall e :: e in SearchByTag(vault, tag) <==> e in vault && HasTag(e, tag)
    ensures Subsequence(SearchByTag(vault, tag), vault)
    ensures SearchByTag(vault + more, tag) == SearchByTag(vault, tag) + SearchByTag(more, tag)
  {
    FilterIsSubsequence(vault, e => HasTag(e, tag));
    FilterAppend(vault, more, e => HasTag(e, tag));
  }

  /**
   * `filter_by_category` returns exactly the records of that category, in
   * vault order: a subsequence of the vault, and records added later come after.
   */
  lemma FilterByCategorySpec(vault: seq<VaultEntry>, more: seq<VaultEntry>, category: Option<string>)
    ensures forall e :: e in FilterByCategory(vault, category) <==> e in vault && e.category == category
    ensures Subsequence(FilterByCategory(vault, category), vault)
    ensures FilterByCategory(vault + more, category)
         == FilterByCategory(vault, category) + FilterByCategory(more, category)
  {
    FilterIsSubsequence(vault, e => InCategory(e, category));
    FilterAppend(vault, more, e => InCategory(e, category));
  }

  /** A vault holding only one category's records comes back whole from that category's filter. */
  lemma SingleCategoryFilter(vault: seq<VaultEntry>, category: Option<string>)
    requires forall i :: 0 <= i < |vault| ==> vault[i].category == category
    ensures FilterByCategory(vault, category) == vault
  {
    FilterAll(vault, e => InCategory(e, category));
  }

  class PromptMemoryVault {
    /** `self.vault`. */
    var vault: seq<VaultEntry>
    /** The vault file: what was last written to it, or `None` while it does not exist. */
    var vaultFile: Option<seq<VaultEntry>>

    /** `__init__` with `_load_vault`: the stored file, or empty when there is none. */
    constructor (stored: Option<seq<VaultEntry>>)
      ensures vaultFile == stored && vault == stored.GetOr([])
    {
      vault := stored.GetOr([]);
      vaultFile := stored;
    }

    /** `_save_vault`: the file is overwritten with the in-memory vault. */
    method SaveVault()
      modifies this
      ensures vault == old(vault) && vaultFile == Some(vault)
    {
      vaultFile := Some(vault);
    }

    /**
     * `add_entry(prompt, category, tags)`: the new record is appended after
     * all earlier ones, which stay as they were, the file is rewritten to
     * match, and the record is returned.
     */
    method AddEntry(prompt: string, stamp: string, category: Option<string>, tags: Option<seq<string>>)
      returns (entry: VaultEntry)
      modifies this
      ensures entry == NewEntry(prompt, stamp, category, tags)
      ensures vault == old(vault) + [entry] && vaultFile == Some(vault)
    {
      entry := NewEntry(prompt, stamp, category, tags);
      vault := vault + [entry];
      SaveVault();
    }

    /** `add_entry(prompt, tags=tags)`: the category defaults to "general". */
    method AddEntryDefault(prompt: string, stamp: string, tags: Option<seq<string>>) returns (entry: VaultEntry)
      modifies this
      ensures entry == NewEntry(prompt, stamp, Some(DefaultCategory), tags)
      ensures vault == old(vault) + [entry] && vaultFile == Some(vault)
    {
      entry := AddEntry(prompt, stamp, Some(DefaultCategory), tags);
    }

    /**
     * `search_by_tag(tag)` on the current vault: exactly the records that
     * carry the tag, in vault order. It changes nothing.
     */
    method Search(tag: string) returns (r: seq<VaultEntry>)
      ensures forall e :: e in r <==> e in vault && HasTag(e, tag)
      ensures Subsequence(r, vault)
      ensures r == SearchByTag(vault, tag)
    {
      r := SearchByTag(vault, tag);
      SearchByTagSpec(vault, [], tag);
    }

    /**
     * `filter_by_category(category)` on the current vault: exactly the
     * records of that category, in vault order. It changes nothing.
     */
    method FilterCategory(category: Option<string>) returns (r: seq<VaultEntry>)
      ensures forall e :: e in r <==> e in vault && e.category == category
      ensures Subsequence(r, vault)
      ensures r == FilterByCategory(vault, category)
    {
      r := FilterByCategory(vault, category);
      FilterByCategorySpec(vault, [], category);
    }
  }

  /**
   * After an addition, a query returns what it returned before, followed by
   * the new record exactly when it matches.
   */
  lemma QueriesAfterAdd(vault: seq<VaultEntry>, e: VaultEntry, tag: string, category: Option<string>)
    ensures SearchByTag(vault + [e], tag) == SearchByTag(vault, tag) + (if HasTag(e, tag) then [e] else [])
    ensures FilterByCategory(vault + [e], category)
         == FilterByCategory(vault, category) + (if e.category == category then [e] else [])
  {
    SearchByTagSpec(vault, [e], tag);
    FilterByCategorySpec(vault, [e], category);
  }
}
