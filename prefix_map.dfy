/**
 * Logs built one step at a time: a sequence whose entries are a function of
 * the first inputs of another, in the same order.
 */
module PrefixMaps {
  /** `entries` are `f` of the first `|entries|` of `inputs`, in order. */
  ghost predicate MapsPrefix<I, E>(entries: seq<E>, inputs: seq<I>, f: I --> E)
    requires forall i :: 0 <= i < |inputs| ==> f.requires(inputs[i])
  {
    && |entries| <= |inputs|
    && forall i {:trigger f(inputs[i])} :: 0 <= i < |entries| ==> entries[i] == f(inputs[i])
  }

  /** Appending `f` of the next input extends the log by that input. */
  lemma MapsPrefixSnoc<I, E>(entries: seq<E>, inputs: seq<I>, f: I --> E, e: E)
    requires forall i :: 0 <= i < |inputs| ==> f.requires(inputs[i])
    requires MapsPrefix(entries, inputs, f) && |entries| < |inputs|
    requires e == f(inputs[|entries|])
    ensures MapsPrefix(entries + [e], inputs, f)
  {
    var es := entries + [e];
    forall i | 0 <= i < |es| ensures es[i] == f(inputs[i]) {
      if i < |entries| {
        assert es[i] == entries[i];
      }
    }
  }
}
