// `Deferred` (internal/replacer/deferred_replacer.go): a wrapped replacer
// followed by a literal multi-pair substitution of its successful output.
module GoDeferred {
  import opened Text
  import opened GoEngine

  /**
   * `Replace` once the wrapped replacer has answered: an error (including
   * `ErrNoMatch`) is passed on with the wrapped output untouched; a
   * success has its output passed once through the literal replacer.
   */
  function AfterChild(child: Reply, pairs: seq<Pair>): (out: Reply)
    ensures child.err != Nil ==> out == child
    ensures child.err == Nil ==> out == Reply(ReplacePairs(child.output, pairs), Nil)
  {
    if child.err != Nil then child else Reply(ReplacePairs(child.output, pairs), Nil)
  }

  /** When none of the old strings occurs in the wrapped output, that output is returned as it is. */
  lemma UnchangedWithoutOldStrings(child: Reply, pairs: seq<Pair>)
    requires forall k :: 0 <= k < |pairs| ==> !Contains(child.output, pairs[k].from)
    ensures AfterChild(child, pairs) == child
  {
    ReplacePairsAbsent(child.output, pairs);
  }
}
