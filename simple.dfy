// `Simple` (internal/replacer/simple.go): a named pattern and template;
// a message that does not match is returned with `ErrNoMatch`, any other
// is rewritten by `replaceMatches`.
module GoSimple {
  import opened Regex
  import opened GoEngine

  datatype Simple = Simple(regex: Regex, replacement: string, name: string)

  function NewSimple(name: string, regex: Regex, replacement: string): Simple {
    Simple(regex, replacement, name)
  }

  function Name(r: Simple): string {
    r.name
  }

  /** `Name` returns the name given to `NewSimple`. */
  lemma NameOfNewSimple(name: string, regex: Regex, replacement: string)
    ensures Name(NewSimple(name, regex, replacement)) == name
  {
  }

  /** `Matches`: the pattern occurs somewhere in the message. */
  predicate Matches(r: Simple, msg: string) {
    IsMatch(r.regex, msg)
  }

  /** `Matches` holds exactly when the pattern has at least one match. */
  lemma MatchesIffFound(r: Simple, msg: string)
    ensures Matches(r, msg) <==> FindAll(r.regex, msg) != []
  {
    FindAllFirst(r.regex, msg);
  }

  /**
   * `Replace`: `ErrNoMatch` exactly when `Matches` fails, and then the
   * message comes back unchanged; otherwise a nil error and the rewrite.
   */
  function Replace(r: Simple, msg: string): (out: Reply)
    ensures out.err == NoMatch <==> !Matches(r, msg)
    ensures out.err == Nil <==> Matches(r, msg)
    ensures out.err == NoMatch ==> out.output == msg
    ensures out.err == Nil ==> out.output == Rewrite(r.regex, msg, r.replacement)
  {
    if !Matches(r, msg) then Reply(msg, NoMatch)
    else Reply(Rewrite(r.regex, msg, r.replacement), Nil)
  }
}
