// `RegexReplacer` of the Rust engine (src/replacer/replacer_regex.rs):
// each match of the pattern, taken on its own, has its leftmost match
// replaced by the template (`replace`, not `replace_all`); the results
// are joined by newlines and no spoiler delimiters are added. The
// template is read the Rust way (module RustTemplate).
module RustRegex {
  import opened Base
  import opened Text
  import opened Regex
  import opened RustTemplate
  import GoEngine
  import Patterns

  datatype RegexReplacer = RegexReplacer(name: string, matchRegex: Regex, replacement: string)

  /** `matches`: the pattern occurs somewhere in the message. */
  predicate Matches(r: RegexReplacer, message: string) {
    IsMatch(r.matchRegex, message)
  }

  /** `name`: the configured name. */
  function Name(r: RegexReplacer): string {
    r.name
  }

  /** One entry per match, in message order: the matched text with its leftmost match replaced. */
  function Entries(r: RegexReplacer, message: string): (es: seq<string>)
    ensures |es| == |FindAll(r.matchRegex, message)|
  {
    var links := FindAllString(r.matchRegex, message);
    seq(|links|, k requires 0 <= k < |links| => ReplaceFirst(r.matchRegex, links[k], r.replacement))
  }

  /** `replace`: never an error; the message itself when nothing matches. */
  function Replace(r: RegexReplacer, message: string): (out: string)
    ensures !Matches(r, message) ==> out == message
  {
    if !Matches(r, message) then message else Join(Entries(r, message), "\n")
  }

  /**
   * With a match, the output has one line per match, in order: line k is
   * the k-th matched text with its first match replaced. (Provided no
   * entry itself contains a newline.)
   */
  lemma ReplaceLines(r: RegexReplacer, message: string)
    requires Matches(r, message)
    requires forall k :: 0 <= k < |FindAll(r.matchRegex, message)| ==>
      '\n' !in ReplaceFirst(r.matchRegex, MatchText(message, FindAll(r.matchRegex, message)[k]), r.replacement)
    ensures var lines := Split(Replace(r, message), '\n');
      |lines| == |FindAll(r.matchRegex, message)|
      && forall k :: 0 <= k < |lines| ==>
        lines[k] == ReplaceFirst(r.matchRegex, MatchText(message, FindAll(r.matchRegex, message)[k]), r.replacement)
  {
    FindAllFirst(r.matchRegex, message);
    SplitJoin(Entries(r, message), '\n');
  }

  /**
   * Against the Go `replaceMatches` on the same pattern and template:
   * when the template's references read the same in both libraries
   * (`$01`, `${a-b}` do not: see `ZeroPaddedRef`, `BracedAnyText`) and
   * each matched text holds exactly one match of the pattern, every Go
   * entry is the Rust entry, put between `||` delimiters exactly when the
   * message contains `||`; so without `||` the two outputs agree. A Rust
   * pattern always has unique group names.
   */
  lemma AgainstGoRewrite(r: RegexReplacer, message: string)
    requires Matches(r, message)
    requires UniqueNames(r.matchRegex) && Portable(r.replacement)
    requires forall k :: 0 <= k < |FindAll(r.matchRegex, message)| ==>
      |FindAll(r.matchRegex, MatchText(message, FindAll(r.matchRegex, message)[k]))| == 1
    ensures var es := Entries(r, message);
      GoEngine.Entries(r.matchRegex, message, r.replacement)
      == seq(|es|, k requires 0 <= k < |es| => if Contains(message, "||") then Wrap(es[k]) else es[k])
    ensures !Contains(message, "||") ==> Replace(r, message) == GoEngine.Rewrite(r.matchRegex, message, r.replacement)
  {
    var re := r.matchRegex;
    var es := Entries(r, message);
    var gs := GoEngine.Entries(re, message, r.replacement);
    var links := FindAllString(re, message);
    forall k | 0 <= k < |links|
      ensures ReplaceAllString(re, links[k], r.replacement) == es[k]
    {
      ReplaceSingleMatch(re, links[k], r.replacement);
      ReplaceAllAgrees(re, links[k], r.replacement);
    }
    FindAllFirst(re, message);
    if !Contains(message, "||") {
      assert gs == es;
    }
  }

  /**
   * A message that starts with a link the pattern matches up to `d` (in
   * the same way when the link stands alone), with no "http" after it,
   * becomes the template expanded against that link, with no spoiler
   * delimiters even when the message has them.
   */
  lemma SoleLink(r: RegexReplacer, s: string, d: nat, c: Capture)
    requires Patterns.StartsWithHttp(r.matchRegex)
    requires 0 < d <= |s| && c.end == d && SpansWithin(c.groups, d)
    requires r.matchRegex.at(s, 0) == Some(c) && r.matchRegex.at(s[..d], 0) == Some(c)
    requires !Contains(s[d..], "http")
    ensures Matches(r, s)
    ensures Replace(r, s) == RustExpand(r.matchRegex, r.replacement, s[..d], Match(0, d, [Some(Span(0, d))] + c.groups))
  {
    var re := r.matchRegex;
    var link := s[..d];
    var m := Match(0, d, [Some(Span(0, d))] + c.groups);
    Patterns.SoleLinkFound(re, s, d, c);
    assert MatchAt(re, link, 0) == Some(m);
    assert Search(re, link, 0) == Some(m);
    assert link[..0] == [] && link[d..] == [];
    var x := RustExpand(re, r.replacement, link, m);
    assert ReplaceFirst(re, link, r.replacement) == link[..0] + x + link[d..];
    assert link[..0] + x + link[d..] == x;
    assert FindAllString(re, s)[0] == link;
    var es := Entries(r, s);
    assert |es| == 1 && es[0] == ReplaceFirst(re, FindAllString(re, s)[0], r.replacement);
    assert es == [x];
  }
}
