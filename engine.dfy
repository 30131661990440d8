// The shared machinery of the Go engine (internal/replacer/replacer.go):
// rewriting every match of a pattern, the registry scan, the replacement
// chain, and the three replacers of the older single-result interface.
module GoEngine {
  import opened Base
  import opened Text
  import opened Regex
  import Lists
  import Follow

  /** The `error` half of a `(string, error)` result: nil, `ErrNoMatch`, or why following links failed. */
  datatype ErrorValue = Nil | NoMatch | FollowFailed(reason: string)

  /** A `(string, error)` result. */
  datatype Reply = Reply(output: string, err: ErrorValue)

  /** One entry of the output: the template applied to a matched link alone, in spoilers if asked. */
  function Entry(re: Regex, link: string, template: string, spoiler: bool): string {
    var out := ReplaceAllString(re, link, template);
    if spoiler then Wrap(out) else out
  }

  /** The entries of `Rewrite`, one per match of `re` in `message`, in order. */
  function Entries(re: Regex, message: string, template: string): (es: seq<string>)
    ensures |es| == |FindAll(re, message)|
  {
    var links := FindAllString(re, message);
    var spoiler := Contains(message, "||");
    seq(|links|, k requires 0 <= k < |links| => Entry(re, links[k], template, spoiler))
  }

  /** `replaceMatches`: "" without a match, otherwise the entries joined by newlines. */
  function Rewrite(re: Regex, message: string, template: string): string {
    if FindAllString(re, message) == [] then "" else Join(Entries(re, message, template), "\n")
  }

  /** `replaceMatches`, filling the entries slice by index. */
  method ReplaceMatches(re: Regex, message: string, template: string) returns (out: string)
    ensures out == Rewrite(re, message, template)
  {
    var matches := FindAllString(re, message);
    if |matches| == 0 {
      return "";
    }
    var links := new string[|matches|];
    var i := 0;
    while i < links.Length
      invariant 0 <= i <= links.Length
      invariant links[..i] == Entries(re, message, template)[..i]
    {
      var link := ReplaceAllString(re, matches[i], template);
      if Contains(message, "||") {
        link := Wrap(link);
      }
      links[i] := link;
      i := i + 1;
    }
    assert links[..] == Entries(re, message, template);
    out := Join(links[..], "\n");
  }

  /** Without a match the rewrite is empty. */
  lemma RewriteWithoutMatch(re: Regex, message: string, template: string)
    requires !IsMatch(re, message)
    ensures Rewrite(re, message, template) == ""
  {
    FindAllFirst(re, message);
  }

  lemma NoNewlineInWrap(s: string)
    requires '\n' !in s
    ensures '\n' !in Wrap(s)
  {
  }

  /**
   * With a match, the output has one line per match, in order: line k is
   * the template expanded against the k-th matched text alone, between
   * `||` delimiters exactly when the message contains `||`. (Provided no
   * expansion itself contains a newline.)
   */
  lemma RewriteLines(re: Regex, message: string, template: string)
    requires IsMatch(re, message)
    requires forall k :: 0 <= k < |FindAll(re, message)| ==>
      '\n' !in ReplaceAllString(re, MatchText(message, FindAll(re, message)[k]), template)
    ensures var lines := Split(Rewrite(re, message, template), '\n');
      |lines| == |FindAll(re, message)|
      && forall k :: 0 <= k < |lines| ==>
        var expanded := ReplaceAllString(re, MatchText(message, FindAll(re, message)[k]), template);
        lines[k] == if Contains(message, "||") then Wrap(expanded) else expanded
  {
    FindAllFirst(re, message);
    var es := Entries(re, message, template);
    forall k | 0 <= k < |es|
      ensures '\n' !in es[k]
    {
      var expanded := ReplaceAllString(re, MatchText(message, FindAll(re, message)[k]), template);
      if Contains(message, "||") {
        NoNewlineInWrap(expanded);
      }
    }
    SplitJoin(es, '\n');
  }

  /**
   * A message whose only match starts it, and whose matched text on its
   * own matches in the same way, is rewritten to that match's expansion.
   */
  lemma RewriteOnlyMatch(re: Regex, message: string, template: string, m: Match, m': Match)
    requires FindAll(re, message) == [m] && m.start == 0 && m.end <= |message|
    requires FindAll(re, message[..m.end]) == [m'] && m'.start == 0 && m'.end == m.end
    ensures Rewrite(re, message, template) ==
      var out := Expand(re, template, message[..m.end], m');
      if Contains(message, "||") then Wrap(out) else out
  {
    var link := message[..m.end];
    assert FindAllString(re, message) == [link];
    ReplaceWholeMatch(re, link, template, m');
    assert Entries(re, message, template) == [Entry(re, link, template, Contains(message, "||"))];
  }

  // The replacers of the single-result interface.

  /**
   * `genericReplacer` (a pattern and a template), `discordReplacer` (a
   * generic replacer plus a pattern whose match vetoes the rewrite) and
   * `redditReplacer` (links followed, template unused).
   */
  datatype Legacy =
    | Generic(regex: Regex, replacement: string)
    | DiscordVeto(veto: Regex, regex: Regex, replacement: string)
    | RedditFollow(regex: Regex, replacement: string)

  /** `Matches`; `discordReplacer` uses the one promoted from its embedded generic replacer. */
  predicate LegacyMatches(r: Legacy, msg: string) {
    IsMatch(r.regex, msg)
  }

  /** `Replace` of each older replacer, with the resolver standing in for the HTTP client. */
  function LegacyReplace(r: Legacy, resolve: Follow.Resolver, msg: string): (out: string)
    ensures !LegacyMatches(r, msg) ==> out == msg
    ensures r.DiscordVeto? && IsMatch(r.veto, msg) ==> out == msg
    ensures r.Generic? && LegacyMatches(r, msg) ==> out == Rewrite(r.regex, msg, r.replacement)
    ensures r.DiscordVeto? && !IsMatch(r.veto, msg) && LegacyMatches(r, msg) ==>
      out == Rewrite(r.regex, msg, r.replacement)
    ensures r.RedditFollow? && LegacyMatches(r, msg) ==>
      match Follow.FollowLinks(resolve, FindAllString(r.regex, msg))
      case Err(_) => out == msg
      case Ok(urls) => out == Join(urls, "\n")
  {
    match r
    case Generic(re, t) =>
      if !IsMatch(re, msg) then msg else Rewrite(re, msg, t)
    case DiscordVeto(veto, re, t) =>
      if IsMatch(veto, msg) then msg
      else if !IsMatch(re, msg) then msg
      else Rewrite(re, msg, t)
    case RedditFollow(re, _) =>
      if !IsMatch(re, msg) then msg
      else
        var matches := FindAllString(re, msg);
        if matches == [] then ""
        else match Follow.FollowLinks(resolve, matches)
          case Err(_) => msg
          case Ok(urls) => Join(urls, "\n")
  }

  /**
   * The `redditReplacer` case against the Go `followLinks` it calls, as
   * written (internal/replacer/replacer.go:212-258): once two or more
   * links resolve the source never answers; whenever it does answer, the
   * answer is the one `LegacyReplace` gives.
   */
  lemma LegacyRedditAsWritten(r: Legacy, resolve: Follow.Resolver, msg: string)
    requires r.RedditFollow? && LegacyMatches(r, msg)
    ensures var links := FindAllString(r.regex, msg);
      var w := Follow.FollowLinksAsWritten(resolve, links, [], None);
      (Follow.Successes(resolve, links) >= 2 ==> w == Follow.Hangs)
      && (w.Failed? ==> LegacyReplace(r, resolve, msg) == msg)
      && (w.Followed? ==> LegacyReplace(r, resolve, msg) == Join(w.urls, "\n"))
  {
    var links := FindAllString(r.regex, msg);
    FindAllFirst(r.regex, msg);
    assert links != [];
    if Follow.Successes(resolve, links) >= 2 {
      Follow.AsWrittenHangs(resolve, links);
    }
    if Follow.FollowLinksAsWritten(resolve, links, [], None) != Follow.Hangs {
      Follow.AsWrittenAgrees(resolve, links);
    }
  }

  // Registry scan and replacement chain, generic over the replacer type.

  /** `findReplacers`: the registered replacers that match `content`, in registration order. */
  method FindReplacers<R>(registry: seq<R>, content: string, matches: (R, string) -> bool) returns (out: seq<R>)
    ensures out == Lists.Filter(registry, content, matches)
  {
    out := [];
    var i := 0;
    while i < |registry|
      invariant 0 <= i <= |registry|
      invariant Lists.Filter(registry, content, matches) == out + Lists.Filter(registry[i..], content, matches)
    {
      assert registry[i..][1..] == registry[i + 1..];
      if matches(registry[i], content) {
        out := out + [registry[i]];
      }
      i := i + 1;
    }
  }

  /** `Message`: the content and the replacers chosen for it. */
  datatype Message<R> = Message(content: string, replacers: seq<R>)

  /** `ReplaceAll`: each replacer's output is the next replacer's input. */
  method ReplaceAll<R, E>(m: Message<R>, env: E, replace: (R, E, string) -> string) returns (out: string)
    ensures out == Lists.Thread(m.content, m.replacers, env, replace)
    ensures m.replacers == [] ==> out == m.content
  {
    out := m.content;
    for i := 0 to |m.replacers|
      invariant Lists.Thread(m.content, m.replacers, env, replace) == Lists.Thread(out, m.replacers[i..], env, replace)
    {
      assert m.replacers[i..][1..] == m.replacers[i + 1..];
      out := replace(m.replacers[i], env, out);
    }
    assert m.replacers[|m.replacers|..] == [];
  }
}
