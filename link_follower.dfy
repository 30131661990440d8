// `LinkFollower` (internal/replacer/link_follower.go): every match of the
// follow pattern is followed to its final URL (query removed); without a
// destination pattern the followed URLs are the output, with one each
// followed URL is rewritten on its own.
module GoLinkFollower {
  import opened Base
  import opened Text
  import opened Regex
  import opened GoEngine
  import Follow

  datatype LinkFollower = LinkFollower(
    followRegex: Regex,
    destinationRegex: Option<Regex>,
    destinationReplacement: string,
    name: string)

  function NewLinkFollower(name: string, followRegex: Regex, destinationRegex: Option<Regex>, destinationReplacement: string): LinkFollower {
    LinkFollower(followRegex, destinationRegex, destinationReplacement, name)
  }

  function Name(r: LinkFollower): string {
    r.name
  }

  predicate Matches(r: LinkFollower, msg: string) {
    IsMatch(r.followRegex, msg)
  }

  /** The destination step: each followed URL rewritten on its own. */
  function Rewrites(re: Regex, urls: seq<string>, template: string): (out: seq<string>)
    ensures |out| == |urls|
  {
    seq(|urls|, k requires 0 <= k < |urls| => Rewrite(re, urls[k], template))
  }

  /** What `Replace` returns for a message. */
  function Replaced(r: LinkFollower, resolve: Follow.Resolver, msg: string): Reply {
    if !Matches(r, msg) then Reply(msg, NoMatch)
    else
      var links := FindAllString(r.followRegex, msg);
      if links == [] then Reply("", NoMatch)
      else match Follow.FollowLinks(resolve, links)
        case Err(e) => Reply(msg, FollowFailed(e))
        case Ok(urls) =>
          match r.destinationRegex
          case None => Reply(Join(urls, "\n"), Nil)
          case Some(d) => Reply(Join(Rewrites(d, urls, r.destinationReplacement), "\n"), Nil)
  }

  /** The destination loop of `Replace`: each followed URL rewritten into a fresh slice, by index. */
  method RewriteEach(d: Regex, urls: seq<string>, template: string) returns (lines: seq<string>)
    ensures lines == Rewrites(d, urls, template)
  {
    ghost var rewrites := Rewrites(d, urls, template);
    var newLinks := new string[|urls|];
    for i := 0 to newLinks.Length
      invariant newLinks[..i] == rewrites[..i]
    {
      newLinks[i] := ReplaceMatches(d, urls[i], template);
      assert newLinks[..i + 1] == newLinks[..i] + [rewrites[i]];
    }
    assert newLinks[..] == newLinks[..newLinks.Length];
    assert rewrites == rewrites[..|rewrites|];
    lines := newLinks[..];
  }

  /** `Replace`, copying the candidates and filling the rewritten links by index. */
  method Replace(r: LinkFollower, resolve: Follow.Resolver, msg: string) returns (output: string, err: ErrorValue)
    ensures Reply(output, err) == Replaced(r, resolve, msg)
  {
    if !Matches(r, msg) {
      return msg, NoMatch;
    }
    var matches := FindAllString(r.followRegex, msg);
    if |matches| == 0 {
      return "", NoMatch;
    }
    var links := new string[|matches|];
    for i := 0 to links.Length
      invariant links[..i] == matches[..i]
    {
      links[i] := matches[i];
    }
    assert links[..] == matches;
    var followed := Follow.FollowLinks(resolve, links[..]);
    if followed.Err? {
      return msg, FollowFailed(followed.error);
    }
    var urls := followed.value;
    if r.destinationRegex.None? {
      return Join(urls, "\n"), Nil;
    }
    var d := r.destinationRegex.value;
    var newLinks := RewriteEach(d, urls, r.destinationReplacement);
    return Join(newLinks, "\n"), Nil;
  }

  /** The followed destination of each match, query removed, in match order ("" where following fails). */
  function Followed(r: LinkFollower, resolve: Follow.Resolver, msg: string): seq<string> {
    var links := FindAllString(r.followRegex, msg);
    seq(|links|, k requires 0 <= k < |links| =>
      if resolve(links[k]).Ok? then Follow.Render(Follow.StripQuery(resolve(links[k]).value)) else "")
  }

  /** A message the follow pattern misses comes back with `ErrNoMatch`, whatever the resolver would do. */
  lemma NoMatchFollowsNothing(r: LinkFollower, resolve: Follow.Resolver, other: Follow.Resolver, msg: string)
    requires !Matches(r, msg)
    ensures Replaced(r, resolve, msg) == Replaced(r, other, msg) == Reply(msg, NoMatch)
  {
  }

  /**
   * If any candidate cannot be followed, the message comes back unchanged
   * with the error of the first candidate, in match order, that cannot be
   * followed: there is no partial output.
   */
  lemma FailureKeepsMessage(r: LinkFollower, resolve: Follow.Resolver, msg: string, k: nat)
    requires k < |FindAllString(r.followRegex, msg)|
    requires resolve(FindAllString(r.followRegex, msg)[k]).Err?
    ensures Replaced(r, resolve, msg).output == msg
    ensures Replaced(r, resolve, msg).err.FollowFailed?
    ensures var links := FindAllString(r.followRegex, msg);
      exists j :: 0 <= j <= k && resolve(links[j]).Err?
        && (forall i :: 0 <= i < j ==> resolve(links[i]).Ok?)
        && Replaced(r, resolve, msg).err == FollowFailed(resolve(links[j]).error)
  {
    FindAllFirst(r.followRegex, msg);
  }

  /** Without a destination pattern the output is the followed URLs, query removed, joined by newlines. */
  lemma NoDestinationJoins(r: LinkFollower, resolve: Follow.Resolver, msg: string)
    requires Matches(r, msg) && r.destinationRegex.None?
    requires forall l :: l in FindAllString(r.followRegex, msg) ==> resolve(l).Ok?
    ensures Replaced(r, resolve, msg) == Reply(Join(Followed(r, resolve, msg), "\n"), Nil)
  {
    FindAllFirst(r.followRegex, msg);
    var links := FindAllString(r.followRegex, msg);
    assert forall k :: 0 <= k < |links| ==> resolve(links[k]).Ok?;
    assert Follow.FollowLinks(resolve, links).value == Followed(r, resolve, msg);
  }

  /**
   * With a destination pattern there is one output line per followed URL
   * (when no rewrite contains a newline): the URL rewritten on its own, so
   * spoiler delimiters are decided by the URL and not by the message, and
   * a URL the destination pattern misses gives an empty line.
   */
  lemma DestinationPerUrl(r: LinkFollower, resolve: Follow.Resolver, msg: string)
    requires Matches(r, msg) && r.destinationRegex.Some?
    requires forall l :: l in FindAllString(r.followRegex, msg) ==> resolve(l).Ok?
    requires forall u :: u in Followed(r, resolve, msg) ==> '\n' !in Rewrite(r.destinationRegex.value, u, r.destinationReplacement)
    ensures Replaced(r, resolve, msg).err == Nil
    ensures var lines := Split(Replaced(r, resolve, msg).output, '\n');
      var urls := Followed(r, resolve, msg);
      |lines| == |urls| && forall k :: 0 <= k < |lines| ==>
        lines[k] == Rewrite(r.destinationRegex.value, urls[k], r.destinationReplacement)
        && (!IsMatch(r.destinationRegex.value, urls[k]) ==> lines[k] == "")
  {
    FindAllFirst(r.followRegex, msg);
    var links := FindAllString(r.followRegex, msg);
    assert forall k :: 0 <= k < |links| ==> resolve(links[k]).Ok?;
    var urls := Followed(r, resolve, msg);
    assert Follow.FollowLinks(resolve, links).value == urls;
    var d := r.destinationRegex.value;
    var rs := Rewrites(d, urls, r.destinationReplacement);
    assert forall k :: 0 <= k < |rs| ==> '\n' !in rs[k] by {
      forall k | 0 <= k < |rs| ensures '\n' !in rs[k] {
        assert urls[k] in urls;
      }
    }
    SplitJoin(rs, '\n');
    forall k | 0 <= k < |urls| && !IsMatch(d, urls[k])
      ensures rs[k] == ""
    {
      RewriteWithoutMatch(d, urls[k], r.destinationReplacement);
    }
  }
}
