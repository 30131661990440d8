// Pieces shared by the hand-written recognizers of the provider patterns:
// the `https?://` prefix, and facts about where a recognizer can start.
module Patterns {
  import opened Base
  import opened Text
  import opened Regex
  import opened GoEngine
  import GoSimple
  import GoLinkFollower
  import Follow

  /** `https?://` anchored at `i`: where the rest of the pattern starts. */
  function Scheme(s: string, i: nat): (p: Option<nat>)
    ensures p.Some? ==> StartsAt(s, i, "http") && p.value <= |s|
    ensures p.Some? ==> (p.value == i + 8 && StartsAt(s, i, "https://")) || (p.value == i + 7 && StartsAt(s, i, "http://"))
  {
    if StartsAt(s, i, "https://") then
      assert s[i..i + 4] == s[i..i + 8][..4];
      Some(i + 8)
    else if StartsAt(s, i, "http://") then
      assert s[i..i + 4] == s[i..i + 7][..4];
      Some(i + 7)
    else None
  }

  /** A scheme puts a ':' four or five characters on, after an 'h'. */
  lemma SchemeColon(s: string, i: nat)
    requires Scheme(s, i).Some?
    ensures i + 5 < |s| && s[i] == 'h' && (s[i + 4] == ':' || s[i + 5] == ':')
  {
    assert s[i] == s[i..i + 4][0];
    if StartsAt(s, i, "https://") {
      assert s[i + 5] == s[i..i + 8][5];
    } else {
      assert s[i + 4] == s[i..i + 7][4];
    }
  }

  /** Both spellings of the scheme are accepted, and the pattern goes on right after them. */
  lemma SchemeOf(scheme: string, rest: string)
    requires scheme == "https://" || scheme == "http://"
    ensures Scheme(scheme + rest, 0) == Some(|scheme|)
  {
    var s := scheme + rest;
    assert s[..|scheme|] == scheme;
    if scheme == "http://" {
      assert s[4] == ':';
    }
  }

  /** A string that starts with "https://" or "http://" has its scheme end right after it. */
  lemma SchemeEnds(s: string, p: nat)
    requires (p == 8 || p == 7) && p <= |s| && s[..p] == (if p == 8 then "https://" else "http://")
    ensures Scheme(s, 0) == Some(p)
  {
    assert s[..p] == s[0..p];
    if p == 7 {
      assert s[4] == ':';
    }
  }

  /** A recognizer that only ever matches where "http" starts. */
  ghost predicate StartsWithHttp(re: Regex) {
    forall s: string, i: nat :: re.at(s, i).Some? ==> StartsAt(s, i, "http")
  }

  /** A literal in the appended part of a string is found at the shifted position. */
  lemma StartsAtAppend(a: string, b: string, j: nat, lit: string)
    ensures StartsAt(a + b, |a| + j, lit) <==> StartsAt(b, j, lit)
  {
    if |a| + j + |lit| <= |a + b| {
      assert (a + b)[|a| + j..|a| + j + |lit|] == b[j..j + |lit|];
    }
  }

  /**
   * A pattern that needs "http" has no match after `from` when "http"
   * does not occur there.
   */
  lemma NoMatchAfter(re: Regex, link: string, tail: string)
    requires StartsWithHttp(re)
    requires !Contains(tail, "http")
    ensures forall i :: |link| <= i <= |link + tail| ==> MatchAt(re, link + tail, i).None?
  {
    forall i | |link| <= i <= |link + tail|
      ensures MatchAt(re, link + tail, i).None?
    {
      StartsAtAppend(link, tail, i - |link|, "http");
      assert !StartsAt(tail, i - |link|, "http");
    }
  }

  /** A pattern that needs "http" and misses the start of a message with no later "http" misses it all. */
  lemma NoMatchPastStart(re: Regex, s: string)
    requires StartsWithHttp(re) && s != []
    requires re.at(s, 0).None? && !Contains(s[1..], "http")
    ensures !IsMatch(re, s)
  {
    assert s == s[..1] + s[1..];
    NoMatchAfter(re, s[..1], s[1..]);
    assert MatchAt(re, s, 0).None?;
  }

  /** All characters of `s` are in `cls`. */
  predicate AllIn(s: string, cls: CharClass) {
    forall k :: 0 <= k < |s| ==> InClass(s[k], cls)
  }

  /** A run of class characters from `a` to `b`, stopped at `b`, is the run `RunEnd` finds. */
  lemma RunOf(s: string, a: nat, b: nat, cls: CharClass)
    requires a <= b <= |s| && AllIn(s[a..b], cls) && (b == |s| || !InClass(s[b], cls))
    ensures RunEnd(s, a, cls) == b
  {
    forall k | a <= k < b
      ensures InClass(s[k], cls)
    {
      assert s[k] == s[a..b][k - a];
    }
    RunEndUnique(s, a, b, cls);
  }

  /** The message text `out` stands in for: between `||` delimiters exactly when `message` contains `||`. */
  function SpoilerAs(message: string, out: string): string {
    if Contains(message, "||") then Wrap(out) else out
  }

  /**
   * A message that starts with a link the pattern matches up to `d` (and
   * matches in the same way when the link stands alone), and that has no
   * "http" after the link, is rewritten to the template expanded against
   * the link alone.
   */
  lemma RewriteSoleLink(re: Regex, s: string, d: nat, c: Capture, template: string)
    requires StartsWithHttp(re)
    requires 0 < d <= |s| && c.end == d && SpansWithin(c.groups, d)
    requires re.at(s, 0) == Some(c) && re.at(s[..d], 0) == Some(c)
    requires !Contains(s[d..], "http")
    ensures IsMatch(re, s)
    ensures Rewrite(re, s, template) == SpoilerAs(s, Expand(re, template, s[..d], Match(0, d, [Some(Span(0, d))] + c.groups)))
  {
    var link := s[..d];
    var m := Match(0, d, [Some(Span(0, d))] + c.groups);
    assert MatchAt(re, s, 0) == Some(m);
    assert MatchAt(re, link, 0) == Some(m);
    assert s == link + s[d..];
    NoMatchAfter(re, link, s[d..]);
    OnlyMatch(re, s, m);
    assert !Contains([], "http");
    assert link == link + [];
    NoMatchAfter(re, link, []);
    OnlyMatch(re, link, m);
    FindAllFirst(re, s);
    RewriteOnlyMatch(re, s, template, m, m);
  }

  /** Group `k` of a link matched at the start of `s` is read from `s` itself. */
  lemma GroupOfLink(s: string, d: nat, groups: seq<Option<Span>>, k: nat, lo: nat, hi: nat)
    requires 1 <= k <= |groups| && groups[k - 1] == Some(Span(lo, hi)) && lo <= hi <= d <= |s|
    ensures GroupText(s[..d], Match(0, d, [Some(Span(0, d))] + groups), k) == s[lo..hi]
  {
    assert ([Some(Span(0, d))] + groups)[k] == groups[k - 1];
  }

  /**
   * A `Simple` replacer whose pattern matches a link at the start of the
   * message, and nowhere after it, answers with the template expanded
   * against that link, and a nil error.
   */
  lemma SimpleSoleLink(r: GoSimple.Simple, s: string, d: nat, c: Capture, out: string)
    requires StartsWithHttp(r.regex)
    requires 0 < d <= |s| && c.end == d && SpansWithin(c.groups, d)
    requires r.regex.at(s, 0) == Some(c) && r.regex.at(s[..d], 0) == Some(c)
    requires !Contains(s[d..], "http")
    requires Expand(r.regex, r.replacement, s[..d], Match(0, d, [Some(Span(0, d))] + c.groups)) == out
    ensures GoSimple.Matches(r, s)
    ensures GoSimple.Replace(r, s) == Reply(SpoilerAs(s, out), Nil)
  {
    RewriteSoleLink(r.regex, s, d, c, r.replacement);
  }

  /**
   * A message that starts with a link the pattern matches up to `d`, with
   * no "http" after it, has that link as its only candidate.
   */
  lemma SoleLinkFound(re: Regex, s: string, d: nat, c: Capture)
    requires StartsWithHttp(re)
    requires 0 < d <= |s| && c.end == d && SpansWithin(c.groups, d)
    requires re.at(s, 0) == Some(c)
    requires !Contains(s[d..], "http")
    ensures IsMatch(re, s)
    ensures FindAllString(re, s) == [s[..d]]
  {
    var m := Match(0, d, [Some(Span(0, d))] + c.groups);
    assert MatchAt(re, s, 0) == Some(m);
    assert s == s[..d] + s[d..];
    NoMatchAfter(re, s[..d], s[d..]);
    OnlyMatch(re, s, m);
    FindAllFirst(re, s);
  }

  /**
   * A `LinkFollower` whose follow pattern finds one link at the start of
   * the message follows that link alone: a failed visit gives the message
   * back with the error; otherwise the answer is the followed URL (query
   * removed), or that URL rewritten by the destination pattern.
   */
  lemma FollowSoleLink(r: GoLinkFollower.LinkFollower, resolve: Follow.Resolver, s: string, d: nat, c: Capture)
    requires StartsWithHttp(r.followRegex)
    requires 0 < d <= |s| && c.end == d && SpansWithin(c.groups, d)
    requires r.followRegex.at(s, 0) == Some(c)
    requires !Contains(s[d..], "http")
    ensures GoLinkFollower.Matches(r, s)
    ensures resolve(s[..d]).Err? ==> GoLinkFollower.Replaced(r, resolve, s) == Reply(s, FollowFailed(resolve(s[..d]).error))
    ensures resolve(s[..d]).Ok? && r.destinationRegex.None? ==>
      GoLinkFollower.Replaced(r, resolve, s) == Reply(Follow.Render(Follow.StripQuery(resolve(s[..d]).value)), Nil)
    ensures resolve(s[..d]).Ok? && r.destinationRegex.Some? ==>
      GoLinkFollower.Replaced(r, resolve, s)
      == Reply(Rewrite(r.destinationRegex.value, Follow.Render(Follow.StripQuery(resolve(s[..d]).value)), r.destinationReplacement), Nil)
  {
    SoleLinkFound(r.followRegex, s, d, c);
    var links := [s[..d]];
    var f := Follow.FollowLinks(resolve, links);
    if f.Ok? {
      assert |f.value| == 1;
      if r.destinationRegex.Some? {
        var rs := GoLinkFollower.Rewrites(r.destinationRegex.value, f.value, r.destinationReplacement);
        assert |rs| == 1;
      }
    }
  }
}
