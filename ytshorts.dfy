// The YouTube Shorts rule (internal/replacer/replacer_ytshorts.go): a
// shorts link becomes the ordinary watch link for the same video.
module YoutubeShorts {
  import opened Base
  import opened Text
  import opened Regex
  import opened Patterns
  import opened GoEngine
  import GoSimple
  import GoReplacers

  /**
   * The anchored attempt of `https?://(?:www.)?youtube.com/shorts/(\w.*)`.
   * The optional `www.` (its `.` is any character but a newline) is tried
   * first and dropped only when the rest then fails; group 1 runs from
   * the first character of the id to the end of the line.
   */
  function ShortsAt(s: string, i: nat): (c: Option<Capture>)
    ensures c.Some? ==> StartsAt(s, i, "http")
  {
    match Scheme(s, i)
    case None => None
    case Some(p) =>
      if StartsAt(s, p, "www") && p + 3 < |s| && s[p + 3] != '\n' && ShortsBodyAt(s, p + 4).Some?
      then ShortsBodyAt(s, p + 4)
      else ShortsBodyAt(s, p)
  }

  /** `youtube.com/shorts/(\w.*)` from `q`. */
  function ShortsBodyAt(s: string, q: nat): Option<Capture> {
    if StartsAt(s, q, "youtube") && q + 7 < |s| && s[q + 7] != '\n' && StartsAt(s, q + 8, "com/shorts/")
       && q + 19 < |s| && IsWordChar(s[q + 19])
    then
      var d := RunEnd(s, q + 20, NotNewline);
      Some(Capture(d, [Some(Span(q + 19, d))]))
    else None
  }

  const Pattern: Regex := Regex("https?://(?:www.)?youtube.com/shorts/(\\w.*)", [""], (s: string, i: nat) => ShortsAt(s, i))

  const Template: string := "https://www.youtube.com/watch?v=" + "$1"

  /** The rule `init` adds. */
  const Rule: GoSimple.Simple := GoSimple.NewSimple(GoReplacers.YoutubeShortsName, Pattern, Template)

  /** `init`: one `Add`. */
  method Register(reg: GoReplacers.Registry)
    modifies reg
    ensures reg.entries == old(reg.entries) + [GoReplacers.SimpleRule(Rule)]
  {
    reg.Add(GoReplacers.SimpleRule(Rule));
  }

  /** The rule's pattern and template, as the lemmas below use them. */
  lemma RuleParts()
    ensures Rule.regex == Pattern && Rule.replacement == Template && StartsWithHttp(Rule.regex)
    ensures GoSimple.Name(Rule) == GoReplacers.YoutubeShortsName
  {
  }

  /**
   * `s` starts with a shorts link: the scheme ends at `p`, the host
   * (after an optional `www.`) starts at `q`, and the id runs from
   * `q + 19` to the end of the line at `d`.
   */
  predicate ShortsLinkIn(s: string, p: nat, q: nat, d: nat) {
    (p == 8 || p == 7) && (q == p || q == p + 4) && q + 19 < d <= |s|
    && s[..p] == (if p == 8 then "https://" else "http://")
    && (q == p + 4 ==> s[p..q] == "www.")
    && s[q..q + 19] == "youtube.com/shorts/"
    && IsWordChar(s[q + 19])
    && AllIn(s[q + 19..d], NotNewline) && (d == |s| || s[d] == '\n')
  }

  /** A shorts link at the start of `s` is matched to the end of its line, with the id as group 1. */
  lemma ShortsLinkAt(s: string, p: nat, q: nat, d: nat)
    requires ShortsLinkIn(s, p, q, d)
    ensures ShortsAt(s, 0) == Some(Capture(d, [Some(Span(q + 19, d))]))
  {
    ShortsLinkFacts(s, p, q, d);
  }

  /** What each step of the pattern finds in a shorts link. */
  lemma ShortsLinkFacts(s: string, p: nat, q: nat, d: nat)
    requires ShortsLinkIn(s, p, q, d)
    ensures Scheme(s, 0) == Some(p)
    ensures ShortsBodyAt(s, q) == Some(Capture(d, [Some(Span(q + 19, d))]))
    ensures q == p + 4 ==> StartsAt(s, p, "www") && s[p + 3] != '\n'
    ensures q == p ==> !StartsAt(s, p, "www")
  {
    SchemeEnds(s, p);
    if q == p + 4 {
      var www := s[p..q];
      assert www == "www.";
      assert s[p..p + 3] == www[..3];
      assert s[p + 3] == www[3];
    } else {
      assert s[p] == s[q..q + 19][0];
    }
    assert s[q..q + 7] == s[q..q + 19][..7];
    assert s[q + 7] == s[q..q + 19][7];
    assert s[q + 8..q + 19] == s[q..q + 19][8..];
    forall k | q + 20 <= k < d
      ensures InClass(s[k], NotNewline)
    {
      assert s[k] == s[q + 19..d][k - q - 19];
    }
    RunEndUnique(s, q + 20, d, NotNewline);
  }

  /** A shorts link is still one when the text after its line is cut off. */
  lemma ShortsLinkPrefix(s: string, p: nat, q: nat, d: nat)
    requires ShortsLinkIn(s, p, q, d)
    ensures ShortsLinkIn(s[..d], p, q, d)
  {
    var link := s[..d];
    assert link[..p] == s[..p];
    assert link[p..q] == s[p..q];
    assert link[q..q + 19] == s[q..q + 19];
    assert link[q + 19..d] == s[q + 19..d];
  }

  /** The template is the watch link around group 1. */
  lemma TemplateExpands(re: Regex, link: string, m: Match, id: string)
    requires GroupText(link, m, 1) == id
    ensures Expand(re, Template, link, m) == "https://www.youtube.com/watch?v=" + id
  {
    PrefixPlain();
    ExpandSoleDigit(re, "$1", link, m);
    ExpandLiteral(re, "https://www.youtube.com/watch?v=", "$1", link, m);
  }

  lemma PrefixPlain()
    ensures Plain("https://www.youtube.com/watch?v=") && DigitRef("$1") && RefNum("$1") == 1
  {
  }

  /**
   * A message that starts with a shorts link, over http or https, with
   * or without `www.`, and has no "http" after the link's line, becomes
   * the watch link whose `v=` value is the rest of that line.
   */
  lemma RewritesShortsLink(s: string, p: nat, q: nat, d: nat)
    requires ShortsLinkIn(s, p, q, d)
    requires !Contains(s[d..], "http")
    ensures GoSimple.Matches(Rule, s)
    ensures GoSimple.Replace(Rule, s) == Reply(SpoilerAs(s, "https://www.youtube.com/watch?v=" + s[q + 19..d]), Nil)
  {
    ShortsLinkAt(s, p, q, d);
    ShortsLinkPrefix(s, p, q, d);
    ShortsLinkAt(s[..d], p, q, d);
    RuleParts();
    SoleShortsLink(Rule, s, q, d);
  }

  lemma SoleShortsLink(r: GoSimple.Simple, s: string, q: nat, d: nat)
    requires StartsWithHttp(r.regex) && r.replacement == Template
    requires q + 19 < d <= |s|
    requires r.regex.at(s, 0) == Some(Capture(d, [Some(Span(q + 19, d))]))
    requires r.regex.at(s[..d], 0) == Some(Capture(d, [Some(Span(q + 19, d))]))
    requires !Contains(s[d..], "http")
    ensures GoSimple.Matches(r, s)
    ensures GoSimple.Replace(r, s) == Reply(SpoilerAs(s, "https://www.youtube.com/watch?v=" + s[q + 19..d]), Nil)
  {
    var groups := [Some(Span(q + 19, d))];
    var m := Match(0, d, [Some(Span(0, d))] + groups);
    GroupOfLink(s, d, groups, 1, q + 19, d);
    TemplateExpands(r.regex, s[..d], m, s[q + 19..d]);
    SimpleSoleLink(r, s, d, Capture(d, groups), "https://www.youtube.com/watch?v=" + s[q + 19..d]);
  }
}
