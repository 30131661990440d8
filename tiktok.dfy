// The TikTok rules (internal/replacer/replacer_tiktok.go): a full video
// link is followed and the followed URL rewritten to vxtiktok; a
// vm.tiktok.com short link is followed to the full video link, which is
// rewritten the same way.
module TikTok {
  import opened Base
  import opened Text
  import opened Regex
  import opened Patterns
  import opened GoEngine
  import GoLinkFollower
  import GoReplacers
  import Follow

  /** "/video/" at `k` with a digit after it: where the username can stop. */
  predicate VideoMarkAt(s: string, k: nat) {
    StartsAt(s, k, "/video/") && k + 7 < |s| && IsDigit(s[k + 7])
  }

  /** The largest `j` in `[lo, hi]` with a video mark: where the greedy `@.+` stops. */
  function LastVideo(s: string, lo: nat, hi: nat): (j: Option<nat>)
    ensures j.Some? ==> lo <= j.value <= hi && VideoMarkAt(s, j.value)
    ensures j.Some? ==> forall k :: j.value < k <= hi ==> !VideoMarkAt(s, k)
    ensures j.None? ==> forall k :: lo <= k <= hi ==> !VideoMarkAt(s, k)
    decreases hi + 1 - lo
  {
    if hi < lo then None
    else if VideoMarkAt(s, hi) then Some(hi)
    else if hi == lo then None
    else LastVideo(s, lo, hi - 1)
  }

  /** A video mark with none after it up to `hi` is the one `LastVideo` finds. */
  lemma {:induction false} LastVideoIs(s: string, lo: nat, j: nat, hi: nat)
    requires lo <= j <= hi && VideoMarkAt(s, j)
    requires forall k :: j < k <= hi ==> !VideoMarkAt(s, k)
    ensures LastVideo(s, lo, hi) == Some(j)
    decreases hi - j
  {
    if hi != j {
      LastVideoIs(s, lo, j, hi - 1);
    }
  }

  /**
   * The anchored attempt of
   * `https://(?:www\.)?tiktok.com/(?P<username>@.+)/video/(?P<videoId>\d+)(?:\?|[\s]|$)?`.
   * The optional `www.` is tried first and dropped only when the rest
   * then fails. Group 1 is the username with its '@', group 2 the id.
   */
  function VideoAt(s: string, i: nat): (c: Option<Capture>)
    ensures c.Some? ==> StartsAt(s, i, "http")
  {
    if !StartsAt(s, i, "https://") then None
    else
      assert s[i..i + 4] == s[i..i + 8][..4];
      if StartsAt(s, i + 8, "www.") && VideoBodyAt(s, i + 12).Some? then VideoBodyAt(s, i + 12)
      else VideoBodyAt(s, i + 8)
  }

  /**
   * `tiktok.com/(@.+)/video/(\d+)(?:\?|[\s]|$)?` from `q`. The `.+` stays
   * on the line and gives back characters until "/video/" and a digit
   * follow; the digits run as far as they go, and one '?' or white-space
   * character after them is taken into the match.
   */
  function VideoBodyAt(s: string, q: nat): Option<Capture> {
    if StartsAt(s, q, "tiktok") && q + 6 < |s| && s[q + 6] != '\n' && StartsAt(s, q + 7, "com/@") && q + 12 < |s| then
      match LastVideo(s, q + 13, RunEnd(s, q + 12, NotNewline))
      case None => None
      case Some(j) =>
        var d := RunEnd(s, j + 7, Digit);
        var e := if d < |s| && (s[d] == '?' || IsSpace(s[d])) then d + 1 else d;
        Some(Capture(e, [Some(Span(q + 11, j)), Some(Span(j + 7, d))]))
    else None
  }

  /**
   * The anchored attempt of `https://vm.tiktok.com/(?P<videoId>\w+)(?:/)?(?:\?.*)?`
   * (both dots unescaped): the id, one optional '/', and a query to the
   * end of the line.
   */
  function ShortAt(s: string, i: nat): (c: Option<Capture>)
    ensures c.Some? ==> StartsAt(s, i, "http")
  {
    if StartsAt(s, i, "https://vm") && i + 10 < |s| && s[i + 10] != '\n' && StartsAt(s, i + 11, "tiktok")
       && i + 17 < |s| && s[i + 17] != '\n' && StartsAt(s, i + 18, "com/") && i + 22 < |s| && IsWordChar(s[i + 22])
    then
      assert s[i..i + 4] == s[i..i + 10][..4];
      var w := RunEnd(s, i + 23, Word);
      var e := if w < |s| && s[w] == '/' then w + 1 else w;
      var n := if e < |s| && s[e] == '?' then RunEnd(s, e + 1, NotNewline) else e;
      Some(Capture(n, [Some(Span(i + 22, w))]))
    else None
  }

  const Pattern: Regex :=
    Regex("https://(?:www\\.)?tiktok.com/(?P<username>@.+)/video/(?P<videoId>\\d+)(?:\\?|[\\s]|$)?",
          ["username", "videoId"], (s: string, i: nat) => VideoAt(s, i))

  const ShortPattern: Regex :=
    Regex("https://vm.tiktok.com/(?P<videoId>\\w+)(?:/)?(?:\\?.*)?", ["videoId"], (s: string, i: nat) => ShortAt(s, i))

  const Template: string := "https://www.vxtiktok.com/" + ("${username}" + ("/video/" + "${videoId}"))

  /** TikTok: follow a video link, rewrite the followed URL with the same pattern. */
  const Rule: GoLinkFollower.LinkFollower := GoLinkFollower.NewLinkFollower(GoReplacers.TikTokName, Pattern, Some(Pattern), Template)

  /** TikTokVM: follow a short link, rewrite the followed URL with the video pattern. */
  const ShortRule: GoLinkFollower.LinkFollower :=
    GoLinkFollower.NewLinkFollower(GoReplacers.TikTokVMName, ShortPattern, Some(Pattern), Template)

  /** `init`: TikTok is added first, then TikTokVM. */
  method Register(reg: GoReplacers.Registry)
    modifies reg
    ensures reg.entries == old(reg.entries) + [GoReplacers.FollowerRule(Rule), GoReplacers.FollowerRule(ShortRule)]
  {
    reg.Add(GoReplacers.FollowerRule(Rule));
    reg.Add(GoReplacers.FollowerRule(ShortRule));
  }

  /**
   * TikTok follows and rewrites with one and the same pattern; TikTokVM
   * rewrites with that pattern too, and both use the same template.
   */
  lemma RuleParts()
    ensures Rule.followRegex == Pattern && Rule.destinationRegex == Some(Pattern) && Rule.destinationReplacement == Template
    ensures ShortRule.followRegex == ShortPattern && ShortRule.destinationRegex == Some(Pattern)
    ensures ShortRule.destinationReplacement == Template
    ensures StartsWithHttp(Pattern) && StartsWithHttp(ShortPattern)
    ensures GoLinkFollower.Name(Rule) == GoReplacers.TikTokName && GoLinkFollower.Name(ShortRule) == GoReplacers.TikTokVMName
  {
  }

  /**
   * `s` is a full video link and nothing else: "https://", an optional
   * "www." (then `q` is 12), "tiktok.com/@", the rest of the username up
   * to `j`, "/video/" and a digit id to the end.
   */
  predicate VideoLinkIn(s: string, q: nat, j: nat) {
    (q == 8 || q == 12) && q + 13 <= j && j + 7 < |s|
    && s[..8] == "https://"
    && (q == 12 ==> s[8..12] == "www.")
    && s[q..q + 12] == "tiktok.com/@"
    && AllIn(s[q + 12..j], NotNewline)
    && s[j..j + 7] == "/video/"
    && AllIn(s[j + 7..], Digit)
  }

  /** The characters after the id's first digit are digits: no video mark lies after `j`. */
  lemma NoMarkAfter(s: string, q: nat, j: nat)
    requires VideoLinkIn(s, q, j)
    ensures VideoMarkAt(s, j)
    ensures forall k :: j < k <= |s| ==> !VideoMarkAt(s, k)
  {
    var mark := s[j..j + 7];
    assert mark == "/video/";
    assert s[j + 7] == s[j + 7..][0];
    forall k | j < k <= |s|
      ensures !VideoMarkAt(s, k)
    {
      if k < j + 6 {
        assert s[k] == mark[k - j];
      } else if k == j + 6 {
        if k + 7 <= |s| {
          assert s[k..k + 7][1] == s[j + 7] == s[j + 7..][0];
        }
      } else if k < |s| {
        assert s[k] == s[j + 7..][k - j - 7];
        if k + 7 <= |s| {
          assert s[k..k + 7][0] == s[k];
        }
      }
    }
  }

  /** What each step of the pattern finds in a video link. */
  lemma VideoLinkFacts(s: string, q: nat, j: nat)
    requires VideoLinkIn(s, q, j)
    ensures StartsAt(s, 0, "https://")
    ensures q == 12 ==> StartsAt(s, 8, "www.")
    ensures q == 8 ==> !StartsAt(s, 8, "www.")
    ensures StartsAt(s, q, "tiktok") && s[q + 6] != '\n' && StartsAt(s, q + 7, "com/@")
    ensures RunEnd(s, q + 12, NotNewline) == |s|
    ensures RunEnd(s, j + 7, Digit) == |s|
  {
    var host := s[q..q + 12];
    assert host == "tiktok.com/@";
    assert s[q..q + 6] == host[..6];
    assert s[q + 6] == host[6];
    assert s[q + 7..q + 12] == host[7..];
    if q == 8 {
      assert s[8] == host[0];
    }
    var mark := s[j..j + 7];
    assert mark == "/video/";
    forall k | q + 12 <= k < |s|
      ensures InClass(s[k], NotNewline)
    {
      if k < j {
        assert s[k] == s[q + 12..j][k - q - 12];
      } else if k < j + 7 {
        assert s[k] == mark[k - j];
      } else {
        assert s[k] == s[j + 7..][k - j - 7];
      }
    }
    RunEndUnique(s, q + 12, |s|, NotNewline);
    forall k | j + 7 <= k < |s|
      ensures InClass(s[k], Digit)
    {
      assert s[k] == s[j + 7..][k - j - 7];
    }
    RunEndUnique(s, j + 7, |s|, Digit);
  }

  /** A video link is matched whole, with the username and the id as its groups. */
  lemma VideoLinkAt(s: string, q: nat, j: nat)
    requires VideoLinkIn(s, q, j)
    ensures VideoAt(s, 0) == Some(Capture(|s|, [Some(Span(q + 11, j)), Some(Span(j + 7, |s|))]))
  {
    VideoLinkFacts(s, q, j);
    VideoBodyFacts(s, q, j);
  }

  /** The part of the pattern after "https://" and the optional "www.", on a video link. */
  lemma VideoBodyFacts(s: string, q: nat, j: nat)
    requires VideoLinkIn(s, q, j)
    ensures VideoBodyAt(s, q) == Some(Capture(|s|, [Some(Span(q + 11, j)), Some(Span(j + 7, |s|))]))
  {
    VideoLinkFacts(s, q, j);
    NoMarkAfter(s, q, j);
    LastVideoIs(s, q + 13, j, |s|);
  }

  /** The named groups of the video pattern are groups 1 and 2. */
  lemma NamedGroups(re: Regex, s: string, m: Match)
    requires re.names == ["username", "videoId"]
    requires |m.groups| == 3 && m.groups[1].Some? && m.groups[2].Some?
    ensures NamedTextFrom(re, s, m, "username", 1) == GroupText(s, m, 1)
    ensures NamedTextFrom(re, s, m, "videoId", 1) == GroupText(s, m, 2)
  {
  }

  /** The references part of the template: the username, "/video/" and the id. */
  lemma RefsExpand(re: Regex, link: string, m: Match, user: string, id: string)
    requires NamedTextFrom(re, link, m, "username", 1) == user
    requires NamedTextFrom(re, link, m, "videoId", 1) == id
    ensures Expand(re, "${username}" + ("/video/" + "${videoId}"), link, m) == user + ("/video/" + id)
  {
    Pieces();
    TailExpands(re, link, m, id);
    ExpandNamed(re, "${username}", "username", "/video/" + "${videoId}", link, m);
  }

  /** The literal pieces and references of the template. */
  lemma Pieces()
    ensures Plain("https://www.vxtiktok.com/") && Plain("/video/")
    ensures NamedRef("${username}", "username") && NamedRef("${videoId}", "videoId")
  {
  }

  lemma TailExpands(re: Regex, link: string, m: Match, id: string)
    requires NamedTextFrom(re, link, m, "videoId", 1) == id
    ensures Expand(re, "/video/" + "${videoId}", link, m) == "/video/" + id
  {
    Pieces();
    ExpandNamed(re, "${videoId}", "videoId", "", link, m);
    assert "${videoId}" + "" == "${videoId}";
    ExpandLiteral(re, "/video/", "${videoId}", link, m);
  }

  /** The template is the vxtiktok link with the username and the id. */
  lemma TemplateExpands(re: Regex, link: string, m: Match, user: string, id: string)
    requires NamedTextFrom(re, link, m, "username", 1) == user
    requires NamedTextFrom(re, link, m, "videoId", 1) == id
    ensures Expand(re, Template, link, m) == "https://www.vxtiktok.com/" + (user + ("/video/" + id))
  {
    Pieces();
    RefsExpand(re, link, m, user, id);
    ExpandLiteral(re, "https://www.vxtiktok.com/", "${username}" + ("/video/" + "${videoId}"), link, m);
  }

  /**
   * The destination step on a followed URL that is a video link: the
   * vxtiktok link with the same username and id (in spoilers only if the
   * URL itself holds "||").
   */
  lemma VideoLinkRewritten(url: string, q: nat, j: nat)
    requires VideoLinkIn(url, q, j)
    ensures Rewrite(Pattern, url, Template) == SpoilerAs(url, "https://www.vxtiktok.com/" + (url[q + 11..j] + ("/video/" + url[j + 7..])))
  {
    VideoLinkAt(url, q, j);
    RuleParts();
    VideoRewrite(Pattern, url, q, j);
  }

  lemma VideoRewrite(re: Regex, url: string, q: nat, j: nat)
    requires StartsWithHttp(re) && re.names == ["username", "videoId"]
    requires q + 11 <= j && j + 7 < |url|
    requires re.at(url, 0) == Some(Capture(|url|, [Some(Span(q + 11, j)), Some(Span(j + 7, |url|))]))
    ensures Rewrite(re, url, Template) == SpoilerAs(url, "https://www.vxtiktok.com/" + (url[q + 11..j] + ("/video/" + url[j + 7..])))
  {
    var d := |url|;
    var groups := [Some(Span(q + 11, j)), Some(Span(j + 7, d))];
    var m := Match(0, d, [Some(Span(0, d))] + groups);
    assert url[..d] == url;
    assert url[d..] == [];
    assert !Contains([], "http");
    RewriteSoleLink(re, url, d, Capture(d, groups), Template);
    NamedGroups(re, url, m);
    GroupOfLink(url, d, groups, 1, q + 11, j);
    GroupOfLink(url, d, groups, 2, j + 7, d);
    TemplateExpands(re, url, m, url[q + 11..j], url[j + 7..]);
  }

  /**
   * A message that is a video link is followed as it stands; when the
   * followed URL (query removed) is again a video link, the answer is its
   * vxtiktok link.
   */
  lemma RewritesVideoLink(s: string, q: nat, j: nat, resolve: Follow.Resolver, url: string, uq: nat, uj: nat)
    requires VideoLinkIn(s, q, j)
    requires resolve(s).Ok? && Follow.Render(Follow.StripQuery(resolve(s).value)) == url
    requires VideoLinkIn(url, uq, uj)
    ensures GoLinkFollower.Matches(Rule, s)
    ensures GoLinkFollower.Replaced(Rule, resolve, s)
            == Reply(SpoilerAs(url, "https://www.vxtiktok.com/" + (url[uq + 11..uj] + ("/video/" + url[uj + 7..]))), Nil)
  {
    VideoLinkAt(s, q, j);
    RuleParts();
    FollowWhole(Rule, resolve, s, Capture(|s|, [Some(Span(q + 11, j)), Some(Span(j + 7, |s|))]));
    VideoLinkRewritten(url, uq, uj);
  }

  /** A follow pattern that matches the whole message follows the message itself. */
  lemma FollowWhole(r: GoLinkFollower.LinkFollower, resolve: Follow.Resolver, s: string, c: Capture)
    requires StartsWithHttp(r.followRegex) && r.destinationRegex.Some?
    requires 0 < |s| && c.end == |s| && SpansWithin(c.groups, |s|)
    requires r.followRegex.at(s, 0) == Some(c)
    requires resolve(s).Ok?
    ensures GoLinkFollower.Matches(r, s)
    ensures GoLinkFollower.Replaced(r, resolve, s)
            == Reply(Rewrite(r.destinationRegex.value, Follow.Render(Follow.StripQuery(resolve(s).value)), r.destinationReplacement), Nil)
  {
    assert s[..|s|] == s;
    assert s[|s|..] == [];
    assert !Contains([], "http");
    FollowSoleLink(r, resolve, s, |s|, c);
  }

  /** `s` is a short link and nothing else: the id runs from 22 to `w`, then at most a '/'. */
  predicate ShortLinkIn(s: string, w: nat) {
    22 < w <= |s| && s[..22] == "https://vm.tiktok.com/"
    && AllIn(s[22..w], Word)
    && (w == |s| || (s[w] == '/' && w + 1 == |s|))
  }

  /** A short link is matched whole, with its id as the group. */
  lemma ShortLinkAt(s: string, w: nat)
    requires ShortLinkIn(s, w)
    ensures ShortAt(s, 0) == Some(Capture(|s|, [Some(Span(22, w))]))
  {
    var head := s[..22];
    assert head == "https://vm.tiktok.com/";
    assert s[0..10] == head[..10];
    assert s[10] == head[10];
    assert s[11..17] == head[11..17];
    assert s[17] == head[17];
    assert s[18..22] == head[18..];
    assert StartsAt(s, 0, "https://vm") && StartsAt(s, 11, "tiktok") && StartsAt(s, 18, "com/");
    forall k | 22 <= k < w
      ensures InClass(s[k], Word)
    {
      assert s[k] == s[22..w][k - 22];
    }
    assert IsWordChar(s[22]);
    RunEndUnique(s, 23, w, Word);
    assert RunEnd(s, 23, Word) == w;
  }

  /**
   * A message that is a vm.tiktok.com short link is followed as it
   * stands; when it leads to a video link, the answer is that video's
   * vxtiktok link.
   */
  lemma RewritesShortLink(s: string, w: nat, resolve: Follow.Resolver, url: string, uq: nat, uj: nat)
    requires ShortLinkIn(s, w)
    requires resolve(s).Ok? && Follow.Render(Follow.StripQuery(resolve(s).value)) == url
    requires VideoLinkIn(url, uq, uj)
    ensures GoLinkFollower.Matches(ShortRule, s)
    ensures GoLinkFollower.Replaced(ShortRule, resolve, s)
            == Reply(SpoilerAs(url, "https://www.vxtiktok.com/" + (url[uq + 11..uj] + ("/video/" + url[uj + 7..]))), Nil)
  {
    ShortLinkAt(s, w);
    RuleParts();
    FollowWhole(ShortRule, resolve, s, Capture(|s|, [Some(Span(22, w))]));
    VideoLinkRewritten(url, uq, uj);
  }

  /** A short link is not a video link: TikTok does not take the messages TikTokVM is for. */
  lemma ShortLinkNotVideo(s: string, w: nat)
    requires ShortLinkIn(s, w)
    ensures VideoAt(s, 0).None?
  {
    var head := s[..22];
    assert head == "https://vm.tiktok.com/";
    assert s[8] == head[8];
    assert s[8..12] != "www." by {
      assert s[8..12][1] == head[9];
    }
  }
}
