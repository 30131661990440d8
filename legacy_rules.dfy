// The single-result replacers listed in internal/replacer/replacer.go:
// the `replacers` slice the older `FindReplacers` / `ReplaceAll` pair
// works with. Four of its patterns are written with `\/` where the
// provider files write `/`; the two spellings denote the same pattern, so
// those entries share the provider recognizers. The Discord entry is
// different: a second pattern that matches ".gif" attachments vetoes the
// rewrite, and the rewriting pattern takes any file name.
module GoLegacy {
  import opened Base
  import opened Text
  import opened Regex
  import opened Patterns
  import opened GoEngine
  import Follow
  import GoSimple
  import GoReplacers
  import Amazon
  import Twitter
  import Discord
  import YoutubeShorts
  import Reddit

  /** `amazon`: the provider pattern and template. */
  const AmazonRule: Legacy := Generic(Amazon.Pattern, Amazon.Template)

  /** `twitter`: the provider pattern (twitter.com and x.com) and the vxtwitter template. */
  const TwitterRule: Legacy := Generic(Twitter.Pattern, Twitter.Template)

  /** `youtubeShorts`: the provider pattern and template. */
  const YoutubeShortsRule: Legacy := Generic(YoutubeShorts.Pattern, YoutubeShorts.Template)

  /**
   * The anchored attempt of the two `dc` patterns,
   * `https?://media\.discordapp\.net/attachments/(\d+)/(\d+)/` followed by
   * `(.*\.gif$)` when `gif` holds and by `(.*$)` otherwise.
   */
  function AttachmentAt(gif: bool, s: string, i: nat): (c: Option<Capture>)
    ensures c.Some? ==> StartsAt(s, i, "http") && c.value.end == |s|
    ensures c.Some? && gif ==> |s| >= 4 && s[|s| - 4..] == ".gif"
  {
    match Scheme(s, i)
    case None => None
    case Some(p) =>
      if !StartsAt(s, p, "media.discordapp.net/attachments/") then None
      else
        var a := p + 33;
        var e1 := RunEnd(s, a, Digit);
        if e1 == a || !StartsAt(s, e1, "/") then None
        else
          var e2 := RunEnd(s, e1 + 1, Digit);
          if e2 == e1 + 1 || !StartsAt(s, e2, "/") then None
          else FileAt(gif, s, a, e1, e2)
  }

  /**
   * The file name after the second id, which spans `e1 + 1` to `e2`.
   * Without the multi-line flag `$` is the end of the text: `(.*$)` is
   * the rest of the text when it holds no newline; `(.*\.gif$)` also
   * needs the text to end in ".gif".
   */
  function FileAt(gif: bool, s: string, a: nat, e1: nat, e2: nat): (c: Option<Capture>)
    requires e2 < |s|
    ensures c.Some? ==> c.value.end == |s|
    ensures c.Some? && gif ==> |s| >= e2 + 5 && s[|s| - 4..] == ".gif"
  {
    var n := |s|;
    var suffix := if gif then 4 else 0;
    if n < e2 + 1 + suffix || RunEnd(s, e2 + 1, NotNewline) < n - suffix then None
    else if gif && s[n - 4..] != ".gif" then None
    else Some(Capture(n, [Some(Span(a, e1)), Some(Span(e1 + 1, e2)), Some(Span(e2 + 1, n))]))
  }

  const GifPattern: Regex := Regex("https?:\\/\\/media\\.discordapp\\.net/attachments/(\\d+)/(\\d+)/(.*\\.gif$)",
                                   ["", "", ""], (s: string, i: nat) => AttachmentAt(true, s, i))

  const AttachmentPattern: Regex := Regex("https?:\\/\\/media\\.discordapp\\.net/attachments/(\\d+)/(\\d+)/(.*$)",
                                          ["", "", ""], (s: string, i: nat) => AttachmentAt(false, s, i))

  /** `dc`: the gif pattern vetoes; the embedded generic replacer rewrites to cdn.discordapp.com. */
  const DcRule: Legacy := DiscordVeto(GifPattern, AttachmentPattern, Discord.Template)

  /**
   * `reddit`: the provider pattern (the legacy text wraps the kind group
   * in a non-capturing group, which changes no group number) and a
   * template `Replace` never reads.
   */
  const RedditRule: Legacy :=
    RedditFollow(Reddit.Pattern, "https://www.reddit.com/r/${subreddit}/comments/${submission}${comment}")

  /** The `replacers` slice, in its order. */
  const Replacers: seq<Legacy> := [AmazonRule, TwitterRule, DcRule, YoutubeShortsRule, RedditRule]

  /** Both `dc` patterns only match where "http" starts. */
  lemma AttachmentPatternsStartWithHttp()
    ensures StartsWithHttp(GifPattern) && StartsWithHttp(AttachmentPattern)
  {
  }

  /**
   * The generic entries rewrite exactly as the provider rules of the same
   * name: the same answer for every message, whether it matches or not.
   */
  lemma GenericEntriesAsProviders(resolve: Follow.Resolver, msg: string)
    ensures LegacyReplace(AmazonRule, resolve, msg) == GoSimple.Replace(Amazon.Rule, msg).output
    ensures LegacyReplace(TwitterRule, resolve, msg) == GoSimple.Replace(Twitter.Rule, msg).output
    ensures LegacyReplace(YoutubeShortsRule, resolve, msg) == GoSimple.Replace(YoutubeShorts.Rule, msg).output
  {
    Amazon.RuleParts();
    Twitter.RuleParts();
    YoutubeShorts.RuleParts();
  }

  /**
   * `s` is an attachment link and nothing else: the scheme ends at `p`,
   * the first id at `e1`, the second at `e2`, and the file name, with no
   * newline in it, runs from `e2 + 1` to the end.
   */
  predicate AttachmentLinkIn(s: string, p: nat, e1: nat, e2: nat) {
    (p == 8 || p == 7) && p + 33 < e1 && e1 + 1 < e2 && e2 < |s|
    && s[..p] == (if p == 8 then "https://" else "http://")
    && s[p..p + 33] == "media.discordapp.net/attachments/"
    && AllIn(s[p + 33..e1], Digit) && s[e1] == '/'
    && AllIn(s[e1 + 1..e2], Digit) && s[e2] == '/'
    && AllIn(s[e2 + 1..], NotNewline)
  }

  /** A text that ends in ".gif". */
  predicate EndsInGif(s: string) {
    |s| >= 4 && s[|s| - 4..] == ".gif"
  }

  /** What each step of the two patterns finds in an attachment link. */
  lemma AttachmentLinkFacts(s: string, p: nat, e1: nat, e2: nat)
    requires AttachmentLinkIn(s, p, e1, e2)
    ensures Scheme(s, 0) == Some(p)
    ensures StartsAt(s, p, "media.discordapp.net/attachments/")
    ensures RunEnd(s, p + 33, Digit) == e1 && StartsAt(s, e1, "/")
    ensures RunEnd(s, e1 + 1, Digit) == e2 && StartsAt(s, e2, "/")
    ensures RunEnd(s, e2 + 1, NotNewline) == |s|
  {
    SchemeEnds(s, p);
    Discord.DigitsEnd(s, p + 33, e1);
    Discord.DigitsEnd(s, e1 + 1, e2);
    var n := |s|;
    forall k | e2 + 1 <= k < n
      ensures InClass(s[k], NotNewline)
    {
      assert s[k] == s[e2 + 1..][k - e2 - 1];
    }
    Discord.RunPastLine(s, e2 + 1, n);
  }

  /** The groups an attachment link gives: the two ids and the file name. */
  function AttachmentGroups(s: string, p: nat, e1: nat, e2: nat): seq<Option<Span>> {
    [Some(Span(p + 33, e1)), Some(Span(e1 + 1, e2)), Some(Span(e2 + 1, |s|))]
  }

  /** The rewriting pattern takes every attachment link whole; the gif pattern takes exactly those ending in ".gif". */
  lemma AttachmentLinkAt(s: string, p: nat, e1: nat, e2: nat)
    requires AttachmentLinkIn(s, p, e1, e2)
    ensures AttachmentAt(false, s, 0) == Some(Capture(|s|, AttachmentGroups(s, p, e1, e2)))
    ensures AttachmentAt(true, s, 0).Some? <==> EndsInGif(s)
  {
    AttachmentLinkFacts(s, p, e1, e2);
    if EndsInGif(s) {
      assert s[e2] == '/' && s[|s| - 4] == '.';
      assert |s| >= e2 + 5;
    }
  }

  /**
   * A message that is a ".gif" attachment link is handed back unchanged
   * by `dc`, although the rewriting pattern matches it.
   */
  lemma GifAttachmentKept(s: string, p: nat, e1: nat, e2: nat, resolve: Follow.Resolver)
    requires AttachmentLinkIn(s, p, e1, e2) && EndsInGif(s)
    ensures LegacyMatches(DcRule, s) && IsMatch(GifPattern, s)
    ensures LegacyReplace(DcRule, resolve, s) == s
  {
    AttachmentLinkAt(s, p, e1, e2);
    assert MatchAt(AttachmentPattern, s, 0).Some?;
    var c := AttachmentAt(true, s, 0).value;
    assert c == Capture(|s|, AttachmentGroups(s, p, e1, e2));
    assert MatchAt(GifPattern, s, 0).Some?;
  }

  /**
   * A message that is any other attachment link (".png", ".mp4", ".ogg",
   * ...) is not vetoed, and becomes the cdn.discordapp.com link with the
   * same two ids and file name.
   */
  lemma AttachmentRewritten(s: string, p: nat, e1: nat, e2: nat, resolve: Follow.Resolver)
    requires AttachmentLinkIn(s, p, e1, e2) && !EndsInGif(s)
    ensures LegacyMatches(DcRule, s) && !IsMatch(GifPattern, s)
    ensures LegacyReplace(DcRule, resolve, s)
         == SpoilerAs(s, "https://cdn.discordapp.com/attachments/" + (s[p + 33..e1] + ("/" + (s[e1 + 1..e2] + ("/" + s[e2 + 1..])))))
  {
    AttachmentLinkAt(s, p, e1, e2);
    forall i | 0 <= i
      ensures MatchAt(GifPattern, s, i).None?
    {
    }
    assert Search(GifPattern, s, 0).None?;
    AttachmentPatternsStartWithHttp();
    var r := GoSimple.NewSimple(GoReplacers.DiscordName, AttachmentPattern, Discord.Template);
    Discord.SoleAttachmentLink(r, s, p + 33, e1, e2);
  }

  /**
   * A message that is a Reddit thread link (the shape the provider rule's
   * scenario uses) with no "http" after it is answered by the legacy
   * `reddit` entry with the followed URL, query removed, and handed back
   * unchanged when the link cannot be followed.
   */
  lemma RedditFollowsThreadLink(s: string, p: nat, q: nat, e: nat, z: nat, n: nat, resolve: Follow.Resolver)
    requires Reddit.ThreadLinkIn(s, p, q, e, z, n)
    requires !Contains(s[n..], "http")
    ensures LegacyMatches(RedditRule, s)
    ensures resolve(s[..n]).Ok? ==> LegacyReplace(RedditRule, resolve, s) == Follow.Render(Follow.StripQuery(resolve(s[..n]).value))
    ensures resolve(s[..n]).Err? ==> LegacyReplace(RedditRule, resolve, s) == s
  {
    Reddit.ThreadLinkAt(s, p, q, e, z, n);
    Reddit.ThreadGroupsWithin(p, q, e, z, n);
    Reddit.RuleParts();
    SoleLinkFound(Reddit.Pattern, s, n, Capture(n, Reddit.ThreadGroups(p, q, e, z, n)));
    var f := Follow.FollowLinks(resolve, [s[..n]]);
    if f.Ok? {
      assert |f.value| == 1;
    }
  }
}
