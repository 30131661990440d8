// The Reddit rule (internal/replacer/replacer_reddit.go): a reddit
// thread or share link is followed, and the followed URL (query removed)
// is the answer as it stands; there is no destination rewrite.
module Reddit {
  import opened Base
  import opened Text
  import opened Regex
  import opened Patterns
  import opened GoEngine
  import GoLinkFollower
  import GoReplacers
  import Follow

  /** A submission id group: 5 to 12 word characters of `s`. */
  predicate SubmissionSpan(s: string, g: Option<Span>) {
    g.Some? && g.value.lo + 5 <= g.value.hi <= g.value.lo + 12 && g.value.hi <= |s|
    && AllIn(s[g.value.lo..g.value.hi], Word)
  }

  /** The rest of the pattern matched, with the groups of this step in front of its groups. */
  function Prefixed(groups: seq<Option<Span>>, rest: Option<Capture>): Option<Capture> {
    match rest
    case None => None
    case Some(c) => Some(Capture(c.end, groups + c.groups))
  }

  lemma PrefixedParts(groups: seq<Option<Span>>, rest: Option<Capture>, c: Capture)
    requires Prefixed(groups, rest) == Some(c)
    ensures rest.Some? && c.end == rest.value.end && c.groups == groups + rest.value.groups
  {
  }

  /** The submission group of the rest is the submission group of the whole, shifted by the groups in front. */
  lemma PrefixedSpan(s: string, groups: seq<Option<Span>>, rest: Option<Capture>, c: Capture, k: nat)
    requires Prefixed(groups, rest) == Some(c)
    requires rest.Some? && k < |rest.value.groups| && SubmissionSpan(s, rest.value.groups[k])
    ensures |c.groups| == |groups| + |rest.value.groups| && SubmissionSpan(s, c.groups[|groups| + k])
  {
    assert c.groups[|groups| + k] == rest.value.groups[k];
  }

  /**
   * `(?P<submission>\w{5,12})(?P<title>/\w+/)?(?P<comment>\w{3,9}(/)?)?`
   * from `z`. Every repetition is greedy and everything after the id is
   * optional, so nothing is given back: the id takes up to 12 word
   * characters, a title is taken when a '/', word characters and a '/'
   * follow, and a comment id takes up to 9 word characters (at least 3)
   * and one '/' after them. Groups: submission, title, comment, its '/'.
   */
  function SubmissionAt(s: string, z: nat): Option<Capture>
    requires z <= |s|
  {
    var n := RunEnd(s, z, Word);
    if n < z + 5 then None
    else
      var t := if n < z + 12 then n else z + 12;
      var title := if t < |s| && s[t] == '/' && RunEnd(s, t + 1, Word) > t + 1 && RunEnd(s, t + 1, Word) < |s|
                      && s[RunEnd(s, t + 1, Word)] == '/'
                   then Some(Span(t, RunEnd(s, t + 1, Word) + 1)) else None;
      var next := if title.Some? then title.value.hi else t;
      var w := RunEnd(s, next, Word);
      if w < next + 3 then Some(Capture(next, [Some(Span(z, t)), title, None, None]))
      else
        var ce := if w < next + 9 then w else next + 9;
        if ce < |s| && s[ce] == '/' then Some(Capture(ce + 1, [Some(Span(z, t)), title, Some(Span(next, ce + 1)), Some(Span(ce, ce + 1))]))
        else Some(Capture(ce, [Some(Span(z, t)), title, Some(Span(next, ce)), None]))
  }

  /**
   * `(comments/|s/)?` and the submission from `y`: "comments/" is tried
   * first, then "s/", then neither, each kept only when the submission
   * after it matches.
   */
  function KindAt(s: string, y: nat): Option<Capture>
    requires y <= |s|
  {
    if StartsAt(s, y, "comments/") && SubmissionAt(s, y + 9).Some? then Prefixed([Some(Span(y, y + 9))], SubmissionAt(s, y + 9))
    else if StartsAt(s, y, "s/") && SubmissionAt(s, y + 2).Some? then Prefixed([Some(Span(y, y + 2))], SubmissionAt(s, y + 2))
    else Prefixed([None], SubmissionAt(s, y))
  }

  /** `(?P<subreddit>[^/]+)/` and the rest from `x`: the subreddit runs to the next '/', which may be on a later line. */
  function SubredditAt(s: string, x: nat): Option<Capture>
    requires x <= |s|
  {
    var e := RunEnd(s, x, NotSlash);
    if e == x || e == |s| then None
    else Prefixed([Some(Span(x, e))], KindAt(s, e + 1))
  }

  /** Where the greedy `(?:r/)+` stops when it starts at `x`. */
  function RepsEnd(s: string, x: nat): (e: nat)
    requires x <= |s|
    ensures x <= e <= |s|
    decreases |s| - x
  {
    if StartsAt(s, x, "r/") then RepsEnd(s, x + 2) else x
  }

  /**
   * `(?:r/)+` from `r0` with the subreddit after it: the most repetitions
   * first (up to `x`), one fewer each time the rest fails, and at least one.
   */
  function RepsAt(s: string, r0: nat, x: nat): Option<Capture>
    requires r0 + 2 <= x <= |s|
    decreases x
  {
    match SubredditAt(s, x)
    case Some(c) => Some(c)
    case None => if x >= r0 + 4 then RepsAt(s, r0, x - 2) else None
  }

  /** `reddit\.com/(?:r/)+` and the rest from `q`. */
  function SiteAt(s: string, q: nat): Option<Capture> {
    if StartsAt(s, q, "reddit.com/r/") then RepsAt(s, q + 11, RepsEnd(s, q + 11)) else None
  }

  /**
   * The anchored attempt of
   * `http(s)?://((old|www)\.)?reddit\.com/(?:r/)+(?P<subreddit>[^/]+)/(comments/|s/)?(?P<submission>\w{5,12})(?P<title>/\w+/)?(?P<comment>\w{3,9}(/)?)?`.
   * The optional host prefix is tried first and dropped when the rest
   * then fails. Groups 1 to 9: the 's', the prefix with its dot, "old"
   * or "www", the subreddit, the kind, the submission id, the title, the
   * comment id and its '/'.
   */
  function ThreadAt(s: string, i: nat): (c: Option<Capture>)
    ensures c.Some? ==> StartsAt(s, i, "http")
  {
    match Scheme(s, i)
    case None => None
    case Some(p) => HostAt(s, p, if p == i + 8 then Some(Span(i + 4, i + 5)) else None)
  }

  /** `((old|www)\.)?` and the rest from `p`, after the scheme's group `g1`. */
  function HostAt(s: string, p: nat, g1: Option<Span>): Option<Capture> {
    if (StartsAt(s, p, "old.") || StartsAt(s, p, "www.")) && SiteAt(s, p + 4).Some?
    then Prefixed([g1, Some(Span(p, p + 4)), Some(Span(p, p + 3))], SiteAt(s, p + 4))
    else Prefixed([g1, None, None], SiteAt(s, p))
  }

  // The submission group of a match, level by level.

  lemma SubmissionSpanOf(s: string, z: nat, c: Capture)
    requires z <= |s| && SubmissionAt(s, z) == Some(c)
    ensures |c.groups| == 4 && SubmissionSpan(s, c.groups[0]) && c.groups[0].value.lo == z
  {
    RunEndAll(s, z, Word);
  }

  lemma KindSpan(s: string, y: nat, c: Capture)
    requires y <= |s| && KindAt(s, y) == Some(c)
    ensures |c.groups| == 5 && SubmissionSpan(s, c.groups[1])
  {
    var z := if StartsAt(s, y, "comments/") && SubmissionAt(s, y + 9).Some? then y + 9
             else if StartsAt(s, y, "s/") && SubmissionAt(s, y + 2).Some? then y + 2 else y;
    var kind := if z == y then None else Some(Span(y, z));
    assert KindAt(s, y) == Prefixed([kind], SubmissionAt(s, z));
    PrefixedParts([kind], SubmissionAt(s, z), c);
    SubmissionSpanOf(s, z, SubmissionAt(s, z).value);
    PrefixedSpan(s, [kind], SubmissionAt(s, z), c, 0);
  }

  lemma SubredditSpan(s: string, x: nat, c: Capture)
    requires x <= |s| && SubredditAt(s, x) == Some(c)
    ensures |c.groups| == 6 && SubmissionSpan(s, c.groups[2])
  {
    var e := RunEnd(s, x, NotSlash);
    PrefixedParts([Some(Span(x, e))], KindAt(s, e + 1), c);
    KindSpan(s, e + 1, KindAt(s, e + 1).value);
    PrefixedSpan(s, [Some(Span(x, e))], KindAt(s, e + 1), c, 1);
  }

  lemma {:induction false} RepsSpan(s: string, r0: nat, x: nat, c: Capture)
    requires r0 + 2 <= x <= |s| && RepsAt(s, r0, x) == Some(c)
    ensures |c.groups| == 6 && SubmissionSpan(s, c.groups[2])
    decreases x
  {
    if SubredditAt(s, x).Some? {
      SubredditSpan(s, x, c);
    } else {
      RepsSpan(s, r0, x - 2, c);
    }
  }

  lemma SiteSpan(s: string, q: nat, c: Capture)
    requires SiteAt(s, q) == Some(c)
    ensures |c.groups| == 6 && SubmissionSpan(s, c.groups[2])
  {
    RepsSpan(s, q + 11, RepsEnd(s, q + 11), c);
  }

  lemma HostSpan(s: string, p: nat, g1: Option<Span>, c: Capture)
    requires HostAt(s, p, g1) == Some(c)
    ensures |c.groups| == 9 && SubmissionSpan(s, c.groups[5])
  {
    var q := if (StartsAt(s, p, "old.") || StartsAt(s, p, "www.")) && SiteAt(s, p + 4).Some? then p + 4 else p;
    var front := if q == p then [g1, None, None] else [g1, Some(Span(p, p + 4)), Some(Span(p, p + 3))];
    assert HostAt(s, p, g1) == Prefixed(front, SiteAt(s, q));
    PrefixedParts(front, SiteAt(s, q), c);
    SiteSpan(s, q, SiteAt(s, q).value);
    PrefixedSpan(s, front, SiteAt(s, q), c, 2);
  }

  /** A match's submission group is 5 to 12 word characters. */
  lemma ThreadSubmission(s: string, i: nat)
    ensures ThreadAt(s, i).Some? ==> var g := ThreadAt(s, i).value.groups; |g| == 9 && SubmissionSpan(s, g[5])
  {
    if ThreadAt(s, i).Some? {
      var p := Scheme(s, i).value;
      HostSpan(s, p, if p == i + 8 then Some(Span(i + 4, i + 5)) else None, ThreadAt(s, i).value);
    }
  }

  const Pattern: Regex :=
    Regex("http(s)?://((old|www)\\.)?reddit\\.com/(?:r/)+(?P<subreddit>[^/]+)/(comments/|s/)?(?P<submission>\\w{5,12})(?P<title>/\\w+/)?(?P<comment>\\w{3,9}(/)?)?",
          ["", "", "", "subreddit", "", "submission", "title", "comment", ""], (s: string, i: nat) => ThreadAt(s, i))

  /** Reddit: follow the link; no destination pattern and an empty template. */
  const Rule: GoLinkFollower.LinkFollower := GoLinkFollower.NewLinkFollower(GoReplacers.RedditName, Pattern, None, "")

  /** `init`: one `Add`. */
  method Register(reg: GoReplacers.Registry)
    modifies reg
    ensures reg.entries == old(reg.entries) + [GoReplacers.FollowerRule(Rule)]
  {
    reg.Add(GoReplacers.FollowerRule(Rule));
  }

  /** The rule follows with the thread pattern and rewrites nothing. */
  lemma RuleParts()
    ensures Rule.followRegex == Pattern && Rule.destinationRegex.None? && Rule.destinationReplacement == ""
    ensures StartsWithHttp(Pattern)
    ensures GoLinkFollower.Name(Rule) == GoReplacers.RedditName
  {
  }

  /**
   * Whatever the message, the answer is the followed URLs (queries
   * removed) joined by newlines, once every candidate can be followed.
   */
  lemma OutputIsFollowedUrls(resolve: Follow.Resolver, msg: string)
    requires GoLinkFollower.Matches(Rule, msg)
    requires forall l :: l in FindAllString(Pattern, msg) ==> resolve(l).Ok?
    ensures GoLinkFollower.Replaced(Rule, resolve, msg) == Reply(Join(GoLinkFollower.Followed(Rule, resolve, msg), "\n"), Nil)
  {
    GoLinkFollower.NoDestinationJoins(Rule, resolve, msg);
  }

  /**
   * `s` starts with a thread link: the scheme ends at `p`, the host
   * (after an optional "old." or "www.") starts at `q`, one "r/", the
   * subreddit from `q + 13` to the '/' at `e`, the kind ("comments/" or
   * "s/") from `e + 1` to `z`, and the submission id from `z` to `n`,
   * after which no word character follows, nor a title (a '/', word
   * characters and a '/').
   */
  predicate ThreadLinkIn(s: string, p: nat, q: nat, e: nat, z: nat, n: nat) {
    (p == 8 || p == 7) && (q == p || q == p + 4) && q + 13 < e && e < z && z + 5 <= n <= z + 12 && n <= |s|
    && s[..p] == (if p == 8 then "https://" else "http://")
    && (q == p + 4 ==> s[p..q] == "old." || s[p..q] == "www.")
    && s[q..q + 13] == "reddit.com/r/"
    && !StartsAt(s, q + 13, "r/")
    && AllIn(s[q + 13..e], NotSlash) && s[e] == '/'
    && (s[e + 1..z] == "comments/" || s[e + 1..z] == "s/")
    && AllIn(s[z..n], Word)
    && (n == |s| || (!IsWordChar(s[n]) && !TitleAt(s, n)))
  }

  /** A title `/\w+/` starts at `t`. */
  predicate TitleAt(s: string, t: nat)
    requires t <= |s|
  {
    t < |s| && s[t] == '/' && RunEnd(s, t + 1, Word) > t + 1 && RunEnd(s, t + 1, Word) < |s|
    && s[RunEnd(s, t + 1, Word)] == '/'
  }

  /** The groups a thread link gives, in pattern order. */
  function ThreadGroups(p: nat, q: nat, e: nat, z: nat, n: nat): seq<Option<Span>> {
    [if p == 8 then Some(Span(4, 5)) else None,
     if q == p + 4 then Some(Span(p, q)) else None,
     if q == p + 4 then Some(Span(p, p + 3)) else None,
     Some(Span(q + 13, e)), Some(Span(e + 1, z)), Some(Span(z, n)), None, None, None]
  }

  /** The submission id of a thread link, with nothing after it. */
  lemma SubmissionFacts(s: string, z: nat, n: nat)
    requires z + 5 <= n <= z + 12 && n <= |s|
    requires AllIn(s[z..n], Word)
    requires n == |s| || (!IsWordChar(s[n]) && !TitleAt(s, n))
    ensures SubmissionAt(s, z) == Some(Capture(n, [Some(Span(z, n)), None, None, None]))
  {
    forall k | z <= k < n
      ensures InClass(s[k], Word)
    {
      assert s[k] == s[z..n][k - z];
    }
    RunEndUnique(s, z, n, Word);
    RunEndUnique(s, n, n, Word);
  }

  /** The kind of a thread link: "comments/" or "s/" is the one the pattern keeps. */
  lemma KindFacts(s: string, y: nat, z: nat, n: nat)
    requires y < z && z + 5 <= n <= z + 12 && n <= |s|
    requires s[y..z] == "comments/" || s[y..z] == "s/"
    requires SubmissionAt(s, z) == Some(Capture(n, [Some(Span(z, n)), None, None, None]))
    ensures KindAt(s, y) == Some(Capture(n, [Some(Span(y, z)), Some(Span(z, n)), None, None, None]))
  {
    var c := Capture(n, [Some(Span(z, n)), None, None, None]);
    assert [Some(Span(y, z))] + c.groups == [Some(Span(y, z)), Some(Span(z, n)), None, None, None];
    if s[y..z] == "s/" {
      assert z == y + 2 && StartsAt(s, y, "s/");
      assert s[y] == s[y..z][0];
      assert !StartsAt(s, y, "comments/");
    } else {
      assert z == y + 9 && StartsAt(s, y, "comments/");
    }
  }

  /** The subreddit of a thread link runs to its '/'. */
  lemma SubredditFacts(s: string, x: nat, e: nat)
    requires x < e < |s| && AllIn(s[x..e], NotSlash) && s[e] == '/'
    ensures RunEnd(s, x, NotSlash) == e
  {
    forall k | x <= k < e
      ensures InClass(s[k], NotSlash)
    {
      assert s[k] == s[x..e][k - x];
    }
    RunEndUnique(s, x, e, NotSlash);
  }

  /** The host part of a thread link: one "r/", and the prefix when there is one. */
  lemma HostFacts(s: string, p: nat, q: nat, e: nat, z: nat, n: nat)
    requires ThreadLinkIn(s, p, q, e, z, n)
    ensures Scheme(s, 0) == Some(p)
    ensures StartsAt(s, q, "reddit.com/r/")
    ensures RepsEnd(s, q + 11) == q + 13
    ensures q == p + 4 ==> StartsAt(s, p, "old.") || StartsAt(s, p, "www.")
    ensures q == p ==> !StartsAt(s, p, "old.") && !StartsAt(s, p, "www.")
  {
    SchemeEnds(s, p);
    var host := s[q..q + 13];
    assert host == "reddit.com/r/";
    assert s[q + 11..q + 13] == host[11..];
    if q == p {
      assert s[p] == host[0];
    }
  }

  lemma SubredditStep(s: string, x: nat, e: nat, c: Capture)
    requires x < e < |s| && RunEnd(s, x, NotSlash) == e
    requires KindAt(s, e + 1) == Some(c)
    ensures SubredditAt(s, x) == Some(Capture(c.end, [Some(Span(x, e))] + c.groups))
  {
    assert SubredditAt(s, x) == Prefixed([Some(Span(x, e))], Some(c));
  }

  lemma SiteStep(s: string, q: nat, c: Capture)
    requires StartsAt(s, q, "reddit.com/r/") && RepsEnd(s, q + 11) == q + 13
    requires SubredditAt(s, q + 13) == Some(c)
    ensures SiteAt(s, q) == Some(c)
  {
  }

  /** A thread link at the start of `s` is matched up to the end of its submission id. */
  lemma ThreadLinkAt(s: string, p: nat, q: nat, e: nat, z: nat, n: nat)
    requires ThreadLinkIn(s, p, q, e, z, n)
    ensures ThreadAt(s, 0) == Some(Capture(n, ThreadGroups(p, q, e, z, n)))
  {
    HostFacts(s, p, q, e, z, n);
    SiteOfLink(s, q, e, z, n);
    var c := Capture(n, [Some(Span(q + 13, e)), Some(Span(e + 1, z)), Some(Span(z, n)), None, None, None]);
    if q == p {
      BareThread(s, p, e, z, n, c);
    } else {
      PrefixThread(s, p, e, z, n, c);
    }
  }

  /** The part of a thread link after the host prefix. */
  lemma SiteOfLink(s: string, q: nat, e: nat, z: nat, n: nat)
    requires q + 13 < e && e < z && z + 5 <= n <= z + 12 && n <= |s|
    requires StartsAt(s, q, "reddit.com/r/") && RepsEnd(s, q + 11) == q + 13
    requires AllIn(s[q + 13..e], NotSlash) && s[e] == '/'
    requires s[e + 1..z] == "comments/" || s[e + 1..z] == "s/"
    requires AllIn(s[z..n], Word)
    requires n == |s| || (!IsWordChar(s[n]) && !TitleAt(s, n))
    ensures SiteAt(s, q) == Some(Capture(n, [Some(Span(q + 13, e)), Some(Span(e + 1, z)), Some(Span(z, n)), None, None, None]))
  {
    SubredditOfLink(s, q + 13, e, z, n);
    SiteSteps(s, q, e, z, n);
  }

  /** The subreddit, the kind and the submission id of a thread link. */
  lemma SubredditOfLink(s: string, x: nat, e: nat, z: nat, n: nat)
    requires x < e && e < z && z + 5 <= n <= z + 12 && n <= |s|
    requires AllIn(s[x..e], NotSlash) && s[e] == '/'
    requires s[e + 1..z] == "comments/" || s[e + 1..z] == "s/"
    requires AllIn(s[z..n], Word)
    requires n == |s| || (!IsWordChar(s[n]) && !TitleAt(s, n))
    ensures RunEnd(s, x, NotSlash) == e
    ensures KindAt(s, e + 1) == Some(Capture(n, [Some(Span(e + 1, z)), Some(Span(z, n)), None, None, None]))
  {
    KindOfLink(s, e + 1, z, n);
    SubredditFacts(s, x, e);
  }

  /** The kind and the submission id of a thread link. */
  lemma KindOfLink(s: string, y: nat, z: nat, n: nat)
    requires y < z && z + 5 <= n <= z + 12 && n <= |s|
    requires s[y..z] == "comments/" || s[y..z] == "s/"
    requires AllIn(s[z..n], Word)
    requires n == |s| || (!IsWordChar(s[n]) && !TitleAt(s, n))
    ensures KindAt(s, y) == Some(Capture(n, [Some(Span(y, z)), Some(Span(z, n)), None, None, None]))
  {
    SubmissionFacts(s, z, n);
    KindFacts(s, y, z, n);
  }

  /** The steps of the pattern from the host back to the scheme, with no host prefix. */
  lemma BareThread(s: string, p: nat, e: nat, z: nat, n: nat, c: Capture)
    requires (p == 8 || p == 7) && Scheme(s, 0) == Some(p)
    requires !StartsAt(s, p, "old.") && !StartsAt(s, p, "www.")
    requires c == Capture(n, [Some(Span(p + 13, e)), Some(Span(e + 1, z)), Some(Span(z, n)), None, None, None])
    requires SiteAt(s, p) == Some(c)
    ensures ThreadAt(s, 0) == Some(Capture(n, ThreadGroups(p, p, e, z, n)))
  {
    BareHostSteps(s, p, c);
    FrontGroups(p, p, e, z, n, c.groups);
  }

  /** The steps of the pattern from the host back to the scheme, after "old." or "www.". */
  lemma PrefixThread(s: string, p: nat, e: nat, z: nat, n: nat, c: Capture)
    requires (p == 8 || p == 7) && Scheme(s, 0) == Some(p)
    requires StartsAt(s, p, "old.") || StartsAt(s, p, "www.")
    requires c == Capture(n, [Some(Span(p + 17, e)), Some(Span(e + 1, z)), Some(Span(z, n)), None, None, None])
    requires SiteAt(s, p + 4) == Some(c)
    ensures ThreadAt(s, 0) == Some(Capture(n, ThreadGroups(p, p + 4, e, z, n)))
  {
    PrefixHostSteps(s, p, c);
    FrontGroups(p, p + 4, e, z, n, c.groups);
  }

  /** The groups of a thread link: the scheme's and the prefix's, then those from the subreddit on. */
  lemma FrontGroups(p: nat, q: nat, e: nat, z: nat, n: nat, rest: seq<Option<Span>>)
    requires rest == [Some(Span(q + 13, e)), Some(Span(e + 1, z)), Some(Span(z, n)), None, None, None]
    ensures (if q == p + 4 then [if p == 8 then Some(Span(4, 5)) else None, Some(Span(p, p + 4)), Some(Span(p, p + 3))]
             else [if p == 8 then Some(Span(4, 5)) else None, None, None]) + rest == ThreadGroups(p, q, e, z, n)
  {
  }

  /** Without "old." or "www." the pattern goes on right after the scheme. */
  lemma BareHostSteps(s: string, p: nat, c: Capture)
    requires Scheme(s, 0) == Some(p)
    requires !StartsAt(s, p, "old.") && !StartsAt(s, p, "www.")
    requires SiteAt(s, p) == Some(c)
    ensures ThreadAt(s, 0) == Some(Capture(c.end, [if p == 8 then Some(Span(4, 5)) else None, None, None] + c.groups))
  {
  }

  /** With "old." or "www." the prefix is kept when the rest matches after it. */
  lemma PrefixHostSteps(s: string, p: nat, c: Capture)
    requires Scheme(s, 0) == Some(p)
    requires StartsAt(s, p, "old.") || StartsAt(s, p, "www.")
    requires SiteAt(s, p + 4) == Some(c)
    ensures ThreadAt(s, 0) == Some(Capture(c.end, [if p == 8 then Some(Span(4, 5)) else None, Some(Span(p, p + 4)), Some(Span(p, p + 3))] + c.groups))
  {
  }

  lemma SiteSteps(s: string, q: nat, e: nat, z: nat, n: nat)
    requires q + 13 < e < |s|
    requires StartsAt(s, q, "reddit.com/r/") && RepsEnd(s, q + 11) == q + 13
    requires RunEnd(s, q + 13, NotSlash) == e
    requires KindAt(s, e + 1) == Some(Capture(n, [Some(Span(e + 1, z)), Some(Span(z, n)), None, None, None]))
    ensures SiteAt(s, q) == Some(Capture(n, [Some(Span(q + 13, e)), Some(Span(e + 1, z)), Some(Span(z, n)), None, None, None]))
  {
    var kind := Capture(n, [Some(Span(e + 1, z)), Some(Span(z, n)), None, None, None]);
    SubredditStep(s, q + 13, e, kind);
    var c := Capture(n, [Some(Span(q + 13, e))] + kind.groups);
    assert c.groups == [Some(Span(q + 13, e)), Some(Span(e + 1, z)), Some(Span(z, n)), None, None, None];
    SiteStep(s, q, c);
  }

  lemma ThreadGroupsWithin(p: nat, q: nat, e: nat, z: nat, n: nat)
    requires 5 <= p <= q && q + 13 <= e < z <= n
    ensures SpansWithin(ThreadGroups(p, q, e, z, n), n)
  {
  }

  /**
   * A message that starts with a thread link, over http or https, on
   * reddit.com, old.reddit.com or www.reddit.com, in the "comments/" or
   * the "s/" share form, and has no "http" after the link, is answered
   * with the URL the link leads to, query removed; when the link cannot
   * be followed the message comes back with the error.
   */
  lemma FollowsThreadLink(s: string, p: nat, q: nat, e: nat, z: nat, n: nat, resolve: Follow.Resolver)
    requires ThreadLinkIn(s, p, q, e, z, n)
    requires !Contains(s[n..], "http")
    ensures GoLinkFollower.Matches(Rule, s)
    ensures resolve(s[..n]).Ok? ==>
      GoLinkFollower.Replaced(Rule, resolve, s) == Reply(Follow.Render(Follow.StripQuery(resolve(s[..n]).value)), Nil)
    ensures resolve(s[..n]).Err? ==>
      GoLinkFollower.Replaced(Rule, resolve, s) == Reply(s, FollowFailed(resolve(s[..n]).error))
  {
    ThreadLinkAt(s, p, q, e, z, n);
    ThreadGroupsWithin(p, q, e, z, n);
    RuleParts();
    FollowThread(Rule, resolve, s, n, ThreadGroups(p, q, e, z, n));
  }

  lemma FollowThread(r: GoLinkFollower.LinkFollower, resolve: Follow.Resolver, s: string, n: nat, groups: seq<Option<Span>>)
    requires StartsWithHttp(r.followRegex) && r.destinationRegex.None?
    requires 0 < n <= |s| && SpansWithin(groups, n)
    requires r.followRegex.at(s, 0) == Some(Capture(n, groups))
    requires !Contains(s[n..], "http")
    ensures GoLinkFollower.Matches(r, s)
    ensures resolve(s[..n]).Ok? ==>
      GoLinkFollower.Replaced(r, resolve, s) == Reply(Follow.Render(Follow.StripQuery(resolve(s[..n]).value)), Nil)
    ensures resolve(s[..n]).Err? ==>
      GoLinkFollower.Replaced(r, resolve, s) == Reply(s, FollowFailed(resolve(s[..n]).error))
  {
    FollowSoleLink(r, resolve, s, n, Capture(n, groups));
  }
}
