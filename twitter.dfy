// The Twitter rule (internal/replacer/replacer_twitter.go): status links on
// twitter.com or x.com rewritten to vxtwitter.com.
module Twitter {
  import opened Base
  import opened Text
  import opened Regex
  import opened Patterns
  import opened GoEngine
  import GoSimple
  import GoReplacers

  /**
   * The anchored attempt of
   * `https?://(?P<tld>twitter|x)\.com/(?:#!/)?(\w+)/status(es)?/(\d+)`;
   * with `allowX` false the `x` alternative is missing, as in the root
   * package's pattern. Every choice point is decided by the next
   * character, so the first alternative that fits is the only one.
   * Groups: 1 the host name, 2 the user, 3 "es", 4 the status id.
   */
  function StatusAt(allowX: bool, s: string, i: nat): (c: Option<Capture>)
    ensures c.Some? ==> StartsAt(s, i, "http")
  {
    match Scheme(s, i)
    case None => None
    case Some(p) => HostAt(allowX, s, p)
  }

  /** `(?P<tld>twitter|x)\.com/` from `p`. */
  function HostAt(allowX: bool, s: string, p: nat): Option<Capture> {
    var t := if StartsAt(s, p, "twitter") then p + 7 else if allowX && StartsAt(s, p, "x") then p + 1 else p;
    if t == p || !StartsAt(s, t, ".com/") then None
    else UserAt(s, p, t)
  }

  /** Without the `x` alternative a link to the x.com host is not matched. */
  lemma XHostRejected(s: string, p: nat)
    requires Scheme(s, 0) == Some(p) && p < |s| && s[p] == 'x'
    ensures StatusAt(false, s, 0).None?
  {
    NotStartingWith(s, p, "twitter", 0);
  }

  /** `(?:#!/)?(\w+)/status` after the host, which spans `p` to `t`. */
  function UserAt(s: string, p: nat, t: nat): Option<Capture>
    requires t + 5 <= |s|
  {
    var q := t + 5;
    var u := if StartsAt(s, q, "#!/") then q + 3 else q;
    var e := RunEnd(s, u, Word);
    if e == u || !StartsAt(s, e, "/status") then None
    else IdAt(s, p, t, u, e)
  }

  /** `(es)?/(\d+)` after "/status", which starts at `e`; the user spans `u` to `e`. */
  function IdAt(s: string, p: nat, t: nat, u: nat, e: nat): Option<Capture>
    requires e + 7 <= |s|
  {
    var plural := StartsAt(s, e + 7, "es");
    var h := if plural then e + 9 else e + 7;
    if !StartsAt(s, h, "/") then None
    else
      var d := RunEnd(s, h + 1, Digit);
      if d == h + 1 then None
      else Some(Capture(d, [Some(Span(p, t)), Some(Span(u, e)), if plural then Some(Span(e + 7, h)) else None, Some(Span(h + 1, d))]))
  }

  const Pattern: Regex := Regex("https?://(?P<tld>twitter|x)\\.com/(?:#!/)?(\\w+)/status(es)?/(\\d+)",
                                ["tld", "", "", ""], (s: string, i: nat) => StatusAt(true, s, i))

  /** "https://vxtwitter.com/$2/status/$4", written as its literal pieces and group references. */
  const Template: string := "https://vxtwitter.com/" + ("$2" + ("/status/" + "$4"))

  /** The rule `init` adds. */
  const Rule: GoSimple.Simple := GoSimple.NewSimple(GoReplacers.TwitterName, Pattern, Template)

  /** `init`: one `Add`. */
  method Register(reg: GoReplacers.Registry)
    modifies reg
    ensures reg.entries == old(reg.entries) + [GoReplacers.SimpleRule(Rule)]
  {
    reg.Add(GoReplacers.SimpleRule(Rule));
  }

  lemma PatternNeedsHttp()
    ensures StartsWithHttp(Pattern)
  {
  }

  /**
   * `s` starts with a status link whose host runs from `p` to `t`, whose
   * user ends at `e`, whose "/status" or "/statuses" ends at `h`, and
   * whose id ends at `d`, and the character after the id (if any) is not
   * a digit.
   */
  predicate StatusLinkIn(allowX: bool, s: string, p: nat, t: nat, e: nat, h: nat, d: nat) {
    (p == 8 || p == 7) && p < t && t + 5 < e && e + 7 <= h < d <= |s|
    && s[..p] == (if p == 8 then "https://" else "http://")
    && (s[p..t] == "twitter" || (allowX && s[p..t] == "x"))
    && s[t..t + 5] == ".com/"
    && AllIn(s[t + 5..e], Word)
    && s[e..e + 7] == "/status" && (h == e + 7 || (h == e + 9 && s[e + 7..h] == "es"))
    && s[h] == '/' && h + 1 < d && AllIn(s[h + 1..d], Digit) && (d == |s| || !IsDigit(s[d]))
  }

  /**
   * A status link at the start of `s` is matched up to the end of its id,
   * with the user as group 2 and the id as group 4.
   */
  lemma StatusLinkAt(allowX: bool, s: string, p: nat, t: nat, e: nat, h: nat, d: nat)
    requires StatusLinkIn(allowX, s, p, t, e, h, d)
    ensures StatusAt(allowX, s, 0) == Some(Capture(d, StatusGroups(p, t, e, h, d)))
  {
    StatusLinkFacts(allowX, s, p, t, e, h, d);
    UserStep(s, p, t, e);
    IdStep(s, p, t, e, h, d);
  }

  /** The groups the pattern captures in a status link: host, user, "es" when present, and id. */
  function StatusGroups(p: nat, t: nat, e: nat, h: nat, d: nat): seq<Option<Span>> {
    [Some(Span(p, t)), Some(Span(t + 5, e)), if h == e + 9 then Some(Span(e + 7, h)) else None, Some(Span(h + 1, d))]
  }

  /** A status link is captured the same way in the message and on its own. */
  lemma StatusCaptured(allowX: bool, s: string, p: nat, t: nat, e: nat, h: nat, d: nat)
    requires StatusLinkIn(allowX, s, p, t, e, h, d)
    ensures StatusAt(allowX, s, 0) == Some(Capture(d, StatusGroups(p, t, e, h, d)))
    ensures StatusAt(allowX, s[..d], 0) == Some(Capture(d, StatusGroups(p, t, e, h, d)))
    ensures var g := StatusGroups(p, t, e, h, d);
      SpansWithin(g, d) && |g| == 4 && g[1] == Some(Span(t + 5, e)) && g[3] == Some(Span(h + 1, d))
  {
    StatusLinkAt(allowX, s, p, t, e, h, d);
    StatusLinkPrefix(allowX, s, p, t, e, h, d);
    StatusLinkAt(allowX, s[..d], p, t, e, h, d);
    StatusGroupsWithin(p, t, e, h, d);
  }

  lemma StatusGroupsWithin(p: nat, t: nat, e: nat, h: nat, d: nat)
    requires p < t && t + 5 < e && e + 7 <= h < d
    ensures SpansWithin(StatusGroups(p, t, e, h, d), d)
  {
  }

  /** What each step of the pattern finds in a status link. */
  lemma StatusLinkFacts(allowX: bool, s: string, p: nat, t: nat, e: nat, h: nat, d: nat)
    requires StatusLinkIn(allowX, s, p, t, e, h, d)
    ensures Scheme(s, 0) == Some(p)
    ensures t == (if StartsAt(s, p, "twitter") then p + 7 else if allowX && StartsAt(s, p, "x") then p + 1 else p)
    ensures StartsAt(s, t, ".com/") && !StartsAt(s, t + 5, "#!/") && RunEnd(s, t + 5, Word) == e
    ensures StartsAt(s, e, "/status") && StartsAt(s, e + 7, "es") == (h == e + 9) && StartsAt(s, h, "/")
    ensures RunEnd(s, h + 1, Digit) == d
  {
    HostFacts(allowX, s, p, t);
    UserFacts(s, t, e);
    StatusFacts(s, e, h);
    RunOf(s, h + 1, d, Digit);
  }

  /** The scheme and the host of a status link. */
  lemma HostFacts(allowX: bool, s: string, p: nat, t: nat)
    requires (p == 8 || p == 7) && p < t && t + 5 <= |s|
    requires s[..p] == (if p == 8 then "https://" else "http://")
    requires s[p..t] == "twitter" || (allowX && s[p..t] == "x")
    requires s[t..t + 5] == ".com/"
    ensures Scheme(s, 0) == Some(p)
    ensures t == (if StartsAt(s, p, "twitter") then p + 7 else if allowX && StartsAt(s, p, "x") then p + 1 else p)
    ensures StartsAt(s, t, ".com/")
  {
    SchemeEnds(s, p);
    if s[p..t] == "x" {
      assert s[p] == 'x';
    }
  }

  /** The user of a status link runs to "/status". */
  lemma UserFacts(s: string, t: nat, e: nat)
    requires t + 5 < e && e + 7 <= |s|
    requires AllIn(s[t + 5..e], Word) && s[e..e + 7] == "/status"
    ensures !StartsAt(s, t + 5, "#!/") && RunEnd(s, t + 5, Word) == e && StartsAt(s, e, "/status")
  {
    assert s[t + 5] == s[t + 5..e][0];
    assert s[e] == s[e..e + 7][0];
    RunOf(s, t + 5, e, Word);
  }

  /** "/status" or "/statuses", then the '/' before the id. */
  lemma StatusFacts(s: string, e: nat, h: nat)
    requires e + 7 <= h < |s|
    requires s[e..e + 7] == "/status" && (h == e + 7 || (h == e + 9 && s[e + 7..h] == "es")) && s[h] == '/'
    ensures StartsAt(s, e, "/status") && StartsAt(s, e + 7, "es") == (h == e + 9) && StartsAt(s, h, "/")
  {
    if h == e + 7 {
      assert s[e + 7] == '/';
    }
    assert s[h..h + 1] == [s[h]];
  }

  lemma UserStep(s: string, p: nat, t: nat, e: nat)
    requires t + 5 < e <= |s|
    requires !StartsAt(s, t + 5, "#!/") && RunEnd(s, t + 5, Word) == e && StartsAt(s, e, "/status")
    ensures UserAt(s, p, t) == IdAt(s, p, t, t + 5, e)
  {
  }

  lemma IdStep(s: string, p: nat, t: nat, e: nat, h: nat, d: nat)
    requires e + 7 <= h < d <= |s| && h + 1 < d
    requires StartsAt(s, e + 7, "es") == (h == e + 9) && (h == e + 7 || h == e + 9) && StartsAt(s, h, "/")
    requires RunEnd(s, h + 1, Digit) == d
    ensures IdAt(s, p, t, t + 5, e) == Some(Capture(d, StatusGroups(p, t, e, h, d)))
  {
  }

  /** A status link is still one when the text after it is cut off. */
  lemma StatusLinkPrefix(allowX: bool, s: string, p: nat, t: nat, e: nat, h: nat, d: nat)
    requires StatusLinkIn(allowX, s, p, t, e, h, d)
    ensures StatusLinkIn(allowX, s[..d], p, t, e, h, d)
  {
    SliceOfPrefix(s, d, 0, p);
    assert s[..d][..p] == s[..d][0..p] && s[..p] == s[0..p];
    SliceOfPrefix(s, d, p, t);
    SliceOfPrefix(s, d, t, t + 5);
    SliceOfPrefix(s, d, t + 5, e);
    SliceOfPrefix(s, d, e, e + 7);
    SliceOfPrefix(s, d, e + 7, h);
    SliceOfPrefix(s, d, h + 1, d);
  }

  /** The template keeps only the user and the id. */
  lemma TemplateExpands(re: Regex, link: string, m: Match, user: string, id: string)
    requires GroupText(link, m, 2) == user && GroupText(link, m, 4) == id
    ensures Expand(re, Template, link, m) == "https://vxtwitter.com/" + (user + ("/status/" + id))
  {
    HostPlain();
    StatusRefsExpand(re, link, m, user, id);
    ExpandLiteral(re, "https://vxtwitter.com/", "$2" + ("/status/" + "$4"), link, m);
  }

  /** The references part of both twitter templates: the user, "/status/" and the id. */
  lemma StatusRefsExpand(re: Regex, link: string, m: Match, user: string, id: string)
    requires GroupText(link, m, 2) == user && GroupText(link, m, 4) == id
    ensures Expand(re, "$2" + ("/status/" + "$4"), link, m) == user + ("/status/" + id)
  {
    StatusPieces();
    ExpandSoleDigit(re, "$4", link, m);
    ExpandDigitThen(re, "$2", "/status/", "$4", link, m);
  }

  lemma HostPlain()
    ensures Plain("https://vxtwitter.com/")
  {
  }

  lemma StatusPieces()
    ensures Separator("/status/") && DigitRef("$2") && RefNum("$2") == 2 && DigitRef("$4") && RefNum("$4") == 4
  {
  }

  /**
   * A message made of a twitter.com or x.com status link, over http or
   * https, with "status" or "statuses", followed by anything without
   * "http" (a query, say), becomes the vxtwitter.com link with the same
   * user and id, over https, with "status"; the rest is dropped.
   */
  lemma RewritesStatusLink(s: string, p: nat, t: nat, e: nat, h: nat, d: nat)
    requires StatusLinkIn(true, s, p, t, e, h, d)
    requires !Contains(s[d..], "http")
    ensures GoSimple.Matches(Rule, s)
    ensures GoSimple.Replace(Rule, s) == Reply(SpoilerAs(s, "https://vxtwitter.com/" + (s[t + 5..e] + ("/status/" + s[h + 1..d]))), Nil)
  {
    StatusCaptured(true, s, p, t, e, h, d);
    RuleParts();
    SoleStatusLink(Rule, s, t, e, h, d, StatusGroups(p, t, e, h, d));
  }

  /** The rule's pattern and template, as the status-link lemmas use them. */
  lemma RuleParts()
    ensures Rule.regex == Pattern && Rule.replacement == Template && StartsWithHttp(Rule.regex)
  {
    PatternNeedsHttp();
  }

  lemma SoleStatusLink(r: GoSimple.Simple, s: string, t: nat, e: nat, h: nat, d: nat, groups: seq<Option<Span>>)
    requires StartsWithHttp(r.regex) && r.replacement == Template
    requires t + 5 <= e && e + 7 <= h && h + 1 <= d <= |s| && d > 0
    requires |groups| == 4 && groups[1] == Some(Span(t + 5, e)) && groups[3] == Some(Span(h + 1, d))
    requires SpansWithin(groups, d)
    requires r.regex.at(s, 0) == Some(Capture(d, groups)) && r.regex.at(s[..d], 0) == Some(Capture(d, groups))
    requires !Contains(s[d..], "http")
    ensures GoSimple.Matches(r, s)
    ensures GoSimple.Replace(r, s) == Reply(SpoilerAs(s, "https://vxtwitter.com/" + (s[t + 5..e] + ("/status/" + s[h + 1..d]))), Nil)
  {
    var m := Match(0, d, [Some(Span(0, d))] + groups);
    GroupOfLink(s, d, groups, 2, t + 5, e);
    GroupOfLink(s, d, groups, 4, h + 1, d);
    TemplateExpands(r.regex, s[..d], m, s[t + 5..e], s[h + 1..d]);
    SimpleSoleLink(r, s, d, Capture(d, groups), "https://vxtwitter.com/" + (s[t + 5..e] + ("/status/" + s[h + 1..d])));
  }

  /**
   * The rewritten link is not matched again: "vxtwitter.com" is neither
   * "twitter.com" nor "x.com" right after the scheme.
   */
  lemma RewriteIsFinal(user: string, id: string)
    requires AllIn(user, Word) && AllIn(id, Digit)
    ensures !GoSimple.Matches(Rule, "https://vxtwitter.com/" + user + "/status/" + id)
  {
    var out := "https://vxtwitter.com/" + user + "/status/" + id;
    OnlyColonAtFive(user, id);
    forall i | 0 <= i <= |out|
      ensures StatusAt(true, out, i).None?
    {
      if Scheme(out, i).Some? {
        SchemeColon(out, i);
        assert i == 0;
        VxHostRejected(out);
      }
    }
    assert Search(Pattern, out, 0).None?;
  }

  /** The only ':' of a rewritten link is the scheme's. */
  lemma OnlyColonAtFive(user: string, id: string)
    requires AllIn(user, Word) && AllIn(id, Digit)
    ensures var out := "https://vxtwitter.com/" + user + "/status/" + id;
      forall k | 0 <= k < |out| && k != 5 :: out[k] != ':'
  {
    var out := "https://vxtwitter.com/" + user + "/status/" + id;
    forall k | 0 <= k < |out| && k != 5
      ensures out[k] != ':'
    {
      if k >= 22 + |user| + 8 {
        assert out[k] == id[k - 22 - |user| - 8];
      } else if k >= 22 + |user| {
      } else if k >= 22 {
        assert out[k] == user[k - 22];
      }
    }
  }

  /** "vxtwitter.com" is not a host the pattern accepts. */
  lemma VxHostRejected(out: string)
    requires StartsAt(out, 0, "https://vxtwitter.com/")
    ensures StatusAt(true, out, 0).None?
  {
    assert out[..8] == "https://vxtwitter.com/"[..8];
    assert Scheme(out, 0) == Some(8);
    assert out[8] == 'v';
    assert !StartsAt(out, 8, "twitter") && !StartsAt(out, 8, "x");
  }
}
