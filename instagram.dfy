// The Instagram rule (internal/replacer/replacer_instagram.go): a reel
// link becomes the matching link on ddinstagram.com.
module Instagram {
  import opened Base
  import opened Text
  import opened Regex
  import opened Patterns
  import opened GoEngine
  import GoSimple
  import GoReplacers

  /** The last '/' in `s[lo..hi]`, where the greedy id group stops. */
  function LastSlash(s: string, lo: nat, hi: nat): (j: Option<nat>)
    requires lo <= hi <= |s|
    ensures j.Some? ==> lo <= j.value < hi && s[j.value] == '/' && forall k :: j.value < k < hi ==> s[k] != '/'
    ensures j.None? ==> forall k :: lo <= k < hi ==> s[k] != '/'
    decreases hi - lo
  {
    if hi == lo then None
    else if s[hi - 1] == '/' then Some(hi - 1)
    else LastSlash(s, lo, hi - 1)
  }

  /** A '/' with none after it up to `hi` is the one `LastSlash` finds. */
  lemma {:induction false} LastSlashIs(s: string, lo: nat, j: nat, hi: nat)
    requires lo <= j < hi <= |s| && s[j] == '/'
    requires forall k :: j < k < hi ==> s[k] != '/'
    ensures LastSlash(s, lo, hi) == Some(j)
    decreases hi - j
  {
    if hi - 1 != j {
      LastSlashIs(s, lo, j, hi - 1);
    }
  }

  /**
   * The anchored attempt of
   * `http(s)://(\w{3}.)?instagram.com/reel(s)?/(?P<id>.*)/`. The `(s)`
   * group is not optional, so only https links match. The optional
   * `\w{3}.` is tried first; the id is everything up to the last '/'
   * of the line. Groups: 1 the "s" of https, 2 the `www.` part, 3 the
   * "s" of "reels", 4 (`id`) the reel id.
   */
  function ReelAt(s: string, i: nat): (c: Option<Capture>)
    ensures c.Some? ==> StartsAt(s, i, "http")
  {
    if !StartsAt(s, i, "https://") then None
    else
      assert s[i..i + 4] == s[i..i + 8][..4];
      var p := i + 8;
      var withPrefix := p + 4 <= |s| && IsWordChar(s[p]) && IsWordChar(s[p + 1]) && IsWordChar(s[p + 2]) && s[p + 3] != '\n';
      if withPrefix && ReelBodyAt(s, p + 4).Some? then
        var b := ReelBodyAt(s, p + 4).value;
        Some(Capture(b.end, [Some(Span(i + 4, i + 5)), Some(Span(p, p + 4))] + b.groups))
      else
        match ReelBodyAt(s, p)
        case None => None
        case Some(b) => Some(Capture(b.end, [Some(Span(i + 4, i + 5)), None] + b.groups))
  }

  /** `instagram.com/reel(s)?/(?P<id>.*)/` from `q`; its groups are 3 and 4. */
  function ReelBodyAt(s: string, q: nat): Option<Capture> {
    if !(StartsAt(s, q, "instagram") && q + 9 < |s| && s[q + 9] != '\n' && StartsAt(s, q + 10, "com/reel")) then None
    else
      var r := q + 18;
      var plural := StartsAt(s, r, "s/");
      if !plural && !StartsAt(s, r, "/") then None
      else
        var v := if plural then r + 2 else r + 1;
        match LastSlash(s, v, RunEnd(s, v, NotNewline))
        case None => None
        case Some(j) => Some(Capture(j + 1, [if plural then Some(Span(r, r + 1)) else None, Some(Span(v, j))]))
  }

  const Pattern: Regex := Regex("http(s)://(\\w{3}.)?instagram.com/reel(s)?/(?P<id>.*)/",
                                ["", "", "", "id"], (s: string, i: nat) => ReelAt(s, i))

  /** "https://www.ddinstagram.com/reel/${id}", kept in two pieces: the fixed prefix and the reference. */
  const Template: string := "https://www.ddinstagram.com/reel/" + "${id}"

  /** The rule `init` adds. */
  const Rule: GoSimple.Simple := GoSimple.NewSimple(GoReplacers.InstagramName, Pattern, Template)

  /** `init`: one `Add`. */
  method Register(reg: GoReplacers.Registry)
    modifies reg
    ensures reg.entries == old(reg.entries) + [GoReplacers.SimpleRule(Rule)]
  {
    reg.Add(GoReplacers.SimpleRule(Rule));
  }

  /** The rule's pattern and template, as the lemmas below use them. */
  lemma RuleParts()
    ensures Rule.regex == Pattern && Rule.replacement == Template && StartsWithHttp(Rule.regex)
    ensures GoSimple.Name(Rule) == GoReplacers.InstagramName
  {
  }

  /** A plain http link is never matched: the `(s)` group has no `?`. */
  lemma HttpsOnly(s: string, i: nat)
    requires StartsAt(s, i, "http://")
    ensures MatchAt(Pattern, s, i).None?
  {
    assert s[i + 4] == s[i..i + 7][4];
  }

  /**
   * `s` starts with a reel link: "https://", then `www.` (any three word
   * characters and one more) when `q` is 12, then "instagram.com/reel",
   * "/" or "s/", and the id from `v` to the '/' at `j`, which is the last
   * '/' of the line that ends at `l`.
   */
  predicate ReelLinkIn(s: string, q: nat, v: nat, j: nat, l: nat) {
    (q == 8 || q == 12) && (v == q + 19 || v == q + 20) && v <= j < l <= |s|
    && s[..8] == "https://"
    && (q == 12 ==> IsWordChar(s[8]) && IsWordChar(s[9]) && IsWordChar(s[10]) && s[11] != '\n')
    && s[q..q + 18] == "instagram.com/reel"
    && (if v == q + 19 then s[q + 18] == '/' else s[q + 18..v] == "s/")
    && s[j] == '/' && AllIn(s[v..l], NotNewline) && AllIn(s[j + 1..l], NotSlash)
    && (l == |s| || s[l] == '\n')
  }

  /** The part of the pattern after the optional prefix, on a reel link. */
  lemma ReelBodyFacts(s: string, q: nat, v: nat, j: nat, l: nat)
    requires ReelLinkIn(s, q, v, j, l)
    ensures ReelBodyAt(s, q) == Some(Capture(j + 1, [if v == q + 20 then Some(Span(q + 18, q + 19)) else None, Some(Span(v, j))]))
  {
    ReelHostFacts(s, q, v);
    ReelIdFacts(s, v, j, l);
  }

  /** "instagram.com/reel" and the kind, on a reel link. */
  lemma ReelHostFacts(s: string, q: nat, v: nat)
    requires (v == q + 19 || v == q + 20) && v <= |s| && s[q..q + 18] == "instagram.com/reel"
    requires if v == q + 19 then s[q + 18] == '/' else s[q + 18..v] == "s/"
    ensures StartsAt(s, q, "instagram") && q + 9 < |s| && s[q + 9] != '\n' && StartsAt(s, q + 10, "com/reel")
    ensures StartsAt(s, q + 18, "s/") <==> v == q + 20
    ensures StartsAt(s, q + 18, "s/") || StartsAt(s, q + 18, "/")
  {
    assert s[q..q + 9] == s[q..q + 18][..9];
    assert s[q + 9] == s[q..q + 18][9];
    assert s[q + 10..q + 18] == s[q..q + 18][10..];
    var r := q + 18;
    if v == q + 19 {
      assert !StartsAt(s, r, "s/");
      assert s[r..r + 1] == [s[r]];
    }
  }

  /** The id of a reel link runs to the last '/' of its line. */
  lemma ReelIdFacts(s: string, v: nat, j: nat, l: nat)
    requires v <= j < l <= |s| && s[j] == '/'
    requires AllIn(s[v..l], NotNewline) && AllIn(s[j + 1..l], NotSlash) && (l == |s| || s[l] == '\n')
    ensures LastSlash(s, v, RunEnd(s, v, NotNewline)) == Some(j)
  {
    forall k | v <= k < l
      ensures InClass(s[k], NotNewline)
    {
      assert s[k] == s[v..l][k - v];
    }
    RunEndUnique(s, v, l, NotNewline);
    forall k | j < k < l
      ensures s[k] != '/'
    {
      assert s[k] == s[j + 1..l][k - j - 1];
    }
    LastSlashIs(s, v, j, l);
  }

  /** Without the prefix the pattern does not start over at the fifth character of "instagram". */
  lemma NoBodyInsideHost(s: string)
    requires |s| >= 26 && s[8..26] == "instagram.com/reel"
    ensures ReelBodyAt(s, 12).None?
  {
    assert s[12] == s[8..26][4];
  }

  /** The groups the pattern captures in a reel link: the 's', the prefix when there is one, the plural 's' when present, and the id. */
  function ReelGroups(q: nat, v: nat, j: nat): seq<Option<Span>> {
    [Some(Span(4, 5)), if q == 12 then Some(Span(8, 12)) else None,
     if v == q + 20 then Some(Span(q + 18, q + 19)) else None, Some(Span(v, j))]
  }

  /** A reel link is captured the same way in the message and on its own. */
  lemma ReelCaptured(s: string, q: nat, v: nat, j: nat, l: nat)
    requires ReelLinkIn(s, q, v, j, l)
    ensures Pattern.at(s, 0) == Some(Capture(j + 1, ReelGroups(q, v, j)))
    ensures Pattern.at(s[..j + 1], 0) == Some(Capture(j + 1, ReelGroups(q, v, j)))
    ensures var g := ReelGroups(q, v, j); SpansWithin(g, j + 1) && |g| == 4 && g[3] == Some(Span(v, j))
  {
    ReelLinkAt(s, q, v, j, l);
    ReelLinkPrefix(s, q, v, j, l);
    ReelLinkAt(s[..j + 1], q, v, j, j + 1);
    ReelGroupsWithin(q, v, j);
  }

  lemma ReelGroupsWithin(q: nat, v: nat, j: nat)
    requires 12 <= q + 4 && q + 19 <= v <= j
    ensures SpansWithin(ReelGroups(q, v, j), j + 1)
  {
  }

  lemma ReelLinkAt(s: string, q: nat, v: nat, j: nat, l: nat)
    requires ReelLinkIn(s, q, v, j, l)
    ensures ReelAt(s, 0) == Some(Capture(j + 1, ReelGroups(q, v, j)))
  {
    assert s[0..8] == s[..8];
    ReelBodyFacts(s, q, v, j, l);
    var g3 := if v == q + 20 then Some(Span(q + 18, q + 19)) else None;
    if q == 8 {
      NoBodyInsideHost(s);
      assert [Some(Span(4, 5)), None] + [g3, Some(Span(v, j))] == [Some(Span(4, 5)), None, g3, Some(Span(v, j))];
    } else {
      assert [Some(Span(4, 5)), Some(Span(8, 12))] + [g3, Some(Span(v, j))] == [Some(Span(4, 5)), Some(Span(8, 12)), g3, Some(Span(v, j))];
    }
  }

  /** A reel link is still one when the text after its last '/' is cut off. */
  lemma ReelLinkPrefix(s: string, q: nat, v: nat, j: nat, l: nat)
    requires ReelLinkIn(s, q, v, j, l)
    ensures ReelLinkIn(s[..j + 1], q, v, j, j + 1)
  {
    var link := s[..j + 1];
    SliceOfPrefix(s, j + 1, 0, 8);
    assert link[..8] == link[0..8];
    SliceOfPrefix(s, j + 1, q, q + 18);
    SliceOfPrefix(s, j + 1, q + 18, v);
    forall k | v <= k < j + 1
      ensures InClass(link[k], NotNewline)
    {
      assert link[k] == s[v..l][k - v];
    }
    assert link[j + 1..j + 1] == [];
  }

  /** `${id}` names group 4, the only group called "id". */
  lemma IdGroup(s: string, m: Match)
    requires |m.groups| == 5 && m.groups[4].Some?
    ensures NamedTextFrom(Pattern, s, m, "id", 1) == GroupText(s, m, 4)
  {
  }

  /** The template is the ddinstagram link around the id. */
  lemma TemplateExpands(re: Regex, link: string, m: Match, id: string)
    requires NamedTextFrom(re, link, m, "id", 1) == id
    ensures Expand(re, Template, link, m) == "https://www.ddinstagram.com/reel/" + id
  {
    Pieces();
    ExpandNamed(re, "${id}", "id", "", link, m);
    assert "${id}" + "" == "${id}";
    ExpandLiteral(re, "https://www.ddinstagram.com/reel/", "${id}", link, m);
  }

  /** The literal piece and the reference of the template. */
  lemma Pieces()
    ensures Plain("https://www.ddinstagram.com/reel/") && NamedRef("${id}", "id")
  {
  }

  /**
   * A message that starts with an https reel link ("/reel/" or
   * "/reels/"), with or without a `www.`-like prefix, and has no "http"
   * after the link's last '/', becomes the ddinstagram link with the id
   * and no trailing '/': the query after that '/' is dropped.
   */
  lemma RewritesReelLink(s: string, q: nat, v: nat, j: nat, l: nat)
    requires ReelLinkIn(s, q, v, j, l)
    requires !Contains(s[j + 1..], "http")
    ensures GoSimple.Matches(Rule, s)
    ensures GoSimple.Replace(Rule, s) == Reply(SpoilerAs(s, "https://www.ddinstagram.com/reel/" + s[v..j]), Nil)
  {
    ReelCaptured(s, q, v, j, l);
    RuleParts();
    SoleReelLink(Rule, s, j + 1, ReelGroups(q, v, j), v, j);
  }

  lemma SoleReelLink(r: GoSimple.Simple, s: string, d: nat, groups: seq<Option<Span>>, v: nat, j: nat)
    requires r == Rule && StartsWithHttp(r.regex)
    requires 0 < d <= |s| && SpansWithin(groups, d) && |groups| == 4 && groups[3] == Some(Span(v, j))
    requires r.regex.at(s, 0) == Some(Capture(d, groups)) && r.regex.at(s[..d], 0) == Some(Capture(d, groups))
    requires !Contains(s[d..], "http")
    ensures GoSimple.Matches(r, s)
    ensures GoSimple.Replace(r, s) == Reply(SpoilerAs(s, "https://www.ddinstagram.com/reel/" + s[v..j]), Nil)
  {
    var m := Match(0, d, [Some(Span(0, d))] + groups);
    GroupOfLink(s, d, groups, 4, v, j);
    IdGroup(s[..d], m);
    TemplateExpands(Pattern, s[..d], m, s[v..j]);
    SimpleSoleLink(r, s, d, Capture(d, groups), "https://www.ddinstagram.com/reel/" + s[v..j]);
  }
}
