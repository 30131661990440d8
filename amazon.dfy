// The Amazon rule (internal/replacer/replacer_amazon.go): a product link
// is cut down to its host and its ASIN.
module Amazon {
  import opened Base
  import opened Text
  import opened Regex
  import opened Patterns
  import opened GoEngine
  import GoSimple
  import GoReplacers

  /** The largest `b` in `[lo, hi]` where `lit` starts: where a greedy `.*` followed by `lit` stops. */
  function LastAt(s: string, lit: string, lo: nat, hi: nat): (b: Option<nat>)
    ensures b.Some? ==> lo <= b.value <= hi && StartsAt(s, b.value, lit)
    ensures b.Some? ==> forall k :: b.value < k <= hi ==> !StartsAt(s, k, lit)
    ensures b.None? ==> forall k :: lo <= k <= hi ==> !StartsAt(s, k, lit)
    decreases hi + 1 - lo
  {
    if hi < lo then None
    else if StartsAt(s, hi, lit) then Some(hi)
    else if hi == lo then None
    else LastAt(s, lit, lo, hi - 1)
  }

  /** A start of `lit` with none after it up to `hi` is the one `LastAt` finds. */
  lemma {:induction false} LastAtIs(s: string, lit: string, lo: nat, b: nat, hi: nat)
    requires lo <= b <= hi && StartsAt(s, b, lit)
    requires forall k :: b < k <= hi ==> !StartsAt(s, k, lit)
    ensures LastAt(s, lit, lo, hi) == Some(b)
    decreases hi - b
  {
    if hi != b {
      LastAtIs(s, lit, lo, b, hi - 1);
    }
  }

  /** `(de|com|co\.uk)` at `g`: where the domain ends. */
  function DomainAt(s: string, g: nat): (e: Option<nat>)
    ensures e.Some? ==> e.value <= |s|
  {
    if StartsAt(s, g, "de") then Some(g + 2)
    else if StartsAt(s, g, "com") then Some(g + 3)
    else if StartsAt(s, g, "co.uk") then Some(g + 5)
    else None
  }

  // The anchored attempt of `https?://(.*)\.amazon\.(de|com|co\.uk).*/dp/(\w*)`.
  // Both `.*` are greedy and stay on the line, which ends at `l`: the
  // first group ends at the last ".amazon." of the line after which the
  // rest can match, and the second `.*` stops at the last "/dp/".
  // Groups: 1 the subdomain, 2 the domain, 3 the ASIN.
  function ProductAt(s: string, i: nat): (c: Option<Capture>)
    ensures c.Some? ==> StartsAt(s, i, "http")
  {
    match Scheme(s, i)
    case None => None
    case Some(p) =>
      var l := RunEnd(s, p, NotNewline);
      LastHost(s, p, l, l)
  }

  /** The first group tried at every end from `a` down to `p`, longest first. */
  function LastHost(s: string, p: nat, a: nat, l: nat): Option<Capture>
    decreases a
  {
    if HostTail(s, p, a, l).Some? then HostTail(s, p, a, l)
    else if a <= p then None
    else LastHost(s, p, a - 1, l)
  }

  // `\.amazon\.(de|com|co\.uk).*/dp/(\w*)` at `a`, the first group spanning `p` to `a`.
  function HostTail(s: string, p: nat, a: nat, l: nat): Option<Capture> {
    if !StartsAt(s, a, ".amazon.") then None
    else match DomainAt(s, a + 8)
      case None => None
      case Some(g) =>
        match LastAt(s, "/dp/", g, l)
        case None => None
        case Some(b) =>
          var w := RunEnd(s, b + 4, Word);
          Some(Capture(w, [Some(Span(p, a)), Some(Span(a + 8, g)), Some(Span(b + 4, w))]))
  }

  const Pattern: Regex := Regex("https?://(.*)\\.amazon\\.(de|com|co\\.uk).*/dp/(\\w*)",
                                ["", "", ""], (s: string, i: nat) => ProductAt(s, i))

  /** "https://$1.amazon.$2/dp/$3", written as its literal pieces and group references. */
  const Template: string := "https://" + ("$1" + (".amazon." + ("$2" + ("/dp/" + "$3"))))

  /** The rule `init` adds. */
  const Rule: GoSimple.Simple := GoSimple.NewSimple(GoReplacers.AmazonName, Pattern, Template)

  /** `init`: one `Add`. */
  method Register(reg: GoReplacers.Registry)
    modifies reg
    ensures reg.entries == old(reg.entries) + [GoReplacers.SimpleRule(Rule)]
  {
    reg.Add(GoReplacers.SimpleRule(Rule));
  }

  /** The rule's pattern and template, as the lemmas below use them. */
  lemma RuleParts()
    ensures Rule.regex == Pattern && Rule.replacement == Template && StartsWithHttp(Rule.regex)
    ensures GoSimple.Name(Rule) == GoReplacers.AmazonName
  {
  }

  /** The three domains the pattern accepts. */
  predicate Domain(tld: string) {
    tld == "de" || tld == "com" || tld == "co.uk"
  }

  /** Only ".de", ".com" and ".co.uk" follow ".amazon." in a match. */
  lemma OnlyThreeDomains(s: string, i: nat, c: Capture)
    requires ProductAt(s, i) == Some(c)
    ensures |c.groups| == 3 && c.groups[1].Some? && c.groups[1].value.lo <= c.groups[1].value.hi <= |s|
    ensures Domain(s[c.groups[1].value.lo..c.groups[1].value.hi])
  {
    var p := Scheme(s, i).value;
    var l := RunEnd(s, p, NotNewline);
    HostDomain(s, p, l, l);
  }

  lemma {:induction false} HostDomain(s: string, p: nat, a: nat, l: nat)
    requires LastHost(s, p, a, l).Some?
    ensures var c := LastHost(s, p, a, l).value;
      |c.groups| == 3 && c.groups[1].Some? && c.groups[1].value.lo <= c.groups[1].value.hi <= |s|
      && Domain(s[c.groups[1].value.lo..c.groups[1].value.hi])
    decreases a
  {
    if HostTail(s, p, a, l).Some? {
      var g := DomainAt(s, a + 8).value;
      if StartsAt(s, a + 8, "de") {
        assert s[a + 8..g] == "de";
      } else if StartsAt(s, a + 8, "com") {
        assert s[a + 8..g] == "com";
      } else {
        assert s[a + 8..g] == "co.uk";
      }
    } else {
      HostDomain(s, p, a - 1, l);
    }
  }

  /**
   * `s` starts with a product link on one line that ends at `l`: the
   * scheme ends at `p`, ".amazon." starts at `a`, the domain `tld`
   * follows it, "/dp/" starts at `b`, and the ASIN runs from `b + 4` to
   * `w`. No ".amazon." starts after `a` and no "/dp/" after `b` on the
   * line, so the greedy groups stop where this link says.
   */
  predicate ProductLinkIn(s: string, p: nat, a: nat, tld: string, b: nat, w: nat, l: nat) {
    (p == 8 || p == 7) && p <= a && Domain(tld) && a + 8 + |tld| <= b && b + 4 <= w <= l <= |s|
    && s[..p] == (if p == 8 then "https://" else "http://")
    && s[a..a + 8] == ".amazon." && s[a + 8..a + 8 + |tld|] == tld
    && s[b..b + 4] == "/dp/"
    && AllIn(s[b + 4..w], Word) && (w == |s| || !IsWordChar(s[w]))
    && AllIn(s[p..l], NotNewline) && (l == |s| || s[l] == '\n')
    && (forall k :: a < k <= l ==> !StartsAt(s, k, ".amazon."))
    && (forall k :: b < k <= l ==> !StartsAt(s, k, "/dp/"))
  }

  /** The domain alternatives on a product link. */
  lemma DomainOf(s: string, a: nat, tld: string)
    requires Domain(tld) && a + 8 + |tld| <= |s| && s[a + 8..a + 8 + |tld|] == tld
    ensures DomainAt(s, a + 8) == Some(a + 8 + |tld|)
  {
    var g := a + 8;
    if tld == "com" {
      assert s[g + 1] == tld[1];
      assert !StartsAt(s, g, "de");
    } else if tld == "co.uk" {
      assert s[g + 1] == tld[1];
      assert s[g + 2] == tld[2];
      assert !StartsAt(s, g, "de") && !StartsAt(s, g, "com");
      assert s[g..g + 5] == tld;
    }
  }

  /** The line of a product link ends at `l`. */
  lemma LineEnd(s: string, p: nat, l: nat)
    requires p <= l <= |s| && AllIn(s[p..l], NotNewline) && (l == |s| || s[l] == '\n')
    ensures RunEnd(s, p, NotNewline) == l
  {
    forall k | p <= k < l
      ensures InClass(s[k], NotNewline)
    {
      assert s[k] == s[p..l][k - p];
    }
    RunEndUnique(s, p, l, NotNewline);
  }

  /** The ASIN run ends at `w`. */
  lemma AsinEnd(s: string, b: nat, w: nat)
    requires b + 4 <= w <= |s| && AllIn(s[b + 4..w], Word) && (w == |s| || !IsWordChar(s[w]))
    ensures RunEnd(s, b + 4, Word) == w
  {
    forall k | b + 4 <= k < w
      ensures InClass(s[k], Word)
    {
      assert s[k] == s[b + 4..w][k - b - 4];
    }
    RunEndUnique(s, b + 4, w, Word);
  }

  /** What each step of the pattern after the scheme finds in a product link. */
  lemma ProductLinkFacts(s: string, p: nat, a: nat, tld: string, b: nat, w: nat, l: nat)
    requires ProductLinkIn(s, p, a, tld, b, w, l)
    ensures Scheme(s, 0) == Some(p) && RunEnd(s, p, NotNewline) == l
    ensures StartsAt(s, a, ".amazon.") && DomainAt(s, a + 8) == Some(a + 8 + |tld|)
    ensures LastAt(s, "/dp/", a + 8 + |tld|, l) == Some(b) && RunEnd(s, b + 4, Word) == w
  {
    SchemeEnds(s, p);
    LineEnd(s, p, l);
    DomainOf(s, a, tld);
    LastAtIs(s, "/dp/", a + 8 + |tld|, b, l);
    AsinEnd(s, b, w);
  }

  /** The tail after the first group, from the facts about each step. */
  lemma HostTailOf(s: string, p: nat, a: nat, g: nat, b: nat, w: nat, l: nat)
    requires StartsAt(s, a, ".amazon.") && DomainAt(s, a + 8) == Some(g)
    requires LastAt(s, "/dp/", g, l) == Some(b) && RunEnd(s, b + 4, Word) == w
    ensures HostTail(s, p, a, l) == Some(Capture(w, [Some(Span(p, a)), Some(Span(a + 8, g)), Some(Span(b + 4, w))]))
  {
  }

  /** Trying ends from `e` down to the link's `a`, only `a` has ".amazon." after it. */
  lemma {:induction false} LastHostIs(s: string, p: nat, a: nat, e: nat, l: nat)
    requires p <= a <= e && HostTail(s, p, a, l).Some?
    requires forall k :: a < k <= e ==> !StartsAt(s, k, ".amazon.")
    ensures LastHost(s, p, e, l) == HostTail(s, p, a, l)
    decreases e - a
  {
    if e != a {
      LastHostIs(s, p, a, e - 1, l);
    }
  }

  /**
   * A product link at the start of `s` is matched up to the end of its
   * ASIN, with the subdomain, the domain and the ASIN as groups 1 to 3.
   */
  lemma ProductLinkAt(s: string, p: nat, a: nat, tld: string, b: nat, w: nat, l: nat)
    requires ProductLinkIn(s, p, a, tld, b, w, l)
    ensures ProductAt(s, 0) == Some(Capture(w, [Some(Span(p, a)), Some(Span(a + 8, a + 8 + |tld|)), Some(Span(b + 4, w))]))
  {
    ProductLinkFacts(s, p, a, tld, b, w, l);
    HostTailOf(s, p, a, a + 8 + |tld|, b, w, l);
    LastHostIs(s, p, a, l, l);
  }

  /** A match in `s[..n]` is a match in `s`. */
  lemma StartsAtPrefix(s: string, n: nat, k: nat, lit: string)
    requires n <= |s| && StartsAt(s[..n], k, lit)
    ensures StartsAt(s, k, lit)
  {
    assert s[..n][k..k + |lit|] == s[k..k + |lit|];
  }

  /** A product link is still one when the text after its ASIN is cut off. */
  lemma ProductLinkPrefix(s: string, p: nat, a: nat, tld: string, b: nat, w: nat, l: nat)
    requires ProductLinkIn(s, p, a, tld, b, w, l)
    ensures ProductLinkIn(s[..w], p, a, tld, b, w, w)
  {
    var link := s[..w];
    assert link[..p] == s[..p];
    assert link[a..a + 8] == s[a..a + 8];
    assert link[a + 8..a + 8 + |tld|] == s[a + 8..a + 8 + |tld|];
    assert link[b..b + 4] == s[b..b + 4];
    assert link[b + 4..w] == s[b + 4..w];
    forall k | p <= k < w
      ensures InClass(link[k], NotNewline)
    {
      assert link[k] == s[p..l][k - p];
    }
    assert AllIn(link[p..w], NotNewline);
    forall k | a < k <= w
      ensures !StartsAt(link, k, ".amazon.")
    {
      if StartsAt(link, k, ".amazon.") {
        StartsAtPrefix(s, w, k, ".amazon.");
      }
    }
    forall k | b < k <= w
      ensures !StartsAt(link, k, "/dp/")
    {
      if StartsAt(link, k, "/dp/") {
        StartsAtPrefix(s, w, k, "/dp/");
      }
    }
  }

  /** The literal pieces and references of the template. */
  lemma Pieces()
    ensures Plain("https://") && Separator(".amazon.") && Separator("/dp/")
  {
  }

  /**
   * A message that starts with a product link, over http or https, on
   * ".de", ".com" or ".co.uk", with no "http" after its ASIN, becomes
   * `https://<subdomain>.amazon.<domain>/dp/<ASIN>`: the product slug
   * before "/dp/" and the path and query after the ASIN are dropped.
   */
  lemma RewritesProductLink(s: string, p: nat, a: nat, tld: string, b: nat, w: nat, l: nat)
    requires ProductLinkIn(s, p, a, tld, b, w, l)
    requires !Contains(s[w..], "http")
    ensures GoSimple.Matches(Rule, s)
    ensures GoSimple.Replace(Rule, s) == Reply(SpoilerAs(s, "https://" + (s[p..a] + (".amazon." + (tld + ("/dp/" + s[b + 4..w]))))), Nil)
  {
    ProductLinkAt(s, p, a, tld, b, w, l);
    ProductLinkPrefix(s, p, a, tld, b, w, l);
    ProductLinkAt(s[..w], p, a, tld, b, w, w);
    RuleParts();
    var g := a + 8 + |tld|;
    SoleProductLink(Rule, s, p, a, g, b, w);
    assert s[a + 8..g] == tld;
  }

  lemma SoleProductLink(r: GoSimple.Simple, s: string, p: nat, a: nat, g: nat, b: nat, w: nat)
    requires StartsWithHttp(r.regex) && r.replacement == Template
    requires 0 < p <= a && a + 8 <= g <= b && b + 4 <= w <= |s|
    requires r.regex.at(s, 0) == Some(Capture(w, [Some(Span(p, a)), Some(Span(a + 8, g)), Some(Span(b + 4, w))]))
    requires r.regex.at(s[..w], 0) == Some(Capture(w, [Some(Span(p, a)), Some(Span(a + 8, g)), Some(Span(b + 4, w))]))
    requires !Contains(s[w..], "http")
    ensures GoSimple.Matches(r, s)
    ensures GoSimple.Replace(r, s) == Reply(SpoilerAs(s, "https://" + (s[p..a] + (".amazon." + (s[a + 8..g] + ("/dp/" + s[b + 4..w]))))), Nil)
  {
    var groups := [Some(Span(p, a)), Some(Span(a + 8, g)), Some(Span(b + 4, w))];
    ExpandsProduct(r.regex, s, p, a, g, b, w);
    assert SpansWithin(groups, w);
    SimpleSoleLink(r, s, w, Capture(w, groups), "https://" + (s[p..a] + (".amazon." + (s[a + 8..g] + ("/dp/" + s[b + 4..w])))));
  }

  /** The template is the short product link around the three groups of the link. */
  lemma ExpandsProduct(re: Regex, s: string, p: nat, a: nat, g: nat, b: nat, w: nat)
    requires p <= a && a + 8 <= g <= b && b + 4 <= w <= |s|
    ensures Expand(re, Template, s[..w], Match(0, w, [Some(Span(0, w))] + [Some(Span(p, a)), Some(Span(a + 8, g)), Some(Span(b + 4, w))]))
         == "https://" + (s[p..a] + (".amazon." + (s[a + 8..g] + ("/dp/" + s[b + 4..w]))))
  {
    var groups := [Some(Span(p, a)), Some(Span(a + 8, g)), Some(Span(b + 4, w))];
    var m := Match(0, w, [Some(Span(0, w))] + groups);
    GroupOfLink(s, w, groups, 1, p, a);
    GroupOfLink(s, w, groups, 2, a + 8, g);
    GroupOfLink(s, w, groups, 3, b + 4, w);
    Pieces();
    ExpandThreeRefs(re, "https://", ".amazon.", "/dp/", s[..w], m);
  }
}
