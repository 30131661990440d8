// The Discord rule (internal/replacer/replacer_discord.go): an attachment
// link on media.discordapp.net becomes the same attachment on
// cdn.discordapp.com, unless the character class in the pattern rejects it.
module Discord {
  import opened Base
  import opened Text
  import opened Regex
  import opened Patterns
  import opened GoEngine
  import GoSimple
  import GoReplacers

  /** The characters `[^.gif]` refuses. */
  predicate Refused(c: char) {
    c == '.' || c == 'g' || c == 'i' || c == 'f'
  }

  /**
   * The anchored attempt of
   * `https?://media\.discordapp\.net/attachments/(\d+)/(\d+)/(.*[^.gif].$)`.
   * Without the multi-line flag `$` is the end of the text, so the
   * third group runs to the end of the message: its last character is
   * not a newline, the one before it is not refused, and `.*` covers the
   * rest of the line before those two.
   */
  function AttachmentAt(s: string, i: nat): (c: Option<Capture>)
    ensures c.Some? ==> StartsAt(s, i, "http")
    ensures c.Some? ==> c.value.end == |s| && |s| >= 2 && !Refused(s[|s| - 2])
  {
    match Scheme(s, i)
    case None => None
    case Some(p) =>
      if !StartsAt(s, p, "media.discordapp.net/attachments/") then None
      else
        var a := p + 33;
        var e1 := RunEnd(s, a, Digit);
        if e1 == a || !StartsAt(s, e1, "/") then None
        else
          var e2 := RunEnd(s, e1 + 1, Digit);
          if e2 == e1 + 1 || !StartsAt(s, e2, "/") then None
          else FileAt(s, a, e1, e2)
  }

  /** `(.*[^.gif].$)` after the second id, which spans `e1 + 1` to `e2`. */
  function FileAt(s: string, a: nat, e1: nat, e2: nat): (c: Option<Capture>)
    requires e2 < |s|
    ensures c.Some? ==> c.value.end == |s| && |s| >= 2 && !Refused(s[|s| - 2])
  {
    var n := |s|;
    if n < e2 + 3 || RunEnd(s, e2 + 1, NotNewline) < n - 2 || Refused(s[n - 2]) || s[n - 1] == '\n' then None
    else Some(Capture(n, [Some(Span(a, e1)), Some(Span(e1 + 1, e2)), Some(Span(e2 + 1, n))]))
  }

  const Pattern: Regex := Regex("https?://media\\.discordapp\\.net/attachments/(\\d+)/(\\d+)/(.*[^.gif].$)",
                                ["", "", ""], (s: string, i: nat) => AttachmentAt(s, i))

  /** "https://cdn.discordapp.com/attachments/$1/$2/$3", written as its literal pieces and group references. */
  const Template: string := "https://cdn.discordapp.com/attachments/" + ("$1" + ("/" + ("$2" + ("/" + "$3"))))

  /** The rule `init` adds. */
  const Rule: GoSimple.Simple := GoSimple.NewSimple(GoReplacers.DiscordName, Pattern, Template)

  /** `init`: one `Add`. */
  method Register(reg: GoReplacers.Registry)
    modifies reg
    ensures reg.entries == old(reg.entries) + [GoReplacers.SimpleRule(Rule)]
  {
    reg.Add(GoReplacers.SimpleRule(Rule));
  }

  /** The rule's pattern and template, as the lemmas below use them. */
  lemma RuleParts()
    ensures Rule.regex == Pattern && Rule.replacement == Template && StartsWithHttp(Rule.regex)
    ensures GoSimple.Name(Rule) == GoReplacers.DiscordName
  {
  }

  /** Every match of the pattern ends the message. */
  lemma MatchEndsMessage(s: string, i: nat)
    requires MatchAt(Pattern, s, i).Some?
    ensures MatchAt(Pattern, s, i).value.end == |s|
  {
  }

  /**
   * A message whose second-to-last character is `.`, `g`, `i` or `f`
   * (a ".gif" attachment, say) is not rewritten: the rule reports no
   * match and hands the message back.
   */
  lemma RefusedNotRewritten(s: string)
    requires |s| < 2 || Refused(s[|s| - 2])
    ensures !GoSimple.Matches(Rule, s)
    ensures GoSimple.Replace(Rule, s) == Reply(s, NoMatch)
  {
    RuleParts();
    forall i | 0 <= i <= |s|
      ensures MatchAt(Pattern, s, i).None?
    {
    }
    assert Search(Pattern, s, 0).None?;
  }

  /**
   * `s` is an attachment link and nothing else: the scheme ends at `p`,
   * the first id at `e1`, the second at `e2`, and the file name runs
   * from `e2 + 1` to the end.
   */
  predicate AttachmentLinkIn(s: string, p: nat, e1: nat, e2: nat) {
    (p == 8 || p == 7) && p + 33 < e1 && e1 + 1 < e2 && e2 + 3 <= |s|
    && s[..p] == (if p == 8 then "https://" else "http://")
    && s[p..p + 33] == "media.discordapp.net/attachments/"
    && AllIn(s[p + 33..e1], Digit) && s[e1] == '/'
    && AllIn(s[e1 + 1..e2], Digit) && s[e2] == '/'
    && AllIn(s[e2 + 1..|s| - 2], NotNewline) && !Refused(s[|s| - 2]) && s[|s| - 1] != '\n'
  }

  /** What each step of the pattern finds in an attachment link. */
  lemma AttachmentLinkFacts(s: string, p: nat, e1: nat, e2: nat)
    requires AttachmentLinkIn(s, p, e1, e2)
    ensures Scheme(s, 0) == Some(p)
    ensures StartsAt(s, p, "media.discordapp.net/attachments/")
    ensures RunEnd(s, p + 33, Digit) == e1 && StartsAt(s, e1, "/")
    ensures RunEnd(s, e1 + 1, Digit) == e2 && StartsAt(s, e2, "/")
    ensures RunEnd(s, e2 + 1, NotNewline) >= |s| - 2
  {
    SchemeEnds(s, p);
    DigitsEnd(s, p + 33, e1);
    DigitsEnd(s, e1 + 1, e2);
    var n := |s|;
    forall k | e2 + 1 <= k < n - 2
      ensures InClass(s[k], NotNewline)
    {
      assert s[k] == s[e2 + 1..n - 2][k - e2 - 1];
    }
    RunPastLine(s, e2 + 1, n - 2);
  }

  /** Digits from `i` to a '/' at `e` are a `\d+` that stops at `e`. */
  lemma DigitsEnd(s: string, i: nat, e: nat)
    requires i < e < |s| && AllIn(s[i..e], Digit) && s[e] == '/'
    ensures RunEnd(s, i, Digit) == e && StartsAt(s, e, "/")
  {
    forall k | i <= k < e
      ensures InClass(s[k], Digit)
    {
      assert s[k] == s[i..e][k - i];
    }
    RunEndUnique(s, i, e, Digit);
    assert s[e..e + 1] == [s[e]];
  }

  /** A run of non-newlines covering `i` to `j` ends at `j` or later. */
  lemma {:induction false} RunPastLine(s: string, i: nat, j: nat)
    requires i <= j <= |s|
    requires forall k :: i <= k < j ==> InClass(s[k], NotNewline)
    ensures RunEnd(s, i, NotNewline) >= j
    decreases j - i
  {
    if i < j {
      RunPastLine(s, i + 1, j);
    }
  }

  /** An attachment link is matched whole, with the two ids and the file name as groups 1 to 3. */
  lemma AttachmentLinkAt(s: string, p: nat, e1: nat, e2: nat)
    requires AttachmentLinkIn(s, p, e1, e2)
    ensures AttachmentAt(s, 0) == Some(Capture(|s|, [Some(Span(p + 33, e1)), Some(Span(e1 + 1, e2)), Some(Span(e2 + 1, |s|))]))
  {
    AttachmentLinkFacts(s, p, e1, e2);
  }

  /** The literal pieces and references of the template. */
  lemma Pieces()
    ensures Plain("https://cdn.discordapp.com/attachments/") && Separator("/")
  {
  }

  /**
   * A message that is one attachment link whose file name is accepted
   * (".mp4", ".png", ".jpeg", ".jpg", ...) becomes the cdn.discordapp.com
   * link with the same two ids and file name.
   */
  lemma RewritesAttachmentLink(s: string, p: nat, e1: nat, e2: nat)
    requires AttachmentLinkIn(s, p, e1, e2)
    ensures GoSimple.Matches(Rule, s)
    ensures GoSimple.Replace(Rule, s)
         == Reply(SpoilerAs(s, "https://cdn.discordapp.com/attachments/" + (s[p + 33..e1] + ("/" + (s[e1 + 1..e2] + ("/" + s[e2 + 1..]))))), Nil)
  {
    AttachmentLinkAt(s, p, e1, e2);
    RuleParts();
    assert s[..|s|] == s;
    SoleAttachmentLink(Rule, s, p + 33, e1, e2);
  }

  lemma SoleAttachmentLink(r: GoSimple.Simple, s: string, a: nat, e1: nat, e2: nat)
    requires StartsWithHttp(r.regex) && r.replacement == Template
    requires a <= e1 < e2 < |s|
    requires r.regex.at(s, 0) == Some(Capture(|s|, [Some(Span(a, e1)), Some(Span(e1 + 1, e2)), Some(Span(e2 + 1, |s|))]))
    ensures GoSimple.Matches(r, s)
    ensures GoSimple.Replace(r, s)
         == Reply(SpoilerAs(s, "https://cdn.discordapp.com/attachments/" + (s[a..e1] + ("/" + (s[e1 + 1..e2] + ("/" + s[e2 + 1..]))))), Nil)
  {
    var n := |s|;
    var groups := [Some(Span(a, e1)), Some(Span(e1 + 1, e2)), Some(Span(e2 + 1, n))];
    ExpandsAttachment(r.regex, s, a, e1, e2);
    assert s[..n] == s;
    assert s[n..] == [];
    assert !Contains(s[n..], "http");
    assert SpansWithin(groups, n);
    assert r.regex.at(s[..n], 0) == Some(Capture(n, groups));
    SimpleSoleLink(r, s, n, Capture(n, groups), "https://cdn.discordapp.com/attachments/" + (s[a..e1] + ("/" + (s[e1 + 1..e2] + ("/" + s[e2 + 1..])))));
  }

  /** The template is the cdn link around the three groups of the link. */
  lemma ExpandsAttachment(re: Regex, s: string, a: nat, e1: nat, e2: nat)
    requires a <= e1 < e2 < |s|
    ensures var n := |s|;
      Expand(re, Template, s[..n], Match(0, n, [Some(Span(0, n))] + [Some(Span(a, e1)), Some(Span(e1 + 1, e2)), Some(Span(e2 + 1, n))]))
      == "https://cdn.discordapp.com/attachments/" + (s[a..e1] + ("/" + (s[e1 + 1..e2] + ("/" + s[e2 + 1..]))))
  {
    var n := |s|;
    var groups := [Some(Span(a, e1)), Some(Span(e1 + 1, e2)), Some(Span(e2 + 1, n))];
    var m := Match(0, n, [Some(Span(0, n))] + groups);
    GroupOfLink(s, n, groups, 1, a, e1);
    GroupOfLink(s, n, groups, 2, e1 + 1, e2);
    GroupOfLink(s, n, groups, 3, e2 + 1, n);
    assert s[e2 + 1..n] == s[e2 + 1..];
    Pieces();
    ExpandThreeRefs(re, "https://cdn.discordapp.com/attachments/", "/", "/", s[..n], m);
  }
}
