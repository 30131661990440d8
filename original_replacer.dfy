// The first engine of the bot (replacer.go at the repository root): three
// `genericReplacer`s registered by `init`, each rewriting with
// `replaceMatches` whether or not its pattern matches, chosen by
// `findReplacers` and chained by `ReplaceAll`.
module OriginalReplacer {
  import opened Base
  import opened Text
  import opened Regex
  import opened Patterns
  import opened GoEngine
  import Lists
  import Follow
  import GoSimple
  import GoReplacers
  import Amazon
  import Twitter
  import Discord
  import GoLegacy

  /** `genericReplacer`: a pattern and a template. */
  datatype Rule = Rule(regex: Regex, replacement: string)

  /** `Matches`: the pattern occurs somewhere in the message. */
  predicate Matches(r: Rule, msg: string) {
    IsMatch(r.regex, msg)
  }

  /** `Replace`: `replaceMatches` with no match guard. */
  function Replace(r: Rule, msg: string): string {
    Rewrite(r.regex, msg, r.replacement)
  }

  /** `Replace` in the shape `ReplaceAll` threads (no environment). */
  function Step(r: Rule, env: (), msg: string): string {
    Replace(r, msg)
  }

  /** Without a match `Replace` answers "" rather than the message. */
  lemma ReplaceWithoutMatch(r: Rule, msg: string)
    requires !Matches(r, msg)
    ensures Replace(r, msg) == ""
  {
    RewriteWithoutMatch(r.regex, msg, r.replacement);
  }

  /** With a match it answers as the guarded replacers of the later engines do. */
  lemma ReplaceWithMatch(r: Rule, msg: string, resolve: Follow.Resolver)
    requires Matches(r, msg)
    ensures Replace(r, msg) == LegacyReplace(Generic(r.regex, r.replacement), resolve, msg)
  {
  }

  // The three rules.

  /** `amazonReplacer`: the pattern is the provider one (written with `\/`), and so is the template. */
  const AmazonRule: Rule := Rule(Amazon.Pattern, Amazon.Template)

  const TwitterPattern: Regex := Regex("https?:\\/\\/(?P<tld>twitter)\\.com\\/(?:#!\\/)?(\\w+)\\/status(es)?\\/(\\d+)",
                                       ["tld", "", "", ""], (s: string, i: nat) => Twitter.StatusAt(false, s, i))

  const FxTemplate: string := "https://fxtwitter.com/" + ("$2" + ("/status/" + "$4"))

  /** `twitterReplacer`: twitter.com only, rewritten to fxtwitter.com. */
  const TwitterRule: Rule := Rule(TwitterPattern, FxTemplate)

  /**
   * The anchored attempt of
   * `https?://media\.discordapp\.net/attachments/(\d+)/(\d+)/(.*)`: the
   * file name is the rest of the line, whatever it ends in.
   */
  function AttachmentAt(s: string, i: nat): (c: Option<Capture>)
    ensures c.Some? ==> StartsAt(s, i, "http")
  {
    match Scheme(s, i)
    case None => None
    case Some(p) =>
      if !StartsAt(s, p, "media.discordapp.net/attachments/") then None
      else
        var a := p + 33;
        var e1 := RunEnd(s, a, Digit);
        if e1 == a || !StartsAt(s, e1, "/") then None
        else
          var e2 := RunEnd(s, e1 + 1, Digit);
          if e2 == e1 + 1 || !StartsAt(s, e2, "/") then None
          else
            var f := RunEnd(s, e2 + 1, NotNewline);
            Some(Capture(f, [Some(Span(a, e1)), Some(Span(e1 + 1, e2)), Some(Span(e2 + 1, f))]))
  }

  const AttachmentPattern: Regex := Regex("https?:\\/\\/media\\.discordapp\\.net/attachments/(\\d+)/(\\d+)/(.*)",
                                          ["", "", ""], (s: string, i: nat) => AttachmentAt(s, i))

  /** `discordReplacer`: attachment links to cdn.discordapp.com, ".gif" ones included. */
  const DiscordRule: Rule := Rule(AttachmentPattern, Discord.Template)

  /** The rules `init` appends, in its order. */
  const Replacers: seq<Rule> := [AmazonRule, TwitterRule, DiscordRule]

  /** `init`: three appends to the package's replacer list. */
  method Init(replacers: seq<Rule>) returns (out: seq<Rule>)
    ensures out == replacers + Replacers
    ensures |out| == |replacers| + 3 && out[|replacers|] == AmazonRule && out[|replacers| + 2] == DiscordRule
  {
    out := replacers;
    out := out + [AmazonRule];
    out := out + [TwitterRule];
    out := out + [DiscordRule];
  }

  /** `findReplacers`: the registered rules that match the content, in registration order. */
  method FindReplacers(content: string) returns (out: seq<Rule>)
    ensures out == Lists.Filter(Replacers, content, Matches)
    ensures forall k :: 0 <= k < |out| ==> Matches(out[k], content)
  {
    out := GoEngine.FindReplacers(Replacers, content, Matches);
    Lists.FilterExactly(Replacers, content, Matches);
  }

  /** `ReplaceAll`: the content through the message's rules, each output the next one's input. */
  method ReplaceAll(m: Message<Rule>) returns (out: string)
    ensures out == Lists.Thread(m.content, m.replacers, (), Step)
    ensures m.replacers == [] ==> out == m.content
  {
    out := GoEngine.ReplaceAll(m, (), Step);
  }

  // The rules on the links of the tests.

  lemma PatternsNeedHttp()
    ensures StartsWithHttp(TwitterPattern) && StartsWithHttp(AttachmentPattern)
  {
  }

  /**
   * A message made of a twitter.com status link (http or https, "status"
   * or "statuses") followed by anything without "http" becomes the
   * fxtwitter.com link with the same user and id, over https, with
   * "status".
   */
  lemma RewritesStatusLink(s: string, p: nat, t: nat, e: nat, h: nat, d: nat)
    requires Twitter.StatusLinkIn(false, s, p, t, e, h, d)
    requires !Contains(s[d..], "http")
    ensures Matches(TwitterRule, s)
    ensures Replace(TwitterRule, s) == SpoilerAs(s, FxLink(s[t + 5..e], s[h + 1..d]))
  {
    Twitter.StatusCaptured(false, s, p, t, e, h, d);
    PatternsNeedHttp();
    SoleStatusLink(TwitterPattern, s, t, e, h, d, Twitter.StatusGroups(p, t, e, h, d));
  }

  /** The fxtwitter.com link for a user and a status id. */
  function FxLink(user: string, id: string): string {
    "https://fxtwitter.com/" + (user + ("/status/" + id))
  }

  lemma SoleStatusLink(re: Regex, s: string, t: nat, e: nat, h: nat, d: nat, groups: seq<Option<Span>>)
    requires StartsWithHttp(re)
    requires t + 5 <= e && e + 7 <= h && h + 1 <= d <= |s| && d > 0
    requires |groups| == 4 && groups[1] == Some(Span(t + 5, e)) && groups[3] == Some(Span(h + 1, d))
    requires SpansWithin(groups, d)
    requires re.at(s, 0) == Some(Capture(d, groups)) && re.at(s[..d], 0) == Some(Capture(d, groups))
    requires !Contains(s[d..], "http")
    ensures IsMatch(re, s)
    ensures Rewrite(re, s, FxTemplate) == SpoilerAs(s, FxLink(s[t + 5..e], s[h + 1..d]))
  {
    var m := Match(0, d, [Some(Span(0, d))] + groups);
    GroupOfLink(s, d, groups, 2, t + 5, e);
    GroupOfLink(s, d, groups, 4, h + 1, d);
    FxTemplateExpands(re, s[..d], m, s[t + 5..e], s[h + 1..d]);
    RewriteSoleLink(re, s, d, Capture(d, groups), FxTemplate);
  }

  /** The fxtwitter template keeps only the user and the id. */
  lemma FxTemplateExpands(re: Regex, link: string, m: Match, user: string, id: string)
    requires GroupText(link, m, 2) == user && GroupText(link, m, 4) == id
    ensures Expand(re, FxTemplate, link, m) == FxLink(user, id)
  {
    HostPlain();
    Twitter.StatusRefsExpand(re, link, m, user, id);
    ExpandLiteral(re, "https://fxtwitter.com/", "$2" + ("/status/" + "$4"), link, m);
  }

  lemma HostPlain()
    ensures Plain("https://fxtwitter.com/")
  {
  }

  /**
   * A message that is an attachment link, whatever its file name (".gif"
   * included), becomes the cdn.discordapp.com link with the same ids and
   * file name.
   */
  lemma RewritesAttachmentLink(s: string, p: nat, e1: nat, e2: nat)
    requires GoLegacy.AttachmentLinkIn(s, p, e1, e2)
    ensures Matches(DiscordRule, s)
    ensures Replace(DiscordRule, s)
         == SpoilerAs(s, "https://cdn.discordapp.com/attachments/" + (s[p + 33..e1] + ("/" + (s[e1 + 1..e2] + ("/" + s[e2 + 1..])))))
  {
    GoLegacy.AttachmentLinkFacts(s, p, e1, e2);
    assert AttachmentAt(s, 0) == Some(Capture(|s|, GoLegacy.AttachmentGroups(s, p, e1, e2)));
    PatternsNeedHttp();
    var r := GoSimple.NewSimple(GoReplacers.DiscordName, AttachmentPattern, Discord.Template);
    Discord.SoleAttachmentLink(r, s, p + 33, e1, e2);
  }

  // The replacement chain.

  /**
   * `ReplaceAll` over the rules `findReplacers` chose: an empty choice
   * gives the content back, a single rule gives its answer, and a chosen
   * rule that no longer matches the previous rule's answer turns the
   * reply into "" or whatever the next rules make of "".
   */
  lemma ChainSteps(content: string, rs: seq<Rule>)
    ensures rs == [] ==> Lists.Thread(content, rs, (), Step) == content
    ensures |rs| == 1 ==> Lists.Thread(content, rs, (), Step) == Replace(rs[0], content)
    ensures |rs| >= 2 && !Matches(rs[1], Replace(rs[0], content)) ==>
      Lists.Thread(content, rs, (), Step) == Lists.Thread("", rs[2..], (), Step)
  {
    if |rs| >= 2 && !Matches(rs[1], Replace(rs[0], content)) {
      ReplaceWithoutMatch(rs[1], Replace(rs[0], content));
      assert rs[1..][1..] == rs[2..];
    }
  }

  /** The only ':' of an fxtwitter.com link is the scheme's. */
  lemma FxOnlyColonAtFive(user: string, id: string)
    requires AllIn(user, Word) && AllIn(id, Digit)
    ensures var out := FxLink(user, id);
      forall k | 0 <= k < |out| && k != 5 :: out[k] != ':'
  {
    var out := FxLink(user, id);
    forall k | 0 <= k < |out| && k != 5
      ensures out[k] != ':'
    {
      if k >= 22 + |user| + 8 {
        assert out[k] == id[k - 22 - |user| - 8];
      } else if k >= 22 + |user| {
      } else if k >= 22 {
        assert out[k] == user[k - 22];
      }
    }
  }

  /** An attachment link starts with the scheme and the attachments host. */
  lemma AttachmentHost(s: string, i: nat)
    ensures AttachmentAt(s, i).Some? ==> Scheme(s, i).Some? && StartsAt(s, Scheme(s, i).value, "media.discordapp.net/attachments/")
  {
  }

  /** An fxtwitter.com link holds no attachment link. */
  lemma FxLinkIsNoAttachment(user: string, id: string)
    requires AllIn(user, Word) && AllIn(id, Digit)
    ensures !Matches(DiscordRule, FxLink(user, id))
  {
    var out := FxLink(user, id);
    FxOnlyColonAtFive(user, id);
    assert out[1] == 't' && out[8] == 'f';
    NoAttachmentIn(out);
    assert Search(AttachmentPattern, out, 0).None?;
  }

  /**
   * A text whose only ':' is the one of "https://" holds no attachment
   * link when the host after the scheme does not start with an 'm'.
   */
  lemma NoAttachmentIn(out: string)
    requires |out| > 8 && out[1] != 'h' && out[8] != 'm'
    requires forall k :: 0 <= k < |out| && k != 5 ==> out[k] != ':'
    ensures forall i :: 0 <= i <= |out| ==> AttachmentAt(out, i).None?
  {
    forall i | 0 <= i <= |out|
      ensures AttachmentAt(out, i).None?
    {
      AttachmentHost(out, i);
      if Scheme(out, i).Some? {
        SchemeColon(out, i);
        assert i == 0;
        NotStartingWith(out, 0, "http://", 4);
        assert Scheme(out, 0) == Some(8);
        NotStartingWith(out, 8, "media.discordapp.net/attachments/", 0);
      }
    }
  }


  /**
   * The unguarded chain loses the reply: when the twitter and the discord
   * rules are chosen for a message (it holds a status link and an
   * attachment link) and the twitter rule answers with an fxtwitter.com
   * link, the discord rule finds no attachment link in that answer and
   * the bot replies with "".
   */
  lemma ChainAnswersEmpty(content: string, user: string, id: string)
    requires Lists.Filter(Replacers, content, Matches) == [TwitterRule, DiscordRule]
    requires AllIn(user, Word) && AllIn(id, Digit)
    requires Replace(TwitterRule, content) == FxLink(user, id)
    ensures Lists.Thread(content, Lists.Filter(Replacers, content, Matches), (), Step) == ""
  {
    FxLinkIsNoAttachment(user, id);
    ChainSteps(content, [TwitterRule, DiscordRule]);
  }

  /**
   * With the guard the later engines add (a rule that does not match
   * hands its input back), the same chain keeps the fxtwitter.com link.
   */
  lemma GuardedChainKeepsLink(content: string, user: string, id: string, resolve: Follow.Resolver)
    requires Matches(TwitterRule, content)
    requires AllIn(user, Word) && AllIn(id, Digit)
    requires Replace(TwitterRule, content) == FxLink(user, id)
    ensures Lists.Thread(content, GuardedRules, resolve, LegacyReplace) == FxLink(user, id)
  {
    FxLinkIsNoAttachment(user, id);
    var first := LegacyReplace(GuardedRules[0], resolve, content);
    assert first == FxLink(user, id);
    assert !LegacyMatches(GuardedRules[1], first);
    ThreadTwo(content, GuardedRules[0], GuardedRules[1], resolve, LegacyReplace);
  }

  /** The twitter and discord rules as guarded replacers. */
  const GuardedRules: seq<Legacy> := [Generic(TwitterPattern, FxTemplate), Generic(AttachmentPattern, Discord.Template)]

  lemma ThreadTwo<R, E>(content: string, a: R, b: R, env: E, step: (R, E, string) -> string)
    ensures Lists.Thread(content, [a, b], env, step) == step(b, env, step(a, env, content))
  {
    assert [a, b][1..] == [b] && [b][1..] == [];
    var x := step(a, env, content);
    assert Lists.Thread(content, [a, b], env, step) == Lists.Thread(x, [b], env, step);
    assert Lists.Thread(x, [b], env, step) == Lists.Thread(step(b, env, x), [], env, step);
  }
}
