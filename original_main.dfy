// The message path of the first bot (main.go at the repository root): the
// gateway handler queues a message only when it holds a twitter.com status
// link, and `createOutput` builds the reply from those links alone. The
// reply is stated for any pattern and template and then applied to
// `twitterRegex` and the fxtwitter template.
module OriginalMain {
  import opened Base
  import opened Text
  import opened Regex
  import opened Patterns
  import opened GoEngine
  import Twitter
  import OriginalReplacer

  /** `twitterRegex`: the same pattern as the root package's twitter rule. */
  const TwitterRegex: Regex := OriginalReplacer.TwitterPattern

  /** The handler's test: a message is queued exactly when the pattern matches its content. */
  predicate Enqueued(content: string) {
    IsMatch(TwitterRegex, content)
  }

  /** The entries of `createOutput`: each matched link rewritten alone, never in spoilers. */
  function Links(re: Regex, content: string, template: string): (ls: seq<string>)
    ensures |ls| == |FindAll(re, content)|
  {
    var matches := FindAllString(re, content);
    seq(|matches|, k requires 0 <= k < |matches| => Entry(re, matches[k], template, false))
  }

  /** `createOutput` as a value: "" without a match, otherwise the entries joined by newlines. */
  function Output(re: Regex, content: string, template: string): string {
    if FindAllString(re, content) == [] then "" else Join(Links(re, content, template), "\n")
  }

  /** `createOutput`: the twitter links of the message, each as an fxtwitter.com link. */
  method CreateOutput(content: string) returns (out: string)
    ensures out == Output(TwitterRegex, content, OriginalReplacer.FxTemplate)
  {
    out := Render(TwitterRegex, content, OriginalReplacer.FxTemplate);
  }

  /** The body of `createOutput`, filling the links slice by index. */
  method Render(re: Regex, content: string, template: string) returns (out: string)
    ensures out == Output(re, content, template)
  {
    var matches := FindAllString(re, content);
    if |matches| == 0 {
      return "";
    }
    var links := new string[|matches|];
    for i := 0 to links.Length
      invariant links[..i] == Links(re, content, template)[..i]
    {
      links[i] := ReplaceAllString(re, matches[i], template);
    }
    assert links[..] == Links(re, content, template);
    out := Join(links[..], "\n");
  }

  /**
   * The reply is "" exactly when the pattern does not match, so for the
   * messages the handler would not queue, and otherwise has one entry per
   * match.
   */
  lemma OutputOnlyForMatches(re: Regex, content: string, template: string)
    ensures !IsMatch(re, content) ==> Output(re, content, template) == ""
    ensures IsMatch(re, content) ==>
      Output(re, content, template) == Join(Links(re, content, template), "\n") && |Links(re, content, template)| >= 1
  {
    FindAllFirst(re, content);
  }

  /**
   * Against `replaceMatches` with the same pattern and template: the
   * entries are the same but never wrapped, so the two replies agree when
   * the message has no `||`, and with `||` each of its entries is the
   * output entry in spoilers.
   */
  lemma OutputAgainstRewrite(re: Regex, content: string, template: string)
    ensures var es := Entries(re, content, template);
      |es| == |Links(re, content, template)|
      && forall k :: 0 <= k < |es| ==> es[k] == SpoilerAs(content, Links(re, content, template)[k])
    ensures !Contains(content, "||") ==> Output(re, content, template) == Rewrite(re, content, template)
  {
    var es := Entries(re, content, template);
    if !Contains(content, "||") {
      assert es == Links(re, content, template);
    }
  }

  /**
   * A message that starts with a link the pattern matches up to `d`, with
   * no "http" after it, is answered by the link's own rewrite with no
   * spoiler delimiters, whatever the message holds.
   */
  lemma AnswersSoleLink(re: Regex, s: string, d: nat, c: Capture, template: string, out: string)
    requires StartsWithHttp(re)
    requires 0 < d <= |s| && c.end == d && SpansWithin(c.groups, d)
    requires re.at(s, 0) == Some(c)
    requires !Contains(s[d..], "http")
    requires Rewrite(re, s, template) == SpoilerAs(s, out)
    ensures IsMatch(re, s)
    ensures Output(re, s, template) == out
  {
    SoleLinkFound(re, s, d, c);
    var x := ReplaceAllString(re, s[..d], template);
    assert Links(re, s, template) == [x];
    assert Entries(re, s, template) == [SpoilerAs(s, x)];
    assert SpoilerAs(s, x) == SpoilerAs(s, out);
    if Contains(s, "||") {
      UnwrapEqual(x, out);
    }
  }

  lemma UnwrapEqual(a: string, b: string)
    requires Wrap(a) == Wrap(b)
    ensures a == b
  {
    assert a == Wrap(a)[2..|Wrap(a)| - 2];
    assert b == Wrap(b)[2..|Wrap(b)| - 2];
  }

  /**
   * A message made of a twitter.com status link followed by anything
   * without "http" is queued and answered with the fxtwitter.com link,
   * with no spoiler delimiters even when the message has them.
   */
  lemma AnswersStatusLink(s: string, p: nat, t: nat, e: nat, h: nat, d: nat)
    requires Twitter.StatusLinkIn(false, s, p, t, e, h, d)
    requires !Contains(s[d..], "http")
    ensures Enqueued(s)
    ensures Output(TwitterRegex, s, OriginalReplacer.FxTemplate) == OriginalReplacer.FxLink(s[t + 5..e], s[h + 1..d])
  {
    OriginalReplacer.RewritesStatusLink(s, p, t, e, h, d);
    Twitter.StatusCaptured(false, s, p, t, e, h, d);
    OriginalReplacer.PatternsNeedHttp();
    AnswersSoleLink(TwitterRegex, s, d, Capture(d, Twitter.StatusGroups(p, t, e, h, d)), OriginalReplacer.FxTemplate,
                    OriginalReplacer.FxLink(s[t + 5..e], s[h + 1..d]));
  }

  /**
   * An x.com status link is not queued: the pattern accepts twitter.com
   * only, while the later twitter rule accepts both hosts.
   */
  lemma IgnoresXLink(s: string, p: nat, t: nat, e: nat, h: nat, d: nat)
    requires Twitter.StatusLinkIn(true, s, p, t, e, h, d) && s[p..t] == "x"
    requires !Contains(s[1..], "http")
    ensures !Enqueued(s)
    ensures Twitter.StatusAt(true, s, 0).Some?
  {
    Twitter.StatusLinkAt(true, s, p, t, e, h, d);
    XHostNotQueued(s, p, t);
  }

  /** A message that starts at an x.com host and has no later "http" is not queued. */
  lemma XHostNotQueued(s: string, p: nat, t: nat)
    requires (p == 8 || p == 7) && p < t && t + 5 <= |s|
    requires s[..p] == (if p == 8 then "https://" else "http://")
    requires s[p..t] == "x" && s[t..t + 5] == ".com/"
    requires !Contains(s[1..], "http")
    ensures !Enqueued(s)
  {
    Twitter.HostFacts(true, s, p, t);
    assert s[p..t][0] == s[p];
    Twitter.XHostRejected(s, p);
    OriginalReplacer.PatternsNeedHttp();
    NoMatchPastStart(TwitterRegex, s);
  }
}
