// `LinkFollowReplacer` of the Rust engine
// (src/replacer/replacer_link_follower.rs): every match of the pattern is
// visited, and each visit that succeeds goes through a small pipeline
// (bad-URL filter, then the destination rewrite or the literal
// post-replacements) before it is kept. Failed visits are left out; the
// replacer itself never reports an error. The destination template is
// read the Rust way (module RustTemplate).
module RustLinkFollower {
  import opened Base
  import opened Text
  import opened Regex
  import opened RustTemplate
  import Follow

  datatype LinkFollowReplacer = LinkFollowReplacer(
    name: string,
    matchRegex: Regex,
    destinationRegex: Option<Regex>,
    destinationReplacement: Option<string>,
    postReplacement: Option<seq<Pair>>,
    badUrlMatch: Option<Regex>)

  /** `matches`: the pattern occurs somewhere in the message. */
  predicate Matches(r: LinkFollowReplacer, message: string) {
    IsMatch(r.matchRegex, message)
  }

  /** `name`: the configured name. */
  function Name(r: LinkFollowReplacer): string {
    r.name
  }

  /** The candidate links: every match of the pattern, in message order. */
  function Candidates(r: LinkFollowReplacer, message: string): seq<string> {
    FindAllString(r.matchRegex, message)
  }

  /** `order` lists each of the positions `0 .. n - 1` once. */
  predicate IsOrder(order: seq<nat>, n: nat) {
    |order| == n
    && (forall k :: 0 <= k < n ==> order[k] < n)
    && (forall i, j :: 0 <= i < j < n ==> order[i] != order[j])
  }

  /** The positions in their own order. */
  function InOrder(n: nat): (order: seq<nat>)
    ensures IsOrder(order, n)
  {
    seq(n, k requires 0 <= k < n => k)
  }

  /**
   * The order in which concurrent visits complete, chosen by the runtime:
   * for each list of links, some order of its positions.
   */
  type Schedule = sched: seq<string> -> seq<nat> | forall links :: IsOrder(sched(links), |links|)
    witness (links: seq<string>) => InOrder(|links|)

  /**
   * `visit_links`: one result per link, in completion order; a success is
   * the final URL with its query removed, whatever the status code.
   */
  function Visited(resolve: Follow.Resolver, sched: Schedule, links: seq<string>): (rs: seq<Result<string, string>>)
    ensures |rs| == |links|
  {
    var order := sched(links);
    seq(|links|, k requires 0 <= k < |links| => Follow.Visit(resolve, links[order[k]]))
  }

  /** A visited URL the bad-URL pattern matches, if there is one. */
  predicate IsBad(r: LinkFollowReplacer, url: string) {
    r.badUrlMatch.Some? && IsMatch(r.badUrlMatch.value, url)
  }

  /**
   * The `post_replacement` pairs in list order: a pair whose old text
   * occurs in the current link replaces every occurrence of it.
   */
  function PostReplace(link: string, pairs: seq<Pair>): string
    decreases |pairs|
  {
    if pairs == [] then link
    else
      var next := if Contains(link, pairs[0].from) then ReplaceStr(link, pairs[0].from, pairs[0].to) else link;
      PostReplace(next, pairs[1..])
  }

  /** What becomes of one visited URL. */
  datatype Step = Dropped | Kept(link: string) | Panics

  /**
   * A bad URL is dropped before anything else; with a destination pattern
   * the URL is rewritten by it (and a missing replacement panics);
   * otherwise the post-replacements, if any, are applied.
   */
  function Process(r: LinkFollowReplacer, url: string): Step {
    if IsBad(r, url) then Dropped
    else if r.destinationRegex.Some? then
      if r.destinationReplacement.None? then Panics
      else Kept(ReplaceAll(r.destinationRegex.value, url, r.destinationReplacement.value))
    else if r.postReplacement.Some? then Kept(PostReplace(url, r.postReplacement.value))
    else Kept(url)
  }

  /** How a run of `replace` ends: with its text, or in a panic. */
  datatype Outcome = Replaced(text: string) | Panicked

  /** The links the loop over the results pushes, in order; None when it panics on the way. */
  function Collected(r: LinkFollowReplacer, results: seq<Result<string, string>>): Option<seq<string>>
    decreases |results|
  {
    if results == [] then Some([])
    else match Collected(r, results[..|results| - 1])
      case None => None
      case Some(prev) =>
        var last := results[|results| - 1];
        if last.Err? then Some(prev)
        else match Process(r, last.value)
          case Dropped => Some(prev)
          case Panics => None
          case Kept(link) => Some(prev + [link])
  }

  /** `replace` as a value. */
  function Answer(r: LinkFollowReplacer, resolve: Follow.Resolver, sched: Schedule, message: string): Outcome {
    if !Matches(r, message) then Replaced(message)
    else match Collected(r, Visited(resolve, sched, Candidates(r, message)))
      case None => Panicked
      case Some(links) => Replaced(Join(links, "\n"))
  }

  /** `replace`: visit the candidates, then run each successful visit through the pipeline. */
  method Replace(r: LinkFollowReplacer, resolve: Follow.Resolver, sched: Schedule, message: string) returns (out: Outcome)
    ensures out == Answer(r, resolve, sched, message)
  {
    if !Matches(r, message) {
      return Replaced(message);
    }
    var results := Visited(resolve, sched, Candidates(r, message));
    var visited := Collect(r, results);
    if visited.None? {
      return Panicked;
    }
    out := Replaced(Join(visited.value, "\n"));
  }

  /** The loop over the visit results: failures are skipped, the rest go through the pipeline. */
  method Collect(r: LinkFollowReplacer, results: seq<Result<string, string>>) returns (out: Option<seq<string>>)
    ensures out == Collected(r, results)
  {
    var visited: seq<string> := [];
    for i := 0 to |results|
      invariant Collected(r, results[..i]) == Some(visited)
    {
      assert results[..i + 1][..i] == results[..i];
      if results[i].Ok? {
        var step := Pipeline(r, results[i].value);
        match step
        case Dropped =>
        case Panics =>
          PanicSticks(r, results, i + 1);
          return None;
        case Kept(link) =>
          visited := visited + [link];
      }
    }
    assert results[..|results|] == results;
    out := Some(visited);
  }

  /** The body of the loop over the results, for one successful visit. */
  method Pipeline(r: LinkFollowReplacer, url: string) returns (step: Step)
    ensures step == Process(r, url)
  {
    if IsBad(r, url) {
      return Dropped;
    }
    var link := url;
    if r.destinationRegex.Some? {
      if r.destinationReplacement.None? {
        return Panics;
      }
      link := ReplaceAll(r.destinationRegex.value, link, r.destinationReplacement.value);
    } else if r.postReplacement.Some? {
      var pairs := r.postReplacement.value;
      for j := 0 to |pairs|
        invariant PostReplace(link, pairs[j..]) == PostReplace(url, pairs)
      {
        assert pairs[j..][1..] == pairs[j + 1..];
        if Contains(link, pairs[j].from) {
          link := ReplaceStr(link, pairs[j].from, pairs[j].to);
        }
      }
      assert pairs[|pairs|..] == [];
    }
    step := Kept(link);
  }

  /** Once the loop has panicked, later results change nothing. */
  lemma {:induction false} PanicSticks(r: LinkFollowReplacer, results: seq<Result<string, string>>, i: nat)
    requires i <= |results| && Collected(r, results[..i]).None?
    ensures Collected(r, results).None?
    decreases |results| - i
  {
    if i < |results| {
      assert results[..i + 1][..i] == results[..i];
      PanicSticks(r, results, i + 1);
    } else {
      assert results[..i] == results;
    }
  }

  /** A run panics exactly when a destination pattern has no replacement and some visit succeeds with a URL that is not bad. */
  lemma {:induction false} PanicsExactly(r: LinkFollowReplacer, results: seq<Result<string, string>>)
    ensures Collected(r, results).None? <==>
      r.destinationRegex.Some? && r.destinationReplacement.None?
      && exists k :: 0 <= k < |results| && results[k].Ok? && !IsBad(r, results[k].value)
    decreases |results|
  {
    if results != [] {
      var init := results[..|results| - 1];
      PanicsExactly(r, init);
      if exists k :: 0 <= k < |init| && init[k].Ok? && !IsBad(r, init[k].value) {
        var k :| 0 <= k < |init| && init[k].Ok? && !IsBad(r, init[k].value);
        assert results[k] == init[k];
      }
      if exists k :: 0 <= k < |results| && results[k].Ok? && !IsBad(r, results[k].value) {
        var k :| 0 <= k < |results| && results[k].Ok? && !IsBad(r, results[k].value);
        if k < |init| {
          assert init[k] == results[k];
        }
      }
    }
  }

  /** The number of results that are successful visits of URLs that are not bad. */
  function Survivors(r: LinkFollowReplacer, results: seq<Result<string, string>>): (n: nat)
    ensures n <= |results|
    decreases |results|
  {
    if results == [] then 0
    else
      var last := results[|results| - 1];
      Survivors(r, results[..|results| - 1]) + (if last.Ok? && !IsBad(r, last.value) then 1 else 0)
  }

  /**
   * Without a panic, the output has one line per surviving visit, and
   * each line is what the pipeline makes of some successful visit.
   */
  lemma {:induction false} LinesFromSurvivors(r: LinkFollowReplacer, results: seq<Result<string, string>>)
    requires Collected(r, results).Some?
    ensures |Collected(r, results).value| == Survivors(r, results)
    ensures forall line :: line in Collected(r, results).value ==>
      exists k :: 0 <= k < |results| && results[k].Ok? && Process(r, results[k].value) == Kept(line)
    decreases |results|
  {
    if results != [] {
      var init := results[..|results| - 1];
      var last := results[|results| - 1];
      LinesFromSurvivors(r, init);
      var prev := Collected(r, init).value;
      forall line | line in Collected(r, results).value
        ensures exists k :: 0 <= k < |results| && results[k].Ok? && Process(r, results[k].value) == Kept(line)
      {
        if line in prev {
          var k :| 0 <= k < |init| && init[k].Ok? && Process(r, init[k].value) == Kept(line);
          assert results[k] == init[k];
        } else {
          assert Process(r, results[|results| - 1].value) == Kept(line);
        }
      }
    }
  }

  /** When every visit fails, a matching message gives the empty text. */
  lemma AllVisitsFail(r: LinkFollowReplacer, resolve: Follow.Resolver, sched: Schedule, message: string)
    requires Matches(r, message)
    requires forall k :: 0 <= k < |Candidates(r, message)| ==> resolve(Candidates(r, message)[k]).Err?
    ensures Answer(r, resolve, sched, message) == Replaced("")
  {
    var links := Candidates(r, message);
    var results := Visited(resolve, sched, links);
    forall k | 0 <= k < |results|
      ensures results[k].Err?
    {
      assert sched(links)[k] < |links|;
    }
    PanicsExactly(r, results);
    LinesFromSurvivors(r, results);
    NoneSurvive(r, results);
  }

  lemma {:induction false} NoneSurvive(r: LinkFollowReplacer, results: seq<Result<string, string>>)
    requires forall k :: 0 <= k < |results| ==> results[k].Err?
    ensures Survivors(r, results) == 0
    decreases |results|
  {
    if results != [] {
      NoneSurvive(r, results[..|results| - 1]);
    }
  }

  /** With a destination pattern the post-replacements are never applied, whatever they are. */
  lemma {:induction false} DestinationSkipsPost(r: LinkFollowReplacer, post: Option<seq<Pair>>, results: seq<Result<string, string>>)
    requires r.destinationRegex.Some?
    ensures Collected(r.(postReplacement := post), results) == Collected(r, results)
    decreases |results|
  {
    if results != [] {
      DestinationSkipsPost(r, post, results[..|results| - 1]);
    }
  }

  /** The post-replacements without the `contains` guard: each pair replaces all its occurrences. */
  function ReplaceEach(link: string, pairs: seq<Pair>): string
    decreases |pairs|
  {
    if pairs == [] then link else ReplaceEach(ReplaceStr(link, pairs[0].from, pairs[0].to), pairs[1..])
  }

  /** The `contains` guard changes nothing: a pair whose old text is absent leaves the link as it is. */
  lemma {:induction false} GuardChangesNothing(link: string, pairs: seq<Pair>)
    ensures PostReplace(link, pairs) == ReplaceEach(link, pairs)
    decreases |pairs|
  {
    if pairs != [] {
      var p := pairs[0];
      if p.from == [] {
        assert StartsAt(link, 0, p.from);
      } else if !Contains(link, p.from) {
        ReplaceStrAbsent(link, p.from, p.to);
      }
      GuardChangesNothing(ReplaceStr(link, p.from, p.to), pairs[1..]);
    }
  }

  /** When every result is a success the pipeline keeps unchanged, the links are those URLs, in result order. */
  lemma {:induction false} AllKept(r: LinkFollowReplacer, results: seq<Result<string, string>>)
    requires forall k :: 0 <= k < |results| ==> results[k].Ok? && Process(r, results[k].value) == Kept(results[k].value)
    ensures Collected(r, results) == Some(seq(|results|, k requires 0 <= k < |results| => results[k].value))
    decreases |results|
  {
    var links := seq(|results|, k requires 0 <= k < |results| => results[k].value);
    if results != [] {
      var init := results[..|results| - 1];
      var last := results[|results| - 1];
      var prev := seq(|init|, k requires 0 <= k < |init| => init[k].value);
      AllKept(r, init);
      assert last.Ok? && Process(r, last.value) == Kept(last.value);
      assert Collected(r, results) == Some(prev + [last.value]);
      assert links == prev + [last.value];
    } else {
      assert links == [];
    }
  }

  /**
   * A follower with no bad-URL pattern, no destination pattern and no
   * post-replacements, whose candidates can all be followed, answers with
   * the followed URLs, query removed, one per line, in the order the
   * visits complete.
   */
  lemma PlainFollowerLines(r: LinkFollowReplacer, resolve: Follow.Resolver, sched: Schedule, message: string)
    requires Matches(r, message)
    requires r.badUrlMatch.None? && r.destinationRegex.None? && r.postReplacement.None?
    requires forall k :: 0 <= k < |Candidates(r, message)| ==> resolve(Candidates(r, message)[k]).Ok?
    ensures var links := Candidates(r, message);
      var order := sched(links);
      Answer(r, resolve, sched, message)
      == Replaced(Join(seq(|links|, k requires 0 <= k < |links| =>
                             Follow.Render(Follow.StripQuery(resolve(links[order[k]]).value))), "\n"))
  {
    var links := Candidates(r, message);
    var order := sched(links);
    var results := Visited(resolve, sched, links);
    forall k | 0 <= k < |results|
      ensures results[k].Ok? && Process(r, results[k].value) == Kept(results[k].value)
      ensures results[k].value == Follow.Render(Follow.StripQuery(resolve(links[order[k]]).value))
    {
      assert order[k] < |links|;
    }
    AllKept(r, results);
    assert seq(|results|, k requires 0 <= k < |results| => results[k].value)
        == seq(|links|, k requires 0 <= k < |links| => Follow.Render(Follow.StripQuery(resolve(links[order[k]]).value)));
  }
}
