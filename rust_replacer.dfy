// The Rust replacer module (src/replacer/mod.rs): the two replacer kinds
// behind one enum, choosing and ordering the replacers for a message,
// building the reply from each of them, looking a replacer up by name,
// and the runner of the configured replacement tests. The configured
// replacers and tests are parameters (reading them is configuration I/O).
module RustReplacer {
  import opened Base
  import opened Text
  import Lists
  import Follow
  import Patterns
  import RustRegex
  import RustLinkFollower

  /** The `Replacer` enum: a regex replacer or a link follower. */
  datatype Replacer = RegexRule(regex: RustRegex.RegexReplacer) | LinkRule(follower: RustLinkFollower.LinkFollowReplacer)

  function Name(r: Replacer): string {
    match r
    case RegexRule(x) => RustRegex.Name(x)
    case LinkRule(x) => RustLinkFollower.Name(x)
  }

  predicate Matches(r: Replacer, message: string) {
    match r
    case RegexRule(x) => RustRegex.Matches(x, message)
    case LinkRule(x) => RustLinkFollower.Matches(x, message)
  }

  /** `replace`, dispatched on the kind; neither kind returns an error, a link follower may panic. */
  function Replace(r: Replacer, resolve: Follow.Resolver, sched: RustLinkFollower.Schedule, message: string): RustLinkFollower.Outcome {
    match r
    case RegexRule(x) => RustLinkFollower.Replaced(RustRegex.Replace(x, message))
    case LinkRule(x) => RustLinkFollower.Answer(x, resolve, sched, message)
  }

  /** The enum's `replace`: each kind's own `replace`. */
  method ReplaceWith(r: Replacer, resolve: Follow.Resolver, sched: RustLinkFollower.Schedule, message: string)
    returns (out: RustLinkFollower.Outcome)
    ensures out == Replace(r, resolve, sched, message)
    ensures r.RegexRule? ==> out == RustLinkFollower.Replaced(RustRegex.Replace(r.regex, message))
  {
    match r
    case RegexRule(x) =>
      out := RustLinkFollower.Replaced(RustRegex.Replace(x, message));
    case LinkRule(x) =>
      out := RustLinkFollower.Replace(x, resolve, sched, message);
  }

  /**
   * A replacer answers the message itself when it does not match: a link
   * follower returns before it visits anything, so it cannot panic then.
   */
  lemma UnchangedWithoutMatch(r: Replacer, resolve: Follow.Resolver, sched: RustLinkFollower.Schedule, message: string)
    requires !Matches(r, message)
    ensures Replace(r, resolve, sched, message) == RustLinkFollower.Replaced(message)
  {
  }

  // Ordering replacers by name.

  /** Rust's `String` order: lexicographic over the characters (UTF-8 byte order is code point order). */
  predicate NameLe(a: string, b: string)
    decreases |a|
  {
    a == [] || (b != [] && (a[0] < b[0] || (a[0] == b[0] && NameLe(a[1..], b[1..]))))
  }

  lemma {:induction false} NameLeTotal(a: string, b: string)
    ensures NameLe(a, b) || NameLe(b, a)
    decreases |a|
  {
    if a != [] && b != [] && a[0] == b[0] {
      NameLeTotal(a[1..], b[1..]);
    }
  }

  lemma {:induction false} NameLeTrans(a: string, b: string, c: string)
    requires NameLe(a, b) && NameLe(b, c)
    ensures NameLe(a, c)
    decreases |a|
  {
    if a != [] && a[0] == b[0] && b[0] == c[0] {
      NameLeTrans(a[1..], b[1..], c[1..]);
    }
  }

  lemma {:induction false} NameLeAntisym(a: string, b: string)
    requires NameLe(a, b) && NameLe(b, a)
    ensures a == b
    decreases |a|
  {
    if a != [] {
      NameLeAntisym(a[1..], b[1..]);
      assert a == [a[0]] + a[1..] && b == [b[0]] + b[1..];
    }
  }

  predicate SortedByName(rs: seq<Replacer>) {
    forall i, j :: 0 <= i < j < |rs| ==> NameLe(Name(rs[i]), Name(rs[j]))
  }

  predicate NamedAs(r: Replacer, name: string) {
    Name(r) == name
  }

  /** `x` goes before the first element whose name is not smaller, so ahead of the ones named like it. */
  function Insert(x: Replacer, rs: seq<Replacer>): seq<Replacer>
    decreases |rs|
  {
    if rs == [] then [x]
    else if NameLe(Name(x), Name(rs[0])) then [x] + rs
    else [rs[0]] + Insert(x, rs[1..])
  }

  /** `sort_by_key` on the name: a stable sort, here by insertion from the back. */
  function SortByName(rs: seq<Replacer>): seq<Replacer>
    decreases |rs|
  {
    if rs == [] then [] else Insert(rs[0], SortByName(rs[1..]))
  }

  /** Insertion keeps the replacers and adds `x`. */
  lemma {:induction false} InsertKeeps(x: Replacer, rs: seq<Replacer>)
    ensures multiset(Insert(x, rs)) == multiset(rs) + multiset{x}
    decreases |rs|
  {
    if rs != [] && !NameLe(Name(x), Name(rs[0])) {
      InsertKeeps(x, rs[1..]);
      assert rs == [rs[0]] + rs[1..];
    }
  }

  /** A name below `x` and below every element of `rs` is below every element after insertion. */
  lemma {:induction false} InsertBounded(x: Replacer, rs: seq<Replacer>, lo: string)
    requires NameLe(lo, Name(x)) && forall k :: 0 <= k < |rs| ==> NameLe(lo, Name(rs[k]))
    ensures |Insert(x, rs)| == |rs| + 1
    ensures forall k :: 0 <= k < |Insert(x, rs)| ==> NameLe(lo, Name(Insert(x, rs)[k]))
    decreases |rs|
  {
    if rs != [] && !NameLe(Name(x), Name(rs[0])) {
      InsertBounded(x, rs[1..], lo);
      var out := Insert(x, rs);
      forall k | 0 < k < |out|
        ensures NameLe(lo, Name(out[k]))
      {
        assert out[k] == Insert(x, rs[1..])[k - 1];
      }
    }
  }

  lemma {:induction false} InsertSorted(x: Replacer, rs: seq<Replacer>)
    requires SortedByName(rs)
    ensures SortedByName(Insert(x, rs))
    decreases |rs|
  {
    if rs != [] {
      if NameLe(Name(x), Name(rs[0])) {
        var out := [x] + rs;
        forall i, j | 0 <= i < j < |out|
          ensures NameLe(Name(out[i]), Name(out[j]))
        {
          if i == 0 && j > 1 {
            NameLeTrans(Name(x), Name(rs[0]), Name(rs[j - 1]));
          }
        }
      } else {
        NameLeTotal(Name(x), Name(rs[0]));
        InsertSorted(x, rs[1..]);
        InsertBounded(x, rs[1..], Name(rs[0]));
        var rest := Insert(x, rs[1..]);
        var out := [rs[0]] + rest;
        forall i, j | 0 <= i < j < |out|
          ensures NameLe(Name(out[i]), Name(out[j]))
        {
          assert out[j] == rest[j - 1];
          if i > 0 {
            assert out[i] == rest[i - 1];
          }
        }
      }
    }
  }

  /** Among the elements of one name, insertion puts `x` first and keeps the others' order. */
  lemma {:induction false} InsertStable(x: Replacer, rs: seq<Replacer>, name: string)
    ensures Lists.Filter(Insert(x, rs), name, NamedAs) == (if Name(x) == name then [x] else []) + Lists.Filter(rs, name, NamedAs)
    decreases |rs|
  {
    var hx := if Name(x) == name then [x] else [];
    if rs == [] {
      Lists.FilterCons(x, [], name, NamedAs);
      assert [x] + [] == [x];
    } else if NameLe(Name(x), Name(rs[0])) {
      Lists.FilterCons(x, rs, name, NamedAs);
    } else {
      var h0 := if Name(rs[0]) == name then [rs[0]] else [];
      var tail := Lists.Filter(rs[1..], name, NamedAs);
      InsertStable(x, rs[1..], name);
      Lists.FilterCons(rs[0], Insert(x, rs[1..]), name, NamedAs);
      assert rs == [rs[0]] + rs[1..];
      Lists.FilterCons(rs[0], rs[1..], name, NamedAs);
      if Name(x) == name {
        NameLeTotal(Name(x), Name(x));
      }
      assert h0 + (hx + tail) == hx + (h0 + tail);
    }
  }

  /**
   * `sort_by_key` by name: the result is sorted, holds the same
   * replacers, and replacers of the same name keep their order.
   */
  lemma SortByNameSpec(rs: seq<Replacer>)
    ensures SortedByName(SortByName(rs))
    ensures multiset(SortByName(rs)) == multiset(rs)
    ensures forall name :: Lists.Filter(SortByName(rs), name, NamedAs) == Lists.Filter(rs, name, NamedAs)
  {
    SortByNameSorted(rs);
    SortByNamePermutes(rs);
    forall name
      ensures Lists.Filter(SortByName(rs), name, NamedAs) == Lists.Filter(rs, name, NamedAs)
    {
      SortByNameStable(rs, name);
    }
  }

  lemma {:induction false} SortByNameSorted(rs: seq<Replacer>)
    ensures SortedByName(SortByName(rs))
    decreases |rs|
  {
    if rs != [] {
      SortByNameSorted(rs[1..]);
      InsertSorted(rs[0], SortByName(rs[1..]));
    }
  }

  lemma {:induction false} SortByNamePermutes(rs: seq<Replacer>)
    ensures multiset(SortByName(rs)) == multiset(rs)
    decreases |rs|
  {
    if rs != [] {
      SortByNamePermutes(rs[1..]);
      InsertKeeps(rs[0], SortByName(rs[1..]));
      Lists.MultisetOfCons(rs);
    }
  }

  lemma {:induction false} SortByNameStable(rs: seq<Replacer>, name: string)
    ensures Lists.Filter(SortByName(rs), name, NamedAs) == Lists.Filter(rs, name, NamedAs)
    decreases |rs|
  {
    if rs != [] {
      SortByNameStable(rs[1..], name);
      InsertStable(rs[0], SortByName(rs[1..]), name);
    }
  }

  // Choosing the replacers.

  /** Why `replace_message` gives no text: nothing matched, or a replacer panicked. */
  datatype Failure = NoReplacerFound | Panicked

  /** `get_matching_replacers`: the matching replacers sorted by name; an error when there are none. */
  function MatchingReplacers(config: seq<Replacer>, message: string): Result<seq<Replacer>, Failure> {
    var found := Lists.Filter(config, message, Matches);
    if found == [] then Err(NoReplacerFound) else Ok(SortByName(found))
  }

  /**
   * The chosen replacers are exactly the configured ones that match (the
   * same replacers, each as often), sorted by name, with replacers of one
   * name in configuration order; there is an error exactly when none
   * matches.
   */
  lemma MatchingReplacersSpec(config: seq<Replacer>, message: string)
    ensures MatchingReplacers(config, message).Err? <==> forall k :: 0 <= k < |config| ==> !Matches(config[k], message)
    ensures MatchingReplacers(config, message).Err? ==> MatchingReplacers(config, message).error == NoReplacerFound
    ensures var found := Lists.Filter(config, message, Matches);
      MatchingReplacers(config, message).Ok? ==>
        var rs := MatchingReplacers(config, message).value;
        SortedByName(rs) && multiset(rs) == multiset(found)
        && (forall k :: 0 <= k < |rs| ==> Matches(rs[k], message))
        && (forall name :: Lists.Filter(rs, name, NamedAs) == Lists.Filter(found, name, NamedAs))
  {
    var found := Lists.Filter(config, message, Matches);
    Lists.FilterNone(config, message, Matches);
    if found != [] {
      SortByNameSpec(found);
      Lists.FilterKept(config, message, Matches);
      var rs := SortByName(found);
      forall k | 0 <= k < |rs|
        ensures Matches(rs[k], message)
      {
        assert rs[k] in multiset(found);
      }
    }
  }

  /**
   * When the replacers matching a message are one named "discord" and one
   * named "tiktok", in either configuration order, the Discord one is
   * chosen first.
   */
  lemma DiscordBeforeTikTok(config: seq<Replacer>, message: string, d: Replacer, t: Replacer)
    requires Name(d) == "discord" && Name(t) == "tiktok"
    requires Lists.Filter(config, message, Matches) == [d, t] || Lists.Filter(config, message, Matches) == [t, d]
    ensures MatchingReplacers(config, message) == Ok([d, t])
  {
    assert NameLe("discord", "tiktok") && !NameLe("tiktok", "discord");
    assert [t, d][1..] == [d] && [d, t][1..] == [t];
    assert [d][1..] == [] && [t][1..] == [];
    assert SortByName([d]) == [d] && SortByName([t]) == [t];
    assert Insert(t, [d]) == [d] + Insert(t, []) == [d, t];
    assert SortByName([t, d]) == [d, t];
    assert SortByName([d, t]) == Insert(d, [t]) == [d, t];
  }

  // The reply.

  /** Each replacer's answer to the same message, in order. */
  function Answers(rs: seq<Replacer>, resolve: Follow.Resolver, sched: RustLinkFollower.Schedule, message: string): seq<RustLinkFollower.Outcome> {
    seq(|rs|, k requires 0 <= k < |rs| => Replace(rs[k], resolve, sched, message))
  }

  /**
   * The texts `replace_message` pushes for these answers: each between
   * `||` delimiters when the message has them; None once one is a panic.
   */
  function Lines(outs: seq<RustLinkFollower.Outcome>, message: string): Option<seq<string>>
    decreases |outs|
  {
    if outs == [] then Some([])
    else match Lines(outs[..|outs| - 1], message)
      case None => None
      case Some(prev) =>
        match outs[|outs| - 1]
        case Panicked => None
        case Replaced(text) => Some(prev + [Patterns.SpoilerAs(message, text)])
  }

  /** `replace_message` as a value. */
  function MessageOutcome(config: seq<Replacer>, resolve: Follow.Resolver, sched: RustLinkFollower.Schedule, message: string): Result<string, Failure> {
    match MatchingReplacers(config, message)
    case Err(e) => Err(e)
    case Ok(rs) =>
      match Lines(Answers(rs, resolve, sched, message), message)
      case None => Err(Panicked)
      case Some(texts) => Ok(Join(texts, "\n"))
  }

  /** `replace_message`: every chosen replacer on the original message, the answers joined by newlines. */
  method ReplaceMessage(config: seq<Replacer>, resolve: Follow.Resolver, sched: RustLinkFollower.Schedule, message: string)
    returns (out: Result<string, Failure>)
    ensures out == MessageOutcome(config, resolve, sched, message)
  {
    var chosen := MatchingReplacers(config, message);
    if chosen.Err? {
      return Err(chosen.error);
    }
    var links := PushLines(chosen.value, resolve, sched, message);
    if links.None? {
      return Err(Panicked);
    }
    out := Ok(Join(links.value, "\n"));
  }

  /** The loop of `replace_message`: one pushed text per replacer, stopping at a panic. */
  method PushLines(rs: seq<Replacer>, resolve: Follow.Resolver, sched: RustLinkFollower.Schedule, message: string)
    returns (out: Option<seq<string>>)
    ensures out == Lines(Answers(rs, resolve, sched, message), message)
  {
    ghost var outs := Answers(rs, resolve, sched, message);
    var links: seq<string> := [];
    for i := 0 to |rs|
      invariant Lines(outs[..i], message) == Some(links)
    {
      var replaced := ReplaceWith(rs[i], resolve, sched, message);
      LinesStep(outs, message, i);
      if replaced.Panicked? {
        LinesPanicSticks(outs, message, i + 1);
        return None;
      }
      var link := replaced.text;
      if Contains(message, "||") {
        link := Wrap(link);
      }
      links := links + [link];
    }
    assert outs[..|rs|] == outs;
    out := Some(links);
  }

  /** One more answer: a panic ends the texts, any other answer adds its text. */
  lemma LinesStep(outs: seq<RustLinkFollower.Outcome>, message: string, i: nat)
    requires i < |outs|
    ensures Lines(outs[..i + 1], message)
         == match Lines(outs[..i], message)
            case None => None
            case Some(prev) =>
              match outs[i]
              case Panicked => None
              case Replaced(text) => Some(prev + [Patterns.SpoilerAs(message, text)])
  {
    assert outs[..i + 1][..i] == outs[..i];
  }

  lemma {:induction false} LinesPanicSticks(outs: seq<RustLinkFollower.Outcome>, message: string, i: nat)
    requires i <= |outs| && Lines(outs[..i], message).None?
    ensures Lines(outs, message).None?
    decreases |outs| - i
  {
    if i < |outs| {
      assert outs[..i + 1][..i] == outs[..i];
      LinesPanicSticks(outs, message, i + 1);
    } else {
      assert outs[..i] == outs;
    }
  }

  /**
   * Line k of the reply is the k-th answer, wrapped when the message has
   * `||`; there is a reply exactly when no answer is a panic.
   */
  lemma {:induction false} LinesOfAnswers(outs: seq<RustLinkFollower.Outcome>, message: string)
    ensures Lines(outs, message).Some? <==> forall k :: 0 <= k < |outs| ==> outs[k].Replaced?
    ensures Lines(outs, message).Some? ==>
      var texts := Lines(outs, message).value;
      |texts| == |outs| && forall k :: 0 <= k < |outs| ==> texts[k] == Patterns.SpoilerAs(message, outs[k].text)
    decreases |outs|
  {
    if outs != [] {
      var init := outs[..|outs| - 1];
      LinesOfAnswers(init, message);
      assert forall k :: 0 <= k < |init| ==> init[k] == outs[k];
    }
  }

  /**
   * Each chosen replacer answers the original message, not the previous
   * replacer's answer: line k of the reply is replacer k's answer to the
   * message, wrapped when the message has `||`, and there is a reply
   * exactly when no replacer panics.
   */
  lemma LinesOnOriginal(rs: seq<Replacer>, resolve: Follow.Resolver, sched: RustLinkFollower.Schedule, message: string)
    ensures var lines := Lines(Answers(rs, resolve, sched, message), message);
      (lines.Some? <==> forall k :: 0 <= k < |rs| ==> Replace(rs[k], resolve, sched, message).Replaced?)
      && (lines.Some? ==>
            |lines.value| == |rs|
            && forall k :: 0 <= k < |rs| ==> lines.value[k] == Patterns.SpoilerAs(message, Replace(rs[k], resolve, sched, message).text))
  {
    var outs := Answers(rs, resolve, sched, message);
    LinesOfAnswers(outs, message);
    assert forall k :: 0 <= k < |rs| ==> outs[k] == Replace(rs[k], resolve, sched, message);
  }

  /** The reply fails with `NoReplacerFound` exactly when no configured replacer matches the message. */
  lemma NoReplacerFoundExactly(config: seq<Replacer>, resolve: Follow.Resolver, sched: RustLinkFollower.Schedule, message: string)
    ensures MessageOutcome(config, resolve, sched, message) == Err(NoReplacerFound) <==>
      forall k :: 0 <= k < |config| ==> !Matches(config[k], message)
  {
    MatchingReplacersSpec(config, message);
  }

  /** Only a link follower with a destination pattern and no destination replacement panics. */
  lemma PanicNeedsFollower(r: Replacer, resolve: Follow.Resolver, sched: RustLinkFollower.Schedule, message: string)
    requires Replace(r, resolve, sched, message).Panicked?
    ensures r.LinkRule? && r.follower.destinationRegex.Some? && r.follower.destinationReplacement.None?
  {
    var x := r.follower;
    RustLinkFollower.PanicsExactly(x, RustLinkFollower.Visited(resolve, sched, RustLinkFollower.Candidates(x, message)));
  }

  /** Every chosen replacer is a configured one. */
  lemma ChosenAreConfigured(config: seq<Replacer>, message: string, k: nat)
    requires MatchingReplacers(config, message).Ok? && k < |MatchingReplacers(config, message).value|
    ensures exists m :: 0 <= m < |config| && config[m] == MatchingReplacers(config, message).value[k]
  {
    MatchingReplacersSpec(config, message);
    var found := Lists.Filter(config, message, Matches);
    var r := MatchingReplacers(config, message).value[k];
    assert r in multiset(found);
    Lists.FilterExactly(config, message, Matches);
    var j :| 0 <= j < |found| && found[j] == r;
    var idx := Lists.KeptFrom(config, message, Matches, 0);
    assert config[idx[j]] == r;
  }

  /**
   * The reply can only fail with a panic when some configured link
   * follower has a destination pattern and no destination replacement.
   */
  lemma PanicNeedsMissingReplacement(config: seq<Replacer>, resolve: Follow.Resolver, sched: RustLinkFollower.Schedule, message: string)
    requires MessageOutcome(config, resolve, sched, message) == Err(Panicked)
    ensures exists k :: (0 <= k < |config| && config[k].LinkRule?
      && config[k].follower.destinationRegex.Some? && config[k].follower.destinationReplacement.None?)
  {
    var rs := MatchingReplacers(config, message).value;
    var outs := Answers(rs, resolve, sched, message);
    LinesOfAnswers(outs, message);
    var k :| 0 <= k < |rs| && outs[k].Panicked?;
    PanicNeedsFollower(rs[k], resolve, sched, message);
    ChosenAreConfigured(config, message, k);
  }

  // Looking replacers up.

  /** The position of the last configured replacer with that name. */
  function LastNamedIndex(config: seq<Replacer>, name: string): (i: Option<nat>)
    ensures i.None? <==> forall k :: 0 <= k < |config| ==> Name(config[k]) != name
    ensures i.Some? ==> i.value < |config| && Name(config[i.value]) == name
                        && forall j :: i.value < j < |config| ==> Name(config[j]) != name
    decreases |config|
  {
    if config == [] then None
    else if Name(config[|config| - 1]) == name then Some(|config| - 1)
    else
      var init := config[..|config| - 1];
      assert forall k :: 0 <= k < |init| ==> init[k] == config[k];
      LastNamedIndex(init, name)
  }

  /** `get_replacer_by_name`: the last configured replacer with that name. */
  function LastNamed(config: seq<Replacer>, name: string): (r: Option<Replacer>)
    ensures r.None? <==> forall k :: 0 <= k < |config| ==> Name(config[k]) != name
    ensures r.Some? ==> exists k :: 0 <= k < |config| && config[k] == r.value && Name(config[k]) == name
                                     && forall j :: k < j < |config| ==> Name(config[j]) != name
  {
    match LastNamedIndex(config, name)
    case None => None
    case Some(k) => Some(config[k])
  }

  /** One test: the message and the reply expected for it. */
  datatype ReplacerTest = ReplacerTest(have: string, want: string)

  /** The tests of one replacer, by name. */
  datatype ReplacerTests = ReplacerTests(replacerName: string, tests: seq<ReplacerTest>)

  predicate ForReplacer(g: ReplacerTests, name: string) {
    g.replacerName == name
  }

  /** `Tests::filter_by_replacer_name`. */
  function FilterByReplacerName(groups: seq<ReplacerTests>, name: string): seq<ReplacerTests> {
    Lists.Filter(groups, name, ForReplacer)
  }

  /** It keeps exactly the entries for that name, each once, in their order. */
  lemma FilterByReplacerNameExactly(groups: seq<ReplacerTests>, name: string)
    ensures var idx := Lists.KeptFrom(groups, name, ForReplacer, 0);
      Lists.Increasing(idx)
      && (forall i :: i in idx <==> 0 <= i < |groups| && groups[i].replacerName == name)
      && FilterByReplacerName(groups, name) == seq(|idx|, j requires 0 <= j < |idx| => groups[idx[j]])
  {
    Lists.FilterExactly(groups, name, ForReplacer);
  }

  // The test runner.

  /** Why `run_tests` stops: an unknown name, the first reply that differs, or a panic. */
  datatype TestFailure =
    | NoReplacerNamed(name: string)
    | Mismatch(name: string, number: nat, got: string, want: string)
    | TestPanicked(name: string)

  /**
   * The tests of one replacer, the ones before already counted, with the
   * replacer's reply to each input given by `reply`; when `skipped` (a
   * link follower under `skip-link-followers`) every test is passed over,
   * uncounted.
   */
  function RunReplies(skipped: bool, reply: string -> RustLinkFollower.Outcome, name: string,
                      tests: seq<ReplacerTest>, count: nat): Option<TestFailure>
    decreases |tests|
  {
    if tests == [] then None
    else if skipped then RunReplies(skipped, reply, name, tests[1..], count)
    else match reply(tests[0].have)
      case Panicked => Some(TestPanicked(name))
      case Replaced(got) =>
        if got != tests[0].want then Some(Mismatch(name, count + 1, got, tests[0].want))
        else RunReplies(skipped, reply, name, tests[1..], count + 1)
  }

  /** The tests of replacer `r`. */
  function RunGroup(r: Replacer, name: string, tests: seq<ReplacerTest>, skipLinkFollowers: bool,
                    resolve: Follow.Resolver, sched: RustLinkFollower.Schedule, count: nat): Option<TestFailure>
  {
    RunReplies(r.LinkRule? && skipLinkFollowers, h => Replace(r, resolve, sched, h), name, tests, count)
  }

  /** The first failure among the groups, each group's result given by `result`. */
  function FirstFailure(groups: seq<ReplacerTests>, result: ReplacerTests -> Option<TestFailure>): Option<TestFailure>
    decreases |groups|
  {
    if groups == [] then None
    else if result(groups[0]).Some? then result(groups[0])
    else FirstFailure(groups[1..], result)
  }

  /** One group of tests: its replacer by name (the last one configured under it), then its tests. */
  function GroupResult(g: ReplacerTests, config: seq<Replacer>, skipLinkFollowers: bool,
                       resolve: Follow.Resolver, sched: RustLinkFollower.Schedule): Option<TestFailure>
  {
    match LastNamed(config, g.replacerName)
    case None => Some(NoReplacerNamed(g.replacerName))
    case Some(r) => RunGroup(r, g.replacerName, g.tests, skipLinkFollowers, resolve, sched, 0)
  }

  /** `run_tests` as a value: the first failure, or None when every test passes. */
  function RunAll(groups: seq<ReplacerTests>, config: seq<Replacer>, skipLinkFollowers: bool,
                  resolve: Follow.Resolver, sched: RustLinkFollower.Schedule): Option<TestFailure>
  {
    FirstFailure(groups, g => GroupResult(g, config, skipLinkFollowers, resolve, sched))
  }

  /** `run_tests`: each group's replacer by name, then its tests in order, stopping at the first failure. */
  method RunTests(groups: seq<ReplacerTests>, config: seq<Replacer>, skipLinkFollowers: bool,
                  resolve: Follow.Resolver, sched: RustLinkFollower.Schedule) returns (failure: Option<TestFailure>)
    ensures failure == RunAll(groups, config, skipLinkFollowers, resolve, sched)
  {
    ghost var result := g => GroupResult(g, config, skipLinkFollowers, resolve, sched);
    assert RunAll(groups, config, skipLinkFollowers, resolve, sched) == FirstFailure(groups, result);
    for i := 0 to |groups|
      invariant FirstFailure(groups, result) == FirstFailure(groups[i..], result)
    {
      assert groups[i..][1..] == groups[i + 1..];
      var name := groups[i].replacerName;
      var tests := groups[i].tests;
      var found := LastNamed(config, name);
      if found.None? {
        assert result(groups[i]) == Some(NoReplacerNamed(name));
        return Some(NoReplacerNamed(name));
      }
      var r := found.value;
      failure := RunTestsOf(r, name, tests, skipLinkFollowers, resolve, sched);
      assert result(groups[i]) == failure;
      if failure.Some? {
        return;
      }
    }
    assert groups[|groups|..] == [];
    failure := None;
  }

  /** The inner loop of `run_tests`, over one replacer's tests. */
  method RunTestsOf(r: Replacer, name: string, tests: seq<ReplacerTest>, skipLinkFollowers: bool,
                    resolve: Follow.Resolver, sched: RustLinkFollower.Schedule) returns (failure: Option<TestFailure>)
    ensures failure == RunGroup(r, name, tests, skipLinkFollowers, resolve, sched, 0)
  {
    var count: nat := 0;
    for j := 0 to |tests|
      invariant RunGroup(r, name, tests, skipLinkFollowers, resolve, sched, 0)
             == RunGroup(r, name, tests[j..], skipLinkFollowers, resolve, sched, count)
    {
      assert tests[j..][1..] == tests[j + 1..];
      if r.LinkRule? && skipLinkFollowers {
        continue;
      }
      count := count + 1;
      var replaced := ReplaceWith(r, resolve, sched, tests[j].have);
      if replaced.Panicked? {
        return Some(TestPanicked(name));
      }
      if replaced.text != tests[j].want {
        return Some(Mismatch(name, count, replaced.text, tests[j].want));
      }
    }
    assert tests[|tests|..] == [];
    failure := None;
  }

  /**
   * One replacer's tests pass exactly when they are skipped or every
   * reply is the expected one.
   */
  lemma GroupPasses(r: Replacer, name: string, tests: seq<ReplacerTest>, skipLinkFollowers: bool,
                    resolve: Follow.Resolver, sched: RustLinkFollower.Schedule, count: nat)
    ensures RunGroup(r, name, tests, skipLinkFollowers, resolve, sched, count).None? <==>
      (r.LinkRule? && skipLinkFollowers)
      || forall k :: 0 <= k < |tests| ==> Replace(r, resolve, sched, tests[k].have) == RustLinkFollower.Replaced(tests[k].want)
  {
    var reply := h => Replace(r, resolve, sched, h);
    RepliesPass(r.LinkRule? && skipLinkFollowers, reply, name, tests, count);
    assert forall k :: 0 <= k < |tests| ==> reply(tests[k].have) == Replace(r, resolve, sched, tests[k].have);
  }

  lemma {:induction false} RepliesPass(skipped: bool, reply: string -> RustLinkFollower.Outcome, name: string,
                                      tests: seq<ReplacerTest>, count: nat)
    ensures RunReplies(skipped, reply, name, tests, count).None? <==>
      skipped || forall k :: 0 <= k < |tests| ==> reply(tests[k].have) == RustLinkFollower.Replaced(tests[k].want)
    decreases |tests|
  {
    if tests != [] {
      RepliesPass(skipped, reply, name, tests[1..], if skipped then count else count + 1);
      assert forall k :: 1 <= k < |tests| ==> tests[k] == tests[1..][k - 1];
    }
  }

  /**
   * A reported mismatch names the replacer and the 1-based number of the
   * first test whose reply differs, with that reply and the expected one;
   * every test before it passed.
   */
  lemma MismatchIsFirst(r: Replacer, name: string, tests: seq<ReplacerTest>, skipLinkFollowers: bool,
                        resolve: Follow.Resolver, sched: RustLinkFollower.Schedule, count: nat,
                        n: nat, got: string, want: string)
    requires RunGroup(r, name, tests, skipLinkFollowers, resolve, sched, count) == Some(Mismatch(name, n, got, want))
    ensures count < n <= count + |tests|
    ensures Replace(r, resolve, sched, tests[n - count - 1].have) == RustLinkFollower.Replaced(got)
    ensures got != want && want == tests[n - count - 1].want
    ensures forall j :: 0 <= j < n - count - 1 ==> Replace(r, resolve, sched, tests[j].have) == RustLinkFollower.Replaced(tests[j].want)
  {
    var reply := h => Replace(r, resolve, sched, h);
    MismatchReplyFirst(r.LinkRule? && skipLinkFollowers, reply, name, tests, count, n, got, want);
    assert forall j :: 0 <= j < |tests| ==> reply(tests[j].have) == Replace(r, resolve, sched, tests[j].have);
  }

  lemma {:induction false} MismatchReplyFirst(skipped: bool, reply: string -> RustLinkFollower.Outcome, name: string,
                                             tests: seq<ReplacerTest>, count: nat, n: nat, got: string, want: string)
    requires RunReplies(skipped, reply, name, tests, count) == Some(Mismatch(name, n, got, want))
    ensures count < n <= count + |tests|
    ensures reply(tests[n - count - 1].have) == RustLinkFollower.Replaced(got)
    ensures got != want && want == tests[n - count - 1].want
    ensures forall j :: 0 <= j < n - count - 1 ==> reply(tests[j].have) == RustLinkFollower.Replaced(tests[j].want)
    decreases |tests|
  {
    if skipped {
      SkippedRepliesPass(reply, name, tests, count);
    } else if reply(tests[0].have).Replaced? && reply(tests[0].have).text == tests[0].want {
      MismatchReplyFirst(skipped, reply, name, tests[1..], count + 1, n, got, want);
      forall j | 0 <= j < n - count - 1
        ensures reply(tests[j].have) == RustLinkFollower.Replaced(tests[j].want)
      {
        if j > 0 {
          assert tests[j] == tests[1..][j - 1];
        }
      }
    }
  }

  /** Under `skip-link-followers` a link follower's tests never fail. */
  lemma SkippedNeverFail(r: Replacer, name: string, tests: seq<ReplacerTest>, skipLinkFollowers: bool,
                         resolve: Follow.Resolver, sched: RustLinkFollower.Schedule, count: nat)
    requires r.LinkRule? && skipLinkFollowers
    ensures RunGroup(r, name, tests, skipLinkFollowers, resolve, sched, count).None?
  {
    SkippedRepliesPass(h => Replace(r, resolve, sched, h), name, tests, count);
  }

  lemma {:induction false} SkippedRepliesPass(reply: string -> RustLinkFollower.Outcome, name: string,
                                             tests: seq<ReplacerTest>, count: nat)
    ensures RunReplies(true, reply, name, tests, count).None?
    decreases |tests|
  {
    if tests != [] {
      SkippedRepliesPass(reply, name, tests[1..], count);
    }
  }

  /**
   * The whole run passes exactly when every group names a configured
   * replacer and that replacer (the last one of the name) passes the
   * group's tests.
   */
  lemma RunAllPasses(groups: seq<ReplacerTests>, config: seq<Replacer>, skipLinkFollowers: bool,
                      resolve: Follow.Resolver, sched: RustLinkFollower.Schedule)
    ensures RunAll(groups, config, skipLinkFollowers, resolve, sched).None? <==>
      forall i :: 0 <= i < |groups| ==>
        LastNamed(config, groups[i].replacerName).Some?
        && RunGroup(LastNamed(config, groups[i].replacerName).value, groups[i].replacerName, groups[i].tests,
                    skipLinkFollowers, resolve, sched, 0).None?
  {
    var result := g => GroupResult(g, config, skipLinkFollowers, resolve, sched);
    NoFirstFailure(groups, result);
    assert forall i :: 0 <= i < |groups| ==> result(groups[i]) == GroupResult(groups[i], config, skipLinkFollowers, resolve, sched);
  }

  /** No group fails exactly when each group's result is None. */
  lemma {:induction false} NoFirstFailure(groups: seq<ReplacerTests>, result: ReplacerTests -> Option<TestFailure>)
    ensures FirstFailure(groups, result).None? <==> forall i :: 0 <= i < |groups| ==> result(groups[i]).None?
    decreases |groups|
  {
    if groups != [] {
      NoFirstFailure(groups[1..], result);
      assert forall i :: 1 <= i < |groups| ==> groups[i] == groups[1..][i - 1];
    }
  }
}
