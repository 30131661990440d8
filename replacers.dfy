// The `(string, error)` replacers of the Go engine as one tagged union,
// the registry the provider files add to, and the properties that hold
// for every replacer whatever its shape.
module GoReplacers {
  import opened Base
  import opened Text
  import opened Regex
  import opened GoEngine
  import Lists
  import Follow
  import GoSimple
  import GoLinkFollower
  import GoDeferred

  // The name constants are declared outside the files of this model; only
  // their being distinct matters here.
  const AmazonName: string := "amazon"
  const DiscordName: string := "discord"
  const InstagramName: string := "instagram"
  const RedditName: string := "reddit"
  const TikTokName: string := "tiktok"
  const TikTokVMName: string := "tiktokvm"
  const TwitterName: string := "twitter"
  const YoutubeShortsName: string := "youtubeshorts"

  datatype Replacer =
    | SimpleRule(simple: GoSimple.Simple)
    | FollowerRule(follower: GoLinkFollower.LinkFollower)
    | DeferredRule(child: Replacer, pairs: seq<Pair>)

  function Name(r: Replacer): string {
    match r
    case SimpleRule(s) => GoSimple.Name(s)
    case FollowerRule(f) => GoLinkFollower.Name(f)
    case DeferredRule(c, _) => Name(c)
  }

  predicate Matches(r: Replacer, msg: string) {
    match r
    case SimpleRule(s) => GoSimple.Matches(s, msg)
    case FollowerRule(f) => GoLinkFollower.Matches(f, msg)
    case DeferredRule(c, _) => Matches(c, msg)
  }

  function Replace(r: Replacer, resolve: Follow.Resolver, msg: string): Reply {
    match r
    case SimpleRule(s) => GoSimple.Replace(s, msg)
    case FollowerRule(f) => GoLinkFollower.Replaced(f, resolve, msg)
    case DeferredRule(c, pairs) => GoDeferred.AfterChild(Replace(c, resolve, msg), pairs)
  }

  /** `Deferred.Name` and `Deferred.Matches` are those of the wrapped replacer. */
  lemma DeferredDelegates(child: Replacer, pairs: seq<Pair>, msg: string)
    ensures Name(DeferredRule(child, pairs)) == Name(child)
    ensures Matches(DeferredRule(child, pairs), msg) == Matches(child, msg)
  {
  }

  /** Every replacer that reports an error returns its input unchanged. */
  lemma {:induction false} ErrorKeepsInput(r: Replacer, resolve: Follow.Resolver, msg: string)
    ensures Replace(r, resolve, msg).err != Nil ==> Replace(r, resolve, msg).output == msg
  {
    match r
    case SimpleRule(s) =>
    case FollowerRule(f) =>
      FindAllFirst(f.followRegex, msg);
    case DeferredRule(c, pairs) =>
      ErrorKeepsInput(c, resolve, msg);
  }

  /** Every replacer reports `ErrNoMatch` exactly when it does not match. */
  lemma {:induction false} NoMatchExactly(r: Replacer, resolve: Follow.Resolver, msg: string)
    ensures Replace(r, resolve, msg).err == NoMatch <==> !Matches(r, msg)
  {
    match r
    case SimpleRule(s) =>
    case FollowerRule(f) =>
      FindAllFirst(f.followRegex, msg);
    case DeferredRule(c, pairs) =>
      NoMatchExactly(c, resolve, msg);
  }

  /** One step of `ReplaceAll`: the output, whatever the error. */
  function Step(r: Replacer, resolve: Follow.Resolver, msg: string): string {
    Replace(r, resolve, msg).output
  }

  /** A step that only takes a replacer's output when it succeeded. */
  function StepIfOk(r: Replacer, resolve: Follow.Resolver, msg: string): string {
    var out := Replace(r, resolve, msg);
    if out.err == Nil then out.output else msg
  }

  /**
   * Feeding every output into the next replacer, errors ignored, is the
   * same as skipping the replacers that fail.
   */
  lemma {:induction false} ChainSkipsFailures(content: string, rs: seq<Replacer>, resolve: Follow.Resolver)
    ensures Lists.Thread(content, rs, resolve, Step) == Lists.Thread(content, rs, resolve, StepIfOk)
    decreases |rs|
  {
    if rs != [] {
      ErrorKeepsInput(rs[0], resolve, content);
      assert Step(rs[0], resolve, content) == StepIfOk(rs[0], resolve, content);
      ChainSkipsFailures(Step(rs[0], resolve, content), rs[1..], resolve);
    }
  }

  /** The first replacer called `name`. */
  function FirstNamed(rs: seq<Replacer>, name: string): (r: Option<Replacer>)
    ensures r.None? <==> forall k :: 0 <= k < |rs| ==> Name(rs[k]) != name
    ensures r.Some? ==> exists k :: 0 <= k < |rs| && rs[k] == r.value && Name(rs[k]) == name
                                     && forall j :: 0 <= j < k ==> Name(rs[j]) != name
  {
    if rs == [] then None
    else if Name(rs[0]) == name then Some(rs[0])
    else
      var r := FirstNamed(rs[1..], name);
      assert r.Some? ==> exists k :: 1 <= k < |rs| && rs[k] == r.value && Name(rs[k]) == name
                                     && forall j :: 0 <= j < k ==> Name(rs[j]) != name by {
        if r.Some? {
          var k :| 0 <= k < |rs[1..]| && rs[1..][k] == r.value && Name(rs[1..][k]) == name
                   && forall j :: 0 <= j < k ==> Name(rs[1..][j]) != name;
          assert rs[k + 1] == r.value;
          assert forall j :: 1 <= j < k + 1 ==> Name(rs[j]) != name by {
            forall j | 1 <= j < k + 1 ensures Name(rs[j]) != name {
              assert rs[j] == rs[1..][j - 1];
            }
          }
        }
      }
      r
  }

  /** The package registry: replacers in the order they were added. */
  class Registry {
    var entries: seq<Replacer>

    constructor ()
      ensures entries == []
    {
      entries := [];
    }

    /** `Add`: append a replacer. */
    method Add(r: Replacer)
      modifies this
      ensures entries == old(entries) + [r]
    {
      entries := entries + [r];
    }

    /** `ByName`: the first registered replacer with that name, by linear scan. */
    function ByName(name: string): Option<Replacer>
      reads this
    {
      FirstNamed(entries, name)
    }

    /** `findReplacers` over the registry. */
    method FindReplacers(content: string) returns (out: seq<Replacer>)
      ensures out == Lists.Filter(entries, content, Matches)
    {
      out := GoEngine.FindReplacers(entries, content, Matches);
    }
  }
}
