// Following candidate links to their final destination. The HTTP client
// is replaced by a resolver oracle that reports, per link, the URL the
// redirects end at or why following failed. The Go helper `followLinks`
// is modelled twice: as written, where successful results are sent into
// a channel of capacity one that nobody reads until every request has
// finished, and as evidently intended, all-or-nothing in input order.
module Follow {
  import opened Base

  /** A URL: everything before the query, the raw query, and the fragment. */
  datatype Url = Url(location: string, query: string, fragment: string)

  /** Go `url.URL.String` / Rust `Url::to_string`: "?" and "#" appear only with a non-empty part. */
  function Render(u: Url): string {
    u.location + (if u.query != [] then "?" + u.query else "") + (if u.fragment != [] then "#" + u.fragment else "")
  }

  /** Go `RawQuery = ""` / Rust `set_query(None)`. */
  function StripQuery(u: Url): (v: Url)
    ensures v.query == [] && v.location == u.location && v.fragment == u.fragment
  {
    u.(query := [])
  }

  /** A rendered URL without a query is its location followed by its fragment part. */
  lemma RenderStripped(u: Url)
    ensures Render(StripQuery(u)) == u.location + (if u.fragment != [] then "#" + u.fragment else "")
    ensures StripQuery(StripQuery(u)) == StripQuery(u)
  {
  }

  /** The redirect resolver: where a link ends up, or why it could not be followed. */
  type Resolver = string -> Result<Url, string>

  /** One visit: the final URL with its query removed, rendered. */
  function Visit(resolve: Resolver, link: string): (r: Result<string, string>)
    ensures r.Ok? <==> resolve(link).Ok?
    ensures r.Ok? ==> r.value == Render(StripQuery(resolve(link).value))
    ensures r.Err? ==> r.error == resolve(link).error
  {
    match resolve(link)
    case Ok(u) => Ok(Render(StripQuery(u)))
    case Err(e) => Err(e)
  }

  /**
   * `followLinks` as evidently intended: every link is followed; if any
   * fails, the error of the first failing link (in input order) is the
   * result; otherwise the query-stripped destinations, one per link, in
   * input order.
   */
  function FollowLinks(resolve: Resolver, links: seq<string>): (r: Result<seq<string>, string>)
    ensures r.Ok? <==> forall k :: 0 <= k < |links| ==> resolve(links[k]).Ok?
    ensures r.Ok? ==> |r.value| == |links|
    ensures r.Ok? ==> forall k :: 0 <= k < |links| ==> r.value[k] == Render(StripQuery(resolve(links[k]).value))
    ensures r.Err? ==> exists k :: 0 <= k < |links| && resolve(links[k]).Err? && r.error == resolve(links[k]).error
                          && forall j :: 0 <= j < k ==> resolve(links[j]).Ok?
    decreases |links|
  {
    if links == [] then Ok([])
    else match Visit(resolve, links[0])
      case Err(e) => Err(e)
      case Ok(first) =>
        match FollowLinks(resolve, links[1..])
        case Err(e) =>
          Err(e)
        case Ok(rest) => Ok([first] + rest)
  }

  /** How the Go `followLinks` ends. */
  datatype Outcome = Followed(urls: seq<string>) | Failed(reason: string) | Hangs

  /** The buffer size of the results channel in `followLinks`. */
  const ChannelCapacity: nat := 1

  /**
   * `followLinks` as written: each successful goroutine sends its result
   * into the channel, which is drained only after `Wait` returns. Once
   * the buffer is full the next successful send blocks for ever, so
   * `Wait`, and the caller, never return. Otherwise `Wait` reports the
   * first error (in input order here), or the buffered results are read.
   */
  function FollowLinksAsWritten(resolve: Resolver, links: seq<string>, buffer: seq<string>, firstError: Option<string>): Outcome
    decreases |links|
  {
    if links == [] then
      if firstError.Some? then Failed(firstError.value) else Followed(buffer)
    else match Visit(resolve, links[0])
      case Err(e) =>
        FollowLinksAsWritten(resolve, links[1..], buffer, if firstError.None? then Some(e) else firstError)
      case Ok(u) =>
        if |buffer| >= ChannelCapacity then Hangs
        else FollowLinksAsWritten(resolve, links[1..], buffer + [u], firstError)
  }

  /** How many links the resolver follows successfully. */
  function Successes(resolve: Resolver, links: seq<string>): (n: nat)
    ensures n <= |links|
  {
    if links == [] then 0 else (if resolve(links[0]).Ok? then 1 else 0) + Successes(resolve, links[1..])
  }

  lemma {:induction false} AsWrittenHangsFrom(resolve: Resolver, links: seq<string>, buffer: seq<string>, firstError: Option<string>)
    requires |buffer| <= ChannelCapacity
    requires |buffer| + Successes(resolve, links) > ChannelCapacity
    ensures FollowLinksAsWritten(resolve, links, buffer, firstError) == Hangs
    decreases |links|
  {
    var e := if resolve(links[0]).Err? && firstError.None? then Some(resolve(links[0]).error) else firstError;
    if resolve(links[0]).Err? {
      AsWrittenHangsFrom(resolve, links[1..], buffer, e);
    } else if |buffer| < ChannelCapacity {
      AsWrittenHangsFrom(resolve, links[1..], buffer + [Visit(resolve, links[0]).value], firstError);
    }
  }

  /** As written, `followLinks` never returns once two or more links resolve. */
  lemma AsWrittenHangs(resolve: Resolver, links: seq<string>)
    requires Successes(resolve, links) >= 2
    ensures FollowLinksAsWritten(resolve, links, [], None) == Hangs
  {
    AsWrittenHangsFrom(resolve, links, [], None);
  }

  /** Two links to pages that both load: the Go code blocks on the second send. */
  lemma AsWrittenHangsOnTwoLinks()
    ensures FollowLinksAsWritten((l: string) => Ok(Url(l, "", "")), ["https://a.example/1", "https://a.example/2"], [], None) == Hangs
  {
    var resolve: Resolver := (l: string) => Ok(Url(l, "", ""));
    var links := ["https://a.example/1", "https://a.example/2"];
    assert Successes(resolve, links[1..]) == 1;
    AsWrittenHangs(resolve, links);
  }

  lemma {:induction false} AsWrittenAgreesFrom(resolve: Resolver, links: seq<string>, buffer: seq<string>, firstError: Option<string>)
    requires FollowLinksAsWritten(resolve, links, buffer, firstError) != Hangs
    ensures var w := FollowLinksAsWritten(resolve, links, buffer, firstError);
      var c := FollowLinks(resolve, links);
      (firstError.Some? ==> w == Failed(firstError.value))
      && (firstError.None? && c.Err? ==> w == Failed(c.error))
      && (firstError.None? && c.Ok? ==> w == Followed(buffer + c.value))
    decreases |links|
  {
    if links != [] {
      match Visit(resolve, links[0])
      case Err(e) =>
        AsWrittenAgreesFrom(resolve, links[1..], buffer, if firstError.None? then Some(e) else firstError);
      case Ok(u) =>
        AsWrittenAgreesFrom(resolve, links[1..], buffer + [u], firstError);
        var c := FollowLinks(resolve, links[1..]);
        if c.Ok? {
          assert buffer + [u] + c.value == buffer + ([u] + c.value);
        }
    } else {
      assert buffer + [] == buffer;
    }
  }

  /**
   * Whenever the Go code does return, it returns what the intended
   * all-or-nothing version returns, and it only succeeds for at most one
   * link.
   */
  lemma AsWrittenAgrees(resolve: Resolver, links: seq<string>)
    requires FollowLinksAsWritten(resolve, links, [], None) != Hangs
    ensures FollowLinks(resolve, links).Err? ==> FollowLinksAsWritten(resolve, links, [], None) == Failed(FollowLinks(resolve, links).error)
    ensures FollowLinks(resolve, links).Ok? ==> FollowLinksAsWritten(resolve, links, [], None) == Followed(FollowLinks(resolve, links).value)
    ensures FollowLinksAsWritten(resolve, links, [], None).Followed? ==> |links| <= 1
  {
    AsWrittenAgreesFrom(resolve, links, [], None);
  }
}
