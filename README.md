# discord-links-bot: the link-rewriting engine, modelled in Dafny

discord-links-bot answers chat messages that hold links to social and media
sites with embed-friendly versions of those links. This project models its
link-rewriting engine in all three of its generations and proves what each
one does with a message.

- **The Go engine in `internal/replacer`** (module `GoEngine` and the modules
  around it):
  - `replaceMatches` rewrites every non-overlapping match of a pattern on its
    own, wraps each entry in `||…||` when the message has `||`, and joins the
    entries with newlines.
  - Three `(string, error)` replacer shapes sit on top of it:
    - `Simple` (`GoSimple`): a match guard, then the rewrite.
    - `LinkFollower` (`GoLinkFollower`): follow every candidate link through
      a redirect resolver, then optionally rewrite each destination.
    - `Deferred` (`GoDeferred`): a wrapped replacer, then a literal
      multi-pair substitution.
  - `GoReplacers` joins the shapes into one tagged union and holds the
    append-only `Registry` class.
  - `GoRegistration` holds the provider files' `init` functions, in
    file-name order.
  - The providers are `Amazon`, `Discord`, `Instagram`, `Reddit`, `TikTok`,
    `Twitter` and `YoutubeShorts`.
  - The older single-result replacers of `replacer.go` (generic, the Discord
    gif veto, the Reddit follower) are `GoEngine.Legacy`, and their rule table
    is `GoLegacy`.
  - `findReplacers` is an order-preserving filter and `ReplaceAll` a left
    fold.
- **The Rust engine in `src/replacer`**:
  - `RustRegex`: the regex replacer, which rewrites the first match inside
    each matched text and adds no spoiler delimiters.
  - `RustTemplate`: the `regex` crate's reading of a replacement template
    and its `replace` and `replace_all`.
  - `RustLinkFollower`: the link follower. It visits candidates in
    completion order, drops bad URLs, and then applies either the destination
    rewrite or the literal post-replacements. A missing destination
    replacement panics.
  - `RustReplacer`:
    - the enum dispatch;
    - `get_matching_replacers`: filter, fail when empty, stable sort by name;
    - `replace_message`: every replacer on the *original* message, wrapped,
      joined;
    - `get_replacer_by_name` (the last replacer of that name);
    - `filter_by_replacer_name`;
    - the `run_tests` comparison loop.
- **The original engine at the repository root**:
  - `OriginalReplacer`: `replacer.go`, with the same filter and fold, but
    `Replace` has no match guard and the Twitter rule uses fxtwitter.
  - `OriginalMain`: the handler's enqueue decision and `createOutput` in
    `main.go`.

## How the model is built

- **Regular expressions** are abstract:
  - A `Regex` carries its source text, its group names and a function `at`.
    The function `at` is the anchored leftmost-first attempt at one position.
  - `Search` and `FindAll` (Go's `FindAllString` and Rust's `find_iter`,
    with the empty-match rule) are defined over it.
  - `Regex.Expand` and `ReplaceAllString` follow Go's `Regexp.Expand`: `$$`,
    `$n`, `${name}`, and a reference is a group number only when it has no
    leading zero. Go lets names use any Unicode letter or digit and `_`;
    the model takes only ASCII ones (see Left out).
  - `RustTemplate.RustExpand`, `ReplaceAll` and `ReplaceFirst` follow the
    Rust `regex` crate. Names are ASCII letters, digits and `_`. Any text
    between braces is a reference. A reference that parses as an unsigned
    integer is a group number even with leading zeros. So `$01` is group 1
    in Rust and a group named "01" in Go (`RustTemplate.ZeroPaddedRef`).
    `${a-b}` is a reference in Rust and literal text in Go
    (`RustTemplate.BracedAnyText`).
- **Provider patterns** are hand-written recognizers. Each one works out the
  pattern's leftmost-first choices (greedy `.*`, optional groups tried first)
  for the concrete link shapes. Each provider has a lemma over the link
  shapes of its cases in `internal/replacer/replacer_test.go`, with the
  link's parts as parameters. The cases those lemmas do not cover are
  listed under "## Left out".
- **The network** is a parameter:
  - A `Follow.Resolver` maps a link to the final URL or an error.
  - Completion order is a `RustLinkFollower.Schedule`, which maps the links
    to an ordering of their positions.
- **Mutation**:
  - Loops that fill a slice by index (`replaceMatches`, `LinkFollower.Replace`
    and `createOutput`) are methods over arrays.
  - Loops that append (`findReplacers`, `replace_message`, the link
    follower's result loop and `run_tests`) are methods over sequences.
  - The registry is a class whose `Add` appends.
  - Each method is proved equal to a function. The properties are proved
    about that function.

Some behaviour of the code that is easy to misread:

- The Reddit rule is a `LinkFollower` with no destination rewrite and no
  `Deferred` wrapper, so its answer is the followed URL itself
  (`Reddit.FollowsThreadLink`).
- The Discord pattern's `[^.gif].$` tests the second-to-last character, so
  any file name whose second-to-last character is `.`, `g`, `i` or `f` is
  refused, not only `.gif` files (`Discord.RefusedNotRewritten`).
- `ReplaceAll` feeds every replacer's output on to the next one, whatever
  its error. This equals skipping the failing replacers, because every
  failing replacer hands its input back (`GoReplacers.ChainSkipsFailures`).
- Go's `followLinks` never returns once two links resolve. The model's
  `LinkFollower` uses the evidently intended all-or-nothing version, in
  input order (see Findings).

## Model

| member | source | states |
|---|---|---|
| GoEngine.Entries | internal/replacer/replacer.go:158-168 | one entry per non-overlapping match of the pattern in the message, in match order |
| GoEngine.ReplaceMatches | internal/replacer/replacer.go:151-171 | the loop that fills the `links` slice by index yields `Rewrite`: "" without a match, otherwise the entries joined by newlines |
| GoEngine.RewriteWithoutMatch | internal/replacer/replacer.go:152-156 | without a match the rewrite is "", not the message |
| GoEngine.RewriteLines | internal/replacer/replacer.go:158-170 | the output has one line per match, in order; line k is the template expanded against the k-th matched text alone, between `\|\|` delimiters exactly when the message contains `\|\|` |
| GoEngine.RewriteOnlyMatch | internal/replacer/replacer.go:151-171 | a message whose only match starts it is rewritten to that match's expansion, wrapped when the message has `\|\|` |
| GoEngine.LegacyReplace | internal/replacer/replacer.go:75-131 | the older replacers: unchanged without a match; `discordReplacer` unchanged whenever its gif pattern matches, otherwise the generic rewrite; `genericReplacer` is the rewrite; `redditReplacer` is the followed URLs joined by newlines, or the message when following fails, with links followed the intended way (`Follow.FollowLinks`) |
| GoEngine.LegacyRedditAsWritten | internal/replacer/replacer.go:212-258 | against the `followLinks` the `redditReplacer` calls, as written: once two or more links resolve it never answers; whenever it answers, the answer is `LegacyReplace`'s |
| GoEngine.FindReplacers | internal/replacer/replacer.go:141-149 | the registered replacers that match the content, in registration order |
| GoEngine.ReplaceAll | internal/replacer/replacer.go:173-181 | the content is threaded left to right through the message's replacers; with no replacers it comes back unchanged |
| GoSimple.NameOfNewSimple | internal/replacer/simple.go:14-20 | `Name` returns the name given to `NewSimple` |
| GoSimple.MatchesIffFound | internal/replacer/simple.go:30-32 | `Matches` holds exactly when the pattern has a match in the text |
| GoSimple.Replace | internal/replacer/simple.go:22-28 | `ErrNoMatch` exactly when `Matches` fails, and then the input comes back unchanged; otherwise a nil error and `replaceMatches` of the message |
| GoLinkFollower.Replace | internal/replacer/link_follower.go:36-75 | the method (candidates copied by index, destinations rewritten by index) returns `Replaced` |
| GoLinkFollower.RewriteEach | internal/replacer/link_follower.go:66-72 | the destination loop fills a slice with exactly each followed URL rewritten on its own, in order |
| GoLinkFollower.NoMatchFollowsNothing | internal/replacer/link_follower.go:37-39 | a message the follow pattern misses comes back with `ErrNoMatch`, whatever the resolver would do |
| GoLinkFollower.FailureKeepsMessage | internal/replacer/link_follower.go:56-60 | if any candidate cannot be followed, the message comes back unchanged with the error of the first candidate, in match order, that cannot be followed: no partial output |
| GoLinkFollower.NoDestinationJoins | internal/replacer/link_follower.go:62-64 | without a destination pattern the output is the followed URLs, query removed, joined by newlines |
| GoLinkFollower.DestinationPerUrl | internal/replacer/link_follower.go:66-74 | with a destination pattern there is one line per followed URL, rewritten on its own (spoilers decided by the URL, not the message), and an empty line for a URL the pattern misses |
| GoDeferred.AfterChild | internal/replacer/deferred_replacer.go:17-24 | an error from the wrapped replacer (including `ErrNoMatch`) is passed on with its output untouched; a success has its output passed once through the literal replacer |
| GoDeferred.UnchangedWithoutOldStrings | internal/replacer/deferred_replacer.go:23 | when none of the old strings occurs in the wrapped output, that output is returned as it is |
| GoReplacers.DeferredDelegates | internal/replacer/deferred_replacer.go:26-32 | `Deferred.Name` and `Deferred.Matches` are those of the wrapped replacer |
| GoReplacers.ErrorKeepsInput | internal/replacer/link_follower.go:36-60 | every replacer shape that reports an error returns its input unchanged |
| GoReplacers.NoMatchExactly | internal/replacer/simple.go:22-25 | every replacer shape reports `ErrNoMatch` exactly when it does not match |
| GoReplacers.ChainSkipsFailures | internal/replacer/replacer.go:173-181 | feeding every output into the next replacer, errors ignored, equals skipping the replacers that fail |
| GoReplacers.FirstNamed | internal/replacer/replacer_test.go:11-12 | `ByName`: nothing exactly when no replacer has the name, otherwise the first replacer with it |
| GoReplacers.Registry.Add | internal/replacer/replacer_amazon.go:6-12 | `Add` appends the replacer to the registry and changes nothing else |
| GoReplacers.Registry.FindReplacers | internal/replacer/replacer.go:141-149 | the registry's replacers that match the content, in registration order |
| GoRegistration.Init | internal/replacer/replacer_tiktok.go:5-23 | the provider `init` functions together append the eight rules in file-name order, TikTok before TikTokVM |
| GoRegistration.NewRegistry | internal/replacer/replacer_amazon.go:5-13 | a fresh registry after initialisation holds exactly the registered rules |
| GoRegistration.RegisteredNamesDistinct | internal/replacer/replacer_twitter.go:8 | each registered rule reports the name of its position and no two names are equal |
| GoRegistration.ByNameFindsEachRule | internal/replacer/replacer_test.go:187 | `ByName` finds, for every registered name, the rule registered under it, and nothing for any other name |
| GoRegistration.TikTokBeforeShortLinks | internal/replacer/replacer_tiktok.go:6-22 | TikTok is registered, and found by name, ahead of TikTokVM |
| Follow.StripQuery | internal/replacer/link_follower.go:104-107 | clearing the query empties it and keeps the location and the fragment |
| Follow.RenderStripped | internal/replacer/link_follower.go:104-107 | a query-stripped URL renders as its location and fragment part; stripping twice is stripping once |
| Follow.Visit | internal/replacer/link_follower.go:90-109 | a visit succeeds exactly when the resolver does, with the query-stripped final URL, and otherwise carries the resolver's error |
| Follow.FollowLinks | internal/replacer/link_follower.go:82-128 | evidently intended `followLinks`: success exactly when every link resolves, then one query-stripped URL per link in input order; otherwise the error of the first failing link |
| Follow.AsWrittenHangsFrom | internal/replacer/link_follower.go:83-117 | with a buffer within the channel's capacity, more successes than the capacity leaves a send blocked and `Wait` never returns |
| Follow.AsWrittenHangs | internal/replacer/link_follower.go:83-117 | as written, `followLinks` never returns once two or more links resolve |
| Follow.AsWrittenHangsOnTwoLinks | internal/replacer/link_follower.go:83-117 | two links to pages that both load block the second send for ever |
| Follow.AsWrittenAgreesFrom | internal/replacer/link_follower.go:82-128 | whenever the as-written loop returns from any state, it returns the first error or the buffered results followed by the intended results |
| Follow.AsWrittenAgrees | internal/replacer/link_follower.go:82-128 | whenever the Go code returns, it returns what the intended version returns, and it succeeds for at most one link |
| Amazon.ProductAt | internal/replacer/replacer_amazon.go:9 | the pattern only matches where "http" starts |
| Amazon.Register | internal/replacer/replacer_amazon.go:5-13 | `init` appends the Amazon `Simple` rule |
| Amazon.RuleParts | internal/replacer/replacer_amazon.go:7-11 | the rule is a `Simple` named Amazon with this pattern and template |
| Amazon.OnlyThreeDomains | internal/replacer/replacer_amazon.go:9 | only ".de", ".com" and ".co.uk" follow ".amazon." in a match |
| Amazon.ProductLinkAt | internal/replacer/replacer_amazon.go:9 | a product link is matched to the end of its ASIN, with subdomain, domain and ASIN as groups 1 to 3 |
| Amazon.ExpandsProduct | internal/replacer/replacer_amazon.go:10 | the template, expanded against a product link, is the short product link around the link's subdomain, top-level domain and ASIN |
| Amazon.RewritesProductLink | internal/replacer/replacer_test.go:160-176 | a product link becomes `https://<sub>.amazon.<tld>/dp/<ASIN>`; the slug before "/dp/" and the path and query after the ASIN are dropped |
| Amazon.SoleProductLink | internal/replacer/replacer_amazon.go:9-10 | any `Simple` rule with this template that matches a product link at the start, and nothing after it, answers with the short product link |
| Discord.AttachmentAt | internal/replacer/replacer_discord.go:9 | a match starts at "http", runs to the end of the message, and its second-to-last character is not `.`, `g`, `i` or `f` |
| Discord.Register | internal/replacer/replacer_discord.go:5-13 | `init` appends the Discord `Simple` rule |
| Discord.RuleParts | internal/replacer/replacer_discord.go:7-11 | the rule is a `Simple` named Discord with this pattern and template |
| Discord.MatchEndsMessage | internal/replacer/replacer_discord.go:9 | every match ends the message (`$` without the multi-line flag) |
| Discord.RefusedNotRewritten | internal/replacer/replacer_test.go:210-213 | a message whose second-to-last character is `.`, `g`, `i` or `f` (a ".gif" link) does not match and comes back unchanged with `ErrNoMatch` |
| Discord.AttachmentLinkAt | internal/replacer/replacer_discord.go:9 | an accepted attachment link is matched whole, with the two ids and the file name as groups |
| Discord.ExpandsAttachment | internal/replacer/replacer_discord.go:10 | the template, expanded against an attachment link, is the cdn link around the link's two ids and file name |
| Discord.RewritesAttachmentLink | internal/replacer/replacer_test.go:206-225 | an attachment link (".mp4", ".png", ".jpeg", ".jpg", …) becomes the cdn.discordapp.com link with the same ids and file name |
| Discord.SoleAttachmentLink | internal/replacer/replacer_discord.go:9-10 | any `Simple` rule with this template that matches a whole attachment link answers with the cdn link |
| Instagram.ReelAt | internal/replacer/replacer_instagram.go:9 | the pattern only matches where "http" starts |
| Instagram.Register | internal/replacer/replacer_instagram.go:5-13 | `init` appends the Instagram `Simple` rule |
| Instagram.RuleParts | internal/replacer/replacer_instagram.go:7-11 | the rule is a `Simple` named Instagram with this pattern and template |
| Instagram.HttpsOnly | internal/replacer/replacer_instagram.go:9 | a plain http link is never matched: the `(s)` group is not optional |
| Instagram.ReelLinkAt | internal/replacer/replacer_instagram.go:9 | a reel link is matched up to the last '/' of its line, with the id as group 4 |
| Instagram.TemplateExpands | internal/replacer/replacer_instagram.go:10 | the template is the ddinstagram link around the `id` group |
| Instagram.RewritesReelLink | internal/replacer/replacer_test.go:127-138 | "/reel/" and "/reels/" links become `https://www.ddinstagram.com/reel/<id>`, without the query or a trailing '/' |
| Instagram.SoleReelLink | internal/replacer/replacer_instagram.go:9-10 | the Instagram rule matching a reel link at the start, and nothing after it, answers with the ddinstagram link |
| Reddit.ThreadAt | internal/replacer/replacer_reddit.go:9 | a match starts at "http" |
| Reddit.ThreadSubmission | internal/replacer/replacer_reddit.go:9 | the submission group of any match is 5 to 12 word characters of the message |
| Reddit.Register | internal/replacer/replacer_reddit.go:5-14 | `init` appends the Reddit `LinkFollower` |
| Reddit.RuleParts | internal/replacer/replacer_reddit.go:7-12 | the rule follows with the thread pattern and has no destination pattern and an empty template |
| Reddit.OutputIsFollowedUrls | internal/replacer/replacer_reddit.go:10-11 | once every candidate can be followed, the answer is the followed URLs, queries removed, joined by newlines |
| Reddit.ThreadLinkAt | internal/replacer/replacer_reddit.go:9 | a thread link (bare, "old." or "www." host; "comments/" or "s/") is matched to the end of its submission id |
| Reddit.FollowsThreadLink | internal/replacer/replacer_test.go:53-76 | a message that starts with a thread link is answered with the URL it leads to, query removed, or comes back with the error when it cannot be followed |
| Reddit.FollowThread | internal/replacer/link_follower.go:36-64 | any follower without a destination pattern that matches one link at the start answers with that link's followed URL |
| TikTok.VideoAt | internal/replacer/replacer_tiktok.go:9 | the video pattern only matches where "http" starts |
| TikTok.ShortAt | internal/replacer/replacer_tiktok.go:18 | the short-link pattern only matches where "http" starts |
| TikTok.Register | internal/replacer/replacer_tiktok.go:5-23 | `init` appends TikTok, then TikTokVM |
| TikTok.RuleParts | internal/replacer/replacer_tiktok.go:7-21 | TikTok follows and rewrites with the same pattern; TikTokVM rewrites with that pattern too; both use the vxtiktok template |
| TikTok.VideoLinkAt | internal/replacer/replacer_tiktok.go:9 | a video link is matched whole, with the username and the id as its groups |
| TikTok.TemplateExpands | internal/replacer/replacer_tiktok.go:11 | the template is the vxtiktok link around `${username}` and `${videoId}` |
| TikTok.VideoLinkRewritten | internal/replacer/replacer_tiktok.go:10-11 | the destination step turns a followed video link into its vxtiktok link |
| TikTok.RewritesVideoLink | internal/replacer/replacer_test.go:24-33 | a video link is followed as it stands and, when it leads to a video link, answered with that link's vxtiktok form |
| TikTok.ShortLinkAt | internal/replacer/replacer_tiktok.go:18 | a vm.tiktok.com short link is matched whole, with its id as the group |
| TikTok.RewritesShortLink | internal/replacer/replacer_test.go:19-23 | a short link is followed and, when it leads to a video link, answered with that video's vxtiktok link |
| TikTok.ShortLinkNotVideo | internal/replacer/replacer_tiktok.go:9 | a short link is not a video link, so TikTok does not take the messages TikTokVM is for |
| Twitter.StatusAt | internal/replacer/replacer_twitter.go:9 | the pattern only matches where "http" starts |
| Twitter.Register | internal/replacer/replacer_twitter.go:5-13 | `init` appends the Twitter `Simple` rule |
| Twitter.PatternNeedsHttp | internal/replacer/replacer_twitter.go:9 | every match of the pattern starts with "http" |
| Twitter.StatusLinkAt | internal/replacer/replacer_twitter.go:9 | a status link is matched to the end of its id, with the user as group 2 and the id as group 4 |
| Twitter.TemplateExpands | internal/replacer/replacer_twitter.go:10 | the template keeps only the user and the id |
| Twitter.RewritesStatusLink | internal/replacer/replacer_test.go:249-264 | a twitter.com or x.com status link over http or https, "status" or "statuses", followed by text without "http", becomes `https://vxtwitter.com/<user>/status/<id>` |
| Twitter.RuleParts | internal/replacer/replacer_twitter.go:7-11 | the rule's pattern and template, and that the pattern needs "http" |
| Twitter.SoleStatusLink | internal/replacer/replacer_twitter.go:9-10 | any `Simple` rule with this template that matches a status link at the start, and nothing after it, answers with the vxtwitter link |
| Twitter.RewriteIsFinal | internal/replacer/replacer_twitter.go:9-10 | the rewritten link is not matched again |
| Twitter.XHostRejected | replacer.go:23 | without the `x` alternative, a link whose host is x.com is not matched |
| Twitter.VxHostRejected | internal/replacer/replacer_twitter.go:9 | "vxtwitter.com" right after the scheme is not a host the pattern accepts |
| YoutubeShorts.ShortsAt | internal/replacer/replacer_ytshorts.go:9 | the pattern only matches where "http" starts |
| YoutubeShorts.Register | internal/replacer/replacer_ytshorts.go:5-13 | `init` appends the YoutubeShorts `Simple` rule |
| YoutubeShorts.RuleParts | internal/replacer/replacer_ytshorts.go:6-11 | the rule is a `Simple` named YoutubeShorts with this pattern and template |
| YoutubeShorts.ShortsLinkAt | internal/replacer/replacer_ytshorts.go:9 | a shorts link is matched to the end of its line, with the rest of the line after "/shorts/" as group 1 |
| YoutubeShorts.TemplateExpands | internal/replacer/replacer_ytshorts.go:10 | the template is the watch link around group 1 |
| YoutubeShorts.RewritesShortsLink | internal/replacer/replacer_test.go:98-105 | a shorts link, with or without `www.`, over http or https, becomes `https://www.youtube.com/watch?v=<rest of the line>` |
| YoutubeShorts.SoleShortsLink | internal/replacer/replacer_ytshorts.go:9-10 | any `Simple` rule with this template that matches a shorts link at the start answers with the watch link |
| GoLegacy.AttachmentAt | internal/replacer/replacer.go:33-35 | the two `dc` patterns match from "http" to the end of the text; the gif one only when the text ends in ".gif" |
| GoLegacy.GenericEntriesAsProviders | internal/replacer/replacer.go:22-42 | the legacy amazon, twitter and youtubeShorts entries answer every message as the provider rules of the same name do |
| GoLegacy.AttachmentLinkAt | internal/replacer/replacer.go:33-35 | the rewriting pattern takes every attachment link whole; the gif pattern takes exactly those ending in ".gif" |
| GoLegacy.GifAttachmentKept | internal/replacer/replacer.go:110-113 | a ".gif" attachment link comes back unchanged from `dc`, although the rewriting pattern matches it |
| GoLegacy.AttachmentRewritten | internal/replacer/replacer.go:110-119 | any other attachment link is not vetoed and becomes the cdn.discordapp.com link |
| GoLegacy.RedditFollowsThreadLink | internal/replacer/replacer.go:75-103 | the legacy `reddit` entry answers a thread link with the followed URL, query removed, or hands the message back when it cannot be followed |
| Patterns.RewriteSoleLink | internal/replacer/replacer.go:151-171 | a message that starts with a link the pattern matches, with no "http" after it, is rewritten to the template expanded against the link alone |
| Patterns.SimpleSoleLink | internal/replacer/simple.go:22-28 | such a message makes a `Simple` rule answer with that expansion and a nil error |
| Patterns.SoleLinkFound | internal/replacer/link_follower.go:41-54 | such a message has that link as its only candidate |
| Patterns.FollowSoleLink | internal/replacer/link_follower.go:36-75 | a `LinkFollower` follows that one link: the message and the error on failure, otherwise the followed URL or its destination rewrite |
| Regex.FindAllOrdered | internal/replacer/replacer.go:152 | the matches found lie inside the text, in increasing order, without overlapping |
| Regex.FindAllFirst | internal/replacer/replacer.go:152-156 | `FindAllString` is empty exactly when the pattern does not match, and otherwise starts with the leftmost match |
| Regex.OnlyMatch | internal/replacer/replacer.go:152 | a non-empty match at the start with no other match after it is the only match |
| Regex.ExpandLiteral | internal/replacer/replacer.go:162 | template text without `$` is copied as it is |
| Regex.ExpandDigit | internal/replacer/replacer.go:162 | `$d` not followed by a name character is group d |
| Regex.ExpandNamed | internal/replacer/replacer_tiktok.go:11 | `${name}` is the first group with that name |
| Regex.ExpandThreeRefs | internal/replacer/replacer_amazon.go:10 | a template `a$1b$2c$3`, with `b` and `c` separating the references, is groups 1, 2 and 3 between the same texts |
| Regex.ReplaceWithoutMatch | internal/replacer/replacer.go:162 | without a match `ReplaceAllString` leaves the text unchanged |
| Regex.ReplaceWholeMatch | internal/replacer/replacer.go:162 | a text that is one whole match is replaced by the expansion alone |
| RustTemplate.ReplaceWithoutMatch | src/replacer/replacer_regex.rs:39 | without a match, `replace` and `replace_all` leave the text unchanged |
| RustTemplate.ReplaceSingleMatch | src/replacer/replacer_regex.rs:39 | with exactly one match, `replace` and `replace_all` agree |
| RustTemplate.ZeroPaddedRef | src/replacer/replacer_regex.rs:39 | `$01` is group 1 in Rust but, in Go, a group named "01", which expands to nothing when the pattern has no such group |
| RustTemplate.BracedAnyText | src/replacer/replacer_regex.rs:39 | `${a-b}` is a reference in Rust (to a group that cannot exist, so nothing) but literal text in Go |
| RustTemplate.RustReadsBraced | src/replacer/replacer_regex.rs:39 | Rust reads `${a-b}` as a reference to a name no group has, which expands to nothing |
| RustTemplate.GoKeepsBraced | src/replacer/replacer_regex.rs:39 | Go finds no reference at `${a-b}` and keeps it as literal text |
| RustTemplate.NamedAgrees | src/replacer/replacer_regex.rs:39 | with unique group names, Rust's lookup of a name finds the text Go's finds |
| RustTemplate.PieceAgrees | src/replacer/replacer_regex.rs:39 | at the start of a portable template both libraries append the same text and read the same number of characters |
| RustTemplate.ExpandAgrees | src/replacer/replacer_regex.rs:39 | a template whose every reference reads the same in both libraries expands to the same text in Go and in Rust |
| RustTemplate.ReplaceAllAgrees | src/replacer/replacer_link_follower.rs:131 | with such a template, Rust's `replace_all` is Go's `ReplaceAllString` |
| RustTemplate.PortablePlain | src/replacer/replacer_regex.rs:39 | text without `$` keeps a template portable |
| RustTemplate.PortableDigit | src/replacer/replacer_regex.rs:39 | `$d` before a non-name character reads as group d in both libraries |
| RustTemplate.PortableNamed | src/replacer/replacer_regex.rs:39 | `${name}`, for a name that starts with a letter, reads as that name in both libraries |
| Text.SplitJoin | internal/replacer/replacer.go:170 | the lines of a newline-joined output are exactly its entries when no entry has a newline |
| Text.ReplaceStrAbsent | src/replacer/replacer_link_follower.rs:134-136 | `str::replace` leaves a text without the old string unchanged |
| Text.ReplacePairsAbsent | internal/replacer/deferred_replacer.go:23 | the literal multi-pair replacer leaves a text holding none of its old strings unchanged |
| Text.ReplacePairsSingle | internal/replacer/deferred_replacer.go:23 | with one non-empty pair the multi-pair replacer and `str::replace` agree |
| Lists.FilterExactly | internal/replacer/replacer.go:141-149 | the filter keeps exactly the accepted elements, each once, in their original order |
| Lists.FilterNone | src/replacer/mod.rs:38 | the filter gives nothing exactly when no element is accepted |
| Lists.FilterKept | src/replacer/mod.rs:38 | every element the filter gives is accepted |
| Lists.FilterAppend | internal/replacer/replacer.go:141-149 | filtering a concatenation filters each part |
| Lists.ThreadAppend | internal/replacer/replacer.go:173-181 | threading through `a + b` is threading through `a`, then through `b` |
| RustRegex.Entries | src/replacer/replacer_regex.rs:38-40 | one entry per match, in message order |
| RustRegex.Replace | src/replacer/replacer_regex.rs:34-43 | never an error; the message itself when nothing matches |
| RustRegex.ReplaceLines | src/replacer/replacer_regex.rs:38-42 | one output line per match; line k is the k-th matched text with its first match replaced, and no spoiler delimiters |
| RustRegex.AgainstGoRewrite | src/replacer/replacer_regex.rs:34-43 | for a template whose references read the same in Go and Rust, each Go `replaceMatches` entry is the Rust entry, wrapped exactly when the message has `\|\|`; without `\|\|` the outputs agree |
| RustRegex.SoleLink | src/replacer/replacer_regex.rs:34-43 | a message that starts with a matched link, with no "http" after it, becomes the expansion, unwrapped even when the message has `\|\|` |
| RustLinkFollower.Visited | src/replacer/replacer_link_follower.rs:83-100 | one result per candidate, in completion order, a success being the final URL with its query removed whatever the status code |
| RustLinkFollower.Replace | src/replacer/replacer_link_follower.rs:107-153 | the method returns `Answer`: the message when nothing matches, otherwise the kept links joined by newlines, or a panic |
| RustLinkFollower.Collect | src/replacer/replacer_link_follower.rs:116-147 | the loop over the visit results pushes exactly `Collected`: failures skipped, stopping at a panic |
| RustLinkFollower.Pipeline | src/replacer/replacer_link_follower.rs:119-143 | one successful visit: a bad URL is dropped; otherwise the destination rewrite (panicking without a replacement) or the post-replacements in list order |
| RustLinkFollower.PanicSticks | src/replacer/replacer_link_follower.rs:129-131 | once the loop has panicked, later results change nothing |
| RustLinkFollower.PanicsExactly | src/replacer/replacer_link_follower.rs:122-131 | a run panics exactly when a destination pattern lacks its replacement and some visit succeeds with a URL that is not bad |
| RustLinkFollower.LinesFromSurvivors | src/replacer/replacer_link_follower.rs:118-147 | without a panic there is one line per successful visit that is not bad, each what the pipeline makes of such a visit |
| RustLinkFollower.AllVisitsFail | src/replacer/replacer_link_follower.rs:144-152 | when every visit fails, a matching message gives the empty text, not an error |
| RustLinkFollower.DestinationSkipsPost | src/replacer/replacer_link_follower.rs:129-140 | with a destination pattern the post-replacements are never applied |
| RustLinkFollower.GuardChangesNothing | src/replacer/replacer_link_follower.rs:132-140 | the `contains` guard changes nothing: each pair replaces all its occurrences in the current link |
| RustLinkFollower.AllKept | src/replacer/replacer_link_follower.rs:118-147 | when every result is a success the pipeline keeps, the links are those URLs in result order |
| RustLinkFollower.PlainFollowerLines | src/replacer/replacer_link_follower.rs:107-153 | a plain follower whose candidates all resolve answers with the followed URLs, query removed, one per line, in completion order |
| RustReplacer.ReplaceWith | src/replacer/mod.rs:216-221 | the enum's `replace` is each kind's own `replace` |
| RustReplacer.UnchangedWithoutMatch | src/replacer/mod.rs:208-221 | a replacer that does not match answers the message itself |
| RustReplacer.NameLeTotal | src/replacer/mod.rs:57 | the name order is total |
| RustReplacer.NameLeTrans | src/replacer/mod.rs:57 | the name order is transitive |
| RustReplacer.NameLeAntisym | src/replacer/mod.rs:57 | the name order is antisymmetric |
| RustReplacer.InsertKeeps | src/replacer/mod.rs:57 | insertion keeps the replacers and adds one |
| RustReplacer.InsertBounded | src/replacer/mod.rs:57 | a lower bound of the inserted and the existing names bounds the result |
| RustReplacer.InsertSorted | src/replacer/mod.rs:57 | insertion into a sorted list keeps it sorted |
| RustReplacer.InsertStable | src/replacer/mod.rs:57 | among replacers of one name, insertion puts the new one first and keeps the others' order |
| RustReplacer.SortByNameSpec | src/replacer/mod.rs:57 | `sort_by_key` on the name: sorted, the same replacers, replacers of one name in their original order |
| RustReplacer.MatchingReplacersSpec | src/replacer/mod.rs:36-59 | `NoReplacerFound` exactly when no configured replacer matches; otherwise exactly the matching ones, sorted by name, stable |
| RustReplacer.DiscordBeforeTikTok | src/replacer/mod.rs:307-324 | when the matching replacers are one named "discord" and one named "tiktok", in either configuration order, Discord comes first |
| RustReplacer.ReplaceMessage | src/replacer/mod.rs:18-33 | the method returns `MessageOutcome`: the matching replacers' answers pushed in order and joined by newlines |
| RustReplacer.PushLines | src/replacer/mod.rs:21-30 | the loop pushes one text per replacer, wrapped when the message has `\|\|`, and stops at a panic |
| RustReplacer.LinesStep | src/replacer/mod.rs:23-29 | one more answer: a panic ends the texts, any other answer adds its text |
| RustReplacer.LinesPanicSticks | src/replacer/mod.rs:25 | a panic part way makes the whole reply fail |
| RustReplacer.LinesOfAnswers | src/replacer/mod.rs:23-32 | line k is the k-th answer, wrapped when the message has `\|\|`; there is a reply exactly when no answer is a panic |
| RustReplacer.LinesOnOriginal | src/replacer/mod.rs:18-33 | every chosen replacer answers the original message, not the previous answer; line k is replacer k's answer |
| RustReplacer.NoReplacerFoundExactly | src/replacer/mod.rs:36-50 | the reply fails with `NoReplacerFound` exactly when no configured replacer matches |
| RustReplacer.PanicNeedsFollower | src/replacer/replacer_link_follower.rs:129-131 | only a link follower with a destination pattern and no replacement panics |
| RustReplacer.ChosenAreConfigured | src/replacer/mod.rs:38 | every chosen replacer is a configured one |
| RustReplacer.PanicNeedsMissingReplacement | src/replacer/mod.rs:18-33 | the reply can only fail with a panic when some configured link follower lacks its destination replacement |
| RustReplacer.LastNamed | src/replacer/mod.rs:71-81 | nothing exactly when no replacer has the name, otherwise the last configured replacer with it |
| RustReplacer.FilterByReplacerNameExactly | src/replacer/mod.rs:160-172 | `filter_by_replacer_name` keeps exactly the entries for that name, each once, in their order |
| RustReplacer.RunTests | src/replacer/mod.rs:113-147 | the method returns `RunAll`: each group's replacer by name, then its tests in order, stopping at the first failure |
| RustReplacer.RunTestsOf | src/replacer/mod.rs:120-140 | the inner loop, with its running test count, returns `RunGroup` |
| RustReplacer.GroupPasses | src/replacer/mod.rs:122-137 | one replacer's tests pass exactly when they are skipped for a link follower or every reply is the expected one |
| RustReplacer.MismatchIsFirst | src/replacer/mod.rs:131-136 | a reported mismatch names the replacer and the 1-based number of the first differing test, with its reply and the expected one |
| RustReplacer.SkippedNeverFail | src/replacer/mod.rs:123-128 | under `skip-link-followers` a link follower's tests never fail |
| RustReplacer.RunAllPasses | src/replacer/mod.rs:113-147 | the run passes exactly when every group names a configured replacer and the last one of that name passes the group's tests |
| OriginalReplacer.ReplaceWithoutMatch | replacer.go:68-73 | without a match `Replace` answers "", not the message |
| OriginalReplacer.ReplaceWithMatch | replacer.go:50-52 | with a match it answers as the guarded replacers of the later engines |
| OriginalReplacer.AttachmentAt | replacer.go:27 | the root Discord pattern only matches where "http" starts, whatever the file name ends in |
| OriginalReplacer.Init | replacer.go:32-36 | `init` appends amazon, twitter and discord, in that order |
| OriginalReplacer.FindReplacers | replacer.go:58-66 | the registered rules that match the content, in registration order |
| OriginalReplacer.ReplaceAll | replacer.go:90-98 | the content threaded through the message's rules; with no rules it comes back unchanged |
| OriginalReplacer.PatternsNeedHttp | replacer.go:22-29 | the root twitter and discord patterns only match where "http" starts |
| OriginalReplacer.RewritesStatusLink | replacer_test.go:42-58 | a twitter.com status link becomes `https://fxtwitter.com/<user>/status/<id>` ("statuses" normalised, query dropped, https) |
| OriginalReplacer.SoleStatusLink | replacer.go:68-88 | a status link at the start with no "http" after it is rewritten to its fxtwitter link |
| OriginalReplacer.FxTemplateExpands | replacer.go:24 | the fxtwitter template keeps only the user and the id |
| OriginalReplacer.RewritesAttachmentLink | replacer_test.go:17-20 | an attachment link, ".gif" included, becomes the cdn.discordapp.com link |
| OriginalReplacer.ChainSteps | replacer.go:90-98 | no rules give the content back, one rule gives its answer, and a rule that no longer matches the previous answer turns the reply into "" |
| OriginalReplacer.FxLinkIsNoAttachment | replacer.go:27 | an fxtwitter link holds no attachment link |
| OriginalReplacer.ChainAnswersEmpty | replacer.go:90-98 | as written, a message chosen for the twitter and the discord rules, whose twitter answer is one fxtwitter link without `\|\|`, is answered with "" |
| OriginalReplacer.GuardedChainKeepsLink | internal/replacer/replacer.go:126-131 | with the later match guard the same chain keeps the fxtwitter link |
| OriginalMain.Links | main.go:86-91 | one entry per match of the pattern |
| OriginalMain.CreateOutput | main.go:79-94 | `createOutput` with `twitterRegex` and the fxtwitter template returns `Output` |
| OriginalMain.Render | main.go:80-93 | the loop that fills `links` by index returns `Output` for any pattern and template |
| OriginalMain.OutputOnlyForMatches | main.go:80-84 | the reply is "" exactly when the pattern does not match; otherwise the entries joined by newlines, at least one |
| OriginalMain.OutputAgainstRewrite | main.go:88-91 | each `replaceMatches` entry is the `createOutput` entry, wrapped when the message has `\|\|`, so without `\|\|` the two agree |
| OriginalMain.AnswersSoleLink | main.go:79-94 | a message that starts with a matched link and has no "http" after it is answered with that link's rewrite, never wrapped |
| OriginalMain.AnswersStatusLink | main.go:35-42 | a message made of a twitter.com status link is queued and answered with the fxtwitter link |
| OriginalMain.IgnoresXLink | main.go:20 | an x.com status link is not queued, although the later twitter rule accepts it |

## Left out

- Network I/O is left out: HTTP requests, client timeouts and redirect
  following. A `Follow.Resolver` parameter stands for it.
- Concurrency is left out:
  - the errgroup limit of 2 and context cancellation in `followLinks`;
  - `buffer_unordered(8)`;
  - goroutine- or task-per-message scheduling.
  Completion order in Rust is a `Schedule` parameter. The Go `followLinks` is
  modelled by its outcome: a hang, the first error in input order, or the
  buffered results.
- Discord I/O is left out: `hideEmbeds`, `ReplaceMessage`/`replaceMessage`
  (send, edit, the timed flag change), the gateway, the message queue, the
  health server and shutdown. The handler's decision to enqueue is kept as
  `OriginalMain.Enqueued`.
- Configuration, the CLI and serde/YAML loading are left out. The Rust
  configuration is a sequence of `Replacer` values and a sequence of test
  groups.
- The 500 ms sleep in `run_tests` is timing only and is left out.
- The model does not implement a regular-expression engine. Patterns are
  abstract apart from hand-written recognizers for the concrete provider
  shapes.
- The Rust regex crate shares Go's leftmost-first semantics here. Its
  differences (Unicode classes, the multi-line rules) are not modelled.
- Strings are sequences of characters. Go's byte-indexed strings and UTF-8
  are not modelled.
- Go's `strings.Replacer` is modelled by its documented contract: leftmost
  position, argument order among pairs, no overlap. Empty old strings are
  treated as never matching, and the library's own tie-breaking internals
  are not modelled.
- The Rust panic in `destination_replacement.unwrap()` is a `Panicked`
  outcome, not a process abort.
- The `unwrap_or_else(|_| "")` fallback of `run_tests` is not modelled. In
  this model `replace` never returns an error (a panic is not an error
  value), so the fallback cannot be reached.
- `Add`, `ByName`, `ErrNoMatch` and the name constants are not part of this
  model's source files. The name constants are distinct strings chosen here.
- The registry is an append-only sequence with linear lookup.
- `GoEngine.LegacyReplace` answers the `redditReplacer` case through the
  intended `Follow.FollowLinks`, not through the `followLinks` that case
  calls (`internal/replacer/replacer.go:95`, defined at
  `internal/replacer/replacer.go:212-258`), which never returns once two
  links resolve. `GoEngine.LegacyRedditAsWritten` ties the two together:
  whenever the as-written code answers, it answers as `LegacyReplace` does.
- `Regex.Expand` reads reference names made of ASCII letters, digits and
  `_`. Go's `extract` also takes non-ASCII Unicode letters and digits. The
  templates in these files are ASCII.
- `RustRegex.AgainstGoRewrite` holds only for templates whose references
  read the same in Go and in Rust (`RustTemplate.Portable`). Other
  templates expand differently, for instance `$01`
  (`RustTemplate.ZeroPaddedRef`) and `${a-b}` (`RustTemplate.BracedAnyText`).
  It also assumes unique group names, which the Rust `regex` crate enforces.
- `RustTemplate.ParseUsize` takes `usize` to be 64 bits wide.
- `Follow.Render` writes "?" only for a non-empty query and "#" only for a
  non-empty fragment. Go's `URL.String` still writes "?" when `ForceQuery`
  is set, and Rust's `Url` keeps "#" for an empty fragment `Some("")`.
  Neither edge case is modelled.
- `OriginalReplacer.ChainAnswersEmpty` covers a twitter answer that is one
  fxtwitter link without `||`. Answers with several status links, or
  wrapped in `||`, are not worked out.
- `GoLinkFollower.Replace` uses the intended `Follow.FollowLinks` (see
  Findings), not the as-written `followLinks`, which never returns for two or
  more resolving links.
- `Amazon.RewritesProductLink` covers one link. The three-line test case is
  covered only by the generic `GoEngine.RewriteLines` (one line per match),
  not by a concrete three-line lemma.
- `Reddit.FollowsThreadLink` covers thread links with one "r/" and no title
  or comment id after the submission id. The id may be followed by the end
  of the message, by a character that is neither a word character nor
  '/', or by a '/' with no title (`/\w+/`) after it, as in the fourth
  reddit case of `internal/replacer/replacer_test.go:54-67`
  (`…/comments/107nizk/what_makes…?baba123=…`). The first three cases carry
  a title and a comment id. They are matched by `Reddit.ThreadAt` but have
  no lemma of their own.
- `TikTok.RewritesVideoLink` covers a message that is exactly one video
  link. The greedy `@.+` can span lines when a message holds several links,
  and that case is not worked out.
- `GoLegacy.AttachmentAt` is written for the legacy `dc` patterns. The legacy
  amazon, twitter and youtubeShorts patterns spell `/` as `\/`, which matches
  the same text, so they reuse the provider recognizers.
- `OriginalMain.CreateOutput` is stated through `Render`, which is generic
  over the pattern and template. Only the fxtwitter instance is the source's.
- The root files do not build as given:
  - `message` in `main.go:140-143` has the fields `content` and `author`
    only, yet `ReplaceAll` (`replacer.go:93`) reads `*m.replacers`.
  - `hideEmbeds` and `replaceMessage` are declared twice, in
    `replacer.go:99` and `replacer.go:114` and again in `main.go:108` and
    `main.go:122`.
  - `findReplacers` (`replacer.go:58`) has no caller.
  `OriginalReplacer.ReplaceAll` takes a `GoEngine.Message`, which carries
  the content and the chosen rules. It stands in for the missing
  `replacers` field.
- The Rust stub `src/replacer/replacer_links_follower.rs` has only `todo!()`
  bodies and is not declared as a module, so it is not modelled.

## Findings

| source | as written | input that shows it | evidently intended | confidence | as-written member | corrected member |
|---|---|---|---|---|---|---|
| internal/replacer/link_follower.go:83-125 | results go into a channel of capacity 1 that is read only after `grp.Wait()` returns; a second successful send blocks for ever, so `Wait` and `followLinks` never return (`internal/replacer/replacer.go:213-255` is the same) | two links that both resolve, e.g. `["https://a.example/1", "https://a.example/2"]` | every link followed; the first error, or one query-stripped URL per link | high, not executed | Follow.AsWrittenHangsOnTwoLinks | Follow.FollowLinks |
| replacer.go:50-52 | `genericReplacer.Replace` has no match guard, so `replaceMatches` answers "" for a message it does not match; `ReplaceAll` feeds the twitter rule's fxtwitter answer to the discord rule, which finds nothing and replies "". No caller in these files builds `m.replacers`: `message` (`main.go:140-143`) has no such field and `findReplacers` (`replacer.go:58`) is never called, so this path runs only with a `message` type the files do not provide | a message holding a twitter.com status link and a media.discordapp.net attachment link | a rule that does not match hands its input back (as `internal/replacer/replacer.go:126-131` later does), so the reply keeps the fxtwitter link | high, not executed | OriginalReplacer.ChainAnswersEmpty | OriginalReplacer.GuardedChainKeepsLink |
