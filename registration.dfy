// Package initialisation of internal/replacer: every provider file's
// `init` adds its rules to the registry, and Go runs those functions in
// the order of the file names.
module GoRegistration {
  import opened Base
  import opened GoReplacers
  import GoSimple
  import GoLinkFollower
  import Amazon
  import Discord
  import Instagram
  import Reddit
  import TikTok
  import Twitter
  import YoutubeShorts

  /** The rules the provider files add, in file-name order. */
  const Registered: seq<Replacer> :=
    [SimpleRule(Amazon.Rule), SimpleRule(Discord.Rule), SimpleRule(Instagram.Rule),
     FollowerRule(Reddit.Rule), FollowerRule(TikTok.Rule), FollowerRule(TikTok.ShortRule),
     SimpleRule(Twitter.Rule), SimpleRule(YoutubeShorts.Rule)]

  /** The name each registered rule reports, position by position. */
  const RegisteredNames: seq<string> :=
    [AmazonName, DiscordName, InstagramName, RedditName, TikTokName, TikTokVMName, TwitterName, YoutubeShortsName]

  /** The `init` functions of the provider files, one after the other. */
  method Init(reg: Registry)
    modifies reg
    ensures reg.entries == old(reg.entries) + Registered
  {
    Amazon.Register(reg);
    Discord.Register(reg);
    Instagram.Register(reg);
    Reddit.Register(reg);
    TikTok.Register(reg);
    Twitter.Register(reg);
    YoutubeShorts.Register(reg);
  }

  /** A registry as the package holds it once initialised. */
  method NewRegistry() returns (reg: Registry)
    ensures fresh(reg) && reg.entries == Registered
  {
    reg := new Registry();
    Init(reg);
  }

  /** Each registered rule reports the name of its position, and no two names are equal. */
  lemma RegisteredNamesDistinct()
    ensures |Registered| == |RegisteredNames|
    ensures forall k :: 0 <= k < |Registered| ==> Name(Registered[k]) == RegisteredNames[k]
    ensures forall i, j :: 0 <= i < j < |RegisteredNames| ==> RegisteredNames[i] != RegisteredNames[j]
  {
    Amazon.RuleParts();
    Discord.RuleParts();
    Instagram.RuleParts();
    Reddit.RuleParts();
    TikTok.RuleParts();
    Twitter.RuleParts();
    YoutubeShorts.RuleParts();
  }

  /**
   * `ByName` on the initialised registry finds, for every registered
   * name, the rule registered under it, and nothing for any other name.
   */
  lemma ByNameFindsEachRule(name: string)
    ensures forall k :: 0 <= k < |Registered| && RegisteredNames[k] == name ==> FirstNamed(Registered, name) == Some(Registered[k])
    ensures name !in RegisteredNames ==> FirstNamed(Registered, name).None?
  {
    RegisteredNamesDistinct();
    FirstOfDistinct(Registered, RegisteredNames, name);
  }

  /** In a list whose names are pairwise distinct, the first replacer with a name is the only one. */
  lemma FirstOfDistinct(rs: seq<Replacer>, names: seq<string>, name: string)
    requires |rs| == |names|
    requires forall k :: 0 <= k < |rs| ==> Name(rs[k]) == names[k]
    requires forall i, j :: 0 <= i < j < |names| ==> names[i] != names[j]
    ensures forall k :: 0 <= k < |rs| && names[k] == name ==> FirstNamed(rs, name) == Some(rs[k])
    ensures name !in names ==> FirstNamed(rs, name).None?
  {
    var r := FirstNamed(rs, name);
    if r.Some? {
      var i :| 0 <= i < |rs| && rs[i] == r.value && Name(rs[i]) == name
               && forall j :: 0 <= j < i ==> Name(rs[j]) != name;
      forall k | 0 <= k < |rs| && names[k] == name
        ensures r == Some(rs[k])
      {
        assert names[i] == name;
        assert k == i;
      }
    } else {
      forall k | 0 <= k < |rs| ensures names[k] != name {
        assert Name(rs[k]) != name;
      }
    }
  }

  /** The rule for TikTok video links is registered, and looked up, ahead of the one for vm.tiktok.com links. */
  lemma TikTokBeforeShortLinks()
    ensures Registered[4] == FollowerRule(TikTok.Rule) && Registered[5] == FollowerRule(TikTok.ShortRule)
    ensures FirstNamed(Registered, TikTokName) == Some(FollowerRule(TikTok.Rule))
    ensures FirstNamed(Registered, TikTokVMName) == Some(FollowerRule(TikTok.ShortRule))
  {
    ByNameFindsEachRule(TikTokName);
    ByNameFindsEachRule(TikTokVMName);
  }
}
