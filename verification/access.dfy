/** internal/common/access.go: the whitelist/blacklist decision taken before a card is rendered. */
module Access {
  import opened Wrappers
  import opened Text
  import opened Envs

  /** contains: membership under ASCII case-insensitive comparison. */
  predicate ContainsFold(list: seq<string>, target: string)
    ensures target in list ==> ContainsFold(list, target)
    ensures |list| == 0 ==> !ContainsFold(list, target)
  {
    exists i :: 0 <= i < |list| && EqualFold(list[i], target)
  }

  /** The outcome of GuardAccess. A rejection stands for the error card it renders. */
  datatype AccessResult = Passed | Rejected(message: string, secondary: string, showRepoLink: bool)

  const DeployOwnInstance := "Please deploy your own instance"

  /** The whitelist that applies to a guard type: the gist list for "gist", WHITELIST otherwise. */
  function CurrentWhitelist(cfg: Config, guardType: string): (list: seq<string>)
    ensures guardType == "gist" ==> list == GistWhitelist(cfg).GetOr([])
    ensures guardType != "gist" ==> list == Whitelist(cfg).GetOr([])
  {
    if guardType == "gist" then GistWhitelist(cfg).GetOr([]) else Whitelist(cfg).GetOr([])
  }

  /** GuardAccess; `blacklist` is the package's Blacklist table. */
  function GuardAccess(cfg: Config, blacklist: seq<string>, id: string, guardType: string): (r: AccessResult)
    ensures r.Rejected? ==> !r.showRepoLink && r.secondary == DeployOwnInstance
    ensures var wl := CurrentWhitelist(cfg, guardType);
            (|wl| > 0 && !ContainsFold(wl, id)) <==>
              r.Rejected? && r.message in {"This username is not whitelisted", "This gist ID is not whitelisted"}
    ensures r.Rejected? && r.message == "This gist ID is not whitelisted" ==> guardType == "gist"
    ensures r == Rejected("This username is blacklisted", DeployOwnInstance, false) <==>
              guardType == "username" && |CurrentWhitelist(cfg, guardType)| == 0 && ContainsFold(blacklist, id)
    ensures r.Passed? <==>
              (|CurrentWhitelist(cfg, guardType)| == 0 || ContainsFold(CurrentWhitelist(cfg, guardType), id)) &&
              !(guardType == "username" && |CurrentWhitelist(cfg, guardType)| == 0 && ContainsFold(blacklist, id))
  {
    var whitelist := CurrentWhitelist(cfg, guardType);
    var notWhitelisted := if guardType == "gist" then "This gist ID is not whitelisted" else "This username is not whitelisted";
    if |whitelist| > 0 && !ContainsFold(whitelist, id) then Rejected(notWhitelisted, DeployOwnInstance, false)
    else if guardType == "username" && |whitelist| == 0 && ContainsFold(blacklist, id) then
      Rejected("This username is blacklisted", DeployOwnInstance, false)
    else Passed
  }

  /** A whitelisted id passes even when it is also blacklisted. */
  lemma WhitelistedPasses(cfg: Config, blacklist: seq<string>, id: string, guardType: string)
    requires ContainsFold(CurrentWhitelist(cfg, guardType), id)
    ensures GuardAccess(cfg, blacklist, id, guardType) == Passed
  {
  }

  /** Only "username" guards consult the blacklist. */
  lemma BlacklistOnlyForUsernames(cfg: Config, blacklist: seq<string>, id: string, guardType: string)
    requires guardType != "username"
    ensures GuardAccess(cfg, blacklist, id, guardType) == GuardAccess(cfg, [], id, guardType)
  {
  }
}
