/**
 * `checkIfLikelyBot`: three guarded rules tried in a fixed order; the first
 * that fires gives the reason string, and none firing gives `null`.
 */
module BotCheck {
  import opened Common
  import opened Text
  import opened Profiles

  /**
   * The alternatives of the bait pattern
   * `(ai|girls?|sexy|crypto|btc|nft|onlyfans?|escort|xxx|free|hot|bet|gamble)`:
   * `girls?` and `onlyfans?` match exactly where `girl` and `onlyfan` occur.
   */
  const BaitKeywords: seq<string> :=
    ["ai", "girl", "sexy", "crypto", "btc", "nft", "onlyfan", "escort", "xxx", "free", "hot", "bet", "gamble"]

  /** `${displayName ?? ""} ${handle ?? ""}`; the bio is not part of it. */
  function BaitName(p: Profile): string {
    p.displayName.GetOr("") + " " + p.handle.GetOr("")
  }

  /** Rule 1, classic empty spam. */
  predicate EmptySpam(p: Profile) {
    Follows(p) > 100 && Followers(p) < 25 && Posts(p) < 5 && ProfileRatio(p) < 0.05
  }

  /** Rule 2, mass-follow botnet. */
  predicate MassFollow(p: Profile) {
    Follows(p) > 5000 && ProfileRatio(p) < 0.1
  }

  /** Rule 3, keyword bait on an empty account (case-insensitive match). */
  predicate KeywordBait(p: Profile) {
    Followers(p) < 3 && Posts(p) == 0 && ContainsAny(Lower(BaitName(p)), BaitKeywords)
  }

  /** The `(ratio: R)` tail every reason ends with. */
  function RatioTail(p: Profile): string {
    " (ratio: " + ProfileFixedRatio(p) + ")"
  }

  function CheckIfLikelyBot(p: Profile): (r: Option<string>)
    ensures r.None? <==> !EmptySpam(p) && !MassFollow(p) && !KeywordBait(p)
    ensures EmptySpam(p) ==> r == Some("empty spam profile" + RatioTail(p))
    ensures !EmptySpam(p) && MassFollow(p) ==> r == Some("mass-follow botnet" + RatioTail(p))
    ensures !EmptySpam(p) && !MassFollow(p) && KeywordBait(p) ==>
      r == Some("keyword-bait empty account" + RatioTail(p))
  {
    if EmptySpam(p) then Some("empty spam profile" + RatioTail(p))
    else if MassFollow(p) then Some("mass-follow botnet" + RatioTail(p))
    else if KeywordBait(p) then Some("keyword-bait empty account" + RatioTail(p))
    else None
  }

  /** Rule 1 in integers: `ratio < 0.05` is `20 * followers < follows` once `follows > 100`. */
  lemma EmptySpamIff(p: Profile)
    ensures EmptySpam(p) <==>
      Follows(p) > 100 && Followers(p) < 25 && Posts(p) < 5 && 20 * Followers(p) < Follows(p)
  {
    assert 0.05 == 1 as real / 20 as real;
    RatioBelowIff(Followers(p), Follows(p), 1, 20);
  }

  /** Rule 2 in integers: `ratio < 0.1` is `10 * followers < follows` once `follows > 5000`. */
  lemma MassFollowIff(p: Profile)
    ensures MassFollow(p) <==> Follows(p) > 5000 && 10 * Followers(p) < Follows(p)
  {
    assert 0.1 == 1 as real / 10 as real;
    RatioBelowIff(Followers(p), Follows(p), 1, 10);
  }

  /**
   * A profile with at least three followers whose ratio is at least 0.1
   * (`10 * followers >= max(1, follows)`) is never reported, whatever its name.
   */
  lemma BalancedProfileNotBot(p: Profile)
    requires Followers(p) >= 3 && 10 * Followers(p) >= Divisor(Follows(p))
    ensures CheckIfLikelyBot(p) == None
  {
    assert 0.1 == 1 as real / 10 as real;
    RatioBelowIff(Followers(p), Follows(p), 1, 10);
    assert 0.05 == 1 as real / 20 as real;
    RatioBelowIff(Followers(p), Follows(p), 1, 20);
  }

  /**
   * Following at most 100 accounts, only the keyword-bait rule can fire, so a
   * report then needs fewer than three followers and no posts.
   */
  lemma SmallFollowingOnlyBait(p: Profile)
    requires Follows(p) <= 100
    ensures CheckIfLikelyBot(p).Some? ==> Followers(p) < 3 && Posts(p) == 0
  {
  }

  /** The bio (`description`) is never examined. */
  lemma BioIgnored(p: Profile, bio: Option<string>)
    ensures CheckIfLikelyBot(p.(description := bio)) == CheckIfLikelyBot(p)
  {
  }
}
