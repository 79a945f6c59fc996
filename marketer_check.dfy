/**
 * `checkIfLikelyMarketer`: a profile with at least 20 posts, a skewed
 * follow count and a link-hub or promotional keyword in its lower-cased
 * name, handle and bio is reported; everything else gives `null`.
 */
module MarketerCheck {
  import opened Common
  import opened Text
  import opened Profiles

  /**
   * The alternatives of the link-hub pattern; `beacons?\.ai` is written out
   * as its two spellings.
   */
  const LinkHubs: seq<string> :=
    ["linktr.ee", "beacon.ai", "beacons.ai", "lnk.bio", "carrd.co", "stan.store", "gumroad",
     "ko-fi", "patreon", "buymeacoffee", "onlyfans", "fansly", "taplink", "bit.ly", "tinyurl",
     "t.co", "amzn.to"]

  /**
   * The alternatives of the promotional pattern; an optional suffix
   * (`brand(?:ing)?`, `leads?`, `funnels?`, `courses?`, `consult(ing)?`)
   * matches exactly where its stem occurs.
   */
  const PromoKeywords: seq<string> :=
    ["brand", "growth", "dm me", "dm us", "promo", "marketing", "spon", "collab", "partnership",
     "ambassador", "lead", "funnel", "newsletter", "course", "coaching", "consult", "shop my",
     "discount", "affiliate", "dropship", "crypto", "nft"]

  /** `${display} ${handle} ${bio}`, each part lower-cased. */
  function MarketerText(p: Profile): string {
    Lower(p.displayName.GetOr("")) + " " + Lower(p.handle.GetOr("")) + " " + Lower(p.description.GetOr(""))
  }

  predicate HasLinkHub(p: Profile) { ContainsAny(MarketerText(p), LinkHubs) }

  predicate HasPromoKeyword(p: Profile) { ContainsAny(MarketerText(p), PromoKeywords) }

  /** `highFollowSkew` as the source writes it. */
  predicate HighFollowSkew(p: Profile) {
    (Follows(p) >= 10000 && Follows(p) > Followers(p) * 2) ||
    (Follows(p) >= 5000 && ProfileRatio(p) < 0.5)
  }

  /** The tag in the reason: `link-hub` wins over `promo-keywords`. */
  function MatchedTag(p: Profile): string {
    if HasLinkHub(p) then "link-hub" else "promo-keywords"
  }

  function CheckIfLikelyMarketer(p: Profile): (r: Option<string>)
    ensures r.Some? <==> Posts(p) >= 20 && HighFollowSkew(p) && (HasLinkHub(p) || HasPromoKeyword(p))
    ensures Posts(p) < 20 ==> r == None
    ensures r.Some? ==>
      r.value == "marketer pattern (" + MatchedTag(p) + "; ratio: " + ProfileFixedRatio(p) + ")"
  {
    if Posts(p) >= 20 && HighFollowSkew(p) && (HasLinkHub(p) || HasPromoKeyword(p)) then
      Some("marketer pattern (" + MatchedTag(p) + "; ratio: " + ProfileFixedRatio(p) + ")")
    else
      None
  }

  /**
   * The skew test reduces to `follows >= 5000 && 2 * followers < follows`:
   * its first disjunct (`follows >= 10000 && follows > 2 * followers`)
   * always implies its second.
   */
  lemma HighFollowSkewIff(p: Profile)
    ensures HighFollowSkew(p) <==> Follows(p) >= 5000 && 2 * Followers(p) < Follows(p)
  {
    assert 0.5 == 1 as real / 2 as real;
    RatioBelowIff(Followers(p), Follows(p), 1, 2);
  }

  /**
   * Nobody following fewer than 5000 accounts, or having at least half as
   * many followers as follows, is ever reported.
   */
  lemma BalancedProfileNotMarketer(p: Profile)
    requires Follows(p) < 5000 || 2 * Followers(p) >= Follows(p)
    ensures CheckIfLikelyMarketer(p) == None
  {
    HighFollowSkewIff(p);
  }
}
