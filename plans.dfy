/** The signed-in user as the components see it through the auth context, and
    the subscription rules they apply to it. */
module Plans {
  import opened Wrappers

  /** `user.subscription` is a plan name (`'free'`, `'basic'`, ...);
      `user.subscriptionDetails.searchByImageCount` may be missing. */
  datatype User = User(id: string, email: string, subscription: string, searchByImageCount: Option<int>)

  /** `['premium', 'standard', 'basic'].includes(subscription)` */
  predicate IsPaidPlan(subscription: string) {
    subscription == "premium" || subscription == "standard" || subscription == "basic"
  }

  /** `searchByImageCount || 0`: a missing count reads as none used. */
  function SearchesUsed(u: User): int {
    u.searchByImageCount.GetOr(0)
  }

  /** Number of image searches a free plan includes: the figure the modal's
      text ("Five free image searches") and its remaining-count display use. */
  const FreeImageSearches: int := 5

  /** The limit the two gates compare against as the code is written. */
  const GateLimitAsWritten: int := 2

  /** The remaining-search count shown to a free user: `5 - searchByImageCount`. */
  function RemainingSearches(u: User): (r: int)
    ensures r + SearchesUsed(u) == FreeImageSearches
  {
    FreeImageSearches - SearchesUsed(u)
  }

  /** The outcome of asking to search by image. */
  datatype ImageSearchGate = NeedsLogin | NeedsUpgrade | MayPick

  /** The gate as written: a free user who has used two or more searches is
      stopped, whatever the display says. */
  function ImageSearchGateAsWritten(user: Option<User>): (r: ImageSearchGate)
    ensures r == NeedsLogin <==> user.None?
    ensures r == NeedsUpgrade <==>
      user.Some? && user.value.subscription == "free" && SearchesUsed(user.value) >= GateLimitAsWritten
  {
    if user.None? then NeedsLogin
    else if user.value.subscription == "free" && SearchesUsed(user.value) >= GateLimitAsWritten then NeedsUpgrade
    else MayPick
  }

  /** The gate with the limit the display counts down from. */
  function ImageSearchGateOf(user: Option<User>): (r: ImageSearchGate)
    ensures r == NeedsLogin <==> user.None?
    ensures r == NeedsUpgrade <==>
      user.Some? && user.value.subscription == "free" && SearchesUsed(user.value) >= FreeImageSearches
    ensures user.Some? && user.value.subscription != "free" ==> r == MayPick
  {
    if user.None? then NeedsLogin
    else if user.value.subscription == "free" && SearchesUsed(user.value) >= FreeImageSearches then NeedsUpgrade
    else MayPick
  }

  /** With the corrected gate a free user may pick an image exactly when the
      displayed remaining count is positive. */
  lemma GateAgreesWithDisplay(u: User)
    requires u.subscription == "free"
    ensures ImageSearchGateOf(Some(u)) == MayPick <==> RemainingSearches(u) > 0
  {
  }

  /** As written, every free user who has used two, three or four searches is
      told to upgrade while the display says searches are left. */
  lemma GateAsWrittenContradictsDisplay(u: User)
    requires u.subscription == "free" && GateLimitAsWritten <= SearchesUsed(u) < FreeImageSearches
    ensures ImageSearchGateAsWritten(Some(u)) == NeedsUpgrade && RemainingSearches(u) > 0
  {
  }

  /** A concrete instance: two searches used, three shown as left, upgrade demanded. */
  lemma GateAsWrittenExample()
    ensures var u := User("u1", "a@b.co", "free", Some(2));
      ImageSearchGateAsWritten(Some(u)) == NeedsUpgrade && RemainingSearches(u) == 3
  {
  }

  /** The two gates disagree exactly for free users with two to four searches used. */
  lemma GatesDiffer(u: User)
    ensures ImageSearchGateAsWritten(Some(u)) != ImageSearchGateOf(Some(u)) <==>
      u.subscription == "free" && GateLimitAsWritten <= SearchesUsed(u) < FreeImageSearches
  {
  }
}
