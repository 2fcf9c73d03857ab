/** The `create_campaign` instruction as a transition of the ledger. */
module CreateCampaignRules {
  import opened State

  /** `init` allocates the campaign account at the address derived from
      (campaign_seed, creator) and fails when that address is already in use;
      the body then writes the record, taking the clock reading `now` as its
      start. Neither the deadline nor the goal is validated. */
  function CreateCampaign(
    s: Ledger, creator: Pubkey, campaignSeed: U64, endingAt: I64, fundingGoalInLamports: U64, now: I64)
    : (r: Result<Ledger>)
    ensures r.Ok? <==> CampaignKey(campaignSeed, creator) !in s.campaigns
    ensures r.Err? ==> r.error == AccountAlreadyInUse
    ensures r.Ok? ==>
      var key := CampaignKey(campaignSeed, creator);
      && key in r.value.campaigns
      && r.value.campaigns[key].campaignSeed == campaignSeed
      && r.value.campaigns[key].creator == creator
      && r.value.campaigns[key].startedAt == now
      && r.value.campaigns[key].endingAt == endingAt
      && r.value.campaigns[key].fundingGoalInLamports == fundingGoalInLamports
      && !r.value.campaigns[key].isFinished
    ensures r.Ok? ==>
      && r.value.campaigns.Keys == s.campaigns.Keys + {CampaignKey(campaignSeed, creator)}
      && (forall k :: k in s.campaigns ==> r.value.campaigns[k] == s.campaigns[k])
    ensures r.Ok? ==> r.value.backers == s.backers && r.value.lamports == s.lamports
    ensures s.Valid() && r.Ok? ==> r.value.Valid()
  {
    var key := CampaignKey(campaignSeed, creator);
    if key in s.campaigns then Err(AccountAlreadyInUse)
    else
      var campaign := Campaign(campaignSeed, creator, now, endingAt, fundingGoalInLamports, false);
      Ok(s.(campaigns := s.campaigns[key := campaign]))
  }
}
