/** The `withdraw` instruction as a transition of the ledger. */
module WithdrawRules {
  import opened State
  import opened Lamports

  /** The account checks (the campaign exists; the signer is its creator),
      then the goal check, then the deadline check; on success `is_finished`
      is set and the vault's whole balance is transferred to the creator.
      `is_finished` itself is never consulted. */
  function Withdraw(s: Ledger, signer: Pubkey, key: CampaignKey, now: I64): (r: Result<Ledger>)
    ensures r == Err(AccountNotInitialized) <==> key !in s.campaigns
    ensures r == Err(UnauthorizedCreator) <==> key in s.campaigns && signer != s.campaigns[key].creator
    ensures r == Err(CampaignFailedNotEnoughFunds) <==>
      && key in s.campaigns && signer == s.campaigns[key].creator
      && Balance(s.lamports, Vault(key)) < s.campaigns[key].fundingGoalInLamports
    ensures r == Err(CampaignStillRunning) <==>
      && key in s.campaigns && signer == s.campaigns[key].creator
      && s.campaigns[key].fundingGoalInLamports <= Balance(s.lamports, Vault(key))
      && now <= s.campaigns[key].endingAt
    ensures r.Ok? <==>
      && key in s.campaigns && signer == s.campaigns[key].creator
      && s.campaigns[key].fundingGoalInLamports <= Balance(s.lamports, Vault(key))
      && s.campaigns[key].endingAt < now
    // only `is_finished` of this one campaign changes, and it becomes true
    ensures r.Ok? ==>
      && r.value.campaigns.Keys == s.campaigns.Keys
      && r.value.campaigns[key] == s.campaigns[key].(isFinished := true)
      && forall k :: k in s.campaigns && k != key ==> r.value.campaigns[k] == s.campaigns[k]
    ensures r.Ok? ==> r.value.backers == s.backers
    // the vault is drained into the creator's wallet; no other balance moves
    ensures r.Ok? ==>
      && Balance(r.value.lamports, Vault(key)) == 0
      && Balance(r.value.lamports, User(signer)) == Balance(s.lamports, User(signer)) + Balance(s.lamports, Vault(key))
      && forall a :: a != User(signer) && a != Vault(key) ==>
           Balance(r.value.lamports, a) == Balance(s.lamports, a)
    ensures s.Valid() && r.Ok? ==> r.value.Valid()
  {
    if key !in s.campaigns then Err(AccountNotInitialized)
    else
      var campaign := s.campaigns[key];
      if signer != campaign.creator then Err(UnauthorizedCreator)
      else if Balance(s.lamports, Vault(key)) < campaign.fundingGoalInLamports then Err(CampaignFailedNotEnoughFunds)
      else if now <= campaign.endingAt then Err(CampaignStillRunning)
      else
        var finished := s.campaigns[key := campaign.(isFinished := true)];
        var drained := Transfer(s.lamports, Vault(key), User(signer), Balance(s.lamports, Vault(key)));
        Ok(s.(campaigns := finished, lamports := drained.value))
  }

  /** What leaves the vault is exactly what the creator receives. */
  lemma WithdrawConservesLamports(s: Ledger, signer: Pubkey, key: CampaignKey, now: I64)
    ensures var r := Withdraw(s, signer, key, now);
      r.Ok? ==> Total(r.value.lamports) == Total(s.lamports)
  {
    if Withdraw(s, signer, key, now).Ok? {
      TransferConserves(s.lamports, Vault(key), User(signer), Balance(s.lamports, Vault(key)));
    }
  }
}
