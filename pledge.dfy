/** The `pledge` instruction as a transition of the ledger. */
module PledgeRules {
  import opened State
  import opened Lamports

  /** The guards in the order the instruction meets them (the campaign
      account must exist, the amount must be positive, the deadline must not
      have passed), then the transfer from the backer's wallet to the
      campaign's vault, then the backer record: overwritten with
      (backer, amount) while its total is zero, otherwise incremented by a
      checked `u64` addition whose overflow aborts the whole instruction. */
  function Pledge(s: Ledger, backer: Pubkey, key: CampaignKey, amount: U64, now: I64): (r: Result<Ledger>)
    ensures r == Err(AccountNotInitialized) <==> key !in s.campaigns
    ensures r == Err(PledgeAmountZero) <==> key in s.campaigns && amount == 0
    ensures r == Err(CampaignHasFinished) <==>
      key in s.campaigns && amount > 0 && s.campaigns[key].endingAt <= now
    ensures r == Err(InsufficientFunds) <==>
      && key in s.campaigns && amount > 0 && now < s.campaigns[key].endingAt
      && Balance(s.lamports, User(backer)) < amount
    ensures r == Err(ArithmeticOverflow) <==>
      && key in s.campaigns && amount > 0 && now < s.campaigns[key].endingAt
      && amount <= Balance(s.lamports, User(backer))
      && BackerRecord(s.backers, BackerKey(backer, key.seed)).backerAmount + amount > MaxU64
    ensures r.Ok? <==>
      && key in s.campaigns && amount > 0 && now < s.campaigns[key].endingAt
      && amount <= Balance(s.lamports, User(backer))
      && BackerRecord(s.backers, BackerKey(backer, key.seed)).backerAmount + amount <= MaxU64
    // a pledge never touches the campaign record
    ensures r.Ok? ==> r.value.campaigns == s.campaigns
    // the backer pays exactly `amount` into the vault; no other balance moves
    ensures r.Ok? ==>
      && Balance(r.value.lamports, User(backer)) == Balance(s.lamports, User(backer)) - amount
      && Balance(r.value.lamports, Vault(key)) == Balance(s.lamports, Vault(key)) + amount
      && forall a :: a != User(backer) && a != Vault(key) ==>
           Balance(r.value.lamports, a) == Balance(s.lamports, a)
    // the backer's running total, kept under (backer, seed)
    ensures r.Ok? ==>
      var bk := BackerKey(backer, key.seed);
      var before := BackerRecord(s.backers, bk);
      && bk in r.value.backers
      && r.value.backers[bk].backerAmount == before.backerAmount + amount
      && r.value.backers[bk].backerAmount > 0
      && r.value.backers[bk].backerPk == (if before.backerAmount == 0 then backer else before.backerPk)
    ensures r.Ok? ==>
      var bk := BackerKey(backer, key.seed);
      && r.value.backers.Keys == s.backers.Keys + {bk}
      && forall k :: k in s.backers && k != bk ==> r.value.backers[k] == s.backers[k]
    ensures s.Valid() && r.Ok? ==> r.value.Valid()
  {
    if key !in s.campaigns then Err(AccountNotInitialized)
    else if amount == 0 then Err(PledgeAmountZero)
    else if s.campaigns[key].endingAt <= now then Err(CampaignHasFinished)
    else match Transfer(s.lamports, User(backer), Vault(key), amount)
      case Err(e) => Err(e)
      case Ok(lamports) =>
        var bk := BackerKey(backer, key.seed);
        var record := BackerRecord(s.backers, bk);
        if record.backerAmount == 0 then
          Ok(s.(lamports := lamports, backers := s.backers[bk := BackerData(backer, amount)]))
        else if record.backerAmount + amount > MaxU64 then Err(ArithmeticOverflow)
        else
          Ok(s.(lamports := lamports, backers := s.backers[bk := record.(backerAmount := record.backerAmount + amount)]))
  }

  /** The lamports the backer pays are exactly those the vault receives. */
  lemma PledgeConservesLamports(s: Ledger, backer: Pubkey, key: CampaignKey, amount: U64, now: I64)
    ensures var r := Pledge(s, backer, key, amount, now);
      r.Ok? ==> Total(r.value.lamports) == Total(s.lamports)
  {
    if Pledge(s, backer, key, amount, now).Ok? {
      TransferConserves(s.lamports, User(backer), Vault(key), amount);
    }
  }
}
