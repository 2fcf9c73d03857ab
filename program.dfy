/** The program's accounts as mutable state, and its three instructions as
    methods that update that state in place. Each method is proved to do
    exactly what the corresponding transition function describes. */
module Spark {
  import opened State
  import opened Lamports
  import CreateCampaignRules
  import PledgeRules
  import WithdrawRules

  class Program {
    var campaigns: map<CampaignKey, Campaign>
    var backers: map<BackerKey, BackerData>
    var lamports: map<Address, nat>

    /** The accounts as one value. */
    function Snapshot(): Ledger
      reads this
    {
      Ledger(campaigns, backers, lamports)
    }

    /** No campaign or backer record yet; the wallets hold `wallets`. */
    constructor (wallets: map<Address, nat>)
      ensures Snapshot() == Ledger(map[], map[], wallets)
      ensures Snapshot().Valid()
    {
      campaigns := map[];
      backers := map[];
      lamports := wallets;
    }

    /** The system program's `transfer`, invoked by the instructions. */
    method SystemTransfer(from: Address, to: Address, amount: nat) returns (r: Result<()>)
      modifies this`lamports
      ensures r == Status(Transfer(old(lamports), from, to, amount))
      ensures lamports == Commit(old(lamports), Transfer(old(lamports), from, to, amount))
    {
      if Balance(lamports, from) < amount {
        return Err(InsufficientFunds);
      }
      lamports := lamports[from := Balance(lamports, from) - amount];
      lamports := lamports[to := Balance(lamports, to) + amount];
      r := Ok(());
    }

    method CreateCampaign(creator: Pubkey, campaignSeed: U64, endingAt: I64, fundingGoalInLamports: U64, now: I64)
      returns (r: Result<()>)
      modifies this
      ensures
        var step := CreateCampaignRules.CreateCampaign(
          old(Snapshot()), creator, campaignSeed, endingAt, fundingGoalInLamports, now);
        r == Status(step) && Snapshot() == Commit(old(Snapshot()), step)
    {
      var key := CampaignKey(campaignSeed, creator);
      if key in campaigns {
        return Err(AccountAlreadyInUse);
      }
      campaigns := campaigns[key := Campaign(campaignSeed, creator, now, endingAt, fundingGoalInLamports, false)];
      r := Ok(());
    }

    method Pledge(backer: Pubkey, key: CampaignKey, amount: U64, now: I64) returns (r: Result<()>)
      modifies this
      ensures
        var step := PledgeRules.Pledge(old(Snapshot()), backer, key, amount, now);
        r == Status(step) && Snapshot() == Commit(old(Snapshot()), step)
    {
      if key !in campaigns {
        return Err(AccountNotInitialized);
      }
      var campaign := campaigns[key];
      if amount == 0 {
        return Err(PledgeAmountZero);
      }
      if !(now < campaign.endingAt) {
        return Err(CampaignHasFinished);
      }
      var saved := lamports;
      r := SystemTransfer(User(backer), Vault(key), amount);
      if r.Err? {
        return;
      }
      var bk := BackerKey(backer, key.seed);
      var record := BackerRecord(backers, bk);
      if record.backerAmount == 0 {
        backers := backers[bk := BackerData(backer, amount)];
      } else if record.backerAmount + amount > MaxU64 {
        // the overflow aborts the transaction, which also undoes the transfer
        lamports := saved;
        return Err(ArithmeticOverflow);
      } else {
        backers := backers[bk := record.(backerAmount := record.backerAmount + amount)];
      }
    }

    method Withdraw(signer: Pubkey, key: CampaignKey, now: I64) returns (r: Result<()>)
      modifies this
      ensures
        var step := WithdrawRules.Withdraw(old(Snapshot()), signer, key, now);
        r == Status(step) && Snapshot() == Commit(old(Snapshot()), step)
    {
      if key !in campaigns {
        return Err(AccountNotInitialized);
      }
      var campaign := campaigns[key];
      if signer != campaign.creator {
        return Err(UnauthorizedCreator);
      }
      var vault := Vault(key);
      if !(Balance(lamports, vault) >= campaign.fundingGoalInLamports) {
        return Err(CampaignFailedNotEnoughFunds);
      }
      if !(now > campaign.endingAt) {
        return Err(CampaignStillRunning);
      }
      campaigns := campaigns[key := campaign.(isFinished := true)];
      r := SystemTransfer(vault, User(signer), Balance(lamports, vault));
    }
  }
}
