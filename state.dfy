/** The accounts of the crowdfunding program: the records it stores, the
    lamport balances its instructions move, and the errors an instruction
    can end with. */
module State {

  const MaxU64: int := 0xFFFF_FFFF_FFFF_FFFF
  const MinI64: int := -0x8000_0000_0000_0000
  const MaxI64: int := 0x7FFF_FFFF_FFFF_FFFF

  /** Rust's `u64`: campaign seeds, funding goals, pledge amounts. */
  type U64 = x: int | 0 <= x <= MaxU64

  /** Rust's `i64`: unix timestamps read from the cluster clock. */
  type I64 = x: int | MinI64 <= x <= MaxI64

  /** An account's public key. Only equality between keys matters;
      0 stands for the all-zero default key of a freshly zeroed account. */
  type Pubkey = nat

  const DefaultPubkey: Pubkey := 0

  /** The address of a campaign account, derived from the seeds
      `"campaign", campaign_seed, creator`. */
  datatype CampaignKey = CampaignKey(seed: U64, creator: Pubkey)

  /** The address of a backer-data account, derived from the seeds
      `"backer-data", backer, campaign_seed`: the creator is not part of it. */
  datatype BackerKey = BackerKey(backer: Pubkey, seed: U64)

  /** An account that holds lamports: a user's wallet, or the vault whose
      address is derived from a campaign's address. */
  datatype Address = User(key: Pubkey) | Vault(campaign: CampaignKey)

  /** The campaign record (the bump is left out). */
  datatype Campaign = Campaign(
    campaignSeed: U64,
    creator: Pubkey,
    startedAt: I64,
    endingAt: I64,
    fundingGoalInLamports: U64,
    isFinished: bool)

  /** The per-backer record (the bump is left out). */
  datatype BackerData = BackerData(backerPk: Pubkey, backerAmount: U64)

  /** The program's own error codes, followed by the failures that the
      account framework, the system program and the Rust runtime raise. */
  datatype SparkError =
    | PledgeAmountZero
    | CampaignHasFinished
    | UnauthorizedCreator
    | CampaignFailedNotEnoughFunds
    | CampaignStillRunning
    | AccountAlreadyInUse     // `init` on an address that already holds an account
    | AccountNotInitialized   // a campaign account that was never created
    // The model's label for the system program's refusal of a transfer from
    // an account holding too little ("insufficient lamports").
    | InsufficientFunds
    // Not an error code of the program: the model's name for the panic of a
    // `u64` addition that overflows when overflow checks are compiled in.
    | ArithmeticOverflow

  datatype Result<T> = Ok(value: T) | Err(error: SparkError)

  /** Every account the three instructions read or write. */
  datatype Ledger = Ledger(
    campaigns: map<CampaignKey, Campaign>,
    backers: map<BackerKey, BackerData>,
    lamports: map<Address, nat>)
  {
    /** What every reachable state satisfies: a campaign is stored at the
        address derived from its own seed and creator, and a backer record
        exists only once its backer has pledged, names that backer and holds
        a positive total (so a zero total means "no pledge yet"). */
    ghost predicate Valid() {
      && (forall k :: k in campaigns ==>
            campaigns[k].campaignSeed == k.seed && campaigns[k].creator == k.creator)
      && (forall bk :: bk in backers ==>
            backers[bk].backerPk == bk.backer && backers[bk].backerAmount > 0)
    }
  }

  /** The lamports held at an address; an address with no account holds none. */
  function Balance(lamports: map<Address, nat>, a: Address): nat {
    if a in lamports then lamports[a] else 0
  }

  /** The backer record as `init_if_needed` presents it: the stored record,
      or a zeroed one when the account is created by this very instruction. */
  function BackerRecord(backers: map<BackerKey, BackerData>, bk: BackerKey): BackerData {
    if bk in backers then backers[bk] else BackerData(DefaultPubkey, 0)
  }

  /** All-or-nothing execution: a failed instruction leaves the state as it was. */
  function Commit<T>(before: T, step: Result<T>): T {
    if step.Ok? then step.value else before
  }

  /** What the caller of an instruction sees: `Ok(())` or the error. */
  function Status<T>(step: Result<T>): Result<()> {
    if step.Ok? then Ok(()) else Err(step.error)
  }
}
