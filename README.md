# Spark crowdfunding program: a verified model

This project models the on-chain logic of the Spark crowdfunding program in Dafny. The program has three instructions:

- `create_campaign`: a creator opens a campaign with a deadline and a funding goal. The campaign is stored at an address derived from (campaign seed, creator).
- `pledge`: a backer moves lamports from their wallet into the campaign's vault. The instruction then creates or increments the backer's record, which is addressed by (backer, campaign seed).
- `withdraw`: once the deadline has passed and the vault holds at least the goal, the creator takes the whole vault and the campaign is marked finished.

The model has two layers:

- The specification. `state.dfy` holds the accounts as one `Ledger` value: the campaign records, the backer records and the lamport balance of every wallet and vault. `create_campaign.dfy`, `pledge.dfy` and `withdraw.dfy` state each instruction as a function from a ledger to `Ok(new ledger)` or `Err(error)`. Each function's contract gives every guard, the order in which the guards fire, the exact effect of a success and what stays unchanged. `lamports.dfy` models the system program's transfer and proves that a transfer conserves the total number of lamports.
- The program. `program.dfy` holds the class `Spark.Program`. Its fields are the three account maps, and its methods update them in place. The statements follow the same order as the Rust code. Each method is proved to end in exactly the state, and return exactly the result, that the matching function gives. A failed method leaves every field as it was.

`properties.dfy` reasons about runs, which are sequences of transactions that each execute all-or-nothing. Over any run it proves:

- the total number of lamports is conserved;
- every backer total equals the sum of that backer's accepted pledges;
- a vault grows by exactly the pledges it accepted, as long as nobody withdraws from it;
- a campaign's terms never change;
- `is_finished` is true exactly when a withdrawal from that campaign has succeeded.

It also proves the rules that hold at one instant: no clock reading lets both a pledge and a withdrawal succeed, a second withdrawal is possible only with a goal of 0, and two campaigns with the same seed share backer records. It also shows that once the clock has passed a campaign's deadline, no later pledge to it is accepted. Last, it checks two scenarios, a funded campaign and an underfunded one, and replays the run of the repository's integration test.

The clock reading is an explicit `now` argument of every instruction. Signers are given as public keys. Program-derived addresses are replaced by composite map keys: `CampaignKey(seed, creator)`, `BackerKey(backer, seed)` and `Vault(campaign key)`.

The model follows the code as written, including these points:

- Creation accepts any deadline and any goal, including a past deadline and a goal of 0.
- `withdraw` never reads `is_finished`. With a goal of 0 it succeeds again after the deadline and moves nothing.
- A missing campaign account fails with `AccountNotInitialized` before any guard in the instruction body runs. This comes from the account framework, which loads the accounts before the body runs.
- `ArithmeticOverflow` is not an error code of the program. It is the model's name for the panic of `backer_amount += amount` (pledge.rs:74) when the sum exceeds `u64::MAX`. That panic relies on the overflow checks that Anchor projects enable in release builds. The crate's `Cargo.toml` is not part of this model. The panic aborts the instruction and so also undoes the transfer that came before it.
- A run is any sequence of transactions, each with its own clock reading. Runs do not require the clock to be non-decreasing. The run lemmas hold for every ordering of clock readings, and `Properties.NoPledgeAfterDeadline` and `Properties.NoPledgeAfterWithdraw` are the two lemmas that assume later readings.

## Model

| member | source | states |
|---|---|---|
| `CreateCampaignRules.CreateCampaign` | programs/spark-mvp/src/instructions/create_campaign.rs:11-45 | Succeeds exactly when nothing is stored at (seed, creator), whatever the deadline and goal; otherwise fails with `AccountAlreadyInUse` and changes nothing. On success the stored record has the given seed, creator, deadline and goal, `started_at == now` and `is_finished == false`. No other campaign, backer record or balance changes, and the record invariant is kept. |
| `PledgeRules.Pledge` | programs/spark-mvp/src/instructions/pledge.rs:25-78 | Each error holds exactly under its own condition. A missing campaign comes first. A zero amount reports `PledgeAmountZero` even after the deadline. `now >= ending_at` gives `CampaignHasFinished`. A backer holding too little gives `InsufficientFunds` (the model's label for the system program's insufficient-lamports refusal), before any record is touched. A total above `u64::MAX` fails as `ArithmeticOverflow`, the model's name for the panic of the checked `+=` at pledge.rs:74. On success the campaign record is untouched and the backer pays exactly `amount` into the vault, with no other balance moving. The (backer, seed) record's total rises by `amount`, becoming `{backer, amount}` on a first pledge and keeping `backer_pk` afterwards, and stays positive. No other backer record changes, and the invariant is kept. |
| `PledgeRules.PledgeConservesLamports` | programs/spark-mvp/src/instructions/pledge.rs:56-65 | A successful pledge leaves the total of all balances unchanged. |
| `WithdrawRules.Withdraw` | programs/spark-mvp/src/instructions/withdraw.rs:11-67 | Each error holds exactly under its own condition, in this order: a missing campaign; a signer other than the creator (`UnauthorizedCreator`); a vault below the goal (`CampaignFailedNotEnoughFunds`, which wins over the deadline); `now <= ending_at` (`CampaignStillRunning`). It succeeds exactly when none applies. Success changes only `is_finished` to true in that one campaign and touches no backer record. The vault becomes 0, the creator's balance rises by the old vault balance and no other balance moves. |
| `WithdrawRules.WithdrawConservesLamports` | programs/spark-mvp/src/instructions/withdraw.rs:56-66 | A successful withdrawal leaves the total of all balances unchanged. |
| `Lamports.Transfer` | programs/spark-mvp/src/instructions/pledge.rs:56-65 | The system transfer succeeds exactly when the source holds at least the amount; otherwise it fails with `InsufficientFunds`, the model's label for the system program's insufficient-lamports refusal. On success the source loses and the destination gains exactly the amount, and every other balance is unchanged. |
| `Lamports.TransferConserves` | programs/spark-mvp/src/instructions/withdraw.rs:56-66 | A successful transfer conserves the total of all balances. |
| `Spark.Program.SystemTransfer` | programs/spark-mvp/src/instructions/pledge.rs:56-65 | The in-place transfer gives the result and the new balances of `Lamports.Transfer`, and changes only the balances. |
| `Spark.Program.CreateCampaign` | programs/spark-mvp/src/instructions/create_campaign.rs:27-46 | The in-place instruction returns the result of `CreateCampaignRules.CreateCampaign` and leaves exactly its state, or the old state on failure. |
| `Spark.Program.Pledge` | programs/spark-mvp/src/instructions/pledge.rs:45-79 | The in-place instruction returns the result of `PledgeRules.Pledge` and leaves exactly its state. An overflow after the transfer rolls the transfer back. |
| `Spark.Program.Withdraw` | programs/spark-mvp/src/instructions/withdraw.rs:36-67 | The in-place instruction sets `is_finished` before draining the vault. It returns the result of `WithdrawRules.Withdraw` and leaves exactly its state. |
| `Properties.PledgeAndWithdrawExclusive` | programs/spark-mvp/src/instructions/withdraw.rs:45-49 | At no clock reading can both a pledge to and a withdrawal from the same campaign succeed. At `now == ending_at` both fail. |
| `Properties.SecondWithdraw` | programs/spark-mvp/src/instructions/withdraw.rs:37-66 | Right after a successful withdrawal, a second one fails with `CampaignFailedNotEnoughFunds` when the goal is positive. With a goal of 0 it succeeds exactly when `now` is past the deadline, and it moves no lamports. |
| `Properties.SharedBackerRecord` | programs/spark-mvp/src/instructions/pledge.rs:25-35 | Pledges by one backer to two campaigns with the same seed and different creators add up in one backer record. |
| `Properties.RunPreservesValid` | programs/spark-mvp/src/instructions/pledge.rs:67-75 | Every run keeps the invariant. Each campaign sits at its own (seed, creator). Each backer record names its backer and holds a positive total, so a zero total means "first pledge". |
| `Properties.RunConservesLamports` | programs/spark-mvp/src/instructions/pledge.rs:56-65 | Any run of transactions leaves the total of all balances unchanged. |
| `Properties.BalancesFitU64` | programs/spark-mvp/src/instructions/withdraw.rs:66 | If all lamports together fit in a `u64`, every balance after any run fits in a `u64`. |
| `Properties.RunKeepsCampaignTerms` | programs/spark-mvp/src/instructions/withdraw.rs:64 | A campaign is never removed. Its seed, creator, start, deadline and goal never change, and once `is_finished` is true it stays true. |
| `Properties.RunIsFinished` | programs/spark-mvp/src/instructions/withdraw.rs:64 | After a run, a campaign is finished exactly when it was finished at the start or one of the run's accepted transactions withdrew from it. |
| `Properties.RunBackerTotal` | programs/spark-mvp/src/instructions/pledge.rs:67-75 | After any run, the total in record (backer, seed) is its old total plus the amounts of that backer's accepted pledges to campaigns with that seed. |
| `Properties.RunVaultBalance` | programs/spark-mvp/src/instructions/pledge.rs:56-65 | In a run in which no withdrawal from a campaign is accepted, its vault grows by exactly the amounts of the accepted pledges to it. |
| `Properties.FundedCampaignScenario` | programs/spark-mvp/src/instructions/withdraw.rs:37-66 | Seed 1, goal 1000, deadline T+100. Pledges of 600 at T+10 and 500 at T+20 are accepted, and at T+150 the creator withdraws all 1100. The backer is left with 900 lamports, the vault with 0, and the campaign is finished. |
| `Properties.IntegrationTestRun` | tests/spark-mvp.ts:105-162 | Replays the instruction inputs of the integration test. A campaign with a seed in 1000..9999, a goal of 5 and a deadline 60 seconds ahead is created with exactly those terms, `started_at == now` and not finished. A pledge of 5 before the deadline from a wallet of 15 SOL is accepted, leaves 5 in the vault and stores the record `{backer, 5}`. A withdrawal by the creator after the deadline is accepted. It leaves the creator 5 lamports richer, empties the vault and marks the campaign finished. The amounts are lamports, as the program receives them. The test's own vault check (tests/spark-mvp.ts:139) compares a balance converted to SOL with 5, which a vault of 5 lamports does not meet. |
| `Properties.NoPledgeAfterDeadline` | programs/spark-mvp/src/instructions/pledge.rs:51-54 | If every transaction of a run reads the clock at or after some time t, and t is at or after a campaign's deadline, the run accepts no pledge to that campaign. The deadline instant itself is included, because pledge.rs:52 demands `now < ending_at`. |
| `Properties.NoPledgeAfterWithdraw` | programs/spark-mvp/src/instructions/withdraw.rs:45-49 | After a successful withdrawal at time t, a run whose clock readings are all at least t accepts no pledge to that campaign. |
| `Properties.UnderfundedCampaignScenario` | programs/spark-mvp/src/instructions/withdraw.rs:39-43 | With only 400 pledged against a goal of 1000, the withdrawal after the deadline fails with `CampaignFailedNotEnoughFunds`. The 400 lamports stay in the vault. |

## Left out

- Rent: the lamports that `init` and `init_if_needed` take from the payer to fund the campaign and backer-data accounts, and the space those accounts occupy, are not modelled. The failure of a payer who cannot afford rent is not modelled either. Nor is the runtime's rent-state rule: a system account may not go from 0 lamports to a balance below the rent-exempt minimum. On a real cluster, a first pledge into an empty vault that is below that minimum is therefore rejected. This includes the 600-lamport first pledge of `Properties.FundedCampaignScenario` and the 5-lamport first pledge of `Properties.IntegrationTestRun`; the model accepts both.
- Bump seeds and program-derived address derivation are replaced by composite keys. The vault of a campaign is a distinct address per (seed, creator), and a vault is never a user wallet.
- Signature checks are not modelled: the signer's public key is an input. The program's signing for the vault through `CpiContext::new_with_signer` is not modelled either.
- `Clock::get()` is the `now` argument. A failure of the clock sysvar is not modelled.
- The `vault_bump` argument of `withdraw` is not modelled. The dispatcher as shown in `programs/spark-mvp/src/lib.rs:37` calls `withdraw()` without it, so it does not compile against the signature at withdraw.rs:37. The model assumes that the vault's correct bump is supplied, so the signed transfer out of the vault always goes through.
- The `create_proposal` instruction and the dispatcher in lib.rs are not part of this model. The crate's `state`, `error` and `constants` modules are not part of this model either. The records and error codes are defined here from how the three instructions use them.
- Lamport balances are unbounded naturals. A transfer never fails because a credit overflows. `Properties.BalancesFitU64` shows that every balance stays within `u64` when the total supply does.
- Lamports that other programs or plain transfers send to a vault outside these three instructions are not modelled.
- Concurrency and the runtime's account locking are not modelled. Each instruction is one atomic step, and a failed step leaves the state unchanged.
- Lamports.Transfer: when source and destination coincide, it states only that their balance is unchanged. The instructions never transfer between an account and itself.
