/** Properties of the program over single instructions and over whole runs:
    sequences of transactions, each executed all-or-nothing. */
module Properties {
  import opened State
  import opened Lamports
  import opened CreateCampaignRules
  import opened PledgeRules
  import opened WithdrawRules

  datatype Instruction =
    | CreateCampaignIx(creator: Pubkey, campaignSeed: U64, endingAt: I64, fundingGoalInLamports: U64)
    | PledgeIx(backer: Pubkey, campaign: CampaignKey, amount: U64)
    | WithdrawIx(signer: Pubkey, campaign: CampaignKey)

  /** An instruction together with the clock reading while it executes. */
  datatype Transaction = Transaction(ix: Instruction, now: I64)

  function Execute(s: Ledger, tx: Transaction): Result<Ledger> {
    match tx.ix
    case CreateCampaignIx(creator, seed, endingAt, goal) => CreateCampaign(s, creator, seed, endingAt, goal, tx.now)
    case PledgeIx(backer, key, amount) => Pledge(s, backer, key, amount, tx.now)
    case WithdrawIx(signer, key) => Withdraw(s, signer, key, tx.now)
  }

  /** The state after the transactions, a failed one changing nothing. */
  function Run(s: Ledger, txs: seq<Transaction>): Ledger
    decreases |txs|
  {
    if txs == [] then s else Run(Commit(s, Execute(s, txs[0])), txs[1..])
  }

  /** The transactions of a run that succeeded, in order. */
  function Accepted(s: Ledger, txs: seq<Transaction>): seq<Transaction>
    decreases |txs|
  {
    if txs == [] then []
    else
      (if Execute(s, txs[0]).Ok? then [txs[0]] else [])
      + Accepted(Commit(s, Execute(s, txs[0])), txs[1..])
  }

  /** The sum of the amounts pledged to campaign `key`. */
  function PledgedTo(txs: seq<Transaction>, key: CampaignKey): nat {
    if txs == [] then 0
    else
      (if txs[0].ix.PledgeIx? && txs[0].ix.campaign == key then txs[0].ix.amount else 0)
      + PledgedTo(txs[1..], key)
  }

  /** The sum of the amounts `backer` pledged to campaigns with seed `seed`. */
  function PledgedBy(txs: seq<Transaction>, backer: Pubkey, seed: U64): nat {
    if txs == [] then 0
    else
      (if txs[0].ix.PledgeIx? && txs[0].ix.backer == backer && txs[0].ix.campaign.seed == seed
       then txs[0].ix.amount else 0)
      + PledgedBy(txs[1..], backer, seed)
  }

  /** Whether one of the transactions is a withdrawal from campaign `key`. */
  predicate WithdrawsFrom(txs: seq<Transaction>, key: CampaignKey) {
    exists i :: 0 <= i < |txs| && txs[i].ix.WithdrawIx? && txs[i].ix.campaign == key
  }

  // ---------------------------------------------------------------- one instant

  /** No clock reading lets both a pledge to and a withdrawal from the same
      campaign succeed: pledging needs `now < ending_at`, withdrawing
      `now > ending_at`, and at `now == ending_at` both fail. */
  lemma PledgeAndWithdrawExclusive(s: Ledger, backer: Pubkey, amount: U64, signer: Pubkey, key: CampaignKey, now: I64)
    ensures !(Pledge(s, backer, key, amount, now).Ok? && Withdraw(s, signer, key, now).Ok?)
    ensures key in s.campaigns && now == s.campaigns[key].endingAt ==>
      && Pledge(s, backer, key, amount, now).Err?
      && Withdraw(s, signer, key, now).Err?
  {
  }

  /** `is_finished` is not checked: right after a successful withdrawal a
      second one by the creator fails for want of funds unless the goal is 0,
      in which case it succeeds once the deadline has passed and moves nothing. */
  lemma SecondWithdraw(s: Ledger, signer: Pubkey, key: CampaignKey, now: I64, later: I64)
    requires Withdraw(s, signer, key, now).Ok?
    ensures var s1 := Withdraw(s, signer, key, now).value;
      var goal := s.campaigns[key].fundingGoalInLamports;
      && (goal > 0 ==> Withdraw(s1, signer, key, later) == Err(CampaignFailedNotEnoughFunds))
      && (goal == 0 ==> (Withdraw(s1, signer, key, later).Ok? <==> s.campaigns[key].endingAt < later))
      && (Withdraw(s1, signer, key, later).Ok? ==> Withdraw(s1, signer, key, later).value.lamports == s1.lamports)
  {
  }

  /** The backer record is addressed by (backer, seed): pledges to two
      campaigns that share a seed but not a creator add up in one record. */
  lemma SharedBackerRecord(s: Ledger, backer: Pubkey, seed: U64, creator1: Pubkey, creator2: Pubkey, a1: U64, a2: U64, now: I64)
    requires Pledge(s, backer, CampaignKey(seed, creator1), a1, now).Ok?
    requires Pledge(Pledge(s, backer, CampaignKey(seed, creator1), a1, now).value, backer, CampaignKey(seed, creator2), a2, now).Ok?
    ensures var s2 := Pledge(Pledge(s, backer, CampaignKey(seed, creator1), a1, now).value, backer, CampaignKey(seed, creator2), a2, now).value;
      BackerRecord(s2.backers, BackerKey(backer, seed)).backerAmount
        == BackerRecord(s.backers, BackerKey(backer, seed)).backerAmount + a1 + a2
  {
  }

  // ---------------------------------------------------------------- one step

  lemma ExecuteConservesLamports(s: Ledger, tx: Transaction)
    ensures Total(Commit(s, Execute(s, tx)).lamports) == Total(s.lamports)
  {
    match tx.ix
    case CreateCampaignIx(_, _, _, _) =>
    case PledgeIx(backer, key, amount) => PledgeConservesLamports(s, backer, key, amount, tx.now);
    case WithdrawIx(signer, key) => WithdrawConservesLamports(s, signer, key, tx.now);
  }

  lemma ExecuteKeepsCampaignTerms(s: Ledger, tx: Transaction, key: CampaignKey)
    requires key in s.campaigns
    ensures var s1 := Commit(s, Execute(s, tx));
      && key in s1.campaigns
      && s1.campaigns[key].(isFinished := s.campaigns[key].isFinished) == s.campaigns[key]
      && (s.campaigns[key].isFinished ==> s1.campaigns[key].isFinished)
  {
  }

  lemma ExecuteIsFinished(s: Ledger, tx: Transaction, key: CampaignKey)
    ensures var s1 := Commit(s, Execute(s, tx));
      (key in s1.campaigns && s1.campaigns[key].isFinished) <==>
        || (key in s.campaigns && s.campaigns[key].isFinished)
        || (Execute(s, tx).Ok? && tx.ix.WithdrawIx? && tx.ix.campaign == key)
  {
  }

  // ---------------------------------------------------------------- whole runs

  /** Every reachable state keeps the record invariant. */
  lemma {:induction false} RunPreservesValid(s: Ledger, txs: seq<Transaction>)
    requires s.Valid()
    ensures Run(s, txs).Valid()
    decreases |txs|
  {
    if txs != [] {
      RunPreservesValid(Commit(s, Execute(s, txs[0])), txs[1..]);
    }
  }

  /** The instructions only move lamports between accounts. */
  lemma {:induction false} RunConservesLamports(s: Ledger, txs: seq<Transaction>)
    ensures Total(Run(s, txs).lamports) == Total(s.lamports)
    decreases |txs|
  {
    if txs != [] {
      ExecuteConservesLamports(s, txs[0]);
      RunConservesLamports(Commit(s, Execute(s, txs[0])), txs[1..]);
    }
  }

  /** While all lamports together fit in a `u64`, so does every balance,
      so no credit made by a transfer can overflow. */
  lemma BalancesFitU64(s: Ledger, txs: seq<Transaction>, a: Address)
    requires Total(s.lamports) <= MaxU64
    ensures Balance(Run(s, txs).lamports, a) <= MaxU64
  {
    RunConservesLamports(s, txs);
    BalanceAtMostTotal(Run(s, txs).lamports, a);
  }

  /** A campaign is never removed, and only its `is_finished` ever changes,
      from false to true. */
  lemma {:induction false} RunKeepsCampaignTerms(s: Ledger, txs: seq<Transaction>, key: CampaignKey)
    requires key in s.campaigns
    ensures key in Run(s, txs).campaigns
    ensures Run(s, txs).campaigns[key].(isFinished := s.campaigns[key].isFinished) == s.campaigns[key]
    ensures s.campaigns[key].isFinished ==> Run(s, txs).campaigns[key].isFinished
    decreases |txs|
  {
    if txs != [] {
      ExecuteKeepsCampaignTerms(s, txs[0], key);
      RunKeepsCampaignTerms(Commit(s, Execute(s, txs[0])), txs[1..], key);
    }
  }

  /** A campaign is finished exactly when it was finished at the start or
      one of the run's successful transactions withdrew from it. */
  lemma {:induction false} RunIsFinished(s: Ledger, txs: seq<Transaction>, key: CampaignKey)
    ensures key in Run(s, txs).campaigns ==>
      (Run(s, txs).campaigns[key].isFinished <==>
        (key in s.campaigns && s.campaigns[key].isFinished) || WithdrawsFrom(Accepted(s, txs), key))
    decreases |txs|
  {
    if txs != [] {
      var tx := txs[0];
      var s1 := Commit(s, Execute(s, tx));
      var head := if Execute(s, tx).Ok? then [tx] else [];
      var rest := Accepted(s1, txs[1..]);
      RunIsFinished(s1, txs[1..], key);
      ExecuteIsFinished(s, tx, key);
      assert Run(s, txs) == Run(s1, txs[1..]);
      assert Accepted(s, txs) == head + rest;
      WithdrawsFromConcat(head, rest, key);
      assert WithdrawsFrom(head, key) <==> Execute(s, tx).Ok? && tx.ix.WithdrawIx? && tx.ix.campaign == key by {
        if WithdrawsFrom(head, key) {
          var i :| 0 <= i < |head| && head[i].ix.WithdrawIx? && head[i].ix.campaign == key;
          assert head[i] == tx;
        }
        if Execute(s, tx).Ok? && tx.ix.WithdrawIx? && tx.ix.campaign == key {
          assert head[0] == tx;
        }
      }
    }
  }

  lemma WithdrawsFromConcat(a: seq<Transaction>, b: seq<Transaction>, key: CampaignKey)
    ensures WithdrawsFrom(a + b, key) <==> WithdrawsFrom(a, key) || WithdrawsFrom(b, key)
  {
    if WithdrawsFrom(b, key) {
      var i :| 0 <= i < |b| && b[i].ix.WithdrawIx? && b[i].ix.campaign == key;
      assert (a + b)[|a| + i] == b[i];
    }
    if WithdrawsFrom(a, key) {
      var i :| 0 <= i < |a| && a[i].ix.WithdrawIx? && a[i].ix.campaign == key;
      assert (a + b)[i] == a[i];
    }
    if WithdrawsFrom(a + b, key) {
      var i :| 0 <= i < |a + b| && (a + b)[i].ix.WithdrawIx? && (a + b)[i].ix.campaign == key;
      if i >= |a| {
        assert b[i - |a|] == (a + b)[i];
      } else {
        assert a[i] == (a + b)[i];
      }
    }
  }

  /** Each backer's total is the sum of the amounts of its accepted pledges
      to campaigns with that seed, whatever else the run contains. */
  lemma {:induction false} RunBackerTotal(s: Ledger, txs: seq<Transaction>, backer: Pubkey, seed: U64)
    ensures BackerRecord(Run(s, txs).backers, BackerKey(backer, seed)).backerAmount
      == BackerRecord(s.backers, BackerKey(backer, seed)).backerAmount + PledgedBy(Accepted(s, txs), backer, seed)
    decreases |txs|
  {
    if txs != [] {
      var tx := txs[0];
      var s1 := Commit(s, Execute(s, tx));
      var head := if Execute(s, tx).Ok? then [tx] else [];
      RunBackerTotal(s1, txs[1..], backer, seed);
      PledgedByConcat(head, Accepted(s1, txs[1..]), backer, seed);
    }
  }

  /** A vault's balance grows by exactly the amounts of the accepted pledges
      to its campaign, in any run in which no withdrawal from it is accepted. */
  lemma {:induction false} RunVaultBalance(s: Ledger, txs: seq<Transaction>, key: CampaignKey)
    requires !WithdrawsFrom(Accepted(s, txs), key)
    ensures Balance(Run(s, txs).lamports, Vault(key))
      == Balance(s.lamports, Vault(key)) + PledgedTo(Accepted(s, txs), key)
    decreases |txs|
  {
    if txs != [] {
      var tx := txs[0];
      var s1 := Commit(s, Execute(s, tx));
      var head := if Execute(s, tx).Ok? then [tx] else [];
      var rest := Accepted(s1, txs[1..]);
      assert Accepted(s, txs) == head + rest;
      WithdrawsFromConcat(head, rest, key);
      if Execute(s, tx).Ok? {
        assert !(tx.ix.WithdrawIx? && tx.ix.campaign == key) by {
          assert head[0] == tx;
        }
      }
      RunVaultBalance(s1, txs[1..], key);
      PledgedToConcat(head, rest, key);
    }
  }

  /** Whether one of the transactions is a pledge to campaign `key`. */
  predicate PledgesTo(txs: seq<Transaction>, key: CampaignKey) {
    exists i :: 0 <= i < |txs| && txs[i].ix.PledgeIx? && txs[i].ix.campaign == key
  }

  lemma PledgesToConcat(a: seq<Transaction>, b: seq<Transaction>, key: CampaignKey)
    ensures PledgesTo(a + b, key) <==> PledgesTo(a, key) || PledgesTo(b, key)
  {
    if PledgesTo(b, key) {
      var i :| 0 <= i < |b| && b[i].ix.PledgeIx? && b[i].ix.campaign == key;
      assert (a + b)[|a| + i] == b[i];
    }
    if PledgesTo(a, key) {
      var i :| 0 <= i < |a| && a[i].ix.PledgeIx? && a[i].ix.campaign == key;
      assert (a + b)[i] == a[i];
    }
    if PledgesTo(a + b, key) {
      var i :| 0 <= i < |a + b| && (a + b)[i].ix.PledgeIx? && (a + b)[i].ix.campaign == key;
      if i >= |a| {
        assert b[i - |a|] == (a + b)[i];
      } else {
        assert a[i] == (a + b)[i];
      }
    }
  }

  /** Once the clock has passed a campaign's deadline, no transaction stamped
      at that time or later can pledge to it. */
  lemma {:induction false} NoPledgeAfterDeadline(s: Ledger, txs: seq<Transaction>, key: CampaignKey, t: int)
    requires key in s.campaigns && s.campaigns[key].endingAt <= t
    requires forall i :: 0 <= i < |txs| ==> t <= txs[i].now
    ensures !PledgesTo(Accepted(s, txs), key)
    decreases |txs|
  {
    if txs != [] {
      var tx := txs[0];
      var s1 := Commit(s, Execute(s, tx));
      var head := if Execute(s, tx).Ok? then [tx] else [];
      var rest := Accepted(s1, txs[1..]);
      assert t <= tx.now by {
        assert tx == txs[0];
      }
      ExecuteKeepsCampaignTerms(s, tx, key);
      assert forall i :: 0 <= i < |txs[1..]| ==> txs[1..][i] == txs[i + 1];
      NoPledgeAfterDeadline(s1, txs[1..], key, t);
      assert Accepted(s, txs) == head + rest;
      PledgesToConcat(head, rest, key);
    }
  }

  /** With a clock that does not run backwards, a campaign that has been
      withdrawn from at time `t` accepts no pledge in any later run. */
  lemma NoPledgeAfterWithdraw(s: Ledger, signer: Pubkey, key: CampaignKey, t: I64, txs: seq<Transaction>)
    requires Withdraw(s, signer, key, t).Ok?
    requires forall i :: 0 <= i < |txs| ==> t <= txs[i].now
    ensures !PledgesTo(Accepted(Withdraw(s, signer, key, t).value, txs), key)
  {
    NoPledgeAfterDeadline(Withdraw(s, signer, key, t).value, txs, key, t);
  }

  lemma {:induction false} PledgedByConcat(a: seq<Transaction>, b: seq<Transaction>, backer: Pubkey, seed: U64)
    ensures PledgedBy(a + b, backer, seed) == PledgedBy(a, backer, seed) + PledgedBy(b, backer, seed)
    decreases |a|
  {
    if a != [] {
      assert (a + b)[1..] == a[1..] + b;
      PledgedByConcat(a[1..], b, backer, seed);
    } else {
      assert a + b == b;
    }
  }

  lemma {:induction false} PledgedToConcat(a: seq<Transaction>, b: seq<Transaction>, key: CampaignKey)
    ensures PledgedTo(a + b, key) == PledgedTo(a, key) + PledgedTo(b, key)
    decreases |a|
  {
    if a != [] {
      assert (a + b)[1..] == a[1..] + b;
      PledgedToConcat(a[1..], b, key);
    } else {
      assert a + b == b;
    }
  }

  // ---------------------------------------------------------------- scenarios

  /** A campaign with seed 1, goal 1000 and deadline T+100: the backer pledges
      600 at T+10 and 500 at T+20, and at T+150 the creator withdraws all 1100. */
  lemma FundedCampaignScenario(t: I64, creator: Pubkey, backer: Pubkey)
    requires t + 150 <= MaxI64
    requires creator != backer
    ensures
      var key := CampaignKey(1, creator);
      var s0 := Ledger(map[], map[], map[User(creator) := 0, User(backer) := 2000]);
      var txs := [
        Transaction(CreateCampaignIx(creator, 1, t + 100, 1000), t),
        Transaction(PledgeIx(backer, key, 600), t + 10),
        Transaction(PledgeIx(backer, key, 500), t + 20),
        Transaction(WithdrawIx(creator, key), t + 150)];
      var s := Run(s0, txs);
      && Accepted(s0, txs) == txs
      && Balance(s.lamports, User(creator)) == 1100
      && Balance(s.lamports, User(backer)) == 900
      && Balance(s.lamports, Vault(key)) == 0
      && BackerRecord(s.backers, BackerKey(backer, 1)) == BackerData(backer, 1100)
      && key in s.campaigns && s.campaigns[key].isFinished
  {
    var key := CampaignKey(1, creator);
    var s0 := Ledger(map[], map[], map[User(creator) := 0, User(backer) := 2000]);
    var tx0 := Transaction(CreateCampaignIx(creator, 1, t + 100, 1000), t);
    var tx1 := Transaction(PledgeIx(backer, key, 600), t + 10);
    var tx2 := Transaction(PledgeIx(backer, key, 500), t + 20);
    var tx3 := Transaction(WithdrawIx(creator, key), t + 150);
    FundedCreateStep(t, creator, backer);
    var s1 := Execute(s0, tx0).value;
    PledgeStep(s1, creator, backer, key, 600, t + 10);
    var s2 := Execute(s1, tx1).value;
    PledgeStep(s2, creator, backer, key, 500, t + 20);
    var s3 := Execute(s2, tx2).value;
    WithdrawStep(s3, creator, backer, key, t + 150);
    RunOfFour(s0, [tx0, tx1, tx2, tx3], s1, s2, s3, Execute(s3, tx3).value);
  }

  /** The creation that opens the funded scenario. */
  lemma FundedCreateStep(t: I64, creator: Pubkey, backer: Pubkey)
    requires t + 150 <= MaxI64
    requires creator != backer
    ensures
      var key := CampaignKey(1, creator);
      var s0 := Ledger(map[], map[], map[User(creator) := 0, User(backer) := 2000]);
      var r := Execute(s0, Transaction(CreateCampaignIx(creator, 1, t + 100, 1000), t));
      && r.Ok? && key in r.value.campaigns && r.value.campaigns[key].endingAt == t + 100
      && r.value.campaigns[key].fundingGoalInLamports == 1000 && r.value.campaigns[key].creator == creator
      && BackerRecord(r.value.backers, BackerKey(backer, 1)).backerAmount == 0
      && Balance(r.value.lamports, User(backer)) == 2000 && Balance(r.value.lamports, Vault(key)) == 0
      && Balance(r.value.lamports, User(creator)) == 0
  {
  }

  /** One accepted pledge of a scenario, as seen from the three wallets involved. */
  lemma PledgeStep(s: Ledger, creator: Pubkey, backer: Pubkey, key: CampaignKey, amount: U64, now: I64)
    requires creator != backer && key.creator == creator && key in s.campaigns
    requires 0 < amount <= Balance(s.lamports, User(backer)) && now < s.campaigns[key].endingAt
    requires BackerRecord(s.backers, BackerKey(backer, key.seed)).backerAmount + amount <= MaxU64
    requires BackerRecord(s.backers, BackerKey(backer, key.seed)).backerAmount > 0 ==>
      BackerRecord(s.backers, BackerKey(backer, key.seed)).backerPk == backer
    ensures var r := Pledge(s, backer, key, amount, now);
      && r.Ok? && Execute(s, Transaction(PledgeIx(backer, key, amount), now)) == r
      && r.value.campaigns == s.campaigns
      && Balance(r.value.lamports, User(backer)) == Balance(s.lamports, User(backer)) - amount
      && Balance(r.value.lamports, Vault(key)) == Balance(s.lamports, Vault(key)) + amount
      && Balance(r.value.lamports, User(creator)) == Balance(s.lamports, User(creator))
      && BackerRecord(r.value.backers, BackerKey(backer, key.seed))
         == BackerData(backer, BackerRecord(s.backers, BackerKey(backer, key.seed)).backerAmount + amount)
  {
  }

  /** One accepted withdrawal of a scenario, as seen from the three wallets involved. */
  lemma WithdrawStep(s: Ledger, creator: Pubkey, backer: Pubkey, key: CampaignKey, now: I64)
    requires creator != backer && key in s.campaigns && s.campaigns[key].creator == creator
    requires s.campaigns[key].fundingGoalInLamports <= Balance(s.lamports, Vault(key))
    requires s.campaigns[key].endingAt < now
    ensures var r := Withdraw(s, creator, key, now);
      && r.Ok? && Execute(s, Transaction(WithdrawIx(creator, key), now)) == r
      && r.value.backers == s.backers
      && key in r.value.campaigns && r.value.campaigns[key].isFinished
      && Balance(r.value.lamports, Vault(key)) == 0
      && Balance(r.value.lamports, User(backer)) == Balance(s.lamports, User(backer))
      && Balance(r.value.lamports, User(creator))
         == Balance(s.lamports, User(creator)) + Balance(s.lamports, Vault(key))
  {
  }

  /** A run of four transactions that are each accepted in turn. */
  lemma RunOfFour(s0: Ledger, txs: seq<Transaction>, s1: Ledger, s2: Ledger, s3: Ledger, s4: Ledger)
    requires |txs| == 4
    requires Execute(s0, txs[0]) == Ok(s1) && Execute(s1, txs[1]) == Ok(s2)
    requires Execute(s2, txs[2]) == Ok(s3) && Execute(s3, txs[3]) == Ok(s4)
    ensures Run(s0, txs) == s4 && Accepted(s0, txs) == txs
  {
    RunStep(s3, txs[3..]);
    assert txs[3..][1..] == [];
    RunStep(s2, txs[2..]);
    assert txs[2..][1..] == txs[3..];
    RunStep(s1, txs[1..]);
    assert txs[1..][1..] == txs[2..];
    RunStep(s0, txs);
  }

  /** Running an accepted first transaction, then the rest. */
  lemma RunStep(s: Ledger, txs: seq<Transaction>)
    requires txs != [] && Execute(s, txs[0]).Ok?
    ensures Run(s, txs) == Run(Execute(s, txs[0]).value, txs[1..])
    ensures Accepted(s, txs) == [txs[0]] + Accepted(Execute(s, txs[0]).value, txs[1..])
  {
  }

  /** The same campaign with only 400 pledged: the withdrawal fails for want
      of funds and the 400 lamports stay in the vault. */
  lemma UnderfundedCampaignScenario(t: I64, creator: Pubkey, backer: Pubkey)
    requires t + 150 <= MaxI64
    requires creator != backer
    ensures
      var key := CampaignKey(1, creator);
      var s0 := Ledger(map[], map[], map[User(creator) := 0, User(backer) := 2000]);
      var s1 := Run(s0, [
        Transaction(CreateCampaignIx(creator, 1, t + 100, 1000), t),
        Transaction(PledgeIx(backer, key, 400), t + 10)]);
      && Withdraw(s1, creator, key, t + 150) == Err(CampaignFailedNotEnoughFunds)
      && Balance(s1.lamports, Vault(key)) == 400
      && key in s1.campaigns && !s1.campaigns[key].isFinished
  {
    var key := CampaignKey(1, creator);
    var s0 := Ledger(map[], map[], map[User(creator) := 0, User(backer) := 2000]);
    var txs := [
      Transaction(CreateCampaignIx(creator, 1, t + 100, 1000), t),
      Transaction(PledgeIx(backer, key, 400), t + 10)];
    var a := Execute(s0, txs[0]).value;
    var b := Execute(a, txs[1]).value;
    assert Balance(b.lamports, Vault(key)) == 400;
    assert Run(a, txs[1..]) == b by {
      assert txs[1..][1..] == [];
    }
  }

  /** The instruction inputs of the repository's integration test: a campaign
      with a seed in 1000..9999, goal 5 and a deadline 60 seconds ahead; the
      backer, holding 15 SOL, pledges 5 before the deadline; the creator
      withdraws after it. All amounts are lamports, as the program receives
      them, so the vault ends with 5 lamports, not the 5 SOL that the test's
      balance check converts to. */
  lemma IntegrationTestRun(t: I64, seed: U64, creator: Pubkey, backer: Pubkey, pledgeAt: I64, withdrawAt: I64)
    requires 1000 <= seed <= 9999 && creator != backer
    requires t + 60 <= MaxI64 && t <= pledgeAt < t + 60 < withdrawAt
    ensures
      var key := CampaignKey(seed, creator);
      var s0 := Ledger(map[], map[], map[User(creator) := 15_000_000_000, User(backer) := 15_000_000_000]);
      var created := CreateCampaign(s0, creator, seed, t + 60, 5, t);
      && created.Ok?
      && created.value.campaigns[key] == Campaign(seed, creator, t, t + 60, 5, false)
      && var pledged := Pledge(created.value, backer, key, 5, pledgeAt);
      && pledged.Ok?
      && Balance(pledged.value.lamports, Vault(key)) == 5
      && pledged.value.backers[BackerKey(backer, seed)] == BackerData(backer, 5)
      && var withdrawn := Withdraw(pledged.value, creator, key, withdrawAt);
      && withdrawn.Ok?
      && Balance(withdrawn.value.lamports, User(creator)) == 15_000_000_005
      && Balance(withdrawn.value.lamports, Vault(key)) == 0
      && withdrawn.value.campaigns[key].isFinished
  {
    var key := CampaignKey(seed, creator);
    var s0 := Ledger(map[], map[], map[User(creator) := 15_000_000_000, User(backer) := 15_000_000_000]);
    var s1 := CreateCampaign(s0, creator, seed, t + 60, 5, t).value;
    var s2 := Pledge(s1, backer, key, 5, pledgeAt).value;
    assert Balance(s2.lamports, Vault(key)) == 5;
    assert Balance(s2.lamports, User(creator)) == 15_000_000_000;
  }
}
