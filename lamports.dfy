/** The system program's lamport transfer, which the instructions invoke,
    and the total number of lamports held across all accounts. */
module Lamports {
  import opened State

  /** The sum of all balances. */
  ghost function Total(m: map<Address, nat>): nat
    decreases |m|
  {
    if m == map[] then 0
    else
      var a :| a in m;
      assert |(m - {a}).Keys| < |m.Keys| by {
        assert (m - {a}).Keys == m.Keys - {a};
      }
      m[a] + Total(m - {a})
  }

  /** Any one account can be taken out of the sum first. */
  lemma {:induction false} TotalRemove(m: map<Address, nat>, k: Address)
    requires k in m
    ensures Total(m) == m[k] + Total(m - {k})
    decreases |m|
  {
    var a :| a in m && Total(m) == m[a] + Total(m - {a});
    if a != k {
      assert |(m - {a}).Keys| < |m.Keys| by {
        assert (m - {a}).Keys == m.Keys - {a};
      }
      assert |(m - {k}).Keys| < |m.Keys| by {
        assert (m - {k}).Keys == m.Keys - {k};
      }
      TotalRemove(m - {a}, k);
      TotalRemove(m - {k}, a);
      assert m - {a} - {k} == m - {k} - {a};
    }
  }

  /** Setting one balance changes the sum by the difference. */
  lemma TotalUpdate(m: map<Address, nat>, k: Address, v: nat)
    ensures Total(m[k := v]) + Balance(m, k) == Total(m) + v
  {
    TotalRemove(m[k := v], k);
    if k in m {
      TotalRemove(m, k);
      assert m[k := v] - {k} == m - {k};
    } else {
      assert m[k := v] - {k} == m;
    }
  }

  /** No account holds more than all accounts together. */
  lemma BalanceAtMostTotal(m: map<Address, nat>, a: Address)
    ensures Balance(m, a) <= Total(m)
  {
  }

  /** The system program's `transfer`: debit `from`, then credit `to`;
      it fails, changing nothing, when `from` holds less than `amount`. */
  function Transfer(m: map<Address, nat>, from: Address, to: Address, amount: nat): (r: Result<map<Address, nat>>)
    ensures r.Ok? <==> amount <= Balance(m, from)
    ensures r.Err? ==> r.error == InsufficientFunds
    ensures r.Ok? && from != to ==>
      && Balance(r.value, from) == Balance(m, from) - amount
      && Balance(r.value, to) == Balance(m, to) + amount
    ensures r.Ok? && from == to ==> Balance(r.value, from) == Balance(m, from)
    ensures r.Ok? ==> forall a :: a != from && a != to ==> Balance(r.value, a) == Balance(m, a)
  {
    if Balance(m, from) < amount then Err(InsufficientFunds)
    else
      var debited := m[from := Balance(m, from) - amount];
      Ok(debited[to := Balance(debited, to) + amount])
  }

  /** A transfer moves lamports; it neither creates nor destroys them. */
  lemma TransferConserves(m: map<Address, nat>, from: Address, to: Address, amount: nat)
    requires amount <= Balance(m, from)
    ensures Total(Transfer(m, from, to, amount).value) == Total(m)
  {
    var debited := m[from := Balance(m, from) - amount];
    TotalUpdate(m, from, Balance(m, from) - amount);
    TotalUpdate(debited, to, Balance(debited, to) + amount);
  }
}
