/** What a posting does to one account or vault, and to the totals over all of them. */
module PostingProofs {
  import opened Amounts
  import opened Digests
  import opened Sums
  import opened Routes
  import opened LedgerTypes
  import opened LedgerSteps
  import opened LedgerInvariant
  import opened PendingProofs

  // ---------- Accounts ----------

  /** Who receives how much. */
  function To(id: Digest, amount: nat): Digest -> nat {
    (other: Digest) => if other == id then amount else 0
  }

  function Both(f: Digest -> nat, g: Digest -> nat): Digest -> nat {
    (id: Digest) => f(id) + g(id)
  }

  /** `b` is `a` with `gain` more in column k and nothing else changed. */
  predicate AccountGains(a: Account, b: Account, k: nat, gain: nat)
    requires k < MAX_ASSETS
  {
    && SameAccount(a, b) && a.intentNonce == b.intentNonce
    && b.balances[k] == a.balances[k] + gain
    && forall c | 0 <= c < MAX_ASSETS && c != k :: b.balances[c] == a.balances[c]
  }

  predicate AccountsGain(before: seq<Account>, after: seq<Account>, k: nat, gain: Digest -> nat)
    requires k < MAX_ASSETS
  {
    && |before| == |after|
    && forall i {:trigger AccountGains(before[i], after[i], k, gain(before[i].id))} | 0 <= i < |before| ::
         AccountGains(before[i], after[i], k, gain(before[i].id))
  }

  lemma {:induction false} GainsChain(a: seq<Account>, b: seq<Account>, c: seq<Account>, k: nat,
                                      f: Digest -> nat, g: Digest -> nat)
    requires k < MAX_ASSETS && AccountsGain(a, b, k, f) && AccountsGain(b, c, k, g)
    ensures AccountsGain(a, c, k, Both(f, g))
  {
    forall i | 0 <= i < |a|
      ensures AccountGains(a[i], c[i], k, Both(f, g)(a[i].id))
    {
      assert AccountGains(a[i], b[i], k, f(a[i].id)) && AccountGains(b[i], c[i], k, g(b[i].id));
    }
  }

  lemma {:induction false} GainsKeep(before: seq<Account>, after: seq<Account>, k: nat, gain: Digest -> nat)
    requires k < MAX_ASSETS && AccountsGain(before, after, k, gain)
    ensures AccountsExtend(before, after) && AccountsExtend(after, before)
    ensures AccountsOk(before) <==> AccountsOk(after)
    ensures forall reservations :: NoncesCount(before, reservations) <==> NoncesCount(after, reservations)
    ensures forall c | 0 <= c < MAX_ASSETS && c != k :: Sum(before, BalanceIn(c)) == Sum(after, BalanceIn(c))
  {
    forall i | 0 <= i < |before|
      ensures SameAccount(before[i], after[i]) && SameAccount(after[i], before[i])
              && before[i].intentNonce == after[i].intentNonce
    {
      assert AccountGains(before[i], after[i], k, gain(before[i].id));
    }
    forall c | 0 <= c < MAX_ASSETS && c != k
      ensures Sum(before, BalanceIn(c)) == Sum(after, BalanceIn(c))
    {
      forall i | 0 <= i < |before|
        ensures BalanceIn(c)(before[i]) == BalanceIn(c)(after[i])
      {
        assert AccountGains(before[i], after[i], k, gain(before[i].id));
      }
      SumEqual(before, after, BalanceIn(c), BalanceIn(c));
    }
  }

  lemma {:induction false} GainsKeepColumns(assets: AssetList, before: seq<Account>, after: seq<Account>,
                                            issued: Columns, k: nat, gain: Digest -> nat)
    requires k < |assets| && AccountsGain(before, after, k, gain)
    ensures ColumnsOk(assets, before, issued) <==> ColumnsOk(assets, after, issued)
  {
    forall i | 0 <= i < |before|
      ensures EmptyBeyond(before[i].balances, |assets|) <==> EmptyBeyond(after[i].balances, |assets|)
    {
      assert AccountGains(before[i], after[i], k, gain(before[i].id));
    }
  }

  /** Setting one balance of one account. */
  lemma {:induction false} WithBalanceGains(accounts: seq<Account>, i: nat, k: nat, amount: nat)
    requires AccountsOk(accounts) && i < |accounts| && k < MAX_ASSETS
    requires accounts[i].balances[k] + amount <= U64_MAX
    ensures var after := WithBalance(accounts, i, k, accounts[i].balances[k] + amount);
            && AccountsGain(accounts, after, k, To(accounts[i].id, amount))
            && Sum(after, BalanceIn(k)) == Sum(accounts, BalanceIn(k)) + amount
  {
    var after := WithBalance(accounts, i, k, accounts[i].balances[k] + amount);
    SumUpdate(accounts, i, after[i], BalanceIn(k));
    forall j | 0 <= j < |accounts|
      ensures AccountGains(accounts[j], after[j], k, To(accounts[i].id, amount)(accounts[j].id))
    {
      if i < j {
        assert accounts[i].id != accounts[j].id;
      } else if j < i {
        assert accounts[j].id != accounts[i].id;
      }
    }
  }

  /** A credit that fits under the total cannot be refused. */
  lemma {:induction false} CreditEffect(assets: AssetList, accounts: seq<Account>, id: Digest, assetId: Digest,
                                        amount: Amount)
    requires AccountsOk(accounts) && AccountAt(accounts, id).Some? && AssetAt(assets, assetId).Some?
    requires Sum(accounts, BalanceIn(AssetAt(assets, assetId).value)) + amount <= U64_MAX
    ensures var k, r := AssetAt(assets, assetId).value, Credit(assets, accounts, id, assetId, amount);
            && r.status == Ok
            && AccountsGain(accounts, r.after, k, To(id, amount))
            && Sum(r.after, BalanceIn(k)) == Sum(accounts, BalanceIn(k)) + amount
  {
    hide AccountsOk, AccountsGain, Sum, WithBalance;
    var k, i := AssetAt(assets, assetId).value, AccountAt(accounts, id).value;
    SumCovers(accounts, i, BalanceIn(k));
    WithBalanceGains(accounts, i, k, amount);
  }

  /** A credit in any ledger: it is refused exactly when the balance overflows, and then changes nothing. */
  lemma {:induction false} CreditOutcome(assets: AssetList, accounts: seq<Account>, id: Digest, assetId: Digest,
                                         amount: Amount)
    requires AccountsOk(accounts) && AccountAt(accounts, id).Some? && AssetAt(assets, assetId).Some?
    ensures var k, i := AssetAt(assets, assetId).value, AccountAt(accounts, id).value;
            var r := Credit(assets, accounts, id, assetId, amount);
            if accounts[i].balances[k] + amount <= U64_MAX then
              && r.status == Ok
              && AccountsGain(accounts, r.after, k, To(id, amount))
              && Sum(r.after, BalanceIn(k)) == Sum(accounts, BalanceIn(k)) + amount
            else
              r == Posted(ErrPolicy, accounts)
  {
    hide AccountsOk, AccountsGain, Sum, WithBalance;
    var k, i := AssetAt(assets, assetId).value, AccountAt(accounts, id).value;
    if accounts[i].balances[k] + amount <= U64_MAX {
      WithBalanceGains(accounts, i, k, amount);
    }
  }

  lemma {:induction false} WithBalanceLoses(accounts: seq<Account>, i: nat, k: nat, amount: nat)
    requires AccountsOk(accounts) && i < |accounts| && k < MAX_ASSETS
    requires amount <= accounts[i].balances[k]
    ensures var after := WithBalance(accounts, i, k, accounts[i].balances[k] - amount);
            && AccountsOk(after)
            && AccountsGain(after, accounts, k, To(accounts[i].id, amount))
            && Sum(after, BalanceIn(k)) + amount == Sum(accounts, BalanceIn(k))
  {
    var after := WithBalance(accounts, i, k, accounts[i].balances[k] - amount);
    SumUpdate(accounts, i, after[i], BalanceIn(k));
    forall j | 0 <= j < |accounts|
      ensures AccountGains(after[j], accounts[j], k, To(accounts[i].id, amount)(after[j].id))
    {
      if i < j {
        assert accounts[i].id != accounts[j].id;
      } else if j < i {
        assert accounts[j].id != accounts[i].id;
      }
    }
    GainsKeep(after, accounts, k, To(accounts[i].id, amount));
  }

  /** A debit within the balance: the account before is the account after plus the amount. */
  lemma {:induction false} DebitEffect(assets: AssetList, accounts: seq<Account>, id: Digest, assetId: Digest,
                                       amount: Amount)
    requires AccountsOk(accounts) && AccountAt(accounts, id).Some? && AssetAt(assets, assetId).Some?
    requires amount <= accounts[AccountAt(accounts, id).value].balances[AssetAt(assets, assetId).value]
    ensures var k, r := AssetAt(assets, assetId).value, Debit(assets, accounts, id, assetId, amount);
            && r.status == Ok && AccountsOk(r.after)
            && AccountsGain(r.after, accounts, k, To(id, amount))
            && Sum(r.after, BalanceIn(k)) + amount == Sum(accounts, BalanceIn(k))
  {
    hide AccountsOk, AccountsGain, Sum, WithBalance;
    WithBalanceLoses(accounts, AccountAt(accounts, id).value, AssetAt(assets, assetId).value, amount);
  }

  // ---------- Vaults ----------

  /** `b` is `a` with the route's amounts no longer pending and `gain` more in the book. */
  predicate VaultClears(a: Vault, b: Vault, hops: seq<Hop>, gain: nat) {
    && SameVault(a, b)
    && b.balance == a.balance + gain
    && a.pendingOut == b.pendingOut + Sum(hops, HopOut(a.id))
    && a.pendingIn == b.pendingIn + Sum(hops, HopIn(a.id))
  }

  predicate VaultsClear(before: seq<Vault>, after: seq<Vault>, hops: seq<Hop>, gain: Digest -> nat) {
    && |before| == |after|
    && forall v {:trigger VaultClears(before[v], after[v], hops, gain(before[v].id))} | 0 <= v < |before| ::
         VaultClears(before[v], after[v], hops, gain(before[v].id))
  }

  function Nobody(): Digest -> nat {
    (id: Digest) => 0
  }

  lemma {:induction false} ReleaseClears(before: seq<Vault>, after: seq<Vault>, hops: seq<Hop>)
    requires Raised(after, before, hops)
    ensures VaultsClear(before, after, hops, Nobody())
  {
    forall v | 0 <= v < |before|
      ensures VaultClears(before[v], after[v], hops, 0)
    {
      assert RaisedAt(after[v], before[v], hops);
    }
  }

  lemma {:induction false} ClearKeepsVaults(before: seq<Vault>, after: seq<Vault>, hops: seq<Hop>, gain: Digest -> nat)
    requires VaultsClear(before, after, hops, gain)
    ensures VaultsExtend(before, after) && VaultsExtend(after, before)
    ensures VaultsOk(before) <==> VaultsOk(after)
  {
    forall v | 0 <= v < |before|
      ensures SameVault(before[v], after[v]) && SameVault(after[v], before[v])
    {
      assert VaultClears(before[v], after[v], hops, gain(before[v].id));
    }
  }

  /** Pending amounts do not enter the books. */
  lemma {:induction false} SameBookSameHoldings(before: seq<Vault>, after: seq<Vault>, assetId: Digest)
    requires |before| == |after| && forall v | 0 <= v < |before| :: SameBook(before[v], after[v])
    ensures Sum(before, HeldAs(assetId)) == Sum(after, HeldAs(assetId))
  {
    SumEqual(before, after, HeldAs(assetId), HeldAs(assetId));
  }

  /** Clearing the route and then crediting the sink. */
  lemma {:induction false} CreditVaultEffect(before: seq<Vault>, cleared: seq<Vault>, hops: seq<Hop>, sink: Digest,
                                             assetId: Digest, amount: Amount)
    requires VaultsOk(cleared) && Raised(cleared, before, hops)
    requires HasVault(cleared, sink, assetId) && Sum(cleared, HeldAs(assetId)) + amount <= U64_MAX
    ensures var r := CreditVault(cleared, sink, amount);
            && r.status == Ok
            && VaultsClear(before, r.after, hops, To(sink, amount))
            && Sum(r.after, HeldAs(assetId)) == Sum(before, HeldAs(assetId)) + amount
            && forall other | other != assetId :: Sum(r.after, HeldAs(other)) == Sum(before, HeldAs(other))
  {
    var w := VaultAt(cleared, sink).value;
    SumCovers(cleared, w, HeldAs(assetId));
    var r := CreditVault(cleared, sink, amount);
    forall v | 0 <= v < |before|
      ensures VaultClears(before[v], r.after[v], hops, To(sink, amount)(before[v].id))
              && SameBook(before[v], cleared[v])
    {
      assert RaisedAt(cleared[v], before[v], hops);
      VaultFound(cleared, v);
    }
    SameBookSameHoldings(before, cleared, assetId);
    SumUpdate(cleared, w, r.after[w], HeldAs(assetId));
    forall other | other != assetId
      ensures Sum(r.after, HeldAs(other)) == Sum(before, HeldAs(other))
    {
      SameBookSameHoldings(before, cleared, other);
      SumUpdate(cleared, w, r.after[w], HeldAs(other));
    }
  }
}
