/** The mutable ledger of src/ledger.c and src/intent.c. Every method is proved to do exactly what the step functions
    say, in every state; from valid states the results about those functions follow. */
module LedgerClass {
  import opened Amounts
  import opened Digests
  import opened Sums
  import opened Routes
  import opened LedgerTypes
  import opened Exposure
  import opened LedgerSteps
  import opened LedgerInvariant
  import opened ClosingProofs
  import opened ReserveProofs
  import opened SettleProofs
  import opened CatalogProofs
  import opened Runs
  import opened VaultViews
  import opened Intents
  import opened Verdicts
  import opened Admission
  import opened Prices
  import opened Answers

  lemma WrapAdds(x: nat, y: nat)
    ensures Wrap64(Wrap64(x) + y) == Wrap64(x + y)
  {
    assert x == (x / U64_SIZE) * U64_SIZE + x % U64_SIZE;
    var r := x % U64_SIZE + y;
    assert x + y == (x / U64_SIZE) * U64_SIZE + r;
    ModShift(r, x / U64_SIZE);
  }

  lemma WrapThree(x: nat, y: nat, z: nat)
    ensures Wrap64(Wrap64(Wrap64(x) + y) + Wrap64(z)) == Wrap64(x + y + z)
  {
    WrapAdds(x, y);
    WrapAdds(x + y, Wrap64(z));
    WrapAdds(z, x + y);
  }

  lemma {:induction false} TotalIsIssued(s: State, assetId: Digest)
    requires Inv(s) && AssetAt(s.assets, assetId).Some?
    ensures Wrap64(Observed(s, AssetAt(s.assets, assetId).value)) == s.issued[AssetAt(s.assets, assetId).value]
  {
    ConservedChecks(s, assetId);
  }

  lemma AdmissionGuarantees(h: Hashes, s: State, signed: SignedIntent)
    requires Inv(s)
    ensures AdmissionStatus(h, s, signed) == Verdict(AdmissionChecks(h, s, signed))
  {
    InvParts(s);
    hide *;
    AdmissionAnswer(h, s, signed);
  }

  lemma ReserveGuarantees(h: Hashes, s: State, signed: SignedIntent)
    requires Inv(s)
    ensures var o := Reserve(h, s, signed);
            && Inv(o.after)
            && o.status == Verdict(ReserveChecks(h, s, signed))
            && (o.status == Ok ==> o.after.reservations == s.reservations + [Filed(h, signed.terms, s.epoch)])
  {
    hide *;
    ReserveOutcomes(h, s, signed);
    ReserveAnswer(h, s, signed);
    if Reserve(h, s, signed).status == Ok {
      AcceptedIsFiled(h, s, signed);
    }
  }

  lemma ModShift(r: int, q: int)
    ensures (q * U64_SIZE + r) % U64_SIZE == r % U64_SIZE
  {
  }

  class Ledger {
    const hashes: Hashes
    var networkId: U32
    var currentEpoch: Amount
    var assets: AssetList
    var accounts: seq<Account>
    var vaults: seq<Vault>
    var lanes: seq<Lane>
    var reservations: seq<Reservation>
    var receipts: seq<Receipt>
    var journal: seq<JournalEntry>
    var issuedSupply: Columns

    function Model(): State
      reads this
    {
      State(networkId, currentEpoch, assets, accounts, vaults, lanes, reservations, receipts, journal, issuedSupply)
    }

    ghost predicate Valid()
      reads this
    {
      Inv(Model())
    }

    constructor (hashes: Hashes, networkId: U32)
      ensures this.hashes == hashes
      ensures Model() == Init(networkId) && Valid()
    {
      this.hashes := hashes;
      this.networkId := networkId;
      currentEpoch := 1;
      assets, accounts, vaults, lanes := [], [], [], [];
      reservations, receipts, journal := [], [], [];
      issuedSupply := [0, 0, 0, 0];
      new;
      InitInv(networkId);
    }

    // ---------- Lookups ----------

    method AssetIndex(id: Digest) returns (r: Option<nat>)
      ensures r == AssetAt(assets, id)
    {
      for i := 0 to |assets|
        invariant forall j | 0 <= j < i :: assets[j] != id
      {
        if assets[i] == id {
          return Some(i);
        }
      }
      r := None;
    }

    method FindAccount(id: Digest) returns (r: Option<nat>)
      ensures r == AccountAt(accounts, id)
    {
      for i := 0 to |accounts|
        invariant forall j | 0 <= j < i :: !(accounts[j].active && accounts[j].id == id)
      {
        if accounts[i].active && accounts[i].id == id {
          return Some(i);
        }
      }
      r := None;
    }

    method FindVault(id: Digest) returns (r: Option<nat>)
      ensures r == VaultAt(vaults, id)
    {
      for i := 0 to |vaults|
        invariant forall j | 0 <= j < i :: !(vaults[j].active && vaults[j].id == id)
      {
        if vaults[i].active && vaults[i].id == id {
          return Some(i);
        }
      }
      r := None;
    }

    method FindLane(id: Digest) returns (r: Option<nat>)
      ensures r == LaneAt(lanes, id)
    {
      for i := 0 to |lanes|
        invariant forall j | 0 <= j < i :: !(lanes[j].active && lanes[j].id == id)
      {
        if lanes[i].active && lanes[i].id == id {
          return Some(i);
        }
      }
      r := None;
    }

    method FindReservation(id: Digest) returns (r: Option<nat>)
      ensures r == ReservationAt(reservations, id)
    {
      for i := 0 to |reservations|
        invariant forall j | 0 <= j < i :: reservations[j].id != id
      {
        if reservations[i].id == id {
          return Some(i);
        }
      }
      r := None;
    }

    method AccountBalance(accountId: Digest, assetId: Digest) returns (balance: Amount)
      ensures balance == BalanceOf(Model(), accountId, assetId)
    {
      var k := AssetIndex(assetId);
      var i := FindAccount(accountId);
      if k.None? || i.None? {
        return 0;
      }
      balance := accounts[i.value].balances[k.value];
    }

    // ---------- Totals ----------

    method LockedTotal(assetId: Digest) returns (total: Amount)
      ensures total == Wrap64(Sum(reservations, LockedAs(assetId)))
    {
      total := 0;
      for i := 0 to |reservations|
        invariant total == Wrap64(Sum(reservations[..i], LockedAs(assetId)))
      {
        SumPrefix(reservations, i, LockedAs(assetId));
        if reservations[i].state == Reserved && reservations[i].assetId == assetId {
          WrapAdds(Sum(reservations[..i], LockedAs(assetId)), reservations[i].gross);
          total := Wrap64(total + reservations[i].gross);
        }
      }
      assert reservations[..|reservations|] == reservations;
    }

    method AccountsTotal(k: nat) returns (total: Amount)
      requires k < MAX_ASSETS
      ensures total == Wrap64(Sum(accounts, BalanceIn(k)))
    {
      total := 0;
      for i := 0 to |accounts|
        invariant total == Wrap64(Sum(accounts[..i], BalanceIn(k)))
      {
        SumPrefix(accounts, i, BalanceIn(k));
        WrapAdds(Sum(accounts[..i], BalanceIn(k)), accounts[i].balances[k]);
        total := Wrap64(total + accounts[i].balances[k]);
      }
      assert accounts[..|accounts|] == accounts;
    }

    method VaultsTotal(assetId: Digest, start: Amount) returns (total: Amount)
      ensures total == Wrap64(start + Sum(vaults, HeldAs(assetId)))
    {
      total := start;
      for i := 0 to |vaults|
        invariant total == Wrap64(start + Sum(vaults[..i], HeldAs(assetId)))
      {
        SumPrefix(vaults, i, HeldAs(assetId));
        if vaults[i].active && vaults[i].assetId == assetId {
          WrapAdds(start + Sum(vaults[..i], HeldAs(assetId)), vaults[i].balance);
          total := Wrap64(total + vaults[i].balance);
        }
      }
      assert vaults[..|vaults|] == vaults;
    }

    /** Accumulates in 64 bits, wrapping; the result is the true total whenever the ledger is valid. */
    method TotalObserved(assetId: Digest) returns (total: Amount)
      ensures var k := AssetAt(assets, assetId);
              total == if k.None? then 0 else Wrap64(Observed(Model(), k.value))
      ensures Valid() && AssetAt(assets, assetId).Some? ==> total == issuedSupply[AssetAt(assets, assetId).value]
    {
      var k := AssetIndex(assetId);
      if k.None? {
        return 0;
      }
      hide Inv, Sum, Wrap64;
      total := AccountsTotal(k.value);
      total := VaultsTotal(assetId, total);
      var locked := LockedTotal(assetId);
      WrapThree(Sum(accounts, BalanceIn(k.value)), Sum(vaults, HeldAs(assetId)), Sum(reservations, LockedAs(assetId)));
      total := Wrap64(total + locked);
      hide Observed, AssetAt;
      if Inv(Model()) {
        TotalIsIssued(Model(), assetId);
      }
    }

    method CheckConservation(assetId: Digest) returns (ok: bool)
      ensures ok == ConservationOk(Model(), assetId)
    {
      hide Inv;
      var k := AssetIndex(assetId);
      if k.None? {
        return false;
      }
      var total := TotalObserved(assetId);
      ok := total == issuedSupply[k.value];
    }

    // ---------- Postings ----------

    method Debit(accountId: Digest, assetId: Digest, amount: Amount) returns (status: Status)
      modifies `accounts
      ensures status == LedgerSteps.Debit(assets, old(accounts), accountId, assetId, amount).status
      ensures accounts == LedgerSteps.Debit(assets, old(accounts), accountId, assetId, amount).after
      ensures status != Ok ==> accounts == old(accounts)
    {
      var k := AssetIndex(assetId);
      var i := FindAccount(accountId);
      if k.None? || i.None? {
        return ErrNotFound;
      }
      var updated := Sub(accounts[i.value].balances[k.value], amount);
      if updated.Failure? {
        return ErrBalance;
      }
      accounts := WithBalance(accounts, i.value, k.value, updated.value);
      status := Ok;
    }

    method Credit(accountId: Digest, assetId: Digest, amount: Amount) returns (status: Status)
      modifies `accounts
      ensures status == LedgerSteps.Credit(assets, old(accounts), accountId, assetId, amount).status
      ensures accounts == LedgerSteps.Credit(assets, old(accounts), accountId, assetId, amount).after
    {
      var k := AssetIndex(assetId);
      var i := FindAccount(accountId);
      if k.None? || i.None? {
        return ErrNotFound;
      }
      var updated := Add(accounts[i.value].balances[k.value], amount);
      if updated.Failure? {
        return ErrPolicy;
      }
      accounts := WithBalance(accounts, i.value, k.value, updated.value);
      status := Ok;
    }

    method CreditVault(vaultId: Digest, amount: Amount) returns (status: Status)
      modifies `vaults
      ensures status == LedgerSteps.CreditVault(old(vaults), vaultId, amount).status
      ensures vaults == LedgerSteps.CreditVault(old(vaults), vaultId, amount).after
    {
      var v := FindVault(vaultId);
      if v.None? {
        return ErrNotFound;
      }
      var updated := Add(vaults[v.value].balance, amount);
      if updated.Failure? {
        return ErrPolicy;
      }
      vaults := vaults[v.value := vaults[v.value].(balance := updated.value)];
      status := Ok;
    }

    method AppendJournal(epoch: Amount, event: Event, subject: Digest, amount: Amount) returns (status: Status)
      modifies `journal
      ensures status == LedgerSteps.AppendJournal(old(journal), epoch, event, subject, amount).status
      ensures journal == LedgerSteps.AppendJournal(old(journal), epoch, event, subject, amount).after
    {
      if |journal| >= MAX_JOURNAL {
        return ErrCapacity;
      }
      journal := journal + [JournalEntry(epoch, event, subject, amount)];
      status := Ok;
    }

    /** Walks the route hop by hop, writing both vaults of a hop only when both amounts could be computed. */
    method UpdatePending(hops: seq<Hop>, release: bool) returns (status: Status)
      modifies `vaults
      ensures status == UpdateRoutePending(old(vaults), hops, release).status
      ensures vaults == UpdateRoutePending(old(vaults), hops, release).after
    {
      for i := 0 to |hops|
        invariant UpdateRoutePending(old(vaults), hops, release) == UpdateRoutePending(vaults, hops[i..], release)
      {
        assert hops[i..][0] == hops[i] && hops[i..][1..] == hops[i + 1..];
        var from := FindVault(hops[i].fromVault);
        var to := FindVault(hops[i].toVault);
        if from.None? || to.None? {
          return ErrNotFound;
        }
        var outgoing := ApplyPending(vaults[from.value].pendingOut, hops[i].amountHint, release);
        var incoming := ApplyPending(vaults[to.value].pendingIn, hops[i].amountHint, release);
        if outgoing.Failure? || incoming.Failure? {
          return ErrState;
        }
        vaults := vaults[from.value := vaults[from.value].(pendingOut := outgoing.value)];
        vaults := vaults[to.value := vaults[to.value].(pendingIn := incoming.value)];
      }
      status := Ok;
    }

    // ---------- Building the catalogue ----------

    method AddAsset(symbol: string) returns (status: Status)
      modifies `assets
      ensures Posted(status, Model()) == LedgerSteps.AddAsset(hashes, old(Model()), symbol)
      ensures old(Valid()) ==> Valid()
    {
      ghost var before := Model();
      if old(Valid()) {
        AddAssetKeepsInv(hashes, before, symbol);
      }
      if symbol == "" {
        return ErrArgument;
      }
      if |assets| >= MAX_ASSETS {
        return ErrCapacity;
      }
      var id := hashes.asset(symbol);
      var k := AssetIndex(id);
      if k.Some? {
        return ErrDuplicate;
      }
      assets := assets + [id];
      status := Ok;
    }

    method AddAccount(name: string) returns (status: Status)
      modifies `accounts
      ensures Posted(status, Model()) == LedgerSteps.AddAccount(hashes, old(Model()), name)
      ensures old(Valid()) ==> Valid()
    {
      hide Inv;
      ghost var before := Model();
      if old(Valid()) {
        AddAccountKeepsInv(hashes, before, name);
      }
      if name == "" {
        return ErrArgument;
      }
      if |accounts| >= MAX_ACCOUNTS {
        return ErrCapacity;
      }
      var identity := hashes.identity(name);
      var i := FindAccount(identity.0);
      if i.Some? {
        return ErrDuplicate;
      }
      accounts := accounts + [NewAccount(identity.0, identity.1)];
      status := Ok;
    }

    method AddVault(name: string, assetId: Digest, initial: Amount) returns (status: Status)
      modifies `vaults, `issuedSupply
      ensures Posted(status, Model()) == LedgerSteps.AddVault(hashes, old(Model()), name, assetId, initial)
      ensures old(Valid()) ==> Valid()
    {
      hide Inv;
      ghost var before := Model();
      if old(Valid()) {
        AddVaultKeepsInv(hashes, before, name, assetId, initial);
      }
      if name == "" {
        return ErrArgument;
      }
      if |vaults| >= MAX_VAULTS {
        return ErrCapacity;
      }
      var k := AssetIndex(assetId);
      if k.None? {
        return ErrNotFound;
      }
      var id := hashes.vault(name, assetId);
      var v := FindVault(id);
      if v.Some? {
        return ErrDuplicate;
      }
      var issued := Add(issuedSupply[k.value], initial);
      if issued.Failure? {
        return ErrPolicy;
      }
      issuedSupply := issuedSupply[k.value := issued.value];
      vaults := vaults + [Vault(id, assetId, initial, 0, 0, true)];
      status := Ok;
    }

    method AddLane(name: string, assetId: Digest, source: Digest, sink: Digest, terminal: Digest,
                   laneClass: LaneClass, operatorFeeBps: U32, reserveBps: U32) returns (status: Status)
      modifies `lanes
      ensures Posted(status, Model())
           == LedgerSteps.AddLane(hashes, old(Model()), name, assetId, source, sink, terminal, laneClass,
                                  operatorFeeBps, reserveBps)
      ensures old(Valid()) && HasVault(vaults, sink, assetId) ==> Valid()
    {
      hide Inv, HasVault, IndexOf, AssetAt, VaultAt, AccountAt, LaneAt;
      ghost var before := Model();
      if old(Valid()) {
        AddLaneKeepsInvIff(hashes, before, name, assetId, source, sink, terminal, laneClass, operatorFeeBps,
                           reserveBps);
      }
      if |lanes| >= MAX_LANES {
        return ErrCapacity;
      }
      var feeSum := Add(operatorFeeBps, reserveBps);
      if feeSum.Failure? || feeSum.value > BPS {
        return ErrPolicy;
      }
      var k := AssetIndex(assetId);
      var from := FindVault(source);
      var to := FindVault(sink);
      var account := FindAccount(terminal);
      if k.None? || from.None? || to.None? || account.None? {
        return ErrNotFound;
      }
      var id := hashes.lane(name, assetId);
      var l := FindLane(id);
      if l.Some? {
        return ErrDuplicate;
      }
      lanes := lanes + [Lane(id, assetId, source, sink, terminal, laneClass, operatorFeeBps, reserveBps, true)];
      status := Ok;
    }

    /** Writes the balance before it checks the supply. */
    method Deposit(accountId: Digest, assetId: Digest, amount: Amount) returns (status: Status)
      modifies `accounts, `issuedSupply, `journal
      ensures Posted(status, Model()) == LedgerSteps.Deposit(old(Model()), accountId, assetId, amount)
      ensures old(Valid()) ==> (Valid() <==> DepositFits(old(Model()), accountId, assetId, amount))
    {
      hide Inv, DepositFits, Depositable;
      ghost var before := Model();
      if old(Valid()) {
        DepositKeepsInvIff(before, accountId, assetId, amount);
      }
      var k := AssetIndex(assetId);
      status := Credit(accountId, assetId, amount);
      if status != Ok {
        return;
      }
      var issued := Add(issuedSupply[k.value], amount);
      if issued.Failure? {
        return ErrPolicy;
      }
      issuedSupply := issuedSupply[k.value := issued.value];
      status := AppendJournal(currentEpoch, Deposited, accountId, amount);
    }

    // ---------- Reserving ----------

    method ValidateHop(terms: Terms, hop: Hop) returns (status: Status)
      ensures status == HopStatus(Model(), terms, hop)
      ensures status == Verdict(HopChecks(Model(), terms.assetId, terms.gross, hop))
    {
      HopAnswer(Model(), terms, hop);
      hide Verdict, HopChecks;
      var lane := FindLane(hop.lane);
      var from := FindVault(hop.fromVault);
      var to := FindVault(hop.toVault);
      if lane.None? || from.None? || to.None? {
        return ErrNotFound;
      }
      if lanes[lane.value].assetId != terms.assetId || vaults[from.value].assetId != terms.assetId
         || vaults[to.value].assetId != terms.assetId {
        return ErrPolicy;
      }
      if hop.weightBps > BPS || hop.amountHint > terms.gross {
        return ErrPolicy;
      }
      status := Ok;
    }

    method ValidatePlan(terms: Terms) returns (status: Status)
      ensures status == PlanStatus(Model(), terms)
      ensures status == Verdict(PlanChecks(Model(), terms.assetId, terms.gross, terms.plan))
    {
      PlanAnswer(Model(), terms);
      hide Verdict, PlanChecks;
      hide HopsStatus;
      var plan := terms.plan;
      if |plan.hops| == 0 || |plan.hops| > MAX_ROUTE_HOPS {
        return ErrPolicy;
      }
      var l := FindLane(plan.settlementLane);
      if l.None? {
        return ErrNotFound;
      }
      var lane := lanes[l.value];
      if lane.assetId != terms.assetId {
        return ErrPolicy;
      }
      if lane.terminalAccount != plan.beneficiary {
        return ErrPolicy;
      }
      var beneficiary := FindAccount(plan.beneficiary);
      var operator := FindAccount(plan.operatorAccount);
      if beneficiary.None? || operator.None? {
        return ErrNotFound;
      }
      var feeSum := Add(lane.operatorFeeBps, lane.reserveBps);
      if feeSum.Failure? || feeSum.value > plan.maxFeeBps {
        return ErrPolicy;
      }
      status := ValidateHops(terms, plan.hops);
    }

    method ValidateHops(terms: Terms, hops: seq<Hop>) returns (status: Status)
      ensures status == HopsStatus(Model(), terms, hops)
    {
      hide HopStatus;
      for i := 0 to |hops|
        invariant HopsStatus(Model(), terms, hops) == HopsStatus(Model(), terms, hops[i..])
      {
        assert hops[i..][0] == hops[i] && hops[i..][1..] == hops[i + 1..];
        status := ValidateHop(terms, hops[i]);
        if status != Ok {
          return;
        }
      }
      status := Ok;
    }

    method CheckDuplicateIntent(intentId: Digest) returns (status: Status)
      ensures status == if IntentKnown(reservations, intentId) then ErrDuplicate else Ok
    {
      for i := 0 to |reservations|
        invariant forall j | 0 <= j < i :: reservations[j].intentId != intentId
      {
        if reservations[i].intentId == intentId {
          return ErrDuplicate;
        }
      }
      status := Ok;
    }

    method VerifySignature(signed: SignedIntent) returns (status: Status)
      ensures status == SignatureStatus(hashes, Model(), signed)
      ensures Valid() ==> (status == Ok <==> exists i | 0 <= i < |accounts| :: Vouches(hashes, accounts[i], signed))
    {
      if Valid() {
        SignatureOkIff(hashes, Model(), signed);
      }
      hide Inv, Vouches;
      var p := FindAccount(signed.terms.payer);
      if p.None? {
        return ErrNotFound;
      }
      var payer := accounts[p.value];
      if payer.id != signed.signature.signer
         || hashes.seal(payer.verifier, signed.terms) != signed.signature.authenticator {
        return ErrSignature;
      }
      status := Ok;
    }

    method Admit(signed: SignedIntent) returns (status: Status)
      ensures status == AdmissionStatus(hashes, Model(), signed)
      ensures Valid() ==> status == Verdict(AdmissionChecks(hashes, Model(), signed))
    {
      if Valid() {
        AdmissionGuarantees(hashes, Model(), signed);
      }
      hide Inv, Verdict, AdmissionChecks;
      hide HopsStatus, PlanStatus;
      var terms := signed.terms;
      if |reservations| >= MAX_RESERVATIONS {
        return ErrCapacity;
      }
      status := VerifySignature(signed);
      if status != Ok {
        return;
      }
      if terms.networkId != networkId {
        return ErrPolicy;
      }
      if terms.deadline < currentEpoch {
        return ErrExpired;
      }
      var p := FindAccount(terms.payer);
      if accounts[p.value].intentNonce != terms.payerNonce {
        return ErrDuplicate;
      }
      status := ValidatePlan(terms);
      if status != Ok {
        return;
      }
      status := CheckDuplicateIntent(terms.intentId);
      if status != Ok {
        return;
      }
      var balance := AccountBalance(terms.payer, terms.assetId);
      if balance < terms.gross {
        return ErrBalance;
      }
      status := Ok;
    }

    method ReserveIntent(signed: SignedIntent) returns (status: Status)
      modifies `accounts, `vaults, `reservations, `journal
      ensures Posted(status, Model()) == Reserve(hashes, old(Model()), signed)
      ensures old(Valid()) ==> Valid() && status == Verdict(ReserveChecks(hashes, old(Model()), signed))
      ensures old(Valid()) && status == Ok ==>
                reservations == old(reservations) + [Filed(hashes, signed.terms, old(currentEpoch))]
    {
      hide Inv, AdmissionStatus, UpdateRoutePending, LedgerSteps.Debit, ReserveCommit, ReservationAt, AssetAt,
        AccountAt, VaultAt, NewReservation, Verdict, ReserveChecks, Filed;
      ghost var before := Model();
      if old(Valid()) {
        ReserveGuarantees(hashes, before, signed);
      }
      var terms := signed.terms;
      status := Admit(signed);
      if status != Ok {
        return;
      }
      status := UpdatePending(terms.plan.hops, false);
      if status != Ok {
        return;
      }
      var reservation := NewReservation(hashes, terms, currentEpoch);
      var known := FindReservation(reservation.id);
      if known.Some? {
        var _ := UpdatePending(terms.plan.hops, true);
        return ErrDuplicate;
      }
      status := Debit(terms.payer, terms.assetId, terms.gross);
      if status != Ok {
        var _ := UpdatePending(terms.plan.hops, true);
        return;
      }
      status := CommitReservation(reservation);
    }

    method CommitReservation(reservation: Reservation) returns (status: Status)
      modifies `accounts, `reservations, `journal
      ensures Posted(status, Model()) == ReserveCommit(old(Model()), reservation)
    {
      hide Inv, Observed;
      var p := FindAccount(reservation.payer);
      if p.None? {
        return ErrNotFound;
      }
      accounts := WithNextNonce(accounts, p.value);
      reservations := reservations + [reservation];
      status := AppendJournal(currentEpoch, ReservedIntent, reservation.id, reservation.gross);
      if status != Ok {
        return;
      }
      var ok := CheckConservation(reservation.assetId);
      if !ok {
        return ErrState;
      }
    }

    // ---------- Settling ----------

    method QuotePremium(lane: Lane, hops: seq<Hop>) returns (r: Result<Amount>)
      ensures r == Premium(Model(), lane, hops)
    {
      if lane.laneClass != Recovery {
        return Success(0);
      }
      r := RouteExposureCharge(vaults, hops);
      if r.Failure? {
        return Failure(ErrPolicy);
      }
    }

    method QuoteReservation(reservation: Reservation, compacted: CompactedPlan) returns (r: Result<Quote>)
      ensures r == QuoteSettlement(Model(), reservation, compacted)
      ensures Valid() && reservation in reservations && Compact(hashes.plan, reservation.plan) == Success(compacted) ==>
                && (r.Success? <==> Offerable(Model(), reservation))
                && (r.Success? ==> QuotedAs(Model(), reservation, r.value))
    {
      if Valid() && reservation in reservations && Compact(hashes.plan, reservation.plan) == Success(compacted) {
        QuoteGuarantees(hashes, Model(), reservation, compacted);
      }
      hide RouteCharge, Inv, Offerable, QuotedAs, Compact;
      var l := FindLane(compacted.effectiveLane);
      if l.None? {
        return Failure(ErrNotFound);
      }
      var lane, plan, gross := lanes[l.value], reservation.plan, reservation.gross;
      if lane.assetId != reservation.assetId {
        return Failure(ErrPolicy);
      }
      if lane.terminalAccount != plan.beneficiary || compacted.effectiveBeneficiary != plan.beneficiary
         || compacted.effectiveLane != plan.settlementLane {
        return Failure(ErrPolicy);
      }
      var premium := QuotePremium(lane, compacted.plan.hops);
      var priced := PriceOn(lane, gross, plan.maxFeeBps, plan.minNet, premium);
      if priced.Failure? {
        return priced;
      }
      var beneficiary := FindAccount(priced.value.beneficiary);
      var operator := FindAccount(plan.operatorAccount);
      if beneficiary.None? || operator.None? {
        return Failure(ErrNotFound);
      }
      r := priced;
    }

    method SettleReservation(id: Digest, epoch: Amount) returns (status: Status)
      modifies `currentEpoch, `accounts, `vaults, `reservations, `receipts, `journal
      ensures Posted(status, Model()) == Settle(hashes, old(Model()), id, epoch)
      ensures old(Valid()) ==> Valid()
      ensures old(Valid()) && status != Ok && |old(journal)| < MAX_JOURNAL ==> Model() == old(Model())
      ensures old(Valid()) ==> SettleReplies(hashes, old(Model()), Posted(status, Model()), id, epoch)
    {
      hide Inv, QuoteSettlement, Compact, SettleQuoted, SettleReplies;
      ghost var before := Model();
      if old(Valid()) {
        SettleGuarantees(hashes, before, id, epoch);
      }
      if |receipts| >= MAX_RECEIPTS {
        return ErrCapacity;
      }
      var r := FindReservation(id);
      if r.None? {
        return ErrNotFound;
      }
      var reservation := reservations[r.value];
      if reservation.state != Reserved {
        return ErrState;
      }
      if epoch < reservation.plan.settleAfter {
        return ErrPolicy;
      }
      if epoch > reservation.deadline {
        return ErrExpired;
      }
      var compacted := PlanCompact(hashes.plan, reservation.plan);
      if compacted.Failure? {
        return compacted.error;
      }
      var quote := QuoteReservation(reservation, compacted.value);
      if quote.Failure? {
        return quote.error;
      }
      status := PostSettlement(r.value, quote.value,
                               NewReceipt(hashes, reservation, compacted.value, quote.value, epoch));
    }

    method PostSettlement(r: nat, quote: Quote, receipt: Receipt) returns (status: Status)
      requires r < |reservations|
      modifies `currentEpoch, `accounts, `vaults, `reservations, `receipts, `journal
      ensures Posted(status, Model()) == SettleQuoted(old(Model()), r, quote, receipt)
    {
      hide Inv, UpdateRoutePending, LedgerSteps.Credit, LedgerSteps.CreditVault, SettleCommit;
      var reservation := reservations[r];
      status := UpdatePending(reservation.plan.hops, true);
      if status != Ok {
        return;
      }
      var l := FindLane(quote.lane);
      if l.None? {
        return ErrNotFound;
      }
      status := Credit(quote.beneficiary, reservation.assetId, quote.net);
      if status != Ok {
        return;
      }
      status := Credit(reservation.plan.operatorAccount, reservation.assetId, quote.operatorFee);
      if status != Ok {
        return;
      }
      status := CreditVault(lanes[l.value].sinkVault, quote.reserveFee);
      if status != Ok {
        return;
      }
      status := CommitSettlement(r, receipt);
    }

    method CommitSettlement(r: nat, receipt: Receipt) returns (status: Status)
      requires r < |reservations|
      modifies `currentEpoch, `reservations, `receipts, `journal
      ensures Posted(status, Model()) == SettleCommit(old(Model()), r, receipt)
    {
      hide Inv, Observed;
      reservations := reservations[r := reservations[r].(state := Settled)];
      currentEpoch := receipt.epoch;
      receipts := receipts + [receipt];
      status := AppendJournal(receipt.epoch, SettledReservation, receipt.id, receipt.gross);
      if status != Ok {
        return;
      }
      var ok := CheckConservation(reservations[r].assetId);
      if !ok {
        return ErrState;
      }
    }

    // ---------- Cancelling ----------

    method CancelReservation(id: Digest, epoch: Amount) returns (status: Status)
      modifies `currentEpoch, `accounts, `vaults, `reservations, `journal
      ensures Posted(status, Model()) == Cancel(old(Model()), id, epoch)
      ensures old(Valid()) ==> Valid()
      ensures old(Valid()) && CancelStatus(old(Model()), id, epoch) == Ok ==> status == JournalStatus(old(Model()))
      ensures old(Valid()) ==> CancelReplies(old(Model()), Posted(status, Model()), id, epoch)
    {
      hide Inv, UpdateRoutePending, LedgerSteps.Credit, CancelCommit, Refunds, CancelReplies;
      ghost var before := Model();
      if old(Valid()) {
        CancelOutcomes(before, id, epoch);
        CancelGuarantees(before, id, epoch);
      }
      var r := FindReservation(id);
      if r.None? {
        return ErrNotFound;
      }
      var reservation := reservations[r.value];
      if reservation.state != Reserved {
        return ErrState;
      }
      if epoch < reservation.reservedEpoch {
        return ErrPolicy;
      }
      if epoch >= reservation.plan.settleAfter && epoch <= reservation.deadline {
        return ErrPolicy;
      }
      status := UpdatePending(reservation.plan.hops, true);
      if status != Ok {
        return;
      }
      status := Credit(reservation.payer, reservation.assetId, reservation.gross);
      if status != Ok {
        return;
      }
      status := CommitCancellation(r.value, epoch);
    }

    method CommitCancellation(r: nat, epoch: Amount) returns (status: Status)
      requires r < |reservations|
      modifies `currentEpoch, `reservations, `journal
      ensures Posted(status, Model()) == CancelCommit(old(Model()), r, epoch)
    {
      hide Inv, Observed;
      var reservation := reservations[r];
      reservations := reservations[r := reservation.(state := Cancelled)];
      currentEpoch := epoch;
      status := AppendJournal(epoch, CancelledReservation, reservation.id, reservation.gross);
      if status != Ok {
        return;
      }
      var ok := CheckConservation(reservation.assetId);
      status := if ok then Ok else ErrState;
    }

    // ---------- Published views ----------

    method Economics(laneId: Digest, gross: Amount) returns (r: Result<SettleProofs.Economics>)
      ensures r == LaneEconomics(lanes, laneId, gross)
      ensures r.Success? ==> r.value.net + r.value.operatorFee + r.value.reserveFee == gross
      ensures Valid() ==> (r.Success? <==> Priced(lanes, laneId, gross))
      ensures Valid() && r.Success? ==>
                && LaneAt(lanes, laneId).Some?
                && r.value.operatorFee == Fee(gross, lanes[LaneAt(lanes, laneId).value].operatorFeeBps)
                && r.value.reserveFee == Fee(gross, lanes[LaneAt(lanes, laneId).value].reserveBps)
    {
      EconomicsSplitGross(Model(), laneId, gross);
      if Valid() {
        InvParts(Model());
        EconomicsAnswer(Model(), laneId, gross);
      }
      hide EconomicsChecks, Verdict, AllPass, Fee;
      hide Inv, LanesOk, Priced, MulBps, IndexOf, ReservationsOk, DistinctReservations, ReceiptsOk, AllRecorded;
      var l := FindLane(laneId);
      if l.None? {
        return Failure(ErrNotFound);
      }
      var lane := lanes[l.value];
      var operatorFee := MulBps(gross, lane.operatorFeeBps);
      var reserveFee := MulBps(gross, lane.reserveBps);
      if operatorFee.Failure? || reserveFee.Failure? {
        return Failure(ErrPolicy);
      }
      var total := Add(operatorFee.value, reserveFee.value);
      if total.Failure? {
        return Failure(ErrPolicy);
      }
      var net := Sub(gross, total.value);
      if net.Failure? {
        return Failure(net.error);
      }
      r := Success(SettleProofs.Economics(operatorFee.value, reserveFee.value, net.value,
                                          (lane.operatorFeeBps + lane.reserveBps) % U32_SIZE));
    }

    method VaultExposure(id: Digest) returns (r: Result<VaultView>)
      ensures r == ViewOf(vaults, lanes, id)
      ensures Valid() && VaultAt(vaults, id).Some? ==> r.Success? && Shows(vaults[VaultAt(vaults, id).value], r.value)
    {
      if Valid() && VaultAt(vaults, id).Some? {
        ViewShowsRecord(Model(), VaultAt(vaults, id).value);
      }
      var v := FindVault(id);
      if v.None? {
        return Failure(ErrNotFound);
      }
      var vault := vaults[v.value];
      var available := if vault.pendingOut > vault.balance then 0 else vault.balance - vault.pendingOut;
      var outbound, inbound := 0, 0;
      for i := 0 to |lanes|
        invariant outbound == Sum(lanes[..i], EndsAt(Source(), id)) && inbound == Sum(lanes[..i], EndsAt(SinkEnd(), id))
      {
        SumPrefix(lanes, i, EndsAt(Source(), id));
        SumPrefix(lanes, i, EndsAt(SinkEnd(), id));
        if lanes[i].active {
          if lanes[i].sourceVault == id {
            outbound := outbound + 1;
          }
          if lanes[i].sinkVault == id {
            inbound := inbound + 1;
          }
        }
      }
      assert lanes[..|lanes|] == lanes;
      r := Success(VaultView(vault.id, vault.assetId, vault.balance, vault.pendingIn, vault.pendingOut, available,
                             outbound, inbound));
    }
  }

  lemma {:induction false} QuoteGuarantees(h: Hashes, s: State, reservation: Reservation, compacted: CompactedPlan)
    requires Inv(s) && reservation in s.reservations && Compact(h.plan, reservation.plan) == Success(compacted)
    ensures var r := QuoteSettlement(s, reservation, compacted);
            && (r.Success? <==> Offerable(s, reservation))
            && (r.Success? ==> QuotedAs(s, reservation, r.value))
  {
    InvParts(s);
    var i :| 0 <= i < |s.reservations| && s.reservations[i] == reservation;
    hide Inv, QuoteSettlement, Offerable, QuotedAs, ReservationOk, Compact;
    ReservationIsOk(s, i);
    RouteCompacts(h, s, i);
    CompactedRoute(h, reservation.plan);
    OfferIs(s, reservation, compacted);
  }

  /** A settlement call is answered by its first failing check, and what it commits are these figures and this
      receipt. */
  ghost predicate SettleReplies(h: Hashes, s: State, o: Outcome, id: Digest, epoch: Amount) {
    forall r | 0 <= r < |s.reservations| && s.reservations[r].id == id ::
      && o.status == Verdict(QuoteChecks(s, r, epoch) + [JournalCheck(s)])
      && if AllPass(QuoteChecks(s, r, epoch)) then Open(s, r) && SettledBy(h, s, o.after, r, epoch) else o.after == s
  }

  ghost predicate CancelReplies(s: State, o: Outcome, id: Digest, epoch: Amount) {
    forall r | 0 <= r < |s.reservations| && s.reservations[r].id == id ::
      && o.status == Verdict(CancelChecks(s, r, epoch) + [JournalCheck(s)])
      && if AllPass(CancelChecks(s, r, epoch)) then Open(s, r) && Refunds(s, o.after, r, epoch) else o.after == s
  }

  lemma {:induction false} SettleGuarantees(h: Hashes, s: State, id: Digest, epoch: Amount)
    requires Inv(s)
    ensures Inv(Settle(h, s, id, epoch).after)
    ensures Settle(h, s, id, epoch).status != Ok && |s.journal| < MAX_JOURNAL ==> Settle(h, s, id, epoch).after == s
    ensures SettleReplies(h, s, Settle(h, s, id, epoch), id, epoch)
  {
    hide Inv, Settle, SettlementQuote, Settles, QuoteOk, QuoteChecks, Verdict, AllPass, SettledBy;
    SettleAllOrNothing(h, s, id, epoch);
    forall r | 0 <= r < |s.reservations| && s.reservations[r].id == id {
      SettleAnswer(h, s, r, epoch);
    }
  }

  lemma {:induction false} CancelGuarantees(s: State, id: Digest, epoch: Amount)
    requires Inv(s)
    ensures CancelReplies(s, Cancel(s, id, epoch), id, epoch)
  {
    hide Inv, Cancel, CancelChecks, Verdict, AllPass, Refunds;
    forall r | 0 <= r < |s.reservations| && s.reservations[r].id == id {
      CancelAnswer(s, r, epoch);
    }
  }
}
