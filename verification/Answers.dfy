/** What every operation answers and leaves behind: its checks as a table over the records of the ledger, in the order
    in which they speak, and the records it writes once all of them pass. */
module Answers {
  import opened Amounts
  import opened Digests
  import opened Sums
  import opened Routes
  import opened LedgerTypes
  import opened LedgerSteps
  import opened LedgerInvariant
  import opened PendingProofs
  import opened PostingProofs
  import opened ClosingProofs
  import opened ReserveProofs
  import opened SettleProofs
  import opened CatalogProofs
  import opened Verdicts
  import opened Admission
  import opened Prices
  import opened Receipts

  // ---------- Postings ----------

  function PostingChecks(assets: AssetList, accounts: seq<Account>, id: Digest, assetId: Digest, fits: bool,
                         otherwise: Error): seq<Check>
  {
    [Check(assetId in assets && AccountAt(accounts, id).Some?, ErrNotFound), Check(fits, otherwise)]
  }

  /** The balance a posting finds; nothing where there is none. */
  function Balance(assets: AssetList, accounts: seq<Account>, id: Digest, assetId: Digest): nat {
    var k, i := AssetAt(assets, assetId), AccountAt(accounts, id);
    if k.None? || i.None? then 0 else accounts[i.value].balances[k.value]
  }

  /** A debit is refused for an unknown asset or account, or a balance below the amount; it lowers one balance. */
  lemma DebitAnswer(assets: AssetList, accounts: seq<Account>, id: Digest, assetId: Digest, amount: Amount)
    requires AccountsOk(accounts)
    ensures var r, balance := Debit(assets, accounts, id, assetId, amount), Balance(assets, accounts, id, assetId);
            && r.status == Verdict(PostingChecks(assets, accounts, id, assetId, amount <= balance, ErrBalance))
            && if r.status != Ok then r.after == accounts
               else
                 && AssetAt(assets, assetId).Some?
                 && AccountsGain(r.after, accounts, AssetAt(assets, assetId).value, To(id, amount))
  {
    var fits := amount <= Balance(assets, accounts, id, assetId);
    VerdictOfTwo(PostingChecks(assets, accounts, id, assetId, fits, ErrBalance));
    hide Verdict, AccountsGain, WithBalance;
    if AssetAt(assets, assetId).Some? && AccountAt(accounts, id).Some? && fits {
      DebitEffect(assets, accounts, id, assetId, amount);
    }
  }

  /** A credit is refused for an unknown asset or account, or a balance beyond 64 bits; it raises one balance. */
  lemma CreditAnswer(assets: AssetList, accounts: seq<Account>, id: Digest, assetId: Digest, amount: Amount)
    requires AccountsOk(accounts)
    ensures var r, balance := Credit(assets, accounts, id, assetId, amount), Balance(assets, accounts, id, assetId);
            && r.status == Verdict(PostingChecks(assets, accounts, id, assetId, balance + amount <= U64_MAX, ErrPolicy))
            && if r.status != Ok then r.after == accounts
               else
                 && AssetAt(assets, assetId).Some?
                 && AccountsGain(accounts, r.after, AssetAt(assets, assetId).value, To(id, amount))
  {
    var fits := Balance(assets, accounts, id, assetId) + amount <= U64_MAX;
    VerdictOfTwo(PostingChecks(assets, accounts, id, assetId, fits, ErrPolicy));
    hide Verdict, AccountsGain, WithBalance, Sum;
    if AssetAt(assets, assetId).Some? && AccountAt(accounts, id).Some? {
      CreditOutcome(assets, accounts, id, assetId, amount);
    }
  }

  /** Crediting a vault changes its balance and nothing else. */
  lemma CreditVaultAnswer(vaults: seq<Vault>, id: Digest, amount: Amount)
    ensures var r, v := CreditVault(vaults, id, amount), VaultAt(vaults, id);
            && r.status == (if v.None? then ErrNotFound
                            else if vaults[v.value].balance + amount > U64_MAX then ErrPolicy else Ok)
            && if r.status != Ok then r.after == vaults
               else r.after == vaults[v.value := vaults[v.value].(balance := r.after[v.value].balance)]
                    && r.after[v.value].balance == vaults[v.value].balance + amount
  {
  }

  function PendingChecks(vaults: seq<Vault>, hop: Hop, release: bool): seq<Check> {
    var i, j := VaultAt(vaults, hop.fromVault), VaultAt(vaults, hop.toVault);
    var out := if i.Some? then vaults[i.value].pendingOut else 0;
    var inn := if j.Some? then vaults[j.value].pendingIn else 0;
    [Check(i.Some? && j.Some?, ErrNotFound),
     Check(if release then hop.amountHint <= out && hop.amountHint <= inn
           else out + hop.amountHint <= U64_MAX && inn + hop.amountHint <= U64_MAX, ErrState)]
  }

  /** A hop moves the outgoing amount of its source and the incoming amount of its target, both or neither. */
  lemma {:induction false} PendingAnswer(vaults: seq<Vault>, hop: Hop, release: bool)
    requires VaultsOk(vaults)
    ensures var r := UpdateHop(vaults, hop, release);
            && r.status == Verdict(PendingChecks(vaults, hop, release))
            && if r.status != Ok then r.after == vaults
               else if release then Raised(r.after, vaults, [hop]) else Raised(vaults, r.after, [hop])
  {
    VerdictOfTwo(PendingChecks(vaults, hop, release));
    hide Verdict, Raised, VaultsOk;
    if VaultAt(vaults, hop.fromVault).Some? && VaultAt(vaults, hop.toVault).Some? {
      UpdateHopEffect(vaults, hop, release);
    }
  }

  // ---------- Growing the catalogue ----------

  function AssetChecks(h: Hashes, s: State, symbol: string): seq<Check> {
    [Check(symbol != "", ErrArgument),
     Check(|s.assets| < MAX_ASSETS, ErrCapacity),
     Check(forall k | 0 <= k < |s.assets| :: s.assets[k] != h.asset(symbol), ErrDuplicate)]
  }

  lemma AddAssetAnswer(h: Hashes, s: State, symbol: string)
    ensures var o, id := AddAsset(h, s, symbol), h.asset(symbol);
            && o.status == Verdict(AssetChecks(h, s, symbol))
            && (o.status == Ok ==> |s.assets| < MAX_ASSETS)
            && o.after == if o.status == Ok then s.(assets := s.assets + [id]) else s
  {
    hide Verdict;
    VerdictOfThree(AssetChecks(h, s, symbol));
  }

  function AccountChecks(h: Hashes, s: State, name: string): seq<Check> {
    [Check(name != "", ErrArgument),
     Check(|s.accounts| < MAX_ACCOUNTS, ErrCapacity),
     Check(forall i | 0 <= i < |s.accounts| && s.accounts[i].active :: s.accounts[i].id != h.identity(name).0,
           ErrDuplicate)]
  }

  /** A new account holds nothing and has signed nothing. */
  lemma AddAccountAnswer(h: Hashes, s: State, name: string)
    ensures var o, (id, verifier) := AddAccount(h, s, name), h.identity(name);
            && o.status == Verdict(AccountChecks(h, s, name))
            && o.after == if o.status == Ok
                          then s.(accounts := s.accounts + [Account(id, verifier, [0, 0, 0, 0], 0, true)]) else s
  {
    hide Verdict;
    VerdictOfThree(AccountChecks(h, s, name));
  }

  /** What is issued of an asset; nothing of an unknown one. */
  function Supply(s: State, assetId: Digest): nat {
    if AssetAt(s.assets, assetId).None? then 0 else s.issued[AssetAt(s.assets, assetId).value]
  }

  function VaultChecks(h: Hashes, s: State, name: string, assetId: Digest, initial: Amount): seq<Check> {
    [Check(name != "", ErrArgument),
     Check(|s.vaults| < MAX_VAULTS, ErrCapacity),
     Check(assetId in s.assets, ErrNotFound),
     Check(forall v | 0 <= v < |s.vaults| && s.vaults[v].active :: s.vaults[v].id != h.vault(name, assetId),
           ErrDuplicate),
     Check(Supply(s, assetId) + initial <= U64_MAX, ErrPolicy)]
  }

  /** A new vault holds its initial balance, which is issued, and nothing is pending there. */
  lemma AddVaultAnswer(h: Hashes, s: State, name: string, assetId: Digest, initial: Amount)
    ensures var o := AddVault(h, s, name, assetId, initial);
            && o.status == Verdict(VaultChecks(h, s, name, assetId, initial))
            && if o.status != Ok then o.after == s
               else
                 && AssetAt(s.assets, assetId).Some? && Supply(s, assetId) + initial <= U64_MAX
                 && o.after == s.(vaults := s.vaults + [Vault(h.vault(name, assetId), assetId, initial, 0, 0, true)],
                               issued := s.issued[AssetAt(s.assets, assetId).value := Supply(s, assetId) + initial])
  {
    hide Verdict;
    VerdictOfFive(VaultChecks(h, s, name, assetId, initial));
  }

  function LaneChecks(h: Hashes, s: State, lane: Lane): seq<Check> {
    [Check(|s.lanes| < MAX_LANES, ErrCapacity),
     Check(lane.operatorFeeBps + lane.reserveBps <= BPS, ErrPolicy),
     Check(&& lane.assetId in s.assets && VaultAt(s.vaults, lane.sourceVault).Some?
           && VaultAt(s.vaults, lane.sinkVault).Some? && AccountAt(s.accounts, lane.terminalAccount).Some?,
           ErrNotFound),
     Check(forall l | 0 <= l < |s.lanes| && s.lanes[l].active :: s.lanes[l].id != lane.id, ErrDuplicate)]
  }

  /** A new lane is the record of the arguments. */
  lemma AddLaneAnswer(h: Hashes, s: State, name: string, assetId: Digest, source: Digest, sink: Digest,
                      terminal: Digest, laneClass: LaneClass, operatorFeeBps: U32, reserveBps: U32)
    ensures var o := AddLane(h, s, name, assetId, source, sink, terminal, laneClass, operatorFeeBps, reserveBps);
            var lane := Lane(h.lane(name, assetId), assetId, source, sink, terminal, laneClass, operatorFeeBps,
                             reserveBps, true);
            && o.status == Verdict(LaneChecks(h, s, lane))
            && o.after == if o.status == Ok then s.(lanes := s.lanes + [lane]) else s
  {
    hide Verdict;
    VerdictOfFour(LaneChecks(h, s, Lane(h.lane(name, assetId), assetId, source, sink, terminal, laneClass,
                                        operatorFeeBps, reserveBps, true)));
  }

  // ---------- Depositing ----------

  function DepositChecks(s: State, accountId: Digest, assetId: Digest, amount: Amount): seq<Check> {
    [Check(assetId in s.assets && AccountAt(s.accounts, accountId).Some?, ErrNotFound),
     Check(BalanceOf(s, accountId, assetId) + amount <= U64_MAX, ErrPolicy),
     Check(Supply(s, assetId) + amount <= U64_MAX, ErrPolicy),
     Check(|s.journal| < MAX_JOURNAL, ErrCapacity)]
  }

  /** The balance is credited after two checks, the supply and the journal written after the third. */
  lemma {:induction false} DepositAnswer(s: State, accountId: Digest, assetId: Digest, amount: Amount)
    requires AccountsOk(s.accounts)
    ensures var o, checks := Deposit(s, accountId, assetId, amount), DepositChecks(s, accountId, assetId, amount);
            && o.status == Verdict(checks)
            && if !checks[0].passes || !checks[1].passes then o.after == s
               else
                 && AssetAt(s.assets, assetId).Some?
                 && var k := AssetAt(s.assets, assetId).value;
                 && AccountsGain(s.accounts, o.after.accounts, k, To(accountId, amount))
                 && if !checks[2].passes then o.after == s.(accounts := o.after.accounts)
                    else
                      && Supply(s, assetId) + amount <= U64_MAX
                      && o.after == s.(accounts := o.after.accounts,
                                    issued := s.issued[k := Supply(s, assetId) + amount],
                                    journal := Journaled(s, JournalEntry(s.epoch, Deposited, accountId, amount)))
  {
    VerdictOfFour(DepositChecks(s, accountId, assetId, amount));
    hide Verdict, AccountsGain, WithBalance, Sum;
    if Depositable(s, accountId, assetId, amount) {
      DepositCredits(s, accountId, assetId, amount);
    }
  }

  // ---------- Reserving ----------

  /** The reservation an intent becomes. */
  function Filed(h: Hashes, terms: Terms, epoch: Amount): Reservation {
    Reservation(h.reservation(terms.intentId, h.plan(terms.plan)), terms.intentId, terms.payer, terms.assetId,
                terms.gross, terms.plan, h.plan(terms.plan), terms.deadline, epoch, Reserved)
  }

  /** What is checked after the first write. */
  function FilingChecks(h: Hashes, s: State, terms: Terms): seq<Check> {
    [Check(RouteFits(s.vaults, terms.plan.hops), ErrState),
     Check(forall r | 0 <= r < |s.reservations| :: s.reservations[r].id != Filed(h, terms, s.epoch).id, ErrDuplicate),
     Check(|s.journal| < MAX_JOURNAL, ErrCapacity)]
  }

  function ReserveChecks(h: Hashes, s: State, signed: SignedIntent): seq<Check> {
    AdmissionChecks(h, s, signed) + FilingChecks(h, s, signed.terms)
  }

  /** A reserve call from a valid ledger is answered by the first check that fails. Only a lack of room for pending
      amounts can leave a trace; once only the journal can refuse, the payer is debited the gross amount, its nonce
      advances, the route is pending, and the reservation is filed. */
  lemma {:induction false} ReserveAnswer(h: Hashes, s: State, signed: SignedIntent)
    requires Inv(s)
    ensures var o, terms := Reserve(h, s, signed), signed.terms;
            var filing := FilingChecks(h, s, terms);
            && o.status == Verdict(ReserveChecks(h, s, signed))
            && if !AllPass(AdmissionChecks(h, s, signed)) then o.after == s
               else if !filing[0].passes then
                 o.after == s.(vaults := o.after.vaults) && Risen(s.vaults, o.after.vaults)
               else if !filing[1].passes then o.after == s
               else AssetAt(s.assets, terms.assetId).Some? && Reserves(s, o.after, Filed(h, terms, s.epoch))
  {
    InvParts(s);
    AdmissionAnswer(h, s, signed);
    VerdictOkIff(AdmissionChecks(h, s, signed));
    VerdictConcat(AdmissionChecks(h, s, signed), FilingChecks(h, s, signed.terms));
    VerdictOfThree(FilingChecks(h, s, signed.terms));
    ReserveOutcomes(h, s, signed);
    FiledIsNew(h, signed.terms, s.epoch);
    if AdmissionStatus(h, s, signed) == Ok {
      AdmittedRoute(h, s, signed);
      AddRouteOutcome(s.vaults, signed.terms.plan.hops);
    }
    FilingParts(h, s, signed.terms);
    hide Inv, AdmissionChecks, AdmissionStatus, FilingChecks, Verdict, AllPass, Reserve, Reserves, UpdateRoutePending,
      RouteFits, Raised, Risen, Silent, FirstLoadFits, ReservationOk, Filed, VaultsOk, Routed;
    ReserveChecksUnfold(h, s, signed);
  }

  /** A reserve call that reports success has filed the intent's reservation. */
  lemma {:induction false} AcceptedIsFiled(h: Hashes, s: State, signed: SignedIntent)
    requires Inv(s) && Reserve(h, s, signed).status == Ok
    ensures Reserve(h, s, signed).after.reservations == s.reservations + [Filed(h, signed.terms, s.epoch)]
  {
    ReserveAnswer(h, s, signed);
    ReserveChecksUnfold(h, s, signed);
    VerdictConcat(AdmissionChecks(h, s, signed), FilingChecks(h, s, signed.terms));
    VerdictOkIff(AdmissionChecks(h, s, signed));
    VerdictOfThree(FilingChecks(h, s, signed.terms));
    FilingParts(h, s, signed.terms);
    hide Inv, Reserve, AdmissionChecks, FilingChecks, ReserveChecks, Verdict, Filed, RouteFits, ReservationAt, AllPass,
      AccountsReserve, Raised, Risen;
  }

  lemma ReserveChecksUnfold(h: Hashes, s: State, signed: SignedIntent)
    ensures ReserveChecks(h, s, signed) == AdmissionChecks(h, s, signed) + FilingChecks(h, s, signed.terms)
  {
    hide AdmissionChecks, FilingChecks;
  }

  lemma FiledIsNew(h: Hashes, terms: Terms, epoch: Amount)
    ensures NewReservation(h, terms, epoch) == Filed(h, terms, epoch)
    ensures Filed(h, terms, epoch).assetId == terms.assetId
  {
  }

  lemma FilingParts(h: Hashes, s: State, terms: Terms)
    ensures var filing := FilingChecks(h, s, terms);
            && |filing| == 3
            && filing[0] == Check(RouteFits(s.vaults, terms.plan.hops), ErrState)
            && filing[1] == Check(ReservationAt(s.reservations, Filed(h, terms, s.epoch).id).None?, ErrDuplicate)
            && filing[2] == Check(|s.journal| < MAX_JOURNAL, ErrCapacity)
  {
    hide RouteFits, Filed;
  }

  // ---------- Settling ----------

  function JournalCheck(s: State): Check {
    Check(|s.journal| < MAX_JOURNAL, ErrCapacity)
  }

  /** The parties and the sink are paid these figures, and the receipt is this record. */
  ghost predicate SettledBy(h: Hashes, s: State, t: State, r: nat, epoch: Amount)
    requires Open(s, r)
  {
    var reservation := s.reservations[r];
    var plan := reservation.plan;
    && |t.receipts| == |s.receipts| + 1 && s.receipts <= t.receipts
    && var receipt := Last(t.receipts);
    && Describes(h, s, reservation, epoch, receipt)
    && ClosingProofs.Closes(
         s, t, r, Settled, Both(To(plan.beneficiary, receipt.net), To(plan.operatorAccount, receipt.operatorFee)),
         To(LaneOf(s, plan).sinkVault, receipt.reserveFee))
    && t.epoch == epoch
    && t.journal == Journaled(s, JournalEntry(epoch, SettledReservation, receipt.id, reservation.gross))
  }

  lemma {:induction false} SettlesShows(h: Hashes, s: State, t: State, r: nat, epoch: Amount, quote: Quote,
                                        receipt: Receipt)
    requires Open(s, r) && QuoteOk(s, r, quote) && Settles(s, t, r, quote, receipt)
    requires Describes(h, s, s.reservations[r], epoch, receipt) && QuotedAs(s, s.reservations[r], quote)
    ensures SettledBy(h, s, t, r, epoch)
  {
    hide AccountsGain, VaultsClear, MaximalRuns, OperatorFee, ReserveFee, Sealed;
    assert quote.net == receipt.net && quote.operatorFee == receipt.operatorFee;
    assert Last(t.receipts) == receipt;
  }

  /** A settlement from a valid ledger is answered by the first check that fails, and then leaves the ledger as it was;
      once only the journal can refuse, everybody is paid and the receipt is written. */
  lemma {:induction false} SettleAnswer(h: Hashes, s: State, r: nat, epoch: Amount)
    requires Inv(s) && r < |s.reservations|
    ensures var o, checks := Settle(h, s, s.reservations[r].id, epoch), QuoteChecks(s, r, epoch);
            && o.status == Verdict(checks + [JournalCheck(s)])
            && if AllPass(checks) then Open(s, r) && SettledBy(h, s, o.after, r, epoch) else o.after == s
  {
    var id := s.reservations[r].id;
    InvParts(s);
    ReservationIsOk(s, r);
    ReservationFound(s.reservations, r);
    RouteCompacts(h, s, r);
    hide *;
    var checks := QuoteChecks(s, r, epoch);
    QuoteAnswer(h, s, r, epoch);
    SettleAllOrNothing(h, s, id, epoch);
    VerdictConcat(checks, [JournalCheck(s)]);
    VerdictOkIff(checks);
    JournalVerdict(s);
    if SettlementQuote(h, s, id, epoch).Success? {
      ReceiptIs(h, s, r, epoch);
      SettlesShows(h, s, Settle(h, s, id, epoch).after, r, epoch, SettlementQuote(h, s, id, epoch).value,
                   ReceiptFor(h, s, id, epoch));
    }
  }

  lemma JournalVerdict(s: State)
    ensures Verdict([JournalCheck(s)]) == JournalStatus(s)
  {
  }

  /** An unknown reservation is neither settled nor cancelled. */
  lemma UnknownAnswer(h: Hashes, s: State, id: Digest, epoch: Amount)
    requires forall r | 0 <= r < |s.reservations| :: s.reservations[r].id != id
    ensures Cancel(s, id, epoch) == Posted(ErrNotFound, s)
    ensures Settle(h, s, id, epoch) == Posted(if |s.receipts| >= MAX_RECEIPTS then ErrCapacity else ErrNotFound, s)
  {
    assert ReservationAt(s.reservations, id).None?;
    UnknownQuote(h, s, id, epoch);
    hide SettlementQuote;
  }

  // ---------- Cancelling ----------

  function CancelChecks(s: State, r: nat, epoch: Amount): seq<Check>
    requires r < |s.reservations|
  {
    var reservation := s.reservations[r];
    [Check(reservation.state == Reserved, ErrState),
     Check(reservation.reservedEpoch <= epoch, ErrPolicy),
     Check(epoch < reservation.plan.settleAfter || reservation.deadline < epoch, ErrPolicy)]
  }

  /** A cancellation from a valid ledger is answered by the first check that fails, and then leaves the ledger as it
      was; once only the journal can refuse, the payer has the gross amount back and the route is no longer pending. */
  lemma {:induction false} CancelAnswer(s: State, r: nat, epoch: Amount)
    requires Inv(s) && r < |s.reservations|
    ensures var o, checks := Cancel(s, s.reservations[r].id, epoch), CancelChecks(s, r, epoch);
            && o.status == Verdict(checks + [JournalCheck(s)])
            && if AllPass(checks) then Open(s, r) && Refunds(s, o.after, r, epoch) else o.after == s
  {
    var id, checks := s.reservations[r].id, CancelChecks(s, r, epoch);
    InvParts(s);
    ReservationFound(s.reservations, r);
    CancelVerdict(s, r, epoch);
    CancelRefused(s, id, epoch);
    VerdictConcat(checks, [JournalCheck(s)]);
    VerdictOkIff(checks);
    JournalVerdict(s);
    hide *;
    if CancelStatus(s, id, epoch) == Ok {
      CancelCommits(s, id, epoch);
    }
  }

  lemma CancelVerdict(s: State, r: nat, epoch: Amount)
    requires r < |s.reservations| && ReservationAt(s.reservations, s.reservations[r].id) == Some(r)
    ensures CancelStatus(s, s.reservations[r].id, epoch) == Verdict(CancelChecks(s, r, epoch))
  {
    hide Verdict, ReservationAt;
    VerdictOfThree(CancelChecks(s, r, epoch));
  }

  lemma CancelRefused(s: State, id: Digest, epoch: Amount)
    ensures CancelStatus(s, id, epoch) != Ok ==> Cancel(s, id, epoch) == Posted(CancelStatus(s, id, epoch), s)
  {
    hide CancelStatus;
  }

  // ---------- Published economics ----------

  function EconomicsChecks(s: State, laneId: Digest, gross: Amount): seq<Check> {
    var l := LaneAt(s.lanes, laneId);
    var lane := if l.Some? then s.lanes[l.value]
                else Lane(laneId, laneId, laneId, laneId, laneId, Standard, 0, 0, true);
    [Check(l.Some?, ErrNotFound),
     Check(gross * lane.operatorFeeBps <= U64_MAX && gross * lane.reserveBps <= U64_MAX, ErrPolicy)]
  }

  /** Over sound lanes, the published fees are the floored shares of the amount at the lane's rates, the net is the
      rest, and the published rate is the sum of both. */
  lemma {:induction false} EconomicsAnswer(s: State, laneId: Digest, gross: Amount)
    requires LanesOk(s)
    ensures var r, checks := LaneEconomics(s.lanes, laneId, gross), EconomicsChecks(s, laneId, gross);
            && (r.Failure? ==> r.error == Verdict(checks))
            && (r.Success? <==> AllPass(checks))
            && (r.Success? ==>
                  && LaneAt(s.lanes, laneId).Some?
                  && var lane := s.lanes[LaneAt(s.lanes, laneId).value];
                  && r.value.operatorFee == Fee(gross, lane.operatorFeeBps)
                  && r.value.reserveFee == Fee(gross, lane.reserveBps)
                  && r.value.net + r.value.operatorFee + r.value.reserveFee == gross
                  && r.value.feeBpsTotal == lane.operatorFeeBps + lane.reserveBps)
  {
    var checks := EconomicsChecks(s, laneId, gross);
    EconomicsSplitGross(s, laneId, gross);
    VerdictOkIff(checks);
    VerdictOfTwo(checks);
    if LaneAt(s.lanes, laneId).Some? {
      assert LaneOk(s, s.lanes[LaneAt(s.lanes, laneId).value]);
    }
    hide Verdict, LanesOk, LaneAt, Floor, AllPass;
  }
}
