/** Every ledger operation as a total function on states: the same guards, the same order of writes and the same partial
    effects on failure as src/ledger.c and src/intent.c. */
module LedgerSteps {
  import opened Amounts
  import opened Digests
  import opened Routes
  import opened LedgerTypes
  import opened Exposure

  /** A status together with what the operation left behind, on failure too. */
  datatype Posted<+T> = Posted(status: Status, after: T)

  type Outcome = Posted<State>

  // ---------- Postings ----------

  function WithBalance(accounts: seq<Account>, i: nat, k: nat, balance: Amount): (changed: seq<Account>)
    requires i < |accounts| && k < MAX_ASSETS
    ensures |changed| == |accounts|
  {
    accounts[i := accounts[i].(balances := accounts[i].balances[k := balance])]
  }

  function Debit(assets: AssetList, accounts: seq<Account>, accountId: Digest, assetId: Digest, amount: Amount)
    : Posted<seq<Account>>
  {
    var k, i := AssetAt(assets, assetId), AccountAt(accounts, accountId);
    if k.None? || i.None? then Posted(ErrNotFound, accounts)
    else
      match Sub(accounts[i.value].balances[k.value], amount)
      case Failure(_) => Posted(ErrBalance, accounts)
      case Success(updated) => Posted(Ok, WithBalance(accounts, i.value, k.value, updated))
  }

  function Credit(assets: AssetList, accounts: seq<Account>, accountId: Digest, assetId: Digest, amount: Amount)
    : Posted<seq<Account>>
  {
    var k, i := AssetAt(assets, assetId), AccountAt(accounts, accountId);
    if k.None? || i.None? then Posted(ErrNotFound, accounts)
    else
      match Add(accounts[i.value].balances[k.value], amount)
      case Failure(_) => Posted(ErrPolicy, accounts)
      case Success(updated) => Posted(Ok, WithBalance(accounts, i.value, k.value, updated))
  }

  function CreditVault(vaults: seq<Vault>, vaultId: Digest, amount: Amount): Posted<seq<Vault>> {
    match VaultAt(vaults, vaultId)
    case None => Posted(ErrNotFound, vaults)
    case Some(v) =>
      match Add(vaults[v].balance, amount)
      case Failure(_) => Posted(ErrPolicy, vaults)
      case Success(updated) => Posted(Ok, vaults[v := vaults[v].(balance := updated)])
  }

  function AppendJournal(journal: seq<JournalEntry>, epoch: Amount, event: Event, subject: Digest, amount: Amount)
    : Posted<seq<JournalEntry>>
  {
    if |journal| >= MAX_JOURNAL then Posted(ErrCapacity, journal)
    else Posted(Ok, journal + [JournalEntry(epoch, event, subject, amount)])
  }

  // ---------- Pending amounts along a route ----------

  function ApplyPending(current: Amount, delta: Amount, release: bool): Result<Amount> {
    if release then Sub(current, delta) else Add(current, delta)
  }

  /** One hop: both vaults are computed before either is written. */
  function UpdateHop(vaults: seq<Vault>, hop: Hop, release: bool): (r: Posted<seq<Vault>>)
    ensures |r.after| == |vaults|
  {
    var i, j := VaultAt(vaults, hop.fromVault), VaultAt(vaults, hop.toVault);
    if i.None? || j.None? then Posted(ErrNotFound, vaults)
    else
      var outgoing := ApplyPending(vaults[i.value].pendingOut, hop.amountHint, release);
      var incoming := ApplyPending(vaults[j.value].pendingIn, hop.amountHint, release);
      if outgoing.Failure? || incoming.Failure? then Posted(ErrState, vaults)
      else
        var sent := vaults[i.value := vaults[i.value].(pendingOut := outgoing.value)];
        Posted(Ok, sent[j.value := sent[j.value].(pendingIn := incoming.value)])
  }

  /** The whole route, hop by hop; a failing hop leaves the earlier ones applied. */
  function UpdateRoutePending(vaults: seq<Vault>, hops: seq<Hop>, release: bool): (r: Posted<seq<Vault>>)
    ensures |r.after| == |vaults|
    decreases |hops|
  {
    if |hops| == 0 then Posted(Ok, vaults)
    else
      var first := UpdateHop(vaults, hops[0], release);
      if first.status != Ok then first else UpdateRoutePending(first.after, hops[1..], release)
  }

  // ---------- Building the catalogue ----------

  function AddAsset(h: Hashes, s: State, symbol: string): Outcome {
    if symbol == "" then Posted(ErrArgument, s)
    else if |s.assets| >= MAX_ASSETS then Posted(ErrCapacity, s)
    else
      var id := h.asset(symbol);
      if AssetAt(s.assets, id).Some? then Posted(ErrDuplicate, s)
      else Posted(Ok, s.(assets := s.assets + [id]))
  }

  function NewAccount(id: Digest, verifier: Digest): Account {
    Account(id, verifier, [0, 0, 0, 0], 0, true)
  }

  function AddAccount(h: Hashes, s: State, name: string): Outcome {
    if name == "" then Posted(ErrArgument, s)
    else if |s.accounts| >= MAX_ACCOUNTS then Posted(ErrCapacity, s)
    else
      var (id, verifier) := h.identity(name);
      if AccountAt(s.accounts, id).Some? then Posted(ErrDuplicate, s)
      else Posted(Ok, s.(accounts := s.accounts + [NewAccount(id, verifier)]))
  }

  function AddVault(h: Hashes, s: State, name: string, assetId: Digest, initial: Amount): Outcome {
    if name == "" then Posted(ErrArgument, s)
    else if |s.vaults| >= MAX_VAULTS then Posted(ErrCapacity, s)
    else
      match AssetAt(s.assets, assetId)
      case None => Posted(ErrNotFound, s)
      case Some(k) =>
        var id := h.vault(name, assetId);
        if VaultAt(s.vaults, id).Some? then Posted(ErrDuplicate, s)
        else
          match Add(s.issued[k], initial)
          case Failure(_) => Posted(ErrPolicy, s)
          case Success(issued) =>
            Posted(Ok, s.(vaults := s.vaults + [Vault(id, assetId, initial, 0, 0, true)],
                   issued := s.issued[k := issued]))
  }

  function AddLane(h: Hashes, s: State, name: string, assetId: Digest, source: Digest, sink: Digest,
                   terminal: Digest, laneClass: LaneClass, operatorFeeBps: U32, reserveBps: U32): Outcome
  {
    if |s.lanes| >= MAX_LANES then Posted(ErrCapacity, s)
    else if operatorFeeBps + reserveBps > BPS then Posted(ErrPolicy, s)
    else if AssetAt(s.assets, assetId).None? || VaultAt(s.vaults, source).None?
            || VaultAt(s.vaults, sink).None? || AccountAt(s.accounts, terminal).None?
    then Posted(ErrNotFound, s)
    else
      var id := h.lane(name, assetId);
      if LaneAt(s.lanes, id).Some? then Posted(ErrDuplicate, s)
      else
        var lane := Lane(id, assetId, source, sink, terminal, laneClass, operatorFeeBps, reserveBps, true);
        Posted(Ok, s.(lanes := s.lanes + [lane]))
  }

  /** The balance is written before the issued supply is checked. */
  function Deposit(s: State, accountId: Digest, assetId: Digest, amount: Amount): Outcome {
    var credited := Credit(s.assets, s.accounts, accountId, assetId, amount);
    if credited.status != Ok then Posted(credited.status, s)
    else
      var k := AssetAt(s.assets, assetId).value;
      var s1 := s.(accounts := credited.after);
      match Add(s1.issued[k], amount)
      case Failure(_) => Posted(ErrPolicy, s1)
      case Success(issued) =>
        var s2 := s1.(issued := s1.issued[k := issued]);
        var posted := AppendJournal(s2.journal, s2.epoch, Deposited, accountId, amount);
        Posted(posted.status, s2.(journal := posted.after))
  }

  // ---------- Reserving ----------

  function HopStatus(s: State, terms: Terms, hop: Hop): Status {
    var lane, from, to := LaneAt(s.lanes, hop.lane), VaultAt(s.vaults, hop.fromVault), VaultAt(s.vaults, hop.toVault);
    if lane.None? || from.None? || to.None? then ErrNotFound
    else if s.lanes[lane.value].assetId != terms.assetId || s.vaults[from.value].assetId != terms.assetId
            || s.vaults[to.value].assetId != terms.assetId
    then ErrPolicy
    else if hop.weightBps > BPS || hop.amountHint > terms.gross then ErrPolicy
      else Ok
  }

  function HopsStatus(s: State, terms: Terms, hops: seq<Hop>): (status: Status)
    ensures status == Ok <==> forall i | 0 <= i < |hops| :: HopStatus(s, terms, hops[i]) == Ok
  {
    if |hops| == 0 then Ok
    else
      var first := HopStatus(s, terms, hops[0]);
      if first != Ok then first else HopsStatus(s, terms, hops[1..])
  }

  function PlanStatus(s: State, terms: Terms): Status {
    var plan := terms.plan;
    if |plan.hops| == 0 || |plan.hops| > MAX_ROUTE_HOPS then ErrPolicy
    else
      match LaneAt(s.lanes, plan.settlementLane)
      case None => ErrNotFound
      case Some(l) =>
        var lane := s.lanes[l];
        if !lane.active then ErrNotFound
        else if lane.assetId != terms.assetId then ErrPolicy
        else if lane.terminalAccount != plan.beneficiary then ErrPolicy
        else if AccountAt(s.accounts, plan.beneficiary).None? || AccountAt(s.accounts, plan.operatorAccount).None?
        then ErrNotFound
        else if lane.operatorFeeBps + lane.reserveBps > plan.maxFeeBps then ErrPolicy
          else HopsStatus(s, terms, plan.hops)
  }

  function SignatureStatus(h: Hashes, s: State, signed: SignedIntent): Status {
    match AccountAt(s.accounts, signed.terms.payer)
    case None => ErrNotFound
    case Some(p) =>
      var payer := s.accounts[p];
      if payer.id == signed.signature.signer
         && h.seal(payer.verifier, signed.terms) == signed.signature.authenticator
      then Ok else ErrSignature
  }

  /** Every check made before the first write. */
  function AdmissionStatus(h: Hashes, s: State, signed: SignedIntent): Status {
    var terms := signed.terms;
    if |s.reservations| >= MAX_RESERVATIONS then ErrCapacity
    else if SignatureStatus(h, s, signed) != Ok then SignatureStatus(h, s, signed)
    else if terms.networkId != s.networkId then ErrPolicy
    else if terms.deadline < s.epoch then ErrExpired
    else if s.accounts[AccountAt(s.accounts, terms.payer).value].intentNonce != terms.payerNonce then ErrDuplicate
    else if PlanStatus(s, terms) != Ok then PlanStatus(s, terms)
    else if IntentKnown(s.reservations, terms.intentId) then ErrDuplicate
    else if BalanceOf(s, terms.payer, terms.assetId) < terms.gross then ErrBalance
    else Ok
  }

  function WithNextNonce(accounts: seq<Account>, i: nat): (changed: seq<Account>)
    requires i < |accounts|
    ensures |changed| == |accounts|
  {
    accounts[i := accounts[i].(intentNonce := Wrap64(accounts[i].intentNonce + 1))]
  }

  function NewReservation(h: Hashes, terms: Terms, epoch: Amount): Reservation {
    var route := h.plan(terms.plan);
    Reservation(h.reservation(terms.intentId, route), terms.intentId, terms.payer, terms.assetId, terms.gross,
                terms.plan, route, terms.deadline, epoch, Reserved)
  }

  function Reserve(h: Hashes, s: State, signed: SignedIntent): Outcome {
    var terms := signed.terms;
    var admission := AdmissionStatus(h, s, signed);
    if admission != Ok then Posted(admission, s)
    else
      var pending := UpdateRoutePending(s.vaults, terms.plan.hops, false);
      var s1 := s.(vaults := pending.after);
      if pending.status != Ok then Posted(pending.status, s1)
      else
        var reservation := NewReservation(h, terms, s.epoch);
        if ReservationAt(s1.reservations, reservation.id).Some? then
          Posted(ErrDuplicate, s1.(vaults := UpdateRoutePending(s1.vaults, terms.plan.hops, true).after))
        else
          var debited := Debit(s1.assets, s1.accounts, terms.payer, terms.assetId, terms.gross);
          if debited.status != Ok then
            Posted(debited.status, s1.(vaults := UpdateRoutePending(s1.vaults, terms.plan.hops, true).after))
          else
            ReserveCommit(s1.(accounts := debited.after), reservation)
  }

  function ReserveCommit(s: State, reservation: Reservation): Outcome {
    var p := AccountAt(s.accounts, reservation.payer);
    if p.None? then Posted(ErrNotFound, s)
    else
      var s1 := s.(accounts := WithNextNonce(s.accounts, p.value), reservations := s.reservations + [reservation]);
      var posted := AppendJournal(s1.journal, s1.epoch, ReservedIntent, reservation.id, reservation.gross);
      var s2 := s1.(journal := posted.after);
      if posted.status != Ok then Posted(posted.status, s2)
      else if !ConservationOk(s2, reservation.assetId) then Posted(ErrState, s2)
      else Posted(Ok, s2)
  }

  // ---------- Settling ----------

  datatype Quote = Quote(
    lane: Digest, beneficiary: Digest, gross: Amount, operatorFee: Amount, reserveFee: Amount, net: Amount)

  /** The recovery premium a lane adds to its reserve fee. */
  function Premium(s: State, lane: Lane, hops: seq<Hop>): Result<Amount> {
    if lane.laneClass != Recovery then Success(0)
    else if RouteCharge(s.vaults, hops).Failure? then Failure(ErrPolicy)
    else RouteCharge(s.vaults, hops)
  }

  function PriceOn(lane: Lane, gross: Amount, maxFeeBps: U32, minNet: Amount, premium: Result<Amount>): Result<Quote> {
    var operatorFee :- MulBps(gross, lane.operatorFeeBps);
    var reserveBase :- MulBps(gross, lane.reserveBps);
    var charge :- premium;
    var reserveFee :- Add(reserveBase, charge);
    var feeTotal :- Add(operatorFee, reserveFee);
    var allowed :- MulBps(gross, maxFeeBps);
    if feeTotal > allowed then Failure(ErrPolicy)
    else if Sub(gross, feeTotal).Failure? then Failure(ErrPolicy)
    else if gross - feeTotal < minNet then Failure(ErrPolicy)
    else Success(Quote(lane.id, lane.terminalAccount, gross, operatorFee, reserveFee, gross - feeTotal))
  }

  function QuoteSettlement(s: State, reservation: Reservation, compacted: CompactedPlan): Result<Quote> {
    match LaneAt(s.lanes, compacted.effectiveLane)
    case None => Failure(ErrNotFound)
    case Some(l) =>
      var lane, plan := s.lanes[l], reservation.plan;
      if !lane.active then Failure(ErrNotFound)
      else if lane.assetId != reservation.assetId then Failure(ErrPolicy)
      else if lane.terminalAccount != plan.beneficiary || compacted.effectiveBeneficiary != plan.beneficiary
              || compacted.effectiveLane != plan.settlementLane
      then Failure(ErrPolicy)
      else
        var quote :- PriceOn(lane, reservation.gross, plan.maxFeeBps, plan.minNet,
                             Premium(s, lane, compacted.plan.hops));
        if AccountAt(s.accounts, quote.beneficiary).None? || AccountAt(s.accounts, plan.operatorAccount).None?
        then Failure(ErrNotFound)
        else Success(quote)
  }

  function NewReceipt(h: Hashes, reservation: Reservation, compacted: CompactedPlan, quote: Quote,
                      epoch: Amount): Receipt {
    var unsealed := Receipt(ZERO_DIGEST, reservation.id, quote.lane, quote.beneficiary, compacted.digestAfter,
                            quote.gross, quote.net, quote.operatorFee, quote.reserveFee, epoch);
    unsealed.(id := h.receipt(unsealed))
  }

  /** The checks a settlement makes before it compacts the route. */
  function SettleGuard(s: State, id: Digest, epoch: Amount): (status: Status)
    ensures status == Ok ==> ReservationAt(s.reservations, id).Some?
  {
    if |s.receipts| >= MAX_RECEIPTS then ErrCapacity
    else
      match ReservationAt(s.reservations, id)
      case None => ErrNotFound
      case Some(r) =>
        var reservation := s.reservations[r];
        if reservation.state != Reserved then ErrState
        else if epoch < reservation.plan.settleAfter then ErrPolicy
        else if epoch > reservation.deadline then ErrExpired
        else Ok
  }

  function QuoteFor(h: Hashes, s: State, reservation: Reservation): (r: Result<Quote>)
    ensures r.Success? ==> Compact(h.plan, reservation.plan).Success?
  {
    var compacted :- Compact(h.plan, reservation.plan);
    QuoteSettlement(s, reservation, compacted)
  }

  /** Every check made before the first write, ending in the quote. */
  function SettlementQuote(h: Hashes, s: State, id: Digest, epoch: Amount): (r: Result<Quote>)
    ensures r.Success? ==> ReservationAt(s.reservations, id).Some?
    ensures r.Success? ==> Compact(h.plan, s.reservations[ReservationAt(s.reservations, id).value].plan).Success?
  {
    if SettleGuard(s, id, epoch) != Ok then Failure(SettleGuard(s, id, epoch))
    else QuoteFor(h, s, s.reservations[ReservationAt(s.reservations, id).value])
  }

  function Settle(h: Hashes, s: State, id: Digest, epoch: Amount): Outcome {
    match SettlementQuote(h, s, id, epoch)
    case Failure(error) => Posted(error, s)
    case Success(quote) =>
      var r := ReservationAt(s.reservations, id).value;
      var compacted := Compact(h.plan, s.reservations[r].plan).value;
      SettleQuoted(s, r, quote, NewReceipt(h, s.reservations[r], compacted, quote, epoch))
  }

  /** Everything settlement writes, in order; each posting can still refuse. */
  function SettleQuoted(s: State, r: nat, quote: Quote, receipt: Receipt): Outcome
    requires r < |s.reservations|
  {
    var reservation := s.reservations[r];
    var released := UpdateRoutePending(s.vaults, reservation.plan.hops, true);
    var s1 := s.(vaults := released.after);
    if released.status != Ok then Posted(released.status, s1)
    else
      match LaneAt(s1.lanes, quote.lane)
      case None => Posted(ErrNotFound, s1)
      case Some(l) =>
        var paid := Credit(s1.assets, s1.accounts, quote.beneficiary, reservation.assetId, quote.net);
        var s2 := s1.(accounts := paid.after);
        if paid.status != Ok then Posted(paid.status, s2)
        else
          var feed := Credit(s2.assets, s2.accounts, reservation.plan.operatorAccount, reservation.assetId,
                             quote.operatorFee);
          var s3 := s2.(accounts := feed.after);
          if feed.status != Ok then Posted(feed.status, s3)
          else
            var sunk := CreditVault(s3.vaults, s1.lanes[l].sinkVault, quote.reserveFee);
            var s4 := s3.(vaults := sunk.after);
            if sunk.status != Ok then Posted(sunk.status, s4)
            else SettleCommit(s4, r, receipt)
  }

  function SettleCommit(s: State, r: nat, receipt: Receipt): Outcome
    requires r < |s.reservations|
  {
    var s1 := s.(reservations := s.reservations[r := s.reservations[r].(state := Settled)],
              epoch := receipt.epoch, receipts := s.receipts + [receipt]);
    var posted := AppendJournal(s1.journal, receipt.epoch, SettledReservation, receipt.id, receipt.gross);
    var s2 := s1.(journal := posted.after);
    if posted.status != Ok then Posted(posted.status, s2)
    else if !ConservationOk(s2, s.reservations[r].assetId) then Posted(ErrState, s2)
    else Posted(Ok, s2)
  }

  // ---------- Cancelling ----------

  function CancelStatus(s: State, id: Digest, epoch: Amount): (status: Status)
    ensures status == Ok ==> ReservationAt(s.reservations, id).Some?
  {
    match ReservationAt(s.reservations, id)
    case None => ErrNotFound
    case Some(r) =>
      var reservation := s.reservations[r];
      if reservation.state != Reserved then ErrState
      else if epoch < reservation.reservedEpoch then ErrPolicy
      else if reservation.plan.settleAfter <= epoch <= reservation.deadline then ErrPolicy
      else Ok
  }

  function Cancel(s: State, id: Digest, epoch: Amount): Outcome {
    if CancelStatus(s, id, epoch) != Ok then Posted(CancelStatus(s, id, epoch), s)
    else
      var r := ReservationAt(s.reservations, id).value;
      var reservation := s.reservations[r];
      var released := UpdateRoutePending(s.vaults, reservation.plan.hops, true);
      var s1 := s.(vaults := released.after);
      if released.status != Ok then Posted(released.status, s1)
      else
        var refunded := Credit(s1.assets, s1.accounts, reservation.payer, reservation.assetId, reservation.gross);
        var s2 := s1.(accounts := refunded.after);
        if refunded.status != Ok then Posted(refunded.status, s2)
        else CancelCommit(s2, r, epoch)
  }

  function CancelCommit(s: State, r: nat, epoch: Amount): Outcome
    requires r < |s.reservations|
  {
    var reservation := s.reservations[r];
    var s1 := s.(reservations := s.reservations[r := reservation.(state := Cancelled)], epoch := epoch);
    var posted := AppendJournal(s1.journal, epoch, CancelledReservation, reservation.id, reservation.gross);
    var s2 := s1.(journal := posted.after);
    if posted.status != Ok then Posted(posted.status, s2)
    else Posted(if ConservationOk(s2, reservation.assetId) then Ok else ErrState, s2)
  }

  // ---------- Commands ----------

  datatype Command =
    | CAddAsset(symbol: string)
    | CAddAccount(accountName: string)
    | CAddVault(vaultName: string, vaultAsset: Digest, initial: Amount)
    | CAddLane(laneName: string, laneAsset: Digest, source: Digest, sink: Digest, terminal: Digest,
               laneClass: LaneClass, operatorFeeBps: U32, reserveBps: U32)
    | CDeposit(account: Digest, asset: Digest, amount: Amount)
    | CReserve(signed: SignedIntent)
    | CSettle(settleId: Digest, settleEpoch: Amount)
    | CCancel(cancelId: Digest, cancelEpoch: Amount)

  function Step(h: Hashes, s: State, c: Command): Outcome {
    match c
    case CAddAsset(symbol) => AddAsset(h, s, symbol)
    case CAddAccount(name) => AddAccount(h, s, name)
    case CAddVault(name, asset, initial) => AddVault(h, s, name, asset, initial)
    case CAddLane(name, asset, source, sink, terminal, laneClass, operatorFeeBps, reserveBps) =>
      AddLane(h, s, name, asset, source, sink, terminal, laneClass, operatorFeeBps, reserveBps)
    case CDeposit(account, asset, amount) => Deposit(s, account, asset, amount)
    case CReserve(signed) => Reserve(h, s, signed)
    case CSettle(id, epoch) => Settle(h, s, id, epoch)
    case CCancel(id, epoch) => Cancel(s, id, epoch)
  }
}
