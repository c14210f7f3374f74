/** Where the money of any run is: an identity between what is observed and what was issued that holds in every
    reachable ledger, whatever was deposited, opened, refused or stopped half-way. */
module Accounting {
  import opened Amounts
  import opened Digests
  import opened Sums
  import opened Routes
  import opened LedgerTypes
  import opened LedgerSteps
  import opened LedgerInvariant
  import opened PendingProofs
  import opened PostingProofs
  import opened ClosingProofs
  import opened ReserveProofs
  import opened SettleProofs
  import opened CatalogProofs
  import opened Runs
  import opened SoundBooks

  // ---------- Sound records are kept ----------

  lemma {:induction false} LaneSoundStays(s: State, t: State, lane: Lane)
    requires Extends(s, t) && LaneSound(s, lane)
    ensures LaneSound(t, lane)
  {
    AssetStays(s.assets, t.assets, lane.assetId);
    VaultStays(s.vaults, t.vaults, lane.sourceVault);
    VaultStays(s.vaults, t.vaults, lane.sinkVault);
    AccountStays(s.accounts, t.accounts, lane.terminalAccount);
  }

  lemma {:induction false} SameLanesSound(s: State, t: State)
    requires LanesSound(s) && Extends(s, t) && t.lanes == s.lanes
    ensures LanesSound(t)
  {
    hide LaneSound, Extends;
    forall l | 0 <= l < |t.lanes|
      ensures LaneSound(t, t.lanes[l])
    {
      LaneSoundStays(s, t, s.lanes[l]);
    }
  }

  /** Posting to accounts, and anything but identity at vaults, keeps the catalogue sound. */
  lemma {:induction false} PostingKeepsCatalog(s: State, t: State, k: nat, gain: Digest -> nat)
    requires Sound(s) && k < |s.assets| && AccountsGain(s.accounts, t.accounts, k, gain)
    requires t.assets == s.assets && t.lanes == s.lanes && t.issued == s.issued
    requires VaultsExtend(s.vaults, t.vaults) && VaultsExtend(t.vaults, s.vaults) && VaultsOk(t.vaults)
    ensures CatalogOk(Bare(t)) && LanesSound(t) && Extends(s, t) && NoncesCount(t.accounts, s.reservations)
  {
    SoundParts(s);
    GainsKeep(s.accounts, t.accounts, k, gain);
    GainsKeepColumns(s.assets, s.accounts, t.accounts, s.issued, k, gain);
    forall v | 0 <= v < |t.vaults|
      ensures AssetAt(t.assets, t.vaults[v].assetId).Some?
    {
      assert SameVault(s.vaults[v], t.vaults[v]);
      assert AssetAt(s.assets, s.vaults[v].assetId).Some?;
    }
    hide Sound, AccountsGain, LaneSound, ReservationsOk, NoncesCount;
    SameLanesSound(s, t);
  }

  lemma {:induction false} PostingKeepsSound(s: State, t: State, k: nat, gain: Digest -> nat)
    requires Sound(s) && k < |s.assets| && AccountsGain(s.accounts, t.accounts, k, gain)
    requires t.assets == s.assets && t.lanes == s.lanes && t.issued == s.issued && t.reservations == s.reservations
    requires VaultsExtend(s.vaults, t.vaults) && VaultsExtend(t.vaults, s.vaults) && VaultsOk(t.vaults)
    ensures Sound(t)
  {
    SoundParts(s);
    PostingKeepsCatalog(s, t, k, gain);
    hide CatalogOk, LanesSound, Extends, ReservationsOk, NoncesCount, AccountsGain, VaultsOk;
    AllReservationsStay(s, t);
  }

  lemma {:induction false} ClosingKeepsSound(s: State, t: State, r: nat, outcome: ReservationState,
                                             paid: Digest -> nat, kept: Digest -> nat)
    requires Sound(s) && Open(s, r) && Closes(s, t, r, outcome, paid, kept)
    ensures Sound(t)
  {
    SoundParts(s);
    ClearKeepsVaults(s.vaults, t.vaults, s.reservations[r].plan.hops, kept);
    PostingKeepsCatalog(s, t, Column(s, r), paid);
    ClosingKeepsNonces(s, t, r, outcome, paid, kept);
    hide CatalogOk, LanesSound, Extends, ReservationsOk, NoncesCount, AccountsGain, VaultsOk, VaultsClear;
    ClosingKeepsReservations(s, t, r, outcome);
  }

  // ---------- The books of one call ----------

  /** Observed and issued, apart by this much. */
  function Surplus(s: State, k: nat): int
    requires k < |s.assets|
  {
    Observed(s, k) - s.issued[k]
  }

  /** What one call moves between observed and issued. */
  datatype Moves = Moves(leaked: nat, foreignIn: nat, foreignOut: nat, halfway: nat) {
    function Net(): int {
      leaked + foreignIn - foreignOut + halfway
    }

    function Plus(other: Moves): Moves {
      Moves(leaked + other.leaked, foreignIn + other.foreignIn, foreignOut + other.foreignOut, halfway + other.halfway)
    }
  }

  const STILL: Moves := Moves(0, 0, 0, 0)

  /** A deposit that the account can take and the supply cannot. */
  function DepositMoves(s: State, accountId: Digest, assetId: Digest, amount: Amount, asset: Digest): Moves {
    if assetId == asset && Depositable(s, accountId, assetId, amount)
       && s.issued[AssetAt(s.assets, assetId).value] + amount > U64_MAX
    then Moves(amount, 0, 0, 0)
    else STILL
  }

  /** The reserve fee of a committed settlement leaves one asset for another, if its sink is foreign; one that is
      stopped has paid out what it has. */
  function QuoteMoves(s: State, r: nat, quote: Quote, asset: Digest): Moves
    requires Payable(s, r, quote)
  {
    MovesBy(EndOf(s, r, quote), quote, s.reservations[r].assetId == asset, SinkVault(s, quote).assetId == asset)
  }

  function MovesBy(end: SettleEnd, quote: Quote, settledHere: bool, sunkHere: bool): Moves {
    if end.Committed? then
      Moves(0, if sunkHere && !settledHere then quote.reserveFee else 0,
            if settledHere && !sunkHere then quote.reserveFee else 0, 0)
    else
      Moves(0, 0, 0, if settledHere then AmountPaid(end, quote) else 0)
  }

  function SettleMoves(h: Hashes, s: State, id: Digest, epoch: Amount, asset: Digest): Moves {
    var quote := SettlementQuote(h, s, id, epoch);
    if quote.Success? && Payable(s, ReservationAt(s.reservations, id).value, quote.value)
    then QuoteMoves(s, ReservationAt(s.reservations, id).value, quote.value, asset)
    else STILL
  }

  function StepMoves(h: Hashes, s: State, c: Command, asset: Digest): Moves {
    match c
    case CDeposit(account, id, amount) => DepositMoves(s, account, id, amount, asset)
    case CSettle(id, epoch) => SettleMoves(h, s, id, epoch, asset)
    case _ => STILL
  }

  /** The call keeps the records sound and moves every asset's surplus by exactly its moves. */
  ghost predicate Accounts(s: State, t: State, moves: Digest -> Moves) {
    && Sound(t) && s.assets <= t.assets
    && (forall k {:trigger Surplus(t, k)} | 0 <= k < |s.assets| ::
          Surplus(t, k) == Surplus(s, k) + moves(s.assets[k]).Net())
    && (forall k {:trigger Surplus(t, k)} | |s.assets| <= k < |t.assets| :: Surplus(t, k) == 0)
  }

  function Stillness(): Digest -> Moves {
    (asset: Digest) => STILL
  }

  lemma {:induction false} NothingAccounts(s: State)
    requires Sound(s)
    ensures Accounts(s, s, Stillness())
  {
    hide Sound, Surplus;
    forall k | 0 <= k < |s.assets|
      ensures Surplus(s, k) == Surplus(s, k) + Stillness()(s.assets[k]).Net()
    {
    }
  }

  // ---------- Settling ----------

  function QuoteMovesOf(s: State, r: nat, quote: Quote): Digest -> Moves
    requires Payable(s, r, quote)
  {
    (asset: Digest) => QuoteMoves(s, r, quote, asset)
  }

  lemma {:induction false} ColumnsMove(s: State, t: State, r: nat, paid: Digest -> nat, amount: nat, c: nat)
    requires AssetsOk(s.assets) && Open(s, r) && c < |s.assets|
    requires AccountsGain(s.accounts, t.accounts, Column(s, r), paid)
    requires Sum(t.accounts, BalanceIn(Column(s, r))) == Sum(s.accounts, BalanceIn(Column(s, r))) + amount
    ensures Sum(t.accounts, BalanceIn(c))
         == Sum(s.accounts, BalanceIn(c)) + (if s.assets[c] == s.reservations[r].assetId then amount else 0)
  {
    GainsKeep(s.accounts, t.accounts, Column(s, r), paid);
    hide AccountsGain, Sum, AccountsOk, NoncesCount, AccountsExtend;
    if c != Column(s, r) {
      assert s.assets[c] != s.assets[Column(s, r)];
    }
  }

  lemma {:induction false} LockMoves(reservations: seq<Reservation>, r: nat, outcome: ReservationState, asset: Digest)
    requires r < |reservations| && reservations[r].state == Reserved && outcome != Reserved
    ensures Sum(reservations[r := reservations[r].(state := outcome)], LockedAs(asset))
            + (if reservations[r].assetId == asset then reservations[r].gross else 0)
         == Sum(reservations, LockedAs(asset))
  {
    SumUpdate(reservations, r, reservations[r].(state := outcome), LockedAs(asset));
  }

  /** What the parts of a settlement move, taken together. */
  lemma MovesAre(end: SettleEnd, quote: Quote, settledHere: bool, sunkHere: bool, paid: int, sunk: int, gone: int)
    requires paid == if settledHere then AmountPaid(end, quote) else 0
    requires sunk == if end.Committed? && sunkHere then quote.reserveFee else 0
    requires gone == if end.Committed? && settledHere then quote.net + quote.operatorFee + quote.reserveFee else 0
    ensures MovesBy(end, quote, settledHere, sunkHere).Net() == paid + sunk - gone
  {
    if end.Committed? {
      CommittedPays(quote);
      hide *;
      CommittedMovesBy(quote, settledHere, sunkHere);
    } else {
      hide *;
      StoppedMovesBy(end, quote, settledHere, sunkHere);
    }
  }

  lemma CommittedPays(quote: Quote)
    ensures AmountPaid(Committed, quote) == quote.net + quote.operatorFee
  {
  }

  lemma CommittedMovesBy(quote: Quote, settledHere: bool, sunkHere: bool)
    ensures MovesBy(Committed, quote, settledHere, sunkHere).Net()
         == (if sunkHere then quote.reserveFee else 0) - (if settledHere then quote.reserveFee else 0)
  {
    hide *;
    FeeMoves(quote, settledHere, sunkHere);
    NetIs(if sunkHere && !settledHere then quote.reserveFee else 0,
          if settledHere && !sunkHere then quote.reserveFee else 0);
    FeeCancels(quote.reserveFee, settledHere, sunkHere);
  }

  lemma FeeMoves(quote: Quote, settledHere: bool, sunkHere: bool)
    ensures MovesBy(Committed, quote, settledHere, sunkHere)
         == Moves(0, if sunkHere && !settledHere then quote.reserveFee else 0,
                  if settledHere && !sunkHere then quote.reserveFee else 0, 0)
  {
    hide AmountPaid;
  }

  lemma NetIs(foreignIn: nat, foreignOut: nat)
    ensures Moves(0, foreignIn, foreignOut, 0).Net() == foreignIn - foreignOut
  {
  }

  lemma FeeCancels(fee: int, settledHere: bool, sunkHere: bool)
    ensures (if sunkHere && !settledHere then fee else 0) - (if settledHere && !sunkHere then fee else 0)
         == (if sunkHere then fee else 0) - (if settledHere then fee else 0)
  {
  }

  lemma StoppedMovesBy(end: SettleEnd, quote: Quote, settledHere: bool, sunkHere: bool)
    requires !end.Committed?
    ensures MovesBy(end, quote, settledHere, sunkHere).Net() == if settledHere then AmountPaid(end, quote) else 0
  {
    hide AmountPaid;
  }

  lemma SurplusParts(s: State, t: State, c: nat, paid: int, sunk: int, gone: int)
    requires c < |s.assets| && t.assets == s.assets && t.issued == s.issued
    requires Sum(t.accounts, BalanceIn(c)) == Sum(s.accounts, BalanceIn(c)) + paid
    requires Sum(t.vaults, HeldAs(s.assets[c])) == Sum(s.vaults, HeldAs(s.assets[c])) + sunk
    requires Sum(t.reservations, LockedAs(s.assets[c])) + gone == Sum(s.reservations, LockedAs(s.assets[c]))
    ensures Surplus(t, c) == Surplus(s, c) + paid + sunk - gone
  {
    hide Sum;
  }

  lemma {:induction false} SettledSurplus(s: State, t: State, r: nat, quote: Quote, c: nat)
    requires AssetsOk(s.assets) && Payable(s, r, quote) && c < |s.assets|
    requires BooksMove(s, t, r, quote, EndOf(s, r, quote))
    requires AccountsGain(s.accounts, t.accounts, Column(s, r), PayoutBy(EndOf(s, r, quote), s.reservations[r], quote))
    requires t.assets == s.assets && t.issued == s.issued
    requires t.reservations == if EndOf(s, r, quote).Committed? then
                                 s.reservations[r := s.reservations[r].(state := Settled)]
                               else s.reservations
    ensures Surplus(t, c) == Surplus(s, c) + QuoteMoves(s, r, quote, s.assets[c]).Net()
  {
    var end, asset := EndOf(s, r, quote), s.assets[c];
    var here := s.reservations[r].assetId == asset;
    var paid: int := if here then AmountPaid(end, quote) else 0;
    var sunk: int := Sunk(s, quote, end, asset);
    var gone: int := if end.Committed? && here then s.reservations[r].gross else 0;
    SplitsGross(s, r, quote);
    ColumnsMove(s, t, r, PayoutBy(end, s.reservations[r], quote), AmountPaid(end, quote), c);
    LockMoves(s.reservations, r, Settled, asset);
    MovesAre(end, quote, here, SinkVault(s, quote).assetId == asset, paid, sunk, gone);
    VaultsMove(s, t, r, quote, asset);
    hide *;
    SurplusParts(s, t, c, paid, sunk, gone);
    QuoteMovesAre(s, r, quote, asset);
  }

  lemma VaultsMove(s: State, t: State, r: nat, quote: Quote, asset: Digest)
    requires Payable(s, r, quote) && BooksMove(s, t, r, quote, EndOf(s, r, quote))
    ensures Sum(t.vaults, HeldAs(asset)) == Sum(s.vaults, HeldAs(asset)) + Sunk(s, quote, EndOf(s, r, quote), asset)
  {
    hide Payable, EndOf, Sum, Sunk;
  }

  lemma QuoteMovesAre(s: State, r: nat, quote: Quote, asset: Digest)
    requires Payable(s, r, quote)
    ensures QuoteMoves(s, r, quote, asset)
         == MovesBy(EndOf(s, r, quote), quote, s.reservations[r].assetId == asset, SinkVault(s, quote).assetId == asset)
  {
    hide Payable, EndOf, MovesBy, SinkVault;
  }

  lemma SplitsGross(s: State, r: nat, quote: Quote)
    requires Payable(s, r, quote)
    ensures Open(s, r) && s.reservations[r].state == Reserved
    ensures quote.net + quote.operatorFee + quote.reserveFee == s.reservations[r].gross
  {
  }

  lemma {:induction false} QuotedKeepsSound(s: State, o: Outcome, r: nat, quote: Quote, receipt: Receipt)
    requires Sound(s) && Payable(s, r, quote)
    requires if EndOf(s, r, quote).Committed? then Settles(s, o.after, r, quote, receipt)
             else StopsAt(s, o, r, quote, EndOf(s, r, quote))
    ensures Sound(o.after)
  {
    SoundParts(s);
    hide Sound, AccountsGain, VaultsClear, SameBooks, EndOf;
    if EndOf(s, r, quote).Committed? {
      ClosingKeepsSound(s, o.after, r, Settled, Payout(s.reservations[r], quote), To(Sink(s, quote), quote.reserveFee));
    } else {
      SameBooksKeepVaults(s.vaults, o.after.vaults);
      PostingKeepsSound(s, o.after, Column(s, r), PayoutBy(EndOf(s, r, quote), s.reservations[r], quote));
    }
  }

  lemma EndShows(s: State, o: Outcome, r: nat, quote: Quote, receipt: Receipt)
    requires Payable(s, r, quote)
    requires if EndOf(s, r, quote).Committed? then Settles(s, o.after, r, quote, receipt)
             else StopsAt(s, o, r, quote, EndOf(s, r, quote))
    ensures var t, end := o.after, EndOf(s, r, quote);
            && AccountsGain(s.accounts, t.accounts, Column(s, r), PayoutBy(end, s.reservations[r], quote))
            && t.assets == s.assets && t.issued == s.issued && t.lanes == s.lanes
            && t.reservations == if end.Committed? then s.reservations[r := s.reservations[r].(state := Settled)]
                                 else s.reservations
  {
    hide AccountsGain, VaultsClear, SameBooks, EndOf, Payable;
  }

  lemma MakeAccounts(s: State, t: State, moves: Digest -> Moves)
    requires Sound(t) && t.assets == s.assets
    requires forall k {:trigger Surplus(t, k)} | 0 <= k < |s.assets| ::
               Surplus(t, k) == Surplus(s, k) + moves(s.assets[k]).Net()
    ensures Accounts(s, t, moves)
  {
    hide Sound, Surplus;
  }

  lemma QuoteMovesUnfold(s: State, r: nat, quote: Quote, asset: Digest)
    requires Payable(s, r, quote)
    ensures QuoteMovesOf(s, r, quote)(asset) == QuoteMoves(s, r, quote, asset)
  {
    hide QuoteMoves, Payable;
  }

  lemma {:induction false} QuotedAccounts(s: State, r: nat, quote: Quote, receipt: Receipt)
    requires Sound(s) && Open(s, r) && QuoteOk(s, r, quote)
    ensures Payable(s, r, quote)
    ensures Accounts(s, SettleQuoted(s, r, quote, receipt).after, QuoteMovesOf(s, r, quote))
  {
    var o := SettleQuoted(s, r, quote, receipt);
    hide *;
    SettleEnds(s, r, quote, receipt);
    SoundParts(s);
    QuotedKeepsSound(s, o, r, quote, receipt);
    EndShows(s, o, r, quote, receipt);
    forall c {:trigger Surplus(o.after, c)} | 0 <= c < |s.assets|
      ensures Surplus(o.after, c) == Surplus(s, c) + QuoteMovesOf(s, r, quote)(s.assets[c]).Net()
    {
      SettledSurplus(s, o.after, r, quote, c);
      QuoteMovesUnfold(s, r, quote, s.assets[c]);
    }
    MakeAccounts(s, o.after, QuoteMovesOf(s, r, quote));
  }

  function StepMovesOf(h: Hashes, s: State, c: Command): Digest -> Moves {
    (asset: Digest) => StepMoves(h, s, c, asset)
  }

  lemma SettleMovesAre(h: Hashes, s: State, id: Digest, epoch: Amount, asset: Digest)
    ensures var quote, r := SettlementQuote(h, s, id, epoch), ReservationAt(s.reservations, id);
            StepMovesOf(h, s, CSettle(id, epoch))(asset)
            == if quote.Success? && Payable(s, r.value, quote.value)
            then QuoteMovesOf(s, r.value, quote.value)(asset)
            else STILL
  {
    hide SettlementQuote, Payable, QuoteMoves;
  }

  lemma SameMoves(s: State, t: State, moves: Digest -> Moves, same: Digest -> Moves)
    requires Accounts(s, t, moves) && forall asset :: same(asset) == moves(asset)
    ensures Accounts(s, t, same)
  {
    hide Sound, Surplus;
  }

  lemma RefusedSettle(h: Hashes, s: State, id: Digest, epoch: Amount)
    requires SettlementQuote(h, s, id, epoch).Failure?
    ensures Settle(h, s, id, epoch).after == s
  {
    hide SettlementQuote;
  }

  lemma {:induction false} SettleAccounts(h: Hashes, s: State, id: Digest, epoch: Amount)
    requires Sound(s)
    ensures Accounts(s, Settle(h, s, id, epoch).after, StepMovesOf(h, s, CSettle(id, epoch)))
  {
    var t, quote := Settle(h, s, id, epoch).after, SettlementQuote(h, s, id, epoch);
    hide *;
    forall asset: Digest
      ensures quote.Failure? ==> StepMovesOf(h, s, CSettle(id, epoch))(asset) == Stillness()(asset)
    {
      SettleMovesAre(h, s, id, epoch, asset);
      StillnessIs(asset);
    }
    if quote.Failure? {
      RefusedSettle(h, s, id, epoch);
      NothingAccounts(s);
      SameMoves(s, t, Stillness(), StepMovesOf(h, s, CSettle(id, epoch)));
    } else {
      var r := ReservationAt(s.reservations, id).value;
      SoundParts(s);
      AcceptedQuote(h, s, id, epoch);
      SettleUnfolds(h, s, id, epoch);
      QuotedAccounts(s, r, quote.value, ReceiptFor(h, s, id, epoch));
      forall asset: Digest
        ensures StepMovesOf(h, s, CSettle(id, epoch))(asset) == QuoteMovesOf(s, r, quote.value)(asset)
      {
        SettleMovesAre(h, s, id, epoch, asset);
      }
      SameMoves(s, t, QuoteMovesOf(s, r, quote.value), StepMovesOf(h, s, CSettle(id, epoch)));
    }
  }

  lemma StillnessIs(asset: Digest)
    ensures Stillness()(asset) == STILL && STILL.Net() == 0
  {
  }

  // ---------- Cancelling ----------

  predicate GrossFits(s: State, r: nat)
    requires Open(s, r)
  {
    BalanceOf(s, s.reservations[r].payer, s.reservations[r].assetId) + s.reservations[r].gross <= U64_MAX
  }

  lemma CancelUnfolded(s: State, id: Digest, epoch: Amount)
    requires CancelStatus(s, id, epoch) == Ok
    ensures var r := ReservationAt(s.reservations, id).value;
            var reservation := s.reservations[r];
            var released := UpdateRoutePending(s.vaults, reservation.plan.hops, true);
            var refunded := Credit(s.assets, s.accounts, reservation.payer, reservation.assetId, reservation.gross);
            && reservation.state == Reserved
            && Cancel(s, id, epoch)
               == if released.status != Ok then Posted(released.status, s.(vaults := released.after))
                  else if refunded.status != Ok then
                    Posted(refunded.status, s.(vaults := released.after, accounts := refunded.after))
                  else CancelCommit(s.(vaults := released.after, accounts := refunded.after), r, epoch)
  {
    hide Credit, UpdateRoutePending, CancelCommit;
  }

  lemma {:induction false} SoundRouted(s: State, r: nat)
    requires ReservationsOk(s) && r < |s.reservations|
    ensures Routed(s.vaults, s.reservations[r].plan.hops) && AssetAt(s.assets, s.reservations[r].assetId).Some?
    ensures AccountAt(s.accounts, s.reservations[r].payer).Some?
  {
    var hops := s.reservations[r].plan.hops;
    assert ReservationOk(s, s.reservations[r]);
    forall i | 0 <= i < |hops|
      ensures VaultAt(s.vaults, hops[i].fromVault).Some? && VaultAt(s.vaults, hops[i].toVault).Some?
    {
      assert HopOk(s, s.reservations[r].assetId, s.reservations[r].gross, hops[i]);
    }
  }

  /** Every end of a cancellation that passes its guards, from any ledger with sound records: it is stopped without a
      payment, or it refunds exactly the gross amount. */
  lemma {:induction false} CancelEnds(s: State, id: Digest, epoch: Amount)
    requires Sound(s) && CancelStatus(s, id, epoch) == Ok
    ensures var r, o := ReservationAt(s.reservations, id).value, Cancel(s, id, epoch);
            && Open(s, r)
            && (forall asset :: Sum(o.after.vaults, HeldAs(asset)) == Sum(s.vaults, HeldAs(asset)))
            && if RouteClears(s.vaults, s.reservations[r].plan.hops) && GrossFits(s, r) then
                 && Refunds(s, o.after, r, epoch) && o.status == CommitStatus(s, o.after, s.reservations[r].assetId)
                 && Sum(o.after.accounts, BalanceIn(Column(s, r)))
                    == Sum(s.accounts, BalanceIn(Column(s, r))) + s.reservations[r].gross
               else
                 && o.after == s.(vaults := o.after.vaults) && SameBooks(s.vaults, o.after.vaults)
                 && o.status == if RouteClears(s.vaults, s.reservations[r].plan.hops) then ErrPolicy else ErrState
  {
    var r := ReservationAt(s.reservations, id).value;
    var reservation := s.reservations[r];
    var released := UpdateRoutePending(s.vaults, reservation.plan.hops, true).after;
    var refunded := Credit(s.assets, s.accounts, reservation.payer, reservation.assetId, reservation.gross).after;
    SoundParts(s);
    SoundRouted(s, r);
    CancelUnfolded(s, id, epoch);
    ReleaseOutcome(s.vaults, reservation.plan.hops);
    SameHoldings(s.vaults, released);
    CreditOutcome(s.assets, s.accounts, reservation.payer, reservation.assetId, reservation.gross);
    hide Credit, UpdateRoutePending, Cancel, CancelStatus, CancelCommit, Sound, CatalogOk, LanesSound, LanesKnown,
      ReservationsOk, DistinctReservations, NoncesCount, AccountsGain, AccountsOk, VaultsOk, AssetsOk, ColumnsOk,
      VaultAssetsOk, RouteClears, Raised, SameBooks, VaultsClear, Sum, Routed, ConservationOk;
    if RouteClears(s.vaults, reservation.plan.hops) {
      ReleaseClears(s.vaults, released, reservation.plan.hops);
      if GrossFits(s, r) {
        CancelCommitFrame(s.(vaults := released, accounts := refunded), r, epoch);
      }
    }
  }

  /** The call moves no asset's surplus. */
  lemma MakeStill(s: State, t: State, moves: Digest -> Moves)
    requires Sound(t) && s.assets <= t.assets && forall asset :: moves(asset) == STILL
    requires forall k {:trigger Surplus(t, k)} | 0 <= k < |s.assets| :: Surplus(t, k) == Surplus(s, k)
    requires forall k {:trigger Surplus(t, k)} | |s.assets| <= k < |t.assets| :: Surplus(t, k) == 0
    ensures Accounts(s, t, moves)
  {
    hide Sound, Surplus;
  }

  lemma OthersStill(h: Hashes, s: State, c: Command)
    requires !c.CDeposit? && !c.CSettle?
    ensures forall asset :: StepMovesOf(h, s, c)(asset) == STILL
  {
  }

  lemma {:induction false} CancelledSurplus(s: State, t: State, r: nat, epoch: Amount, c: nat)
    requires AssetsOk(s.assets) && Open(s, r) && Refunds(s, t, r, epoch) && c < |s.assets|
    requires forall asset :: Sum(t.vaults, HeldAs(asset)) == Sum(s.vaults, HeldAs(asset))
    requires Sum(t.accounts, BalanceIn(Column(s, r)))
          == Sum(s.accounts, BalanceIn(Column(s, r))) + s.reservations[r].gross
    ensures Surplus(t, c) == Surplus(s, c)
  {
    var reservation := s.reservations[r];
    var moved: int := if s.assets[c] == reservation.assetId then reservation.gross else 0;
    ColumnsMove(s, t, r, To(reservation.payer, reservation.gross), reservation.gross, c);
    LockMoves(s.reservations, r, Cancelled, s.assets[c]);
    hide AccountsGain, VaultsClear, Sum, AssetsOk;
    SurplusParts(s, t, c, moved, 0, moved);
  }

  lemma SameHoldingsSameSurplus(s: State, t: State, c: nat)
    requires c < |s.assets| && t.assets == s.assets && t.issued == s.issued
    requires t.accounts == s.accounts && t.reservations == s.reservations
    requires Sum(t.vaults, HeldAs(s.assets[c])) == Sum(s.vaults, HeldAs(s.assets[c]))
    ensures Surplus(t, c) == Surplus(s, c)
  {
    hide Sum;
  }

  lemma {:induction false} VaultsOnlySound(s: State, t: State)
    requires Sound(s) && t == s.(vaults := t.vaults) && SameBooks(s.vaults, t.vaults)
    ensures Sound(t)
  {
    SoundParts(s);
    SameBooksKeepVaults(s.vaults, t.vaults);
    forall v | 0 <= v < |t.vaults|
      ensures AssetAt(t.assets, t.vaults[v].assetId).Some?
    {
      assert SameVault(s.vaults[v], t.vaults[v]);
      assert AssetAt(s.assets, s.vaults[v].assetId).Some?;
    }
    SelfExtends(s);
    hide LaneSound, ReservationsOk, NoncesCount, SameBooks;
    SameLanesSound(s, t);
    AllReservationsStay(s, t);
  }

  lemma CancelRefused(s: State, id: Digest, epoch: Amount)
    requires CancelStatus(s, id, epoch) != Ok
    ensures Cancel(s, id, epoch).after == s
  {
    hide CancelStatus;
  }

  lemma {:induction false} CancelAccounts(h: Hashes, s: State, id: Digest, epoch: Amount)
    requires Sound(s)
    ensures Accounts(s, Cancel(s, id, epoch).after, StepMovesOf(h, s, CCancel(id, epoch)))
  {
    var t := Cancel(s, id, epoch).after;
    OthersStill(h, s, CCancel(id, epoch));
    SoundParts(s);
    hide Sound, Cancel, CancelStatus, Refunds, Closes, Surplus, StepMoves, RouteClears, SameBooks, CatalogOk,
      LanesSound, ReservationsOk, NoncesCount, LanesKnown, DistinctReservations, Sum;
    if CancelStatus(s, id, epoch) != Ok {
      CancelRefused(s, id, epoch);
    } else {
      CancelBooks(s, id, epoch);
    }
    MakeStill(s, t, StepMovesOf(h, s, CCancel(id, epoch)));
  }

  lemma {:induction false} CancelBooks(s: State, id: Digest, epoch: Amount)
    requires Sound(s) && CancelStatus(s, id, epoch) == Ok
    ensures var t := Cancel(s, id, epoch).after;
            && Sound(t) && t.assets == s.assets
            && forall k {:trigger Surplus(t, k)} | 0 <= k < |s.assets| :: Surplus(t, k) == Surplus(s, k)
  {
    var t, r := Cancel(s, id, epoch).after, ReservationAt(s.reservations, id).value;
    CancelEnds(s, id, epoch);
    SoundParts(s);
    hide Sound, Cancel, CancelStatus, AccountsGain, VaultsClear, Surplus, RouteClears, SameBooks, CatalogOk, LanesSound,
      ReservationsOk, NoncesCount, LanesKnown, DistinctReservations, Sum, AccountsOk, VaultsOk, AssetsOk, ColumnsOk,
      VaultAssetsOk;
    if RouteClears(s.vaults, s.reservations[r].plan.hops) && GrossFits(s, r) {
      ClosingKeepsSound(s, t, r, Cancelled, To(s.reservations[r].payer, s.reservations[r].gross), Nobody());
      forall k {:trigger Surplus(t, k)} | 0 <= k < |s.assets|
        ensures Surplus(t, k) == Surplus(s, k)
      {
        CancelledSurplus(s, t, r, epoch, k);
      }
    } else {
      VaultsOnlySound(s, t);
      forall k {:trigger Surplus(t, k)} | 0 <= k < |s.assets|
        ensures Surplus(t, k) == Surplus(s, k)
      {
        SameHoldingsSameSurplus(s, t, k);
      }
    }
  }

  // ---------- Reserving ----------

  lemma {:induction false} ReservedSurplus(s: State, t: State, reservation: Reservation, c: nat)
    requires AssetsOk(s.assets) && c < |s.assets| && reservation.state == Reserved
    requires AssetAt(s.assets, reservation.assetId).Some? && Reserves(s, t, reservation) && Locks(s, t, reservation)
    ensures Surplus(t, c) == Surplus(s, c)
  {
    var k := AssetAt(s.assets, reservation.assetId).value;
    var moved: int := if s.assets[c] == reservation.assetId then reservation.gross else 0;
    RaisedSameBooks(s.vaults, t.vaults, reservation.plan.hops);
    SameHoldings(s.vaults, t.vaults);
    SumAppend(s.reservations, reservation, LockedAs(s.assets[c]));
    if c != k {
      assert s.assets[c] != s.assets[k];
    }
    hide AccountsReserve, Raised, Sum, SameBooks, AssetsOk;
    SurplusParts(s, t, c, -moved, 0, -moved);
  }

  lemma {:induction false} ReservedSound(s: State, t: State, reservation: Reservation)
    requires Sound(s) && ReservationOk(s, reservation) && Reserves(s, t, reservation)
    requires |s.reservations| < MAX_RESERVATIONS && !IntentKnown(s.reservations, reservation.intentId)
    requires ReservationAt(s.reservations, reservation.id).None?
    ensures Sound(t)
  {
    SoundParts(s);
    assert AssetAt(s.assets, reservation.assetId).Some?;
    ReserveKeepsAccounts(s, t, reservation);
    RaisedSameBooks(s.vaults, t.vaults, reservation.plan.hops);
    SameBooksKeepVaults(s.vaults, t.vaults);
    forall v | 0 <= v < |t.vaults|
      ensures AssetAt(t.assets, t.vaults[v].assetId).Some?
    {
      assert SameVault(s.vaults[v], t.vaults[v]);
      assert AssetAt(s.assets, s.vaults[v].assetId).Some?;
    }
    ReserveKeepsNonces(s, t, reservation);
    hide LaneSound, ReservationsOk, NoncesCount, SameBooks, AccountsReserve, Raised, ReservationOk;
    SameLanesSound(s, t);
    ReserveKeepsReservations(s, t, reservation);
  }

  /** Sound records, the same assets, and no surplus moved. */
  ghost predicate KeepsSurplus(s: State, t: State) {
    && Sound(t) && t.assets == s.assets
    && forall k {:trigger Surplus(t, k)} | 0 <= k < |s.assets| :: Surplus(t, k) == Surplus(s, k)
  }

  lemma {:induction false} OverflowKeepsSurplus(s: State, t: State, hops: seq<Hop>)
    requires Sound(s) && t == s.(vaults := t.vaults) && Raised(s.vaults, t.vaults, hops)
    ensures KeepsSurplus(s, t)
  {
    RaisedSameBooks(s.vaults, t.vaults, hops);
    VaultsOnlySound(s, t);
    SameHoldings(s.vaults, t.vaults);
    hide Sound, SameBooks, Raised, Surplus, Sum;
    forall k {:trigger Surplus(t, k)} | 0 <= k < |s.assets|
      ensures Surplus(t, k) == Surplus(s, k)
    {
      SameHoldingsSameSurplus(s, t, k);
    }
  }

  lemma {:induction false} ReservedKeepsSurplus(s: State, t: State, reservation: Reservation)
    requires Sound(s) && ReservationOk(s, reservation) && reservation.state == Reserved
    requires Reserves(s, t, reservation) && Locks(s, t, reservation)
    requires |s.reservations| < MAX_RESERVATIONS && !IntentKnown(s.reservations, reservation.intentId)
    requires ReservationAt(s.reservations, reservation.id).None?
    ensures KeepsSurplus(s, t)
  {
    SoundParts(s);
    KnownAsset(s, reservation);
    ReservedSound(s, t, reservation);
    ReservesFrame(s, t, reservation);
    hide *;
    forall k {:trigger Surplus(t, k)} | 0 <= k < |s.assets|
      ensures Surplus(t, k) == Surplus(s, k)
    {
      ReservedSurplus(s, t, reservation, k);
    }
    MakeKeepsSurplus(s, t);
  }

  lemma MakeKeepsSurplus(s: State, t: State)
    requires Sound(t) && t.assets == s.assets
    requires forall k {:trigger Surplus(t, k)} | 0 <= k < |s.assets| :: Surplus(t, k) == Surplus(s, k)
    ensures KeepsSurplus(s, t)
  {
    hide Sound, Surplus;
  }

  lemma {:induction false} SelfKeepsSurplus(s: State)
    requires Sound(s)
    ensures KeepsSurplus(s, s)
  {
    hide Sound, Surplus;
  }

  lemma {:induction false} ReserveBooks(h: Hashes, s: State, signed: SignedIntent)
    requires Sound(s)
    ensures KeepsSurplus(s, Reserve(h, s, signed).after)
  {
    var t, reservation := Reserve(h, s, signed).after, NewReservation(h, signed.terms, s.epoch);
    SoundParts(s);
    NewIsReserved(h, signed.terms, s.epoch);
    hide *;
    SelfKeepsSurplus(s);
    ReserveEnds(h, s, signed);
    if AdmissionStatus(h, s, signed) == Ok {
      AdmittedReservation(h, s, signed);
      if UpdateRoutePending(s.vaults, signed.terms.plan.hops, false).status != Ok {
        OverflowKeepsSurplus(s, t, AppliedHops(s, signed));
      } else if ReservationAt(s.reservations, reservation.id).None? {
        ReservedKeepsSurplus(s, t, reservation);
      }
    }
  }

  lemma KnownAsset(s: State, reservation: Reservation)
    requires ReservationOk(s, reservation)
    ensures AssetAt(s.assets, reservation.assetId).Some?
  {
  }

  lemma ReservesFrame(s: State, t: State, reservation: Reservation)
    requires AssetAt(s.assets, reservation.assetId).Some? && Reserves(s, t, reservation)
    ensures t.assets == s.assets
  {
    hide AccountsReserve, Raised;
  }

  lemma KeepsSurplusAccounts(s: State, t: State, moves: Digest -> Moves)
    requires KeepsSurplus(s, t) && forall asset :: moves(asset) == STILL
    ensures Accounts(s, t, moves)
  {
    hide Sound, Surplus;
  }

  lemma {:induction false} ReserveAccounted(h: Hashes, s: State, signed: SignedIntent)
    requires Sound(s)
    ensures Accounts(s, Reserve(h, s, signed).after, StepMovesOf(h, s, CReserve(signed)))
  {
    OthersStill(h, s, CReserve(signed));
    ReserveBooks(h, s, signed);
    hide *;
    KeepsSurplusAccounts(s, Reserve(h, s, signed).after, StepMovesOf(h, s, CReserve(signed)));
  }

  // ---------- Depositing ----------

  lemma {:induction false} CreditedSurplus(s: State, t: State, accountId: Digest, k: nat, amount: Amount, c: nat)
    requires AssetsOk(s.assets) && k < |s.assets| && c < |s.assets|
    requires AccountsGain(s.accounts, t.accounts, k, To(accountId, amount))
    requires Sum(t.accounts, BalanceIn(k)) == Sum(s.accounts, BalanceIn(k)) + amount
    requires t.assets == s.assets && t.vaults == s.vaults && t.reservations == s.reservations
    ensures Observed(t, c) == Observed(s, c) + (if c == k then amount else 0)
  {
    GainsKeep(s.accounts, t.accounts, k, To(accountId, amount));
    hide AccountsGain, Sum, AccountsOk, NoncesCount, AccountsExtend;
  }

  lemma {:induction false} DepositSound(s: State, t: State, accountId: Digest, k: nat, amount: Amount, issued: Amount)
    requires Sound(s) && k < |s.assets| && AccountsGain(s.accounts, t.accounts, k, To(accountId, amount))
    requires t == s.(accounts := t.accounts, issued := s.issued[k := issued], journal := t.journal)
    ensures Sound(t)
  {
    var mid := s.(accounts := t.accounts);
    SoundParts(s);
    SelfExtends(s);
    PostingKeepsSound(s, mid, k, To(accountId, amount));
    assert EmptyBeyond(t.issued, |t.assets|) by {
      assert EmptyBeyond(s.issued, |s.assets|);
    }
    hide LaneSound, ReservationOk, NoncesCount, AccountsGain;
    SelfExtends(mid);
    SameLanesSound(mid, t);
    AllReservationsStay(mid, t);
  }

  lemma {:induction false} DepositEnds(s: State, accountId: Digest, assetId: Digest, amount: Amount)
    requires AccountsOk(s.accounts)
    ensures var o := Deposit(s, accountId, assetId, amount);
            if !Depositable(s, accountId, assetId, amount) then o.after == s
            else
              var k := AssetAt(s.assets, assetId).value;
              var issued: int := s.issued[k] + amount;
              && AccountsGain(s.accounts, o.after.accounts, k, To(accountId, amount))
              && Sum(o.after.accounts, BalanceIn(k)) == Sum(s.accounts, BalanceIn(k)) + amount
              && o.after == s.(accounts := o.after.accounts, journal := o.after.journal,
                            issued := if issued <= U64_MAX then s.issued[k := issued] else s.issued)
  {
    if Depositable(s, accountId, assetId, amount) {
      DepositCredits(s, accountId, assetId, amount);
    }
  }

  lemma {:induction false} DepositedSurplus(s: State, t: State, accountId: Digest, k: nat, amount: Amount, c: nat)
    requires AssetsOk(s.assets) && k < |s.assets| && c < |s.assets|
    requires AccountsGain(s.accounts, t.accounts, k, To(accountId, amount))
    requires Sum(t.accounts, BalanceIn(k)) == Sum(s.accounts, BalanceIn(k)) + amount
    requires var issued: int := s.issued[k] + amount;
             t == s.(accounts := t.accounts, journal := t.journal,
             issued := if issued <= U64_MAX then s.issued[k := issued] else s.issued)
    ensures Surplus(t, c) == Surplus(s, c) + (if c == k && s.issued[k] + amount > U64_MAX then amount else 0)
  {
    CreditedSurplus(s, t, accountId, k, amount, c);
    hide Observed, AccountsGain;
  }

  lemma DepositMovesAre(h: Hashes, s: State, accountId: Digest, assetId: Digest, amount: Amount, c: nat)
    requires AssetsOk(s.assets) && c < |s.assets| && Depositable(s, accountId, assetId, amount)
    ensures var k := AssetAt(s.assets, assetId).value;
            StepMovesOf(h, s, CDeposit(accountId, assetId, amount))(s.assets[c]).Net()
            == if c == k && s.issued[k] + amount > U64_MAX then amount else 0
  {
    var k := AssetAt(s.assets, assetId).value;
    if c != k {
      assert s.assets[c] != s.assets[k];
    }
    hide Depositable;
  }

  lemma RefusedDepositStill(h: Hashes, s: State, accountId: Digest, assetId: Digest, amount: Amount)
    requires !Depositable(s, accountId, assetId, amount)
    ensures forall asset :: StepMovesOf(h, s, CDeposit(accountId, assetId, amount))(asset) == STILL
  {
    hide Depositable;
  }

  lemma {:induction false} DepositAccounted(h: Hashes, s: State, accountId: Digest, assetId: Digest, amount: Amount)
    requires Sound(s)
    ensures Accounts(s, Deposit(s, accountId, assetId, amount).after,
                     StepMovesOf(h, s, CDeposit(accountId, assetId, amount)))
  {
    hide *;
    if Depositable(s, accountId, assetId, amount) {
      DepositMade(h, s, accountId, assetId, amount);
    } else {
      SoundParts(s);
      DepositEnds(s, accountId, assetId, amount);
      SelfKeepsSurplus(s);
      RefusedDepositStill(h, s, accountId, assetId, amount);
      KeepsSurplusAccounts(s, s, StepMovesOf(h, s, CDeposit(accountId, assetId, amount)));
    }
  }

  lemma {:induction false} DepositMade(h: Hashes, s: State, accountId: Digest, assetId: Digest, amount: Amount)
    requires Sound(s) && Depositable(s, accountId, assetId, amount)
    ensures Accounts(s, Deposit(s, accountId, assetId, amount).after,
                     StepMovesOf(h, s, CDeposit(accountId, assetId, amount)))
  {
    var t, moves := Deposit(s, accountId, assetId, amount).after,
                    StepMovesOf(h, s, CDeposit(accountId, assetId, amount));
    var k := AssetAt(s.assets, assetId).value;
    hide *;
    SoundParts(s);
    DepositEnds(s, accountId, assetId, amount);
    DepositSound(s, t, accountId, k, amount, t.issued[k]);
    forall c {:trigger Surplus(t, c)} | 0 <= c < |s.assets|
      ensures Surplus(t, c) == Surplus(s, c) + moves(s.assets[c]).Net()
    {
      DepositedSurplus(s, t, accountId, k, amount, c);
      DepositMovesAre(h, s, accountId, assetId, amount, c);
    }
    MakeAccounts(s, t, moves);
  }

  // ---------- Growing the catalogue ----------

  lemma {:induction false} GrowthKeepsSound(s: State, t: State)
    requires Sound(s) && CatalogOk(Bare(t)) && Extends(Bare(s), Bare(t)) && t.lanes == s.lanes
    requires t.reservations == s.reservations && NoncesCount(t.accounts, t.reservations)
    ensures Sound(t)
  {
    SoundParts(s);
    assert Extends(s, t);
    hide LaneSound, ReservationOk, NoncesCount, CatalogOk;
    SameLanesSound(s, t);
    AllReservationsStay(s, t);
  }

  lemma {:induction false} NewAssetAccounts(s: State, t: State, id: Digest)
    requires Sound(s) && AssetAt(s.assets, id).None? && |s.assets| < MAX_ASSETS && t == s.(assets := s.assets + [id])
    ensures Sound(t)
    ensures forall k {:trigger Surplus(t, k)} | 0 <= k < |s.assets| :: Surplus(t, k) == Surplus(s, k)
    ensures Surplus(t, |s.assets|) == 0
  {
    SoundParts(s);
    NewAssetCatalog(Bare(s), Bare(t), id);
    GrowthKeepsSound(s, t);
    EmptyColumn(s, id);
    assert s.issued[|s.assets|] == 0 by {
      assert EmptyBeyond(s.issued, |s.assets|);
    }
    hide Sound, Sum, CatalogOk, LanesSound, ReservationsOk, NoncesCount;
  }

  lemma {:induction false} EmptyColumn(s: State, id: Digest)
    requires Sound(s) && AssetAt(s.assets, id).None? && |s.assets| < MAX_ASSETS
    ensures Sum(s.accounts, BalanceIn(|s.assets|)) == 0
    ensures Sum(s.vaults, HeldAs(id)) == 0 && Sum(s.reservations, LockedAs(id)) == 0
  {
    SoundParts(s);
    forall i | 0 <= i < |s.accounts|
      ensures BalanceIn(|s.assets|)(s.accounts[i]) == 0
    {
      assert EmptyBeyond(s.accounts[i].balances, |s.assets|);
    }
    SumZero(s.accounts, BalanceIn(|s.assets|));
    forall v | 0 <= v < |s.vaults|
      ensures HeldAs(id)(s.vaults[v]) == 0
    {
      assert AssetAt(s.assets, s.vaults[v].assetId).Some?;
    }
    SumZero(s.vaults, HeldAs(id));
    forall r | 0 <= r < |s.reservations|
      ensures LockedAs(id)(s.reservations[r]) == 0
    {
      assert ReservationOk(s, s.reservations[r]);
    }
    SumZero(s.reservations, LockedAs(id));
  }

  lemma {:induction false} AddAssetAccounted(h: Hashes, s: State, symbol: string)
    requires Sound(s)
    ensures Accounts(s, AddAsset(h, s, symbol).after, StepMovesOf(h, s, CAddAsset(symbol)))
  {
    var o := AddAsset(h, s, symbol);
    OthersStill(h, s, CAddAsset(symbol));
    SelfKeepsSurplus(s);
    if o.status == Ok {
      NewAssetAccounts(s, o.after, h.asset(symbol));
    }
    hide Sound, Surplus, StepMovesOf, AssetAt;
    if o.status != Ok {
      KeepsSurplusAccounts(s, o.after, StepMovesOf(h, s, CAddAsset(symbol)));
    } else {
      MakeStill(s, o.after, StepMovesOf(h, s, CAddAsset(symbol)));
    }
  }

  lemma {:induction false} NewAccountAccounts(s: State, t: State, account: Account)
    requires Sound(s) && |s.accounts| < MAX_ACCOUNTS && AccountAt(s.accounts, account.id).None?
    requires account == NewAccount(account.id, account.verifier) && t == s.(accounts := s.accounts + [account])
    ensures KeepsSurplus(s, t)
  {
    SoundParts(s);
    NewAccountCatalog(Bare(s), Bare(t), account);
    NewAccountNonces(s, t, account);
    GrowthKeepsSound(s, t);
    hide Sound, Sum, CatalogOk, LanesSound, ReservationsOk, NoncesCount, AccountsOk, VaultsOk, ColumnsOk;
    forall k {:trigger Surplus(t, k)} | 0 <= k < |s.assets|
      ensures Surplus(t, k) == Surplus(s, k)
    {
      SumAppend(s.accounts, account, BalanceIn(k));
    }
  }

  lemma {:induction false} AddAccountAccounted(h: Hashes, s: State, name: string)
    requires Sound(s)
    ensures Accounts(s, AddAccount(h, s, name).after, StepMovesOf(h, s, CAddAccount(name)))
  {
    var o := AddAccount(h, s, name);
    OthersStill(h, s, CAddAccount(name));
    SelfKeepsSurplus(s);
    if o.status == Ok {
      NewAccountAccounts(s, o.after, NewAccount(h.identity(name).0, h.identity(name).1));
    }
    hide KeepsSurplus, StepMovesOf, AccountAt;
    KeepsSurplusAccounts(s, o.after, StepMovesOf(h, s, CAddAccount(name)));
  }

  lemma {:induction false} NewVaultAccounts(s: State, t: State, vault: Vault, k: nat, issued: Amount)
    requires Sound(s) && |s.vaults| < MAX_VAULTS && VaultAt(s.vaults, vault.id).None? && vault.active
    requires AssetAt(s.assets, vault.assetId) == Some(k) && issued == s.issued[k] + vault.balance
    requires t == s.(vaults := s.vaults + [vault], issued := s.issued[k := issued])
    ensures KeepsSurplus(s, t)
  {
    SoundParts(s);
    NewVaultCatalog(Bare(s), Bare(t), vault, k, issued);
    GrowthKeepsSound(s, t);
    hide Sound, Sum, CatalogOk, LanesSound, ReservationsOk, NoncesCount, AccountsOk, VaultsOk, ColumnsOk;
    forall c {:trigger Surplus(t, c)} | 0 <= c < |s.assets|
      ensures Surplus(t, c) == Surplus(s, c)
    {
      SumAppend(s.vaults, vault, HeldAs(s.assets[c]));
      if c != k {
        assert s.assets[c] != s.assets[k];
      }
    }
  }

  lemma {:induction false} AddVaultAccounted(h: Hashes, s: State, name: string, assetId: Digest, initial: Amount)
    requires Sound(s)
    ensures Accounts(s, AddVault(h, s, name, assetId, initial).after,
                     StepMovesOf(h, s, CAddVault(name, assetId, initial)))
  {
    var o := AddVault(h, s, name, assetId, initial);
    OthersStill(h, s, CAddVault(name, assetId, initial));
    SelfKeepsSurplus(s);
    if o.status == Ok {
      var k := AssetAt(s.assets, assetId).value;
      NewVaultAccounts(s, o.after, Vault(h.vault(name, assetId), assetId, initial, 0, 0, true), k,
                       s.issued[k] + initial);
    }
    hide KeepsSurplus, StepMovesOf, VaultAt, AssetAt;
    KeepsSurplusAccounts(s, o.after, StepMovesOf(h, s, CAddVault(name, assetId, initial)));
  }

  lemma {:induction false} NewLaneSound(s: State, t: State, lane: Lane)
    requires Sound(s) && |s.lanes| < MAX_LANES && t == s.(lanes := s.lanes + [lane])
    requires LaneAt(s.lanes, lane.id).None? && LaneSound(s, lane)
    ensures KeepsSurplus(s, t)
  {
    SoundParts(s);
    SelfExtends(s);
    assert Extends(s, t);
    hide Extends, LaneSound, LanesSound, ReservationsOk, NoncesCount, CatalogOk, Sum;
    AllReservationsStay(s, t);
    LanesStaySound(s, t, lane);
  }

  lemma {:induction false} LanesStaySound(s: State, t: State, lane: Lane)
    requires LanesSound(s) && Extends(s, t) && |s.lanes| < MAX_LANES && t.lanes == s.lanes + [lane]
    requires LaneAt(s.lanes, lane.id).None? && LaneSound(s, lane)
    ensures LanesSound(t)
  {
    hide Extends;
    forall l | 0 <= l < |t.lanes|
      ensures LaneSound(t, t.lanes[l])
    {
      assert l < |s.lanes| ==> LaneSound(s, s.lanes[l]);
      LaneSoundStays(s, t, t.lanes[l]);
    }
    forall l | 0 <= l < |s.lanes|
      ensures s.lanes[l].id != lane.id
    {
      assert LaneSound(s, s.lanes[l]);
      LaneUnlike(s.lanes, l, lane.id);
    }
    hide LaneSound, LaneAt;
  }

  lemma {:induction false} AddLaneAccounted(h: Hashes, s: State, c: Command)
    requires Sound(s) && c.CAddLane?
    ensures Accounts(s, Step(h, s, c).after, StepMovesOf(h, s, c))
  {
    var o := Step(h, s, c);
    OthersStill(h, s, c);
    SelfKeepsSurplus(s);
    if o.status == Ok {
      NewLaneSound(s, o.after,
                   Lane(h.lane(c.laneName, c.laneAsset), c.laneAsset, c.source, c.sink, c.terminal, c.laneClass,
                        c.operatorFeeBps, c.reserveBps, true));
    }
    hide KeepsSurplus, StepMovesOf, VaultAt, AssetAt, AccountAt, LaneAt;
    KeepsSurplusAccounts(s, o.after, StepMovesOf(h, s, c));
  }

  // ---------- Runs ----------

  /** Every command, admissible or not, committed or not, is accounted for. */
  lemma {:induction false} StepAccounts(h: Hashes, s: State, c: Command)
    requires Sound(s)
    ensures Accounts(s, Step(h, s, c).after, StepMovesOf(h, s, c))
  {
    hide *;
    StepDispatch(h, s, c);
    match c
    case CAddAsset(symbol) => AddAssetAccounted(h, s, symbol);
    case CAddAccount(name) => AddAccountAccounted(h, s, name);
    case CAddVault(name, asset, initial) => AddVaultAccounted(h, s, name, asset, initial);
    case CAddLane(_, _, _, _, _, _, _, _) => AddLaneAccounted(h, s, c);
    case CDeposit(account, asset, amount) => DepositAccounted(h, s, account, asset, amount);
    case CReserve(signed) => ReserveAccounted(h, s, signed);
    case CSettle(id, epoch) => SettleAccounts(h, s, id, epoch);
    case CCancel(id, epoch) => CancelAccounts(h, s, id, epoch);
  }

  lemma InitSound(networkId: U32)
    ensures Sound(Init(networkId))
  {
  }

  lemma {:induction false} RunSound(h: Hashes, networkId: U32, commands: seq<Command>)
    ensures Sound(RunFrom(h, Init(networkId), commands))
  {
    hide Sound, Step, Surplus;
    InitSound(networkId);
    if |commands| > 0 {
      var front := commands[..|commands| - 1];
      RunSound(h, networkId, front);
      StepAccounts(h, RunFrom(h, Init(networkId), front), Last(commands));
    }
  }

  /** Everything a run moves in an asset, from the moment the asset exists. */
  function RunMoves(h: Hashes, s: State, commands: seq<Command>, asset: Digest): Moves {
    if |commands| == 0 then STILL
    else
      var front := commands[..|commands| - 1];
      var before := RunFrom(h, s, front);
      RunMoves(h, s, front, asset).Plus(
        if asset in before.assets then StepMoves(h, before, Last(commands), asset) else STILL)
  }

  lemma {:induction false} UnknownStill(h: Hashes, networkId: U32, commands: seq<Command>, asset: Digest)
    requires asset !in RunFrom(h, Init(networkId), commands).assets
    ensures RunMoves(h, Init(networkId), commands, asset) == STILL
  {
    hide Sound, Step, StepMoves, Surplus;
    if |commands| > 0 {
      var front := commands[..|commands| - 1];
      RunSound(h, networkId, front);
      StepAccounts(h, RunFrom(h, Init(networkId), front), Last(commands));
      assert asset !in RunFrom(h, Init(networkId), front).assets;
      UnknownStill(h, networkId, front, asset);
    }
  }

  /** The identity, for every run whatsoever: what is observed of an asset, and what left it for foreign sinks, is what
      was issued, what deposits leaked, what came in from foreign lanes, and what settlements stopped half-way have
      paid. */
  lemma {:induction false} RunAccounts(h: Hashes, networkId: U32, commands: seq<Command>, k: nat)
    requires k < |RunFrom(h, Init(networkId), commands).assets|
    ensures var s := RunFrom(h, Init(networkId), commands);
            var moves := RunMoves(h, Init(networkId), commands, s.assets[k]);
            Observed(s, k) + moves.foreignOut == s.issued[k] + moves.leaked + moves.foreignIn + moves.halfway
  {
    hide Sound, Step, StepMoves, Observed, RunMoves, RunFrom;
    RunUnfolds(h, networkId, commands);
    var s := RunFrom(h, Init(networkId), commands);
    if |commands| > 0 {
      var front := commands[..|commands| - 1];
      var before := RunFrom(h, Init(networkId), front);
      RunSound(h, networkId, front);
      StepAccounts(h, before, Last(commands));
      RunMovesUnfold(h, networkId, commands, s.assets[k]);
      if k < |before.assets| {
        assert s.assets[k] == before.assets[k];
        RunAccounts(h, networkId, front, k);
      } else {
        NewlyKnown(h, networkId, front, s, k);
        UnknownStill(h, networkId, front, s.assets[k]);
      }
      assert Surplus(s, k) == Observed(s, k) - s.issued[k];
    }
  }

  lemma RunUnfolds(h: Hashes, networkId: U32, commands: seq<Command>)
    ensures |commands| == 0 ==> |RunFrom(h, Init(networkId), commands).assets| == 0
    ensures |commands| > 0 ==>
              RunFrom(h, Init(networkId), commands)
              == Step(h, RunFrom(h, Init(networkId), commands[..|commands| - 1]), Last(commands)).after
  {
    hide Step;
  }

  lemma RunMovesUnfold(h: Hashes, networkId: U32, commands: seq<Command>, asset: Digest)
    requires |commands| > 0
    ensures var front := commands[..|commands| - 1];
            var before := RunFrom(h, Init(networkId), front);
            RunMoves(h, Init(networkId), commands, asset)
            == RunMoves(h, Init(networkId), front, asset).Plus(
              if asset in before.assets then StepMovesOf(h, before, Last(commands))(asset) else STILL)
  {
    hide Step, StepMoves;
  }

  lemma {:induction false} NewlyKnown(h: Hashes, networkId: U32, front: seq<Command>, s: State, k: nat)
    requires Sound(s) && RunFrom(h, Init(networkId), front).assets <= s.assets
    requires |RunFrom(h, Init(networkId), front).assets| <= k < |s.assets|
    ensures s.assets[k] !in RunFrom(h, Init(networkId), front).assets
  {
    SoundParts(s);
    hide Sound, RunFrom;
    var earlier := RunFrom(h, Init(networkId), front).assets;
    forall i | 0 <= i < |earlier|
      ensures earlier[i] != s.assets[k]
    {
      assert earlier[i] == s.assets[i];
    }
  }
}
