/** What every ledger keeps, whatever it is asked to do: sound records. From there, every end of settling and
    cancelling, with nothing assumed about conservation, pending amounts or sinks. */
module SoundBooks {
  import opened Amounts
  import opened Digests
  import opened Sums
  import opened Routes
  import opened LedgerTypes
  import opened LedgerSteps
  import opened LedgerInvariant
  import opened PendingProofs
  import opened PostingProofs
  import opened ClosingProofs

  /** A lane as the operation that opens it checks it: its sink is some vault, of whatever asset. */
  predicate LaneSound(s: State, lane: Lane) {
    && lane.active
    && lane.operatorFeeBps + lane.reserveBps <= BPS
    && AssetAt(s.assets, lane.assetId).Some?
    && VaultAt(s.vaults, lane.sourceVault).Some?
    && VaultAt(s.vaults, lane.sinkVault).Some?
    && AccountAt(s.accounts, lane.terminalAccount).Some?
  }

  predicate LanesSound(s: State) {
    && |s.lanes| <= MAX_LANES
    && (forall i {:trigger LaneSound(s, s.lanes[i])} | 0 <= i < |s.lanes| :: LaneSound(s, s.lanes[i]))
    && (forall i, j | 0 <= i < j < |s.lanes| :: s.lanes[i].id != s.lanes[j].id)
  }

  /** The same ledger before any lane was opened. */
  function Bare(s: State): State {
    s.(lanes := [])
  }

  /** The records fit together; their amounts need not. */
  predicate Sound(s: State) {
    CatalogOk(Bare(s)) && LanesSound(s) && ReservationsOk(s) && NoncesCount(s.accounts, s.reservations)
  }

  lemma SoundParts(s: State)
    requires Sound(s)
    ensures AssetsOk(s.assets) && AccountsOk(s.accounts) && VaultsOk(s.vaults) && VaultAssetsOk(s.assets, s.vaults)
    ensures ColumnsOk(s.assets, s.accounts, s.issued)
    ensures LanesSound(s) && LanesKnown(s) && ReservationsOk(s) && DistinctReservations(s.reservations)
    ensures |s.reservations| <= MAX_RESERVATIONS
    ensures NoncesCount(s.accounts, s.reservations) && CatalogOk(Bare(s))
  {
    assert forall l | 0 <= l < |s.lanes| :: LaneSound(s, s.lanes[l]);
  }

  lemma InvIsSound(s: State)
    requires Inv(s)
    ensures Sound(s)
  {
    assert forall l | 0 <= l < |s.lanes| :: LaneOk(s, s.lanes[l]);
  }

  // ---------- Settling ----------

  /** Where a quoted settlement ends: at the posting that refuses, or committed. */
  datatype SettleEnd = Uncleared | NetRefused | FeeRefused | SinkRefused | Committed

  function SinkVault(s: State, quote: Quote): Vault
    requires LaneAt(s.lanes, quote.lane).Some? && VaultAt(s.vaults, Sink(s, quote)).Some?
  {
    s.vaults[VaultAt(s.vaults, Sink(s, quote)).value]
  }

  predicate Payable(s: State, r: nat, quote: Quote) {
    && Open(s, r) && QuoteOk(s, r, quote)
    && VaultAt(s.vaults, Sink(s, quote)).Some?
    && AccountAt(s.accounts, s.reservations[r].plan.operatorAccount).Some?
    && Routed(s.vaults, s.reservations[r].plan.hops)
  }

  predicate NetFits(s: State, r: nat, quote: Quote)
    requires Open(s, r)
  {
    BalanceOf(s, quote.beneficiary, s.reservations[r].assetId) + quote.net <= U64_MAX
  }

  /** The operator may be the beneficiary, who has been paid by then. */
  predicate FeeFits(s: State, r: nat, quote: Quote)
    requires Open(s, r)
  {
    var operator := s.reservations[r].plan.operatorAccount;
    BalanceOf(s, operator, s.reservations[r].assetId)
    + (if operator == quote.beneficiary then quote.net else 0) + quote.operatorFee
    <= U64_MAX
  }

  predicate SinkTakes(s: State, quote: Quote)
    requires LaneAt(s.lanes, quote.lane).Some? && VaultAt(s.vaults, Sink(s, quote)).Some?
  {
    SinkVault(s, quote).balance + quote.reserveFee <= U64_MAX
  }

  function EndOf(s: State, r: nat, quote: Quote): SettleEnd
    requires Payable(s, r, quote)
  {
    if !RouteClears(s.vaults, s.reservations[r].plan.hops) then Uncleared
    else if !NetFits(s, r, quote) then NetRefused
    else if !FeeFits(s, r, quote) then FeeRefused
    else if !SinkTakes(s, quote) then SinkRefused
    else Committed
  }

  /** Who has been paid by then. */
  function PayoutBy(end: SettleEnd, reservation: Reservation, quote: Quote): Digest -> nat {
    match end
    case Uncleared => Nobody()
    case NetRefused => Nobody()
    case FeeRefused => To(quote.beneficiary, quote.net)
    case SinkRefused => Payout(reservation, quote)
    case Committed => Payout(reservation, quote)
  }

  function AmountPaid(end: SettleEnd, quote: Quote): nat {
    match end
    case Uncleared => 0
    case NetRefused => 0
    case FeeRefused => quote.net
    case SinkRefused => quote.net + quote.operatorFee
    case Committed => quote.net + quote.operatorFee
  }

  /** The reserve fee joins the sink's holdings only when everything is committed. */
  function Sunk(s: State, quote: Quote, end: SettleEnd, asset: Digest): nat
    requires LaneAt(s.lanes, quote.lane).Some? && VaultAt(s.vaults, Sink(s, quote)).Some?
  {
    if end.Committed? && SinkVault(s, quote).assetId == asset then quote.reserveFee else 0
  }

  /** What a settlement stopped at this end has changed, and what it reports. */
  predicate StopsAt(s: State, o: Outcome, r: nat, quote: Quote, end: SettleEnd)
    requires Open(s, r)
  {
    && o.after == s.(accounts := o.after.accounts, vaults := o.after.vaults)
    && SameBooks(s.vaults, o.after.vaults)
    && AccountsGain(s.accounts, o.after.accounts, Column(s, r), PayoutBy(end, s.reservations[r], quote))
    && (!end.Uncleared? ==> VaultsClear(s.vaults, o.after.vaults, s.reservations[r].plan.hops, Nobody()))
    && o.status == if end.Uncleared? then ErrState else ErrPolicy
  }

  ghost predicate BooksMove(s: State, t: State, r: nat, quote: Quote, end: SettleEnd)
    requires Payable(s, r, quote)
  {
    && Sum(t.accounts, BalanceIn(Column(s, r))) == Sum(s.accounts, BalanceIn(Column(s, r))) + AmountPaid(end, quote)
    && forall asset :: Sum(t.vaults, HeldAs(asset)) == Sum(s.vaults, HeldAs(asset)) + Sunk(s, quote, end, asset)
  }

  lemma {:induction false} SoundPayable(s: State, r: nat, quote: Quote)
    requires Sound(s) && Open(s, r) && QuoteOk(s, r, quote)
    ensures Payable(s, r, quote)
  {
    var hops := s.reservations[r].plan.hops;
    SoundParts(s);
    assert LaneSound(s, s.lanes[LaneAt(s.lanes, quote.lane).value]);
    assert ReservationOk(s, s.reservations[r]);
    forall i | 0 <= i < |hops|
      ensures VaultAt(s.vaults, hops[i].fromVault).Some? && VaultAt(s.vaults, hops[i].toVault).Some?
    {
      assert HopOk(s, s.reservations[r].assetId, s.reservations[r].gross, hops[i]);
    }
  }

  lemma {:induction false} SameHoldings(a: seq<Vault>, b: seq<Vault>)
    requires SameBooks(a, b)
    ensures forall asset :: Sum(a, HeldAs(asset)) == Sum(b, HeldAs(asset))
  {
    forall asset
      ensures Sum(a, HeldAs(asset)) == Sum(b, HeldAs(asset))
    {
      assert forall v | 0 <= v < |a| :: SameBook(a[v], b[v]);
      SameBookSameHoldings(a, b, asset);
    }
  }

  /** The sink's credit, once the route has been cleared. */
  lemma {:induction false} SinkOutcome(before: seq<Vault>, cleared: seq<Vault>, hops: seq<Hop>, sink: Digest,
                                       amount: Amount)
    requires VaultsOk(before) && Raised(cleared, before, hops) && SameBooks(before, cleared)
             && VaultAt(before, sink).Some?
    ensures var w, r := VaultAt(before, sink).value, CreditVault(cleared, sink, amount);
            if before[w].balance + amount <= U64_MAX then
              && r.status == Ok
              && VaultsClear(before, r.after, hops, To(sink, amount))
              && forall asset :: Sum(r.after, HeldAs(asset))
                                 == Sum(before, HeldAs(asset)) + (if before[w].assetId == asset then amount else 0)
            else
              r == Posted(ErrPolicy, cleared)
  {
    SameBooksKeepVaults(before, cleared);
    VaultStays(before, cleared, sink);
    var w := VaultAt(before, sink).value;
    assert SameBook(before[w], cleared[w]);
    if before[w].balance + amount <= U64_MAX {
      var after := CreditVault(cleared, sink, amount).after;
      SinkClears(before, cleared, after, hops, sink, amount, w);
      SameHoldings(before, cleared);
      forall asset
        ensures Sum(after, HeldAs(asset))
             == Sum(before, HeldAs(asset)) + (if before[w].assetId == asset then amount else 0)
      {
        SumUpdate(cleared, w, after[w], HeldAs(asset));
      }
    }
  }

  lemma {:induction false} SinkClears(before: seq<Vault>, cleared: seq<Vault>, after: seq<Vault>, hops: seq<Hop>,
                                      sink: Digest, amount: Amount, w: nat)
    requires VaultsOk(cleared) && Raised(cleared, before, hops) && VaultAt(cleared, sink) == Some(w)
    requires cleared[w].balance + amount <= U64_MAX
    requires after == cleared[w := cleared[w].(balance := cleared[w].balance + amount)]
    ensures VaultsClear(before, after, hops, To(sink, amount))
  {
    forall v | 0 <= v < |before|
      ensures VaultClears(before[v], after[v], hops, To(sink, amount)(before[v].id))
    {
      assert RaisedAt(cleared[v], before[v], hops);
      VaultFound(cleared, v);
    }
  }

  /** The two credits, one after the other. */
  lemma {:induction false} PayOutcome(s: State, r: nat, quote: Quote)
    requires AccountsOk(s.accounts) && Payable(s, r, quote)
    ensures var reservation, k := s.reservations[r], Column(s, r);
            var paid := Credit(s.assets, s.accounts, quote.beneficiary, reservation.assetId, quote.net);
            var feed := Credit(s.assets, paid.after, reservation.plan.operatorAccount, reservation.assetId,
                               quote.operatorFee);
            && (if NetFits(s, r, quote) then
                  && paid.status == Ok
                  && AccountsGain(s.accounts, paid.after, k, To(quote.beneficiary, quote.net))
                  && Sum(paid.after, BalanceIn(k)) == Sum(s.accounts, BalanceIn(k)) + quote.net
                else paid == Posted(ErrPolicy, s.accounts))
            && (NetFits(s, r, quote) ==>
                  if FeeFits(s, r, quote) then
                    && feed.status == Ok
                    && AccountsGain(s.accounts, feed.after, k, Payout(reservation, quote))
                    && Sum(feed.after, BalanceIn(k)) == Sum(s.accounts, BalanceIn(k)) + quote.net + quote.operatorFee
                  else feed == Posted(ErrPolicy, paid.after))
  {
    var reservation, k := s.reservations[r], Column(s, r);
    var operator := reservation.plan.operatorAccount;
    CreditOutcome(s.assets, s.accounts, quote.beneficiary, reservation.assetId, quote.net);
    if NetFits(s, r, quote) {
      var paid := Credit(s.assets, s.accounts, quote.beneficiary, reservation.assetId, quote.net).after;
      GainsKeep(s.accounts, paid, k, To(quote.beneficiary, quote.net));
      AccountStays(s.accounts, paid, operator);
      var i := AccountAt(s.accounts, operator).value;
      assert AccountGains(s.accounts[i], paid[i], k, To(quote.beneficiary, quote.net)(s.accounts[i].id));
      CreditOutcome(s.assets, paid, operator, reservation.assetId, quote.operatorFee);
      if FeeFits(s, r, quote) {
        var feed := Credit(s.assets, paid, operator, reservation.assetId, quote.operatorFee).after;
        GainsChain(s.accounts, paid, feed, k, To(quote.beneficiary, quote.net), To(operator, quote.operatorFee));
      }
    }
  }

  /** Settlement, posting by posting. */
  lemma SettleUnfolded(s: State, r: nat, quote: Quote, receipt: Receipt)
    requires Open(s, r) && LaneAt(s.lanes, quote.lane).Some?
    ensures var reservation := s.reservations[r];
            var released := UpdateRoutePending(s.vaults, reservation.plan.hops, true);
            var paid := Credit(s.assets, s.accounts, quote.beneficiary, reservation.assetId, quote.net);
            var feed := Credit(s.assets, paid.after, reservation.plan.operatorAccount, reservation.assetId,
                               quote.operatorFee);
            var sunk := CreditVault(released.after, Sink(s, quote), quote.reserveFee);
            SettleQuoted(s, r, quote, receipt)
            == if released.status != Ok then Posted(released.status, s.(vaults := released.after))
            else if paid.status != Ok then Posted(paid.status, s.(vaults := released.after, accounts := paid.after))
            else if feed.status != Ok then Posted(feed.status, s.(vaults := released.after, accounts := feed.after))
            else if sunk.status != Ok then Posted(sunk.status, s.(vaults := sunk.after, accounts := feed.after))
            else SettleCommit(s.(vaults := sunk.after, accounts := feed.after), r, receipt)
  {
    hide Credit, UpdateRoutePending, CreditVault, SettleCommit, LaneAt;
  }

  lemma {:induction false} NoGain(accounts: seq<Account>, k: nat)
    requires k < MAX_ASSETS
    ensures AccountsGain(accounts, accounts, k, Nobody())
  {
  }

  /** Every end of a quoted settlement, from any ledger with sound records. */
  lemma {:induction false} SettleEnds(s: State, r: nat, quote: Quote, receipt: Receipt)
    requires Sound(s) && Open(s, r) && QuoteOk(s, r, quote)
    ensures Payable(s, r, quote)
    ensures var o, end := SettleQuoted(s, r, quote, receipt), EndOf(s, r, quote);
            && BooksMove(s, o.after, r, quote, end)
            && if end.Committed? then
                 && Settles(s, o.after, r, quote, receipt)
                 && o.status == CommitStatus(s, o.after, s.reservations[r].assetId)
               else StopsAt(s, o, r, quote, end)
  {
    SoundPayable(s, r, quote);
    SoundParts(s);
    hide Sound, LanesSound, LanesKnown, ReservationsOk, DistinctReservations, NoncesCount, CatalogOk, AssetsOk,
      ColumnsOk, VaultAssetsOk;
    PostingsEnd(s, r, quote, receipt);
  }

  lemma StopEnd(s: State, o: Outcome, r: nat, quote: Quote, vaults: seq<Vault>, accounts: seq<Account>)
    requires Payable(s, r, quote) && !EndOf(s, r, quote).Committed?
    requires var end := EndOf(s, r, quote);
             && o == Posted(if end.Uncleared? then ErrState else ErrPolicy, s.(vaults := vaults, accounts := accounts))
             && SameBooks(s.vaults, vaults)
             && AccountsGain(s.accounts, accounts, Column(s, r), PayoutBy(end, s.reservations[r], quote))
             && (!end.Uncleared? ==> VaultsClear(s.vaults, vaults, s.reservations[r].plan.hops, Nobody()))
             && Sum(accounts, BalanceIn(Column(s, r)))
                == Sum(s.accounts, BalanceIn(Column(s, r))) + AmountPaid(end, quote)
    requires forall asset :: Sum(vaults, HeldAs(asset)) == Sum(s.vaults, HeldAs(asset))
    ensures BooksMove(s, o.after, r, quote, EndOf(s, r, quote)) && StopsAt(s, o, r, quote, EndOf(s, r, quote))
  {
    hide Payable, EndOf, SameBooks, AccountsGain, VaultsClear, Sum, PayoutBy, AmountPaid;
  }

  lemma CommitEnd(s: State, o: Outcome, r: nat, quote: Quote, receipt: Receipt, vaults: seq<Vault>,
                  accounts: seq<Account>)
    requires Payable(s, r, quote) && EndOf(s, r, quote).Committed?
    requires o == SettleCommit(s.(vaults := vaults, accounts := accounts), r, receipt)
    requires AccountsGain(s.accounts, accounts, Column(s, r), Payout(s.reservations[r], quote))
    requires VaultsClear(s.vaults, vaults, s.reservations[r].plan.hops, To(Sink(s, quote), quote.reserveFee))
    requires Sum(accounts, BalanceIn(Column(s, r)))
          == Sum(s.accounts, BalanceIn(Column(s, r))) + quote.net + quote.operatorFee
    requires forall asset :: Sum(vaults, HeldAs(asset))
                             == Sum(s.vaults, HeldAs(asset)) + Sunk(s, quote, Committed, asset)
    ensures BooksMove(s, o.after, r, quote, Committed)
    ensures Settles(s, o.after, r, quote, receipt) && o.status == CommitStatus(s, o.after, s.reservations[r].assetId)
  {
    SettleCommitFrame(s.(vaults := vaults, accounts := accounts), r, receipt);
    hide SettleCommit, EndOf, AccountsGain, VaultsClear, Sum, Sunk, ConservationOk;
  }

  /** What clearing the route leaves. */
  lemma {:induction false} ClearedVaults(s: State, r: nat, quote: Quote)
    requires VaultsOk(s.vaults) && Payable(s, r, quote)
    ensures var hops := s.reservations[r].plan.hops;
            var released := UpdateRoutePending(s.vaults, hops, true);
            && released.status == (if RouteClears(s.vaults, hops) then Ok else ErrState)
            && SameBooks(s.vaults, released.after)
            && (RouteClears(s.vaults, hops) ==>
                  Raised(released.after, s.vaults, hops) && VaultsClear(s.vaults, released.after, hops, Nobody()))
            && forall asset :: Sum(released.after, HeldAs(asset)) == Sum(s.vaults, HeldAs(asset))
  {
    var hops := s.reservations[r].plan.hops;
    var released := UpdateRoutePending(s.vaults, hops, true).after;
    ReleaseOutcome(s.vaults, hops);
    SameHoldings(s.vaults, released);
    hide UpdateRoutePending, SameBooks, VaultsClear, Raised, RouteClears;
    if RouteClears(s.vaults, hops) {
      ReleaseClears(s.vaults, released, hops);
    }
  }

  lemma PayableParts(s: State, r: nat, quote: Quote)
    requires Payable(s, r, quote)
    ensures Open(s, r) && QuoteOk(s, r, quote) && Routed(s.vaults, s.reservations[r].plan.hops)
    ensures r < |s.reservations| && LaneAt(s.lanes, quote.lane).Some? && VaultAt(s.vaults, Sink(s, quote)).Some?
    ensures Column(s, r) < MAX_ASSETS
  {
  }

  lemma EndParts(s: State, r: nat, quote: Quote)
    requires Payable(s, r, quote)
    ensures EndOf(s, r, quote)
         == if !RouteClears(s.vaults, s.reservations[r].plan.hops) then Uncleared
            else if !NetFits(s, r, quote) then NetRefused
            else if !FeeFits(s, r, quote) then FeeRefused
            else if !SinkTakes(s, quote) then SinkRefused
            else Committed
    ensures SinkTakes(s, quote)
       <==> s.vaults[VaultAt(s.vaults, Sink(s, quote)).value].balance + quote.reserveFee <= U64_MAX
  {
    hide RouteClears, NetFits, FeeFits, Payable;
  }

  lemma PaidParts(end: SettleEnd, reservation: Reservation, quote: Quote)
    ensures PayoutBy(end, reservation, quote)
         == if end.Uncleared? || end.NetRefused? then Nobody()
            else if end.FeeRefused? then To(quote.beneficiary, quote.net)
            else Payout(reservation, quote)
    ensures AmountPaid(end, quote)
         == if end.Uncleared? || end.NetRefused? then 0
            else if end.FeeRefused? then quote.net
            else quote.net + quote.operatorFee
  {
  }

  lemma {:induction false} UnpaidEnd(s: State, r: nat, quote: Quote, receipt: Receipt)
    requires AccountsOk(s.accounts) && VaultsOk(s.vaults) && Payable(s, r, quote)
    requires EndOf(s, r, quote).Uncleared? || EndOf(s, r, quote).NetRefused?
    ensures var o, end := SettleQuoted(s, r, quote, receipt), EndOf(s, r, quote);
            BooksMove(s, o.after, r, quote, end) && StopsAt(s, o, r, quote, end)
  {
    hide *;
    PayableParts(s, r, quote);
    EndParts(s, r, quote);
    PaidParts(EndOf(s, r, quote), s.reservations[r], quote);
    ClearedVaults(s, r, quote);
    PayOutcome(s, r, quote);
    NoGain(s.accounts, Column(s, r));
    SettleUnfolded(s, r, quote, receipt);
    var released := UpdateRoutePending(s.vaults, s.reservations[r].plan.hops, true).after;
    StopEnd(s, SettleQuoted(s, r, quote, receipt), r, quote, released, s.accounts);
  }

  lemma {:induction false} PaidStopEnd(s: State, r: nat, quote: Quote, receipt: Receipt)
    requires AccountsOk(s.accounts) && VaultsOk(s.vaults) && Payable(s, r, quote)
    requires EndOf(s, r, quote).FeeRefused? || EndOf(s, r, quote).SinkRefused?
    ensures var o, end := SettleQuoted(s, r, quote, receipt), EndOf(s, r, quote);
            BooksMove(s, o.after, r, quote, end) && StopsAt(s, o, r, quote, end)
  {
    hide *;
    PayableParts(s, r, quote);
    EndParts(s, r, quote);
    PaidParts(EndOf(s, r, quote), s.reservations[r], quote);
    ClearedVaults(s, r, quote);
    PayOutcome(s, r, quote);
    SettleUnfolded(s, r, quote, receipt);
    var reservation, hops := s.reservations[r], s.reservations[r].plan.hops;
    var released := UpdateRoutePending(s.vaults, hops, true).after;
    var paid := Credit(s.assets, s.accounts, quote.beneficiary, reservation.assetId, quote.net).after;
    var feed := Credit(s.assets, paid, reservation.plan.operatorAccount, reservation.assetId, quote.operatorFee).after;
    SinkOutcome(s.vaults, released, hops, Sink(s, quote), quote.reserveFee);
    StopEnd(s, SettleQuoted(s, r, quote, receipt), r, quote, released,
            if EndOf(s, r, quote).FeeRefused? then paid else feed);
  }

  lemma {:induction false} CommittedEnd(s: State, r: nat, quote: Quote, receipt: Receipt)
    requires AccountsOk(s.accounts) && VaultsOk(s.vaults) && Payable(s, r, quote) && EndOf(s, r, quote).Committed?
    ensures var o := SettleQuoted(s, r, quote, receipt);
            && BooksMove(s, o.after, r, quote, Committed)
            && Settles(s, o.after, r, quote, receipt)
            && o.status == CommitStatus(s, o.after, s.reservations[r].assetId)
  {
    hide *;
    PayableParts(s, r, quote);
    EndParts(s, r, quote);
    ClearedVaults(s, r, quote);
    PayOutcome(s, r, quote);
    SettleUnfolded(s, r, quote, receipt);
    var reservation, hops := s.reservations[r], s.reservations[r].plan.hops;
    var released := UpdateRoutePending(s.vaults, hops, true).after;
    var paid := Credit(s.assets, s.accounts, quote.beneficiary, reservation.assetId, quote.net).after;
    var feed := Credit(s.assets, paid, reservation.plan.operatorAccount, reservation.assetId, quote.operatorFee).after;
    SinkOutcome(s.vaults, released, hops, Sink(s, quote), quote.reserveFee);
    CommittedSunk(s, r, quote);
    CommitEnd(s, SettleQuoted(s, r, quote, receipt), r, quote, receipt,
              CreditVault(released, Sink(s, quote), quote.reserveFee).after, feed);
  }

  lemma CommittedSunk(s: State, r: nat, quote: Quote)
    requires Payable(s, r, quote)
    ensures forall asset ::
              Sunk(s, quote, Committed, asset)
              == if s.vaults[VaultAt(s.vaults, Sink(s, quote)).value].assetId == asset then quote.reserveFee else 0
  {
  }

  lemma {:induction false} PostingsEnd(s: State, r: nat, quote: Quote, receipt: Receipt)
    requires AccountsOk(s.accounts) && VaultsOk(s.vaults) && Payable(s, r, quote)
    ensures var o, end := SettleQuoted(s, r, quote, receipt), EndOf(s, r, quote);
            && BooksMove(s, o.after, r, quote, end)
            && if end.Committed? then
                 && Settles(s, o.after, r, quote, receipt)
                 && o.status == CommitStatus(s, o.after, s.reservations[r].assetId)
               else StopsAt(s, o, r, quote, end)
  {
    hide *;
    match EndOf(s, r, quote)
    case Uncleared => UnpaidEnd(s, r, quote, receipt);
    case NetRefused => UnpaidEnd(s, r, quote, receipt);
    case FeeRefused => PaidStopEnd(s, r, quote, receipt);
    case SinkRefused => PaidStopEnd(s, r, quote, receipt);
    case Committed => CommittedEnd(s, r, quote, receipt);
  }
}
