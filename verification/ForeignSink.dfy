/** What settling costs over a lane whose sink vault holds another asset. */
module ForeignSink {
  import opened Amounts
  import opened Digests
  import opened Sums
  import opened Routes
  import opened Exposure
  import opened LedgerTypes
  import opened LedgerSteps
  import opened LedgerInvariant
  import opened PendingProofs
  import opened PostingProofs
  import opened ClosingProofs
  import opened SettleProofs
  import opened SoundBooks
  import opened Accounting
  import opened Runs
  import opened Commute

  // ---------- Lanes with a foreign sink ----------

  /** The same ledger, had lane l been opened on another sink. */
  function WithSink(s: State, l: nat, sink: Digest): State
    requires l < |s.lanes|
  {
    s.(lanes := s.lanes[l := s.lanes[l].(sinkVault := sink)])
  }

  lemma {:induction false} SinkUnread(a: seq<Lane>, l: nat, sink: Digest, id: Digest)
    requires l < |a|
    ensures LaneAt(a[l := a[l].(sinkVault := sink)], id) == LaneAt(a, id)
  {
    var b := a[l := a[l].(sinkVault := sink)];
    assert forall i | 0 <= i < |a| :: a[i].active == b[i].active && a[i].id == b[i].id;
  }

  lemma PriceIgnoresSink(lane: Lane, sink: Digest, gross: Amount, maxFeeBps: U32, minNet: Amount,
                         premium: Result<Amount>)
    ensures PriceOn(lane.(sinkVault := sink), gross, maxFeeBps, minNet, premium)
         == PriceOn(lane, gross, maxFeeBps, minNet, premium)
  {
    hide MulBps, Add, Sub, Floor;
  }

  lemma {:induction false} OfferIgnoresSink(s: State, l: nat, sink: Digest, reservation: Reservation,
                                            compacted: CompactedPlan)
    requires l < |s.lanes|
    ensures QuoteSettlement(WithSink(s, l, sink), reservation, compacted) == QuoteSettlement(s, reservation, compacted)
  {
    SinkUnread(s.lanes, l, sink, compacted.effectiveLane);
    if LaneAt(s.lanes, compacted.effectiveLane) == Some(l) {
      var lane, plan := s.lanes[l], reservation.plan;
      PriceIgnoresSink(lane, sink, reservation.gross, plan.maxFeeBps, plan.minNet,
                       Premium(s, lane, compacted.plan.hops));
    }
    hide PriceOn;
  }

  /** Quotes never look at a sink. */
  lemma {:induction false} QuoteIgnoresSink(h: Hashes, s: State, l: nat, sink: Digest, id: Digest, epoch: Amount)
    requires l < |s.lanes|
    ensures SettlementQuote(h, WithSink(s, l, sink), id, epoch) == SettlementQuote(h, s, id, epoch)
  {
    hide QuoteSettlement, Compact;
    if SettleGuard(s, id, epoch) == Ok {
      var reservation := s.reservations[ReservationAt(s.reservations, id).value];
      if Compact(h.plan, reservation.plan).Success? {
        OfferIgnoresSink(s, l, sink, reservation, Compact(h.plan, reservation.plan).value);
      }
    }
  }

  lemma {:induction false} HopIgnoresSink(s: State, l: nat, sink: Digest, terms: Terms, hop: Hop)
    requires l < |s.lanes|
    ensures HopStatus(WithSink(s, l, sink), terms, hop) == HopStatus(s, terms, hop)
  {
    SinkUnread(s.lanes, l, sink, hop.lane);
  }

  lemma {:induction false} HopsIgnoreSink(s: State, l: nat, sink: Digest, terms: Terms, hops: seq<Hop>)
    requires l < |s.lanes|
    ensures HopsStatus(WithSink(s, l, sink), terms, hops) == HopsStatus(s, terms, hops)
  {
    hide HopStatus;
    if |hops| > 0 {
      HopIgnoresSink(s, l, sink, terms, hops[0]);
      HopsIgnoreSink(s, l, sink, terms, hops[1..]);
    }
  }

  lemma PlanUnfolds(s: State, terms: Terms, lane: Lane)
    requires LaneAt(s.lanes, terms.plan.settlementLane).Some?
    requires s.lanes[LaneAt(s.lanes, terms.plan.settlementLane).value].(sinkVault := lane.sinkVault) == lane
    ensures var plan, hops := terms.plan, terms.plan.hops;
            PlanStatus(s, terms)
            == if |hops| == 0 || |hops| > MAX_ROUTE_HOPS then ErrPolicy
            else if !lane.active then ErrNotFound
            else if lane.assetId != terms.assetId || lane.terminalAccount != plan.beneficiary then ErrPolicy
            else if AccountAt(s.accounts, plan.beneficiary).None? || AccountAt(s.accounts,
                                                                               plan.operatorAccount).None?
            then ErrNotFound
            else if lane.operatorFeeBps + lane.reserveBps > plan.maxFeeBps then ErrPolicy
              else HopsStatus(s, terms, hops)
  {
    hide HopsStatus, LaneAt, AccountAt;
  }

  lemma {:induction false} PlanIgnoresSink(s: State, l: nat, sink: Digest, terms: Terms)
    requires l < |s.lanes|
    ensures PlanStatus(WithSink(s, l, sink), terms) == PlanStatus(s, terms)
  {
    var k := LaneAt(s.lanes, terms.plan.settlementLane);
    SinkUnread(s.lanes, l, sink, terms.plan.settlementLane);
    hide HopsStatus, HopStatus, LaneAt, AccountAt;
    if k.Some? {
      HopsIgnoreSink(s, l, sink, terms, terms.plan.hops);
      PlanUnfolds(s, terms, s.lanes[k.value]);
      PlanUnfolds(WithSink(s, l, sink), terms,
                  s.lanes[k.value].(sinkVault := WithSink(s, l, sink).lanes[k.value].sinkVault));
      hide PlanStatus;
    }
  }

  lemma PayerIgnoresSink(h: Hashes, s: State, l: nat, sink: Digest, signed: SignedIntent)
    requires l < |s.lanes|
    ensures SignatureStatus(h, WithSink(s, l, sink), signed) == SignatureStatus(h, s, signed)
    ensures BalanceOf(WithSink(s, l, sink), signed.terms.payer, signed.terms.assetId)
         == BalanceOf(s, signed.terms.payer, signed.terms.assetId)
  {
  }

  lemma {:induction false} AdmissionIgnoresSink(h: Hashes, s: State, l: nat, sink: Digest, signed: SignedIntent)
    requires l < |s.lanes|
    ensures AdmissionStatus(h, WithSink(s, l, sink), signed) == AdmissionStatus(h, s, signed)
  {
    PlanIgnoresSink(s, l, sink, signed.terms);
    PayerIgnoresSink(h, s, l, sink, signed);
    AdmissionUnfolds(h, s, signed);
    AdmissionUnfolds(h, WithSink(s, l, sink), signed);
    hide AdmissionStatus, PlanStatus, SignatureStatus, BalanceOf, IntentKnown, AccountAt, AssetAt;
  }

  lemma AdmissionUnfolds(h: Hashes, s: State, signed: SignedIntent)
    ensures var terms := signed.terms;
            AdmissionStatus(h, s, signed)
            == if |s.reservations| >= MAX_RESERVATIONS then ErrCapacity
            else if SignatureStatus(h, s, signed) != Ok then SignatureStatus(h, s, signed)
            else if terms.networkId != s.networkId then ErrPolicy
            else if terms.deadline < s.epoch then ErrExpired
            else if AccountAt(s.accounts, terms.payer).None? then ErrDuplicate
            else if s.accounts[AccountAt(s.accounts, terms.payer).value].intentNonce != terms.payerNonce
            then ErrDuplicate
            else if PlanStatus(s, terms) != Ok then PlanStatus(s, terms)
              else if IntentKnown(s.reservations, terms.intentId) then ErrDuplicate
              else if BalanceOf(s, terms.payer, terms.assetId) < terms.gross then ErrBalance
              else Ok
  {
    hide PlanStatus, BalanceOf, IntentKnown, AccountAt;
  }

  lemma BooksIgnoreSink(s: State, l: nat, sink: Digest, assetId: Digest)
    requires l < |s.lanes|
    ensures ConservationOk(WithSink(s, l, sink), assetId) <==> ConservationOk(s, assetId)
  {
    hide Sum, AssetAt;
  }

  lemma {:induction false} CommitIgnoresSink(s: State, l: nat, sink: Digest, reservation: Reservation)
    requires l < |s.lanes|
    ensures var o := ReserveCommit(s, reservation);
            && o.after.lanes == s.lanes
            && ReserveCommit(WithSink(s, l, sink), reservation) == Posted(o.status, WithSink(o.after, l, sink))
  {
    var o, u := ReserveCommit(s, reservation), ReserveCommit(WithSink(s, l, sink), reservation);
    hide ConservationOk, AccountAt;
    BooksIgnoreSink(o.after, l, sink, reservation.assetId);
  }

  /** A reserve call never looks at a sink either. */
  lemma {:induction false} ReserveIgnoresSink(h: Hashes, s: State, l: nat, sink: Digest, signed: SignedIntent)
    requires l < |s.lanes|
    ensures var o := Reserve(h, s, signed);
            && o.after.lanes == s.lanes
            && Reserve(h, WithSink(s, l, sink), signed) == Posted(o.status, WithSink(o.after, l, sink))
  {
    AdmissionIgnoresSink(h, s, l, sink, signed);
    ReserveUnfolds(h, s, signed);
    ReserveUnfolds(h, WithSink(s, l, sink), signed);
    hide Reserve, AdmissionStatus, UpdateRoutePending, Debit, ReserveCommit, ReservationAt, AccountAt, AssetAt,
      NewReservation;
    var pending := UpdateRoutePending(s.vaults, signed.terms.plan.hops, false).after;
    var paid := Debit(s.assets, s.accounts, signed.terms.payer, signed.terms.assetId, signed.terms.gross).after;
    CommitIgnoresSink(s.(vaults := pending, accounts := paid), l, sink, NewReservation(h, signed.terms, s.epoch));
  }

  lemma ReserveUnfolds(h: Hashes, s: State, signed: SignedIntent)
    ensures var terms, hops := signed.terms, signed.terms.plan.hops;
            var pending := UpdateRoutePending(s.vaults, hops, false);
            var undone := UpdateRoutePending(pending.after, hops, true).after;
            var reservation := NewReservation(h, terms, s.epoch);
            var debited := Debit(s.assets, s.accounts, terms.payer, terms.assetId, terms.gross);
            Reserve(h, s, signed)
            == if AdmissionStatus(h, s, signed) != Ok then Posted(AdmissionStatus(h, s, signed), s)
            else if pending.status != Ok then Posted(pending.status, s.(vaults := pending.after))
            else if ReservationAt(s.reservations, reservation.id).Some? then Posted(ErrDuplicate,
                                                                                    s.(vaults := undone))
            else if debited.status != Ok then Posted(debited.status, s.(vaults := undone))
            else ReserveCommit(s.(vaults := pending.after, accounts := debited.after), reservation)
  {
    hide AdmissionStatus, UpdateRoutePending, Debit, ReserveCommit, ReservationAt, NewReservation;
  }

  // ---------- Settling with foreign sinks ----------

  /** Valid in everything but the sinks of lanes, however many of them are foreign. */
  ghost predicate ValidButForSinks(s: State) {
    Sound(s) && Conserved(s) && PendingCovers(s.vaults, s.reservations)
  }

  lemma ValidIsValidButForSinks(s: State)
    requires Inv(s)
    ensures ValidButForSinks(s)
  {
    InvIsSound(s);
  }

  /** No fee to move between assets. */
  predicate FeeStays(s: State, r: nat, quote: Quote)
    requires Payable(s, r, quote)
  {
    quote.reserveFee == 0 || SinkVault(s, quote).assetId == s.reservations[r].assetId
  }

  lemma {:induction false} CoveredClears(s: State, r: nat)
    requires PendingCovers(s.vaults, s.reservations) && Open(s, r)
    ensures RouteClears(s.vaults, s.reservations[r].plan.hops)
  {
    forall v | 0 <= v < |s.vaults|
      ensures Bounds(s.vaults[v], s.reservations[r].plan.hops)
    {
      assert Covered(s.vaults[v], s.reservations);
      SumCovers(s.reservations, r, OwedOut(s.vaults[v].id));
      SumCovers(s.reservations, r, OwedIn(s.vaults[v].id));
    }
  }

  /** A balance, or a vault of the asset, and an open reservation fit under the supply together. */
  lemma {:induction false} ConservedFits(s: State, r: nat, account: Digest)
    requires Conserved(s) && Open(s, r) && AccountAt(s.accounts, account).Some?
    ensures BalanceOf(s, account, s.reservations[r].assetId) + s.reservations[r].gross <= U64_MAX
    ensures Sum(s.vaults, HeldAs(s.reservations[r].assetId)) + s.reservations[r].gross <= U64_MAX
  {
    var k := Column(s, r);
    assert Observed(s, k) == s.issued[k];
    SumCovers(s.reservations, r, LockedAs(s.assets[k]));
    SumCovers(s.accounts, AccountAt(s.accounts, account).value, BalanceIn(k));
  }

  /** From such a ledger only the sink can refuse, and only a foreign one. */
  lemma {:induction false} OnlySinksRefuse(s: State, r: nat, quote: Quote)
    requires ValidButForSinks(s) && Open(s, r) && QuoteOk(s, r, quote)
    ensures Payable(s, r, quote)
    ensures EndOf(s, r, quote) == if SinkTakes(s, quote) then Committed else SinkRefused
    ensures FeeStays(s, r, quote) ==> SinkTakes(s, quote)
  {
    SoundPayable(s, r, quote);
    CoveredClears(s, r);
    ConservedFits(s, r, quote.beneficiary);
    ConservedFits(s, r, s.reservations[r].plan.operatorAccount);
    hide Sound, Conserved, PendingCovers, RouteClears, BalanceOf, Sum;
    if SinkVault(s, quote).assetId == s.reservations[r].assetId {
      var w := VaultAt(s.vaults, Sink(s, quote)).value;
      SumCovers(s.vaults, w, HeldAs(s.reservations[r].assetId));
    }
  }

  lemma {:induction false} ConservedIff(s: State, t: State, moves: Digest -> Moves)
    requires Conserved(s) && Accounts(s, t, moves) && t.assets == s.assets
    ensures Conserved(t) <==> forall k {:trigger s.assets[k]} | 0 <= k < |s.assets| :: moves(s.assets[k]).Net() == 0
  {
    hide Sound, Observed;
    forall k | 0 <= k < |s.assets|
      ensures Observed(t, k) - t.issued[k] == moves(s.assets[k]).Net()
    {
      assert Observed(s, k) == s.issued[k];
      assert Surplus(t, k) == Surplus(s, k) + moves(s.assets[k]).Net();
    }
  }

  /** What the moves add up to, asset by asset: nothing exactly when the end is harmless. */
  lemma {:induction false} HarmlessIff(s: State, r: nat, quote: Quote)
    requires AssetsOk(s.assets) && Payable(s, r, quote)
    ensures var end := EndOf(s, r, quote);
            (forall k {:trigger s.assets[k]} | 0 <= k < |s.assets| :: QuoteMovesOf(s, r, quote)(s.assets[k]).Net() == 0)
            <==> if end.Committed? then FeeStays(s, r, quote) else AmountPaid(end, quote) == 0
  {
    var k, end := Column(s, r), EndOf(s, r, quote);
    forall c | 0 <= c < |s.assets|
      ensures QuoteMovesOf(s, r, quote)(s.assets[c])
           == MovesBy(end, quote, s.reservations[r].assetId == s.assets[c], SinkVault(s, quote).assetId == s.assets[c])
    {
      QuoteMovesUnfold(s, r, quote, s.assets[c]);
      QuoteMovesAre(s, r, quote, s.assets[c]);
    }
    hide Payable, EndOf, SinkVault, QuoteMovesOf, AssetsOk;
    assert s.assets[k] == s.reservations[r].assetId;
  }

  lemma {:induction false} SameConservation(s: State, t: State, r: nat, quote: Quote)
    requires Conserved(s) && Payable(s, r, quote) && Accounts(s, t, QuoteMovesOf(s, r, quote)) && t.assets == s.assets
    requires EndOf(s, r, quote).Committed? && !FeeStays(s, r, quote) && AssetsOk(s.assets) && t.issued == s.issued
    ensures !ConservationOk(t, s.reservations[r].assetId)
  {
    var k := Column(s, r);
    QuoteMovesUnfold(s, r, quote, s.assets[k]);
    QuoteMovesAre(s, r, quote, s.assets[k]);
    assert Surplus(t, k) == Surplus(s, k) + QuoteMovesOf(s, r, quote)(s.assets[k]).Net();
    hide Sound, Payable, EndOf, SinkVault, QuoteMovesOf, Accounts;
    assert Observed(s, k) == s.issued[k];
    assert Observed(t, k) == t.issued[k] - quote.reserveFee;
  }

  /** Every end of a quoted settlement over lanes with any sinks: committed, with money conserved exactly when the fee
      stays in its asset; or, at a sink that refuses the fee, stopped with the parties paid and the reservation open. */
  lemma {:induction false} ForeignSinkOutcomes(h: Hashes, s: State, id: Digest, epoch: Amount)
    requires ValidButForSinks(s) && SettlementQuote(h, s, id, epoch).Success?
    ensures var quote, o := SettlementQuote(h, s, id, epoch).value, Settle(h, s, id, epoch);
            var r, receipt := ReservationAt(s.reservations, id).value, ReceiptFor(h, s, id, epoch);
            && Payable(s, r, quote)
            && (FeeStays(s, r, quote) ==> SinkTakes(s, quote))
            && if SinkTakes(s, quote) then
                 && Settles(s, o.after, r, quote, receipt)
                 && (Conserved(o.after) <==> FeeStays(s, r, quote))
                 && o.status == if |s.journal| >= MAX_JOURNAL then ErrCapacity
                                else if FeeStays(s, r, quote) then Ok else ErrState
               else
                 && StopsAt(s, o, r, quote, SinkRefused)
                 && (Conserved(o.after) <==> quote.net + quote.operatorFee == 0)
  {
    var quote, r := SettlementQuote(h, s, id, epoch).value, ReservationAt(s.reservations, id).value;
    SoundParts(s);
    hide *;
    AcceptedQuote(h, s, id, epoch);
    SettleUnfolds(h, s, id, epoch);
    QuotedOutcome(s, r, quote, ReceiptFor(h, s, id, epoch));
  }

  lemma {:induction false} QuotedOutcome(s: State, r: nat, quote: Quote, receipt: Receipt)
    requires ValidButForSinks(s) && Open(s, r) && QuoteOk(s, r, quote)
    ensures var o := SettleQuoted(s, r, quote, receipt);
            && Payable(s, r, quote)
            && (FeeStays(s, r, quote) ==> SinkTakes(s, quote))
            && if SinkTakes(s, quote) then
                 && Settles(s, o.after, r, quote, receipt)
                 && (Conserved(o.after) <==> FeeStays(s, r, quote))
                 && o.status == if |s.journal| >= MAX_JOURNAL then ErrCapacity
                                else if FeeStays(s, r, quote) then Ok else ErrState
               else
                 && StopsAt(s, o, r, quote, SinkRefused)
                 && (Conserved(o.after) <==> quote.net + quote.operatorFee == 0)
  {
    hide *;
    ForeignParts(s, r, quote);
    OnlySinksRefuse(s, r, quote);
    SettleEnds(s, r, quote, receipt);
    PaidParts(EndOf(s, r, quote), s.reservations[r], quote);
    QuotedConserves(s, r, quote, receipt);
    CommittedStatus(s, SettleQuoted(s, r, quote, receipt).after, s.reservations[r].assetId);
  }

  lemma ForeignParts(s: State, r: nat, quote: Quote)
    requires ValidButForSinks(s) && Open(s, r)
    ensures r < |s.reservations| && Sound(s) && Conserved(s)
  {
    hide Sound, Conserved;
  }

  lemma CommittedStatus(s: State, t: State, assetId: Digest)
    ensures CommitStatus(s, t, assetId)
         == if |s.journal| >= MAX_JOURNAL then ErrCapacity else if ConservationOk(t, assetId) then Ok else ErrState
  {
    hide ConservationOk;
  }

  lemma {:induction false} QuotedConserves(s: State, r: nat, quote: Quote, receipt: Receipt)
    requires Sound(s) && Conserved(s) && Open(s, r) && QuoteOk(s, r, quote)
    ensures Payable(s, r, quote)
    ensures var t, end := SettleQuoted(s, r, quote, receipt).after, EndOf(s, r, quote);
            && (Conserved(t) <==> if end.Committed? then FeeStays(s, r, quote) else AmountPaid(end, quote) == 0)
            && (end.Committed? ==> (ConservationOk(t, s.reservations[r].assetId) <==> FeeStays(s, r, quote)))
  {
    var o := SettleQuoted(s, r, quote, receipt);
    hide *;
    SoundParts(s);
    SettleEnds(s, r, quote, receipt);
    EndShows(s, o, r, quote, receipt);
    QuotedAccounts(s, r, quote, receipt);
    HarmlessIff(s, r, quote);
    ConservedIff(s, o.after, QuoteMovesOf(s, r, quote));
    if EndOf(s, r, quote).Committed? {
      if FeeStays(s, r, quote) {
        ConservedChecks(o.after, s.reservations[r].assetId);
      } else {
        SameConservation(s, o.after, r, quote);
      }
    }
  }

  /** Such a settlement conserves money and leaves its receipt if and only if the fee stays in its asset. */
  lemma {:induction false} ForeignSinkConservesIff(h: Hashes, s: State, id: Digest, epoch: Amount)
    requires ValidButForSinks(s) && SettlementQuote(h, s, id, epoch).Success?
    ensures var quote, o, r := SettlementQuote(h, s, id, epoch).value, Settle(h, s, id, epoch),
                               ReservationAt(s.reservations, id).value;
            && Payable(s, r, quote)
            && (Conserved(o.after) && |o.after.receipts| == |s.receipts| + 1 <==> FeeStays(s, r, quote))
  {
    hide Sound, ValidButForSinks, SettlementQuote, Settle, Conserved, Payable, FeeStays, SinkTakes, Closes,
      AccountsGain, VaultsClear, SameBooks;
    ForeignSinkOutcomes(h, s, id, epoch);
  }

  lemma {:induction false} SilentClears(before: seq<Vault>, after: seq<Vault>, hops: seq<Hop>)
    requires VaultsClear(before, after, hops, Nobody()) && Routed(before, hops)
    ensures after == before <==> Silent(hops)
  {
    forall v | 0 <= v < |before|
      ensures RaisedAt(after[v], before[v], hops)
    {
      assert VaultClears(before[v], after[v], hops, Nobody()(before[v].id));
    }
    ClearKeepsVaults(before, after, hops, Nobody());
    RoutedStays(before, after, hops);
    RaisedUnchangedIff(after, before, hops);
  }

  /** The beneficiary and the operator are paid exactly when there is something to pay. */
  lemma {:induction false} PaidAccounts(s: State, accounts: seq<Account>, r: nat, quote: Quote)
    requires Payable(s, r, quote) && AccountsGain(s.accounts, accounts, Column(s, r), Payout(s.reservations[r], quote))
    ensures accounts == s.accounts <==> quote.net + quote.operatorFee == 0
  {
    var k, payout := Column(s, r), Payout(s.reservations[r], quote);
    if quote.net + quote.operatorFee == 0 {
      forall i | 0 <= i < |accounts|
        ensures accounts[i] == s.accounts[i]
      {
        assert AccountGains(s.accounts[i], accounts[i], k, payout(s.accounts[i].id));
        assert accounts[i].balances == s.accounts[i].balances;
      }
    } else {
      var i := AccountAt(s.accounts, quote.beneficiary).value;
      var j := AccountAt(s.accounts, s.reservations[r].plan.operatorAccount).value;
      assert AccountGains(s.accounts[i], accounts[i], k, payout(s.accounts[i].id));
      assert AccountGains(s.accounts[j], accounts[j], k, payout(s.accounts[j].id));
    }
  }

  lemma {:induction false} StoppedUnchangedIff(s: State, o: Outcome, r: nat, quote: Quote)
    requires Payable(s, r, quote) && StopsAt(s, o, r, quote, SinkRefused)
    ensures o.after == s <==> quote.net + quote.operatorFee == 0 && Silent(s.reservations[r].plan.hops)
  {
    PaidAccounts(s, o.after.accounts, r, quote);
    assert Routed(s.vaults, s.reservations[r].plan.hops);
    hide Payable, AccountsGain, VaultsClear, SameBooks, Silent, Routed;
    SilentClears(s.vaults, o.after.vaults, s.reservations[r].plan.hops);
  }

  /** It is all or nothing - everything committed and conserved, or nothing changed - if and only if the fee stays in
      its asset, or a fee the sink refuses is the whole amount and the route carries nothing. */
  lemma {:induction false} ForeignAllOrNothingIff(h: Hashes, s: State, id: Digest, epoch: Amount)
    requires ValidButForSinks(s) && SettlementQuote(h, s, id, epoch).Success?
    ensures var quote, o, r := SettlementQuote(h, s, id, epoch).value, Settle(h, s, id, epoch),
                               ReservationAt(s.reservations, id).value;
            && Payable(s, r, quote)
            && ((o.after == s || (Conserved(o.after) && |o.after.receipts| == |s.receipts| + 1))
                <==> || FeeStays(s, r, quote)
                     || (&& !SinkTakes(s, quote)
                         && quote.net + quote.operatorFee == 0 && Silent(s.reservations[r].plan.hops)))
  {
    var quote, o, r := SettlementQuote(h, s, id, epoch).value, Settle(h, s, id, epoch),
                       ReservationAt(s.reservations, id).value;
    hide Sound, ValidButForSinks, SettlementQuote, Settle, Conserved, Payable, FeeStays, SinkTakes, Closes,
      AccountsGain, VaultsClear, SameBooks, Silent;
    ForeignSinkOutcomes(h, s, id, epoch);
    if !SinkTakes(s, quote) {
      StoppedUnchangedIff(s, o, r, quote);
    }
  }

  // ---------- Paid again and again ----------

  lemma PremiumIgnoresBalances(s: State, t: State, lane: Lane, hops: seq<Hop>)
    requires t.vaults == s.vaults
    ensures Premium(t, lane, hops) == Premium(s, lane, hops)
  {
    hide RouteCharge;
  }

  lemma {:induction false} OfferIgnoresBalances(s: State, t: State, reservation: Reservation, compacted: CompactedPlan)
    requires t == s.(accounts := t.accounts)
    requires AccountsExtend(s.accounts, t.accounts) && AccountsExtend(t.accounts, s.accounts)
    ensures QuoteSettlement(t, reservation, compacted) == QuoteSettlement(s, reservation, compacted)
  {
    SameAccountsKnown(s, t, reservation.plan.beneficiary);
    SameAccountsKnown(s, t, reservation.plan.operatorAccount);
    var k := LaneAt(s.lanes, compacted.effectiveLane);
    hide AccountsExtend, PriceOn, Premium, LaneAt, AccountAt;
    if k.Some? {
      var lane, plan := s.lanes[k.value], reservation.plan;
      PremiumIgnoresBalances(s, t, lane, compacted.plan.hops);
      var premium := Premium(s, lane, compacted.plan.hops);
      if PriceOn(lane, reservation.gross, plan.maxFeeBps, plan.minNet, premium).Success? {
        PriceSplitsGross(lane, reservation.gross, plan.maxFeeBps, plan.minNet, premium);
      }
    }
  }

  /** Nothing a quote reads is a balance of an account. */
  lemma {:induction false} QuoteIgnoresBalances(h: Hashes, s: State, t: State, id: Digest, epoch: Amount)
    requires t == s.(accounts := t.accounts)
    requires AccountsExtend(s.accounts, t.accounts) && AccountsExtend(t.accounts, s.accounts)
    ensures SettlementQuote(h, t, id, epoch) == SettlementQuote(h, s, id, epoch)
  {
    hide QuoteSettlement, Compact, AccountsExtend;
    if SettleGuard(s, id, epoch) == Ok {
      var reservation := s.reservations[ReservationAt(s.reservations, id).value];
      if Compact(h.plan, reservation.plan).Success? {
        OfferIgnoresBalances(s, t, reservation, Compact(h.plan, reservation.plan).value);
      }
    }
  }

  function Times(n: nat, c: Command): seq<Command> {
    if n == 0 then [] else Times(n - 1, c) + [c]
  }

  function Scaled(n: nat, f: Digest -> nat): Digest -> nat {
    (id: Digest) => n * f(id)
  }

  /** Every account can take n such payments. */
  predicate PaymentsFit(accounts: seq<Account>, k: nat, payout: Digest -> nat, n: nat)
    requires k < MAX_ASSETS
  {
    forall i {:trigger accounts[i]} | 0 <= i < |accounts| :: accounts[i].balances[k] + n * payout(accounts[i].id)
                                                             <= U64_MAX
  }

  /** Every account has been paid n times, and nothing else has changed. */
  ghost predicate PaidTimes(s: State, t: State, r: nat, quote: Quote, n: nat)
    requires Open(s, r)
  {
    && t == s.(accounts := t.accounts)
    && AccountsGain(s.accounts, t.accounts, Column(s, r), Scaled(n, Payout(s.reservations[r], quote)))
    && Sum(t.accounts, BalanceIn(Column(s, r)))
       == Sum(s.accounts, BalanceIn(Column(s, r))) + n * (quote.net + quote.operatorFee)
  }

  lemma {:induction false} PaidOnceMore(s: State, t: State, u: State, r: nat, quote: Quote, n: nat)
    requires Open(s, r) && PaidTimes(s, t, r, quote, n) && u == t.(accounts := u.accounts)
    requires AccountsGain(t.accounts, u.accounts, Column(s, r), Payout(s.reservations[r], quote))
    requires Sum(u.accounts, BalanceIn(Column(s, r)))
          == Sum(t.accounts, BalanceIn(Column(s, r))) + quote.net + quote.operatorFee
    ensures PaidTimes(s, u, r, quote, n + 1)
  {
    var k, payout := Column(s, r), Payout(s.reservations[r], quote);
    forall i | 0 <= i < |s.accounts|
      ensures AccountGains(s.accounts[i], u.accounts[i], k, Scaled(n + 1, payout)(s.accounts[i].id))
    {
      assert AccountGains(s.accounts[i], t.accounts[i], k, Scaled(n, payout)(s.accounts[i].id));
      assert AccountGains(t.accounts[i], u.accounts[i], k, payout(t.accounts[i].id));
      OnceMore(n, payout(s.accounts[i].id));
    }
    OnceMore(n, quote.net + quote.operatorFee);
  }

  lemma OnceMore(n: nat, x: nat)
    ensures (n + 1) * x == n * x + x
  {
  }

  lemma {:induction false} NotYetPaid(s: State, r: nat, quote: Quote)
    requires Open(s, r)
    ensures PaidTimes(s, s, r, quote, 0)
  {
  }

  /** After n payments the n-plus-first is stopped at the same end. */
  lemma {:induction false} SameEnd(s: State, t: State, r: nat, quote: Quote, n: nat)
    requires AccountsOk(s.accounts) && Payable(s, r, quote) && EndOf(s, r, quote).SinkRefused?
    requires PaidTimes(s, t, r, quote, n)
    requires PaymentsFit(s.accounts, Column(s, r), Payout(s.reservations[r], quote), n + 1)
    ensures Payable(t, r, quote) && EndOf(t, r, quote).SinkRefused?
  {
    var k, payout := Column(s, r), Payout(s.reservations[r], quote);
    var i := AccountAt(s.accounts, quote.beneficiary).value;
    var j := AccountAt(s.accounts, s.reservations[r].plan.operatorAccount).value;
    GainsKeep(s.accounts, t.accounts, k, Scaled(n, payout));
    AccountStays(s.accounts, t.accounts, quote.beneficiary);
    AccountStays(s.accounts, t.accounts, s.reservations[r].plan.operatorAccount);
    assert AccountGains(s.accounts[i], t.accounts[i], k, Scaled(n, payout)(s.accounts[i].id));
    assert AccountGains(s.accounts[j], t.accounts[j], k, Scaled(n, payout)(s.accounts[j].id));
    OnceMore(n, payout(s.accounts[i].id));
    OnceMore(n, payout(s.accounts[j].id));
    hide AccountsGain, NoncesCount, AccountsOk, AccountsExtend, RouteClears, Routed;
  }

  /** The next call of the same settlement. */
  lemma {:induction false} OneMorePayment(h: Hashes, s: State, t: State, r: nat, quote: Quote, n: nat, epoch: Amount)
    requires Sound(s) && Sound(t) && Payable(s, r, quote) && EndOf(s, r, quote).SinkRefused?
    requires Silent(s.reservations[r].plan.hops) && PaidTimes(s, t, r, quote, n)
    requires PaymentsFit(s.accounts, Column(s, r), Payout(s.reservations[r], quote), n + 1)
    requires SettlementQuote(h, s, s.reservations[r].id, epoch) == Success(quote)
    requires ReservationAt(s.reservations, s.reservations[r].id) == Some(r)
    ensures var o := Settle(h, t, s.reservations[r].id, epoch);
            o.status == ErrPolicy && PaidTimes(s, o.after, r, quote, n + 1)
  {
    var id, k, payout := s.reservations[r].id, Column(s, r), Payout(s.reservations[r], quote);
    SoundParts(s);
    GainsKeep(s.accounts, t.accounts, k, Scaled(n, payout));
    QuoteIgnoresBalances(h, s, t, id, epoch);
    SameEnd(s, t, r, quote, n);
    SettleUnfolds(h, t, id, epoch);
    PayableParts(t, r, quote);
    SettleEnds(t, r, quote, ReceiptFor(h, t, id, epoch));
    StoppedShows(t, Settle(h, t, id, epoch), r, quote);
    hide *;
    PaidOnceMore(s, t, Settle(h, t, id, epoch).after, r, quote, n);
  }

  /** Stopped at the sink over a route that carries nothing: only balances have moved. */
  lemma {:induction false} StoppedShows(s: State, o: Outcome, r: nat, quote: Quote)
    requires Payable(s, r, quote) && StopsAt(s, o, r, quote, SinkRefused)
             && BooksMove(s, o.after, r, quote, SinkRefused)
    requires Silent(s.reservations[r].plan.hops)
    ensures o.after == s.(accounts := o.after.accounts) && o.status == ErrPolicy
    ensures AccountsGain(s.accounts, o.after.accounts, Column(s, r), Payout(s.reservations[r], quote))
    ensures Sum(o.after.accounts, BalanceIn(Column(s, r)))
         == Sum(s.accounts, BalanceIn(Column(s, r))) + quote.net + quote.operatorFee
  {
    PayableParts(s, r, quote);
    hide Payable, AccountsGain, VaultsClear, SameBooks, Silent, Routed, Sum;
    SilentClears(s.vaults, o.after.vaults, s.reservations[r].plan.hops);
  }

  /** A settlement over a route that carries nothing, quoted and then refused by a full sink. */
  predicate StopsEmptyHanded(h: Hashes, s: State, r: nat, quote: Quote, epoch: Amount) {
    && Payable(s, r, quote) && EndOf(s, r, quote).SinkRefused?
    && Silent(s.reservations[r].plan.hops)
    && SettlementQuote(h, s, s.reservations[r].id, epoch) == Success(quote)
  }

  lemma StopsParts(h: Hashes, s: State, r: nat, quote: Quote, epoch: Amount)
    requires StopsEmptyHanded(h, s, r, quote, epoch)
    ensures Open(s, r) && Payable(s, r, quote) && EndOf(s, r, quote).SinkRefused?
    ensures Silent(s.reservations[r].plan.hops) && r < |s.reservations| && Column(s, r) < MAX_ASSETS
    ensures SettlementQuote(h, s, s.reservations[r].id, epoch) == Success(quote)
  {
    hide EndOf, SettlementQuote, Silent;
  }

  /** Every further call of such a settlement pays net amount and operator fee again, as often as the accounts can take
      it; nothing else in the ledger ever changes. */
  lemma {:induction false} HalfwayPaysAgain(h: Hashes, s: State, r: nat, quote: Quote, n: nat, epoch: Amount)
    requires Sound(s) && StopsEmptyHanded(h, s, r, quote, epoch)
    requires PaymentsFit(s.accounts, Column(s, r), Payout(s.reservations[r], quote), n)
    ensures var t := RunFrom(h, s, Times(n, CSettle(s.reservations[r].id, epoch)));
            Sound(t) && PaidTimes(s, t, r, quote, n)
  {
    hide *;
    StopsParts(h, s, r, quote, epoch);
    var id := s.reservations[r].id;
    if n == 0 {
      NotYetPaid(s, r, quote);
      RunNothing(h, s);
      TimesNone(CSettle(id, epoch));
    } else {
      SoundParts(s);
      ReservationFound(s.reservations, r);
      FewerFit(s.accounts, Column(s, r), Payout(s.reservations[r], quote), n);
      HalfwayPaysAgain(h, s, r, quote, n - 1, epoch);
      OneMoreCall(h, s, n, id, epoch);
      OneMorePayment(h, s, RunFrom(h, s, Times(n - 1, CSettle(id, epoch))), r, quote, n - 1, epoch);
    }
  }

  lemma {:induction false} OneMoreCall(h: Hashes, s: State, n: nat, id: Digest, epoch: Amount)
    requires n > 0 && Sound(RunFrom(h, s, Times(n - 1, CSettle(id, epoch))))
    ensures var t, u := RunFrom(h, s, Times(n - 1, CSettle(id, epoch))), RunFrom(h, s, Times(n, CSettle(id, epoch)));
            u == Settle(h, t, id, epoch).after && Sound(u)
  {
    var c := CSettle(id, epoch);
    var t := RunFrom(h, s, Times(n - 1, c));
    TimesUnfolds(n, c);
    hide *;
    RunAppend(h, s, Times(n - 1, c), c);
    StepDispatch(h, t, c);
    StepAccounts(h, t, c);
    AccountsSound(t, Step(h, t, c).after, StepMovesOf(h, t, c));
  }

  lemma AccountsSound(s: State, t: State, moves: Digest -> Moves)
    requires Accounts(s, t, moves)
    ensures Sound(t)
  {
    hide Sound, Surplus;
  }

  lemma TimesNone(c: Command)
    ensures Times(0, c) == []
  {
  }

  lemma TimesUnfolds(n: nat, c: Command)
    requires n > 0
    ensures Times(n, c) == Times(n - 1, c) + [c]
  {
  }

  lemma {:induction false} FewerFit(accounts: seq<Account>, k: nat, payout: Digest -> nat, n: nat)
    requires k < MAX_ASSETS && n > 0 && PaymentsFit(accounts, k, payout, n)
    ensures PaymentsFit(accounts, k, payout, n - 1)
  {
    forall i {:trigger accounts[i]} | 0 <= i < |accounts|
      ensures accounts[i].balances[k] + (n - 1) * payout(accounts[i].id) <= U64_MAX
    {
      OnceMore(n - 1, payout(accounts[i].id));
    }
  }
}
