/** Two settlements on lanes without premium commute. */
module Commute {
  import opened Amounts
  import opened Digests
  import opened Routes
  import opened LedgerTypes
  import opened LedgerSteps
  import opened LedgerInvariant
  import opened PostingProofs
  import opened ClosingProofs
  import opened SettleProofs

  // ---------- The writes commute ----------

  lemma {:induction false} GainsCommute(a: seq<Account>, b: seq<Account>, c: seq<Account>, d: seq<Account>,
                                        e: seq<Account>,
                                        k: nat, f: Digest -> nat, l: nat, g: Digest -> nat)
    requires k < MAX_ASSETS && l < MAX_ASSETS
    requires AccountsGain(a, b, k, f) && AccountsGain(b, c, l, g)
    requires AccountsGain(a, d, l, g) && AccountsGain(d, e, k, f)
    ensures c == e
  {
    forall i | 0 <= i < |a|
      ensures c[i] == e[i]
    {
      assert AccountGains(a[i], b[i], k, f(a[i].id)) && AccountGains(b[i], c[i], l, g(b[i].id));
      assert AccountGains(a[i], d[i], l, g(a[i].id)) && AccountGains(d[i], e[i], k, f(d[i].id));
      OneAccountCommutes(a[i], b[i], c[i], d[i], e[i], k, f(a[i].id), l, g(a[i].id));
    }
  }

  lemma {:induction false} OneAccountCommutes(a: Account, b: Account, c: Account, d: Account, e: Account,
                                              k: nat, x: nat, l: nat, y: nat)
    requires k < MAX_ASSETS && l < MAX_ASSETS
    requires AccountGains(a, b, k, x) && AccountGains(b, c, l, y) && AccountGains(a, d, l, y)
             && AccountGains(d, e, k, x)
    ensures c == e
  {
    forall j | 0 <= j < MAX_ASSETS
      ensures c.balances[j] == e.balances[j]
    {
    }
    assert c.balances == e.balances;
  }

  lemma {:induction false} ClearsCommute(a: seq<Vault>, b: seq<Vault>, c: seq<Vault>, d: seq<Vault>, e: seq<Vault>,
                                         xs: seq<Hop>, f: Digest -> nat, ys: seq<Hop>, g: Digest -> nat)
    requires VaultsClear(a, b, xs, f) && VaultsClear(b, c, ys, g)
    requires VaultsClear(a, d, ys, g) && VaultsClear(d, e, xs, f)
    ensures c == e
  {
    forall v | 0 <= v < |a|
      ensures c[v] == e[v]
    {
      assert VaultClears(a[v], b[v], xs, f(a[v].id)) && VaultClears(b[v], c[v], ys, g(b[v].id));
      assert VaultClears(a[v], d[v], ys, g(a[v].id)) && VaultClears(d[v], e[v], xs, f(d[v].id));
    }
  }

  // ---------- A settlement does not change another plain quote ----------

  /** What a plain quote reads stays as it was. */
  predicate SameCatalogue(s: State, t: State) {
    t.lanes == s.lanes && AccountsExtend(s.accounts, t.accounts) && AccountsExtend(t.accounts, s.accounts)
  }

  lemma {:induction false} SameAccountsKnown(s: State, t: State, id: Digest)
    requires SameCatalogue(s, t)
    ensures AccountAt(s.accounts, id).Some? <==> AccountAt(t.accounts, id).Some?
  {
    if AccountAt(s.accounts, id).Some? {
      AccountStays(s.accounts, t.accounts, id);
    } else if AccountAt(t.accounts, id).Some? {
      AccountStays(t.accounts, s.accounts, id);
      assert false;
    }
  }

  lemma {:induction false} QuoteUnchanged(s: State, t: State, reservation: Reservation, compacted: CompactedPlan)
    requires SameCatalogue(s, t) && Plain(s, reservation)
    ensures QuoteSettlement(t, reservation, compacted) == QuoteSettlement(s, reservation, compacted)
  {
    SameAccountsKnown(s, t, reservation.plan.beneficiary);
    SameAccountsKnown(s, t, reservation.plan.operatorAccount);
  }

  lemma {:induction false} QuoteForUnchanged(h: Hashes, s: State, t: State, reservation: Reservation)
    requires SameCatalogue(s, t) && Plain(s, reservation)
    ensures QuoteFor(h, t, reservation) == QuoteFor(h, s, reservation)
  {
    hide QuoteSettlement;
    if Compact(h.plan, reservation.plan).Success? {
      QuoteUnchanged(s, t, reservation, Compact(h.plan, reservation.plan).value);
    }
  }

  // ---------- One settlement, as a whole ----------

  /** t is s after settling reservation r at this epoch, with room in the journal. */
  predicate SettledTo(h: Hashes, s: State, t: State, r: nat, epoch: Amount) {
    && Open(s, r)
    && QuoteFor(h, s, s.reservations[r]).Success?
    && var reservation := s.reservations[r];
    var quote := QuoteFor(h, s, reservation).value;
    && QuoteOk(s, r, quote)
    && Settles(s, t, r, quote, ReceiptOf(h, s, reservation, epoch))
  }

  /** The receipt an accepted quote leads to. */
  function ReceiptOf(h: Hashes, s: State, reservation: Reservation, epoch: Amount): Receipt
    requires QuoteFor(h, s, reservation).Success?
  {
    NewReceipt(h, reservation, Compact(h.plan, reservation.plan).value, QuoteFor(h, s, reservation).value, epoch)
  }

  lemma GuardedQuote(h: Hashes, s: State, r: nat, epoch: Amount)
    requires r < |s.reservations| && ReservationAt(s.reservations, s.reservations[r].id) == Some(r)
    requires SettlementQuote(h, s, s.reservations[r].id, epoch).Success?
    ensures QuoteFor(h, s, s.reservations[r]) == SettlementQuote(h, s, s.reservations[r].id, epoch)
    ensures ReceiptFor(h, s, s.reservations[r].id, epoch) == ReceiptOf(h, s, s.reservations[r], epoch)
  {
    hide QuoteFor, Compact, NewReceipt, SettleGuard;
  }

  lemma {:induction false} SettleGoes(h: Hashes, s: State, r: nat, epoch: Amount)
    requires Inv(s) && Open(s, r) && |s.journal| < MAX_JOURNAL
    requires Settle(h, s, s.reservations[r].id, epoch).status == Ok
    ensures var t := Settle(h, s, s.reservations[r].id, epoch).after;
            SettledTo(h, s, t, r, epoch) && Inv(t)
  {
    InvParts(s);
    ReservationFound(s.reservations, r);
    hide *;
    SettleAllOrNothing(h, s, s.reservations[r].id, epoch);
    QuoteErrors(h, s, s.reservations[r].id, epoch);
    GuardedQuote(h, s, r, epoch);
    MakeSettledTo(h, s, Settle(h, s, s.reservations[r].id, epoch).after, r, epoch);
  }

  lemma MakeSettledTo(h: Hashes, s: State, t: State, r: nat, epoch: Amount)
    requires Open(s, r) && QuoteFor(h, s, s.reservations[r]).Success?
    requires QuoteOk(s, r, QuoteFor(h, s, s.reservations[r]).value)
    requires Settles(s, t, r, QuoteFor(h, s, s.reservations[r]).value, ReceiptOf(h, s, s.reservations[r], epoch))
    ensures SettledTo(h, s, t, r, epoch)
  {
    hide QuoteFor, QuoteOk, Settles, ReceiptOf;
  }

  lemma {:induction false} SettledKeepsCatalogue(h: Hashes, s: State, t: State, r: nat, epoch: Amount)
    requires SettledTo(h, s, t, r, epoch)
    ensures SameCatalogue(s, t) && t.assets == s.assets
    ensures forall i | 0 <= i < |s.reservations| && i != r :: t.reservations[i] == s.reservations[i]
    ensures |t.reservations| == |s.reservations| && t.reservations[r].id == s.reservations[r].id
  {
    hide VaultsClear, QuoteFor, QuoteOk;
    var quote := QuoteFor(h, s, s.reservations[r]).value;
    GainsKeep(s.accounts, t.accounts, Column(s, r), Payout(s.reservations[r], quote));
  }

  lemma {:induction false} OtherStaysOpen(h: Hashes, s: State, t: State, r: nat, q: nat, epoch: Amount)
    requires SettledTo(h, s, t, r, epoch) && Open(s, q) && q != r && Plain(s, s.reservations[q])
    ensures Open(t, q) && t.reservations[q] == s.reservations[q] && Plain(t, t.reservations[q])
    ensures SameCatalogue(s, t)
  {
    SettledKeepsCatalogue(h, s, t, r, epoch);
    hide SettledTo, SameCatalogue;
    assert t.lanes == s.lanes by {
      SameLanes(s, t);
    }
  }

  lemma SameLanes(s: State, t: State)
    requires SameCatalogue(s, t)
    ensures t.lanes == s.lanes
  {
  }

  lemma {:induction false} SameQuotable(s: State, t: State, reservation: Reservation)
    requires t.lanes == s.lanes && Plain(s, reservation)
    ensures Plain(t, reservation) && (Quotable(t, reservation) <==> Quotable(s, reservation))
  {
  }

  /** Another plain reservation is as settleable after a settlement as it was before. */
  lemma {:induction false} OtherUnaffected(h: Hashes, s: State, t: State, r: nat, q: nat, epoch: Amount, other: Amount)
    requires Inv(s) && Inv(t) && SettledTo(h, s, t, r, epoch) && Open(s, q) && q != r && Plain(s, s.reservations[q])
    requires |s.journal| < MAX_JOURNAL && |t.journal| < MAX_JOURNAL
    ensures Open(t, q) && t.reservations[q] == s.reservations[q] && Plain(t, t.reservations[q])
    ensures Settle(h, s, s.reservations[q].id, other).status == Ok
       <==> Settle(h, t, t.reservations[q].id, other).status == Ok
    ensures QuoteFor(h, t, t.reservations[q]) == QuoteFor(h, s, s.reservations[q])
  {
    hide Inv, SettledTo, SameCatalogue, Settle, QuoteFor, Quotable, Plain;
    OtherStaysOpen(h, s, t, r, q, epoch);
    SameLanes(s, t);
    SettleableIff(h, s, q, other);
    SettleableIff(h, t, q, other);
    SameQuotable(s, t, s.reservations[q]);
    QuoteForUnchanged(h, s, t, s.reservations[q]);
  }

  /** Same balances, vault books and reservation states; only the epoch and the order of the logs differ. */
  predicate SameUpToOrder(t: State, u: State) {
    && t.networkId == u.networkId && t.assets == u.assets && t.lanes == u.lanes && t.issued == u.issued
    && t.accounts == u.accounts && t.vaults == u.vaults && t.reservations == u.reservations
    && multiset(t.receipts) == multiset(u.receipts) && multiset(t.journal) == multiset(u.journal)
  }

  predicate Diamond(h: Hashes, s: State, b: State, c: State, d: State, e: State, r: nat, q: nat, x: Amount, y: Amount) {
    && Open(s, r) && Open(s, q) && r != q
    && SettledTo(h, s, b, r, x) && SettledTo(h, b, c, q, y)
    && SettledTo(h, s, d, q, y) && SettledTo(h, d, e, r, x)
    && b.reservations[q] == s.reservations[q] && d.reservations[r] == s.reservations[r]
    && QuoteFor(h, b, s.reservations[q]) == QuoteFor(h, s, s.reservations[q])
    && QuoteFor(h, d, s.reservations[r]) == QuoteFor(h, s, s.reservations[r])
  }

  lemma {:induction false} DiamondBooks(h: Hashes, s: State, b: State, c: State, d: State, e: State, r: nat, q: nat,
                                        x: Amount, y: Amount)
    requires Diamond(h, s, b, c, d, e, r, q, x, y)
    ensures c.accounts == e.accounts && c.vaults == e.vaults
  {
    hide AccountsGain, VaultsClear, QuoteFor, Compact;
    var m, n := s.reservations[r], s.reservations[q];
    var p, o := QuoteFor(h, s, m).value, QuoteFor(h, s, n).value;
    GainsCommute(s.accounts, b.accounts, c.accounts, d.accounts, e.accounts,
                 Column(s, r), Payout(m, p), Column(s, q), Payout(n, o));
    ClearsCommute(s.vaults, b.vaults, c.vaults, d.vaults, e.vaults,
                  m.plan.hops, To(Sink(s, p), p.reserveFee), n.plan.hops, To(Sink(s, o), o.reserveFee));
  }

  lemma {:induction false} DiamondLogs(h: Hashes, s: State, b: State, c: State, d: State, e: State, r: nat, q: nat,
                                       x: Amount, y: Amount)
    requires Diamond(h, s, b, c, d, e, r, q, x, y) && |s.journal| + 2 <= MAX_JOURNAL
    ensures multiset(c.receipts) == multiset(e.receipts) && multiset(c.journal) == multiset(e.journal)
    ensures c.reservations == e.reservations
    ensures c.networkId == e.networkId && c.assets == e.assets && c.lanes == e.lanes && c.issued == e.issued
    ensures c.epoch == y && e.epoch == x
  {
    hide SettledTo, QuoteFor, ReceiptOf;
    SettledLogs(h, s, b, r, x);
    SettledLogs(h, b, c, q, y);
    SettledLogs(h, s, d, q, y);
    SettledLogs(h, d, e, r, x);
    assert ReceiptOf(h, b, s.reservations[q], y) == ReceiptOf(h, s, s.reservations[q], y) by {
      SameQuoteSameReceipt(h, s, b, s.reservations[q], y);
    }
    assert ReceiptOf(h, d, s.reservations[r], x) == ReceiptOf(h, s, s.reservations[r], x) by {
      SameQuoteSameReceipt(h, s, d, s.reservations[r], x);
    }
  }

  lemma SameQuoteSameReceipt(h: Hashes, s: State, t: State, reservation: Reservation, epoch: Amount)
    requires QuoteFor(h, s, reservation).Success? && QuoteFor(h, t, reservation) == QuoteFor(h, s, reservation)
    ensures ReceiptOf(h, t, reservation, epoch) == ReceiptOf(h, s, reservation, epoch)
  {
    hide QuoteFor, Compact, NewReceipt;
  }

  /** What a settlement leaves in the logs. */
  lemma SettledLogs(h: Hashes, s: State, t: State, r: nat, epoch: Amount)
    requires SettledTo(h, s, t, r, epoch) && |s.journal| < MAX_JOURNAL
    ensures QuoteFor(h, s, s.reservations[r]).Success?
    ensures var receipt := ReceiptOf(h, s, s.reservations[r], epoch);
            && t.receipts == s.receipts + [receipt]
            && t.journal == s.journal + [JournalEntry(receipt.epoch, SettledReservation, receipt.id, receipt.gross)]
    ensures t.reservations == s.reservations[r := s.reservations[r].(state := Settled)]
    ensures t.networkId == s.networkId && t.assets == s.assets && t.lanes == s.lanes && t.issued == s.issued
    ensures t.epoch == epoch
  {
    hide AccountsGain, VaultsClear, QuoteFor, Compact, QuoteOk;
  }

  /** If one order of two settlements succeeds so does the other, and both end in the same books. */
  lemma {:induction false} SettlementsCommute(h: Hashes, s: State, r: nat, q: nat, x: Amount, y: Amount)
    requires Inv(s) && Open(s, r) && Open(s, q) && r != q && |s.journal| + 2 <= MAX_JOURNAL
    requires Plain(s, s.reservations[r]) && Plain(s, s.reservations[q])
    requires Settle(h, s, s.reservations[r].id, x).status == Ok
    requires Settle(h, Settle(h, s, s.reservations[r].id, x).after, s.reservations[q].id, y).status == Ok
    ensures var first := Settle(h, s, s.reservations[q].id, y);
            var second := Settle(h, first.after, s.reservations[r].id, x);
            && first.status == Ok && second.status == Ok
            && SameUpToOrder(Settle(h, Settle(h, s, s.reservations[r].id, x).after, s.reservations[q].id, y).after,
                             second.after)
  {
    hide Inv, Settle, SettledTo, QuoteFor, Diamond;
    var b := Settle(h, s, s.reservations[r].id, x).after;
    SettleGoes(h, s, r, x);
    JournalGrowsByOne(h, s, b, r, x);
    OtherUnaffected(h, s, b, r, q, x, y);
    var c := Settle(h, b, b.reservations[q].id, y).after;
    SettleGoes(h, b, q, y);
    var d := Settle(h, s, s.reservations[q].id, y).after;
    SettleGoes(h, s, q, y);
    JournalGrowsByOne(h, s, d, q, y);
    OtherUnaffected(h, s, d, q, r, y, x);
    var e := Settle(h, d, d.reservations[r].id, x).after;
    SettleGoes(h, d, r, x);
    assert Diamond(h, s, b, c, d, e, r, q, x, y) by {
      MakeDiamond(h, s, b, c, d, e, r, q, x, y);
    }
    DiamondBooks(h, s, b, c, d, e, r, q, x, y);
    DiamondLogs(h, s, b, c, d, e, r, q, x, y);
  }

  lemma MakeDiamond(h: Hashes, s: State, b: State, c: State, d: State, e: State, r: nat, q: nat, x: Amount, y: Amount)
    requires Open(s, r) && Open(s, q) && r != q
    requires SettledTo(h, s, b, r, x) && SettledTo(h, b, c, q, y)
    requires SettledTo(h, s, d, q, y) && SettledTo(h, d, e, r, x)
    requires q < |b.reservations| && b.reservations[q] == s.reservations[q]
    requires r < |d.reservations| && d.reservations[r] == s.reservations[r]
    requires QuoteFor(h, b, b.reservations[q]) == QuoteFor(h, s, s.reservations[q])
    requires QuoteFor(h, d, d.reservations[r]) == QuoteFor(h, s, s.reservations[r])
    ensures Diamond(h, s, b, c, d, e, r, q, x, y)
  {
    hide SettledTo, QuoteFor;
  }

  lemma JournalGrowsByOne(h: Hashes, s: State, t: State, r: nat, epoch: Amount)
    requires SettledTo(h, s, t, r, epoch) && |s.journal| < MAX_JOURNAL
    ensures |t.journal| == |s.journal| + 1
  {
    hide AccountsGain, VaultsClear, QuoteFor, Compact, QuoteOk;
  }
}
