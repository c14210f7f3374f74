/** What the logs count: one receipt per settled reservation, one journal entry per committed operation. */
module Counting {
  import opened Amounts
  import opened Digests
  import opened Sums
  import opened Routes
  import opened LedgerTypes
  import opened LedgerSteps
  import opened LedgerInvariant
  import opened PendingProofs
  import opened PostingProofs
  import opened ClosingProofs
  import opened ReserveProofs
  import opened SettleProofs
  import opened CatalogProofs
  import opened Runs

  // ---------- Receipts and settled reservations ----------

  function NamedBy(id: Digest): Receipt -> nat {
    (receipt: Receipt) => if receipt.reservationId == id then 1 else 0
  }

  /** How many receipts name a reservation. */
  function ReceiptsOf(receipts: seq<Receipt>): Reservation -> nat {
    (reservation: Reservation) => Sum(receipts, NamedBy(reservation.id))
  }

  lemma {:induction false} OneReservationMatches(reservations: seq<Reservation>, r: nat, receipt: Receipt)
    requires DistinctReservations(reservations) && r < |reservations| && receipt.reservationId == reservations[r].id
    ensures Sum(reservations, ReceiptsOf([receipt])) == 1
    decreases |reservations|
  {
    forall i | 0 <= i < |reservations|
      ensures ReceiptsOf([receipt])(reservations[i]) == if i == r then 1 else 0
    {
      assert [receipt] == [] + [receipt];
      SumAppend([], receipt, NamedBy(reservations[i].id));
      ReservationFound(reservations, i);
      ReservationFound(reservations, r);
    }
    SumOfIndicator(reservations, r, ReceiptsOf([receipt]));
  }

  lemma {:induction false} SumOfIndicator<T>(xs: seq<T>, r: nat, f: T -> nat)
    requires r < |xs| && forall i | 0 <= i < |xs| :: f(xs[i]) == if i == r then 1 else 0
    ensures Sum(xs, f) == 1
  {
    assert xs == xs[..r] + [xs[r]] + xs[r + 1..];
    SumConcat(xs[..r] + [xs[r]], xs[r + 1..], f);
    SumAppend(xs[..r], xs[r], f);
    SumZero(xs[..r], f);
    SumZero(xs[r + 1..], f);
  }

  /** Counting receipts by the reservation they name counts every receipt once. */
  lemma {:induction false} DoubleCount(reservations: seq<Reservation>, receipts: seq<Receipt>)
    requires DistinctReservations(reservations)
    requires forall i | 0 <= i < |receipts| :: ReservationAt(reservations, receipts[i].reservationId).Some?
    ensures Sum(reservations, ReceiptsOf(receipts)) == |receipts|
    decreases |receipts|
  {
    if |receipts| == 0 {
      SumZero(reservations, ReceiptsOf(receipts));
    } else {
      var front, last := receipts[..|receipts| - 1], Last(receipts);
      DoubleCount(reservations, front);
      OneReservationMatches(reservations, ReservationAt(reservations, last.reservationId).value, last);
      SumSplits(reservations, front, last);
      assert front + [last] == receipts;
    }
  }

  lemma {:induction false} SumSplits(reservations: seq<Reservation>, front: seq<Receipt>, last: Receipt)
    ensures Sum(reservations, ReceiptsOf(front + [last]))
         == Sum(reservations, ReceiptsOf(front)) + Sum(reservations, ReceiptsOf([last]))
    decreases |reservations|
  {
    if |reservations| > 0 {
      var n := |reservations| - 1;
      SumSplits(reservations[..n], front, last);
      SumConcat(front, [last], NamedBy(reservations[n].id));
    }
  }

  lemma {:induction false} AtMostOneReceipt(receipts: seq<Receipt>, id: Digest)
    requires forall i, j | 0 <= i < j < |receipts| :: receipts[i].reservationId != receipts[j].reservationId
    ensures Sum(receipts, NamedBy(id)) <= 1
    ensures Sum(receipts, NamedBy(id)) == 1 <==> exists i | 0 <= i < |receipts| :: receipts[i].reservationId == id
    decreases |receipts|
  {
    if |receipts| > 0 {
      var n := |receipts| - 1;
      AtMostOneReceipt(receipts[..n], id);
      if Sum(receipts[..n], NamedBy(id)) == 1 {
        var i :| 0 <= i < |receipts[..n]| && receipts[..n][i].reservationId == id;
        assert receipts[i].reservationId == id && receipts[n].reservationId != id;
      } else if receipts[n].reservationId != id {
        assert forall i | 0 <= i < n :: receipts[..n][i] == receipts[i];
      }
    }
  }

  /** A receipt names a reservation only if it is settled. */
  lemma {:induction false} OnlySettledNamed(reservations: seq<Reservation>, receipts: seq<Receipt>, r: nat)
    requires ReceiptsOk(reservations, receipts) && DistinctReservations(reservations) && r < |reservations|
    ensures ReceiptsOf(receipts)(reservations[r]) <= IsSettled()(reservations[r])
  {
    AtMostOneReceipt(receipts, reservations[r].id);
    ReservationFound(reservations, r);
    if Sum(receipts, NamedBy(reservations[r].id)) == 1 {
      var i :| 0 <= i < |receipts| && receipts[i].reservationId == reservations[r].id;
      assert Recorded(reservations, receipts[i]);
    }
  }

  /** Every settled reservation has its receipt, so receipts and settled reservations correspond one to one. */
  lemma {:induction false} SettledHasReceipt(reservations: seq<Reservation>, receipts: seq<Receipt>, r: nat)
    requires ReceiptsOk(reservations, receipts) && DistinctReservations(reservations) && r < |reservations|
    ensures reservations[r].state == Settled
       <==> exists i | 0 <= i < |receipts| :: receipts[i].reservationId == reservations[r].id
  {
    forall i | 0 <= i < |receipts|
      ensures ReservationAt(reservations, receipts[i].reservationId).Some?
    {
      assert Recorded(reservations, receipts[i]);
    }
    forall j | 0 <= j < |reservations|
      ensures ReceiptsOf(receipts)(reservations[j]) <= IsSettled()(reservations[j])
    {
      OnlySettledNamed(reservations, receipts, j);
    }
    DoubleCount(reservations, receipts);
    SumTight(reservations, reservations, ReceiptsOf(receipts), IsSettled(), r);
    AtMostOneReceipt(receipts, reservations[r].id);
  }

  /** In every reachable ledger: ids and intents are unique, nonces count reservations, receipts correspond one to one
      to settled reservations and split their gross amounts exactly, within the signed limits. */
  lemma {:induction false} RunCounts(h: Hashes, networkId: U32, commands: seq<Command>)
    requires AdmissibleFrom(h, Init(networkId), commands)
    ensures var s := RunFrom(h, Init(networkId), commands);
            && DistinctReservations(s.reservations)
            && NoncesCount(s.accounts, s.reservations)
            && AllRecorded(s.reservations, s.receipts)
            && (forall i, j | 0 <= i < j < |s.receipts| :: s.receipts[i].reservationId != s.receipts[j].reservationId)
            && (forall r | 0 <= r < |s.reservations| ::
                  s.reservations[r].state == Settled
                  <==> exists i | 0 <= i < |s.receipts| :: s.receipts[i].reservationId == s.reservations[r].id)
  {
    hide RunFrom, AdmissibleFrom, CatalogOk, Conserved, PendingCovers, Recorded;
    InitInv(networkId);
    RunKeepsInv(h, Init(networkId), commands);
    var s := RunFrom(h, Init(networkId), commands);
    forall r | 0 <= r < |s.reservations|
      ensures s.reservations[r].state == Settled
         <==> exists i | 0 <= i < |s.receipts| :: s.receipts[i].reservationId == s.reservations[r].id
    {
      SettledHasReceipt(s.reservations, s.receipts, r);
    }
  }

  // ---------- The journal ----------

  function IsClosed(): Reservation -> nat {
    (reservation: Reservation) => if reservation.state != Reserved then 1 else 0
  }

  /** Committed reservations, settlements and cancellations. */
  function Lifecycle(s: State): nat {
    |s.reservations| + Sum(s.reservations, IsClosed())
  }

  function DepositCount(s: State, c: Command): nat {
    if c.CDeposit? && Depositable(s, c.account, c.asset, c.amount) then 1 else 0
  }

  /** Committed deposits of a run. */
  function DepositCounts(h: Hashes, s: State, commands: seq<Command>): nat {
    if |commands| == 0 then 0
    else
      var front := commands[..|commands| - 1];
      DepositCounts(h, s, front) + DepositCount(RunFrom(h, s, front), Last(commands))
  }

  /** What one call may do to the logs: nothing, or one committed operation with one entry if there is room. */
  predicate LogsAtMostOne(s: State, o: Outcome, deposited: nat) {
    var t := o.after;
    && (Lifecycle(t) + deposited == Lifecycle(s) || Lifecycle(t) + deposited == Lifecycle(s) + 1)
    && (Lifecycle(t) + deposited == Lifecycle(s) ==> t.journal == s.journal)
    && (Lifecycle(t) + deposited == Lifecycle(s) + 1 ==>
          |t.journal| == |s.journal| + (if |s.journal| < MAX_JOURNAL then 1 else 0) && o.status == JournalStatus(s))
  }

  lemma {:induction false} ClosingLogs(before: seq<Reservation>, r: nat, outcome: ReservationState)
    requires r < |before| && before[r].state == Reserved && outcome != Reserved
    ensures Sum(before[r := before[r].(state := outcome)], IsClosed()) == Sum(before, IsClosed()) + 1
  {
    SumUpdate(before, r, before[r].(state := outcome), IsClosed());
  }

  lemma {:induction false} SettleLogs(h: Hashes, s: State, id: Digest, epoch: Amount)
    requires Inv(s)
    ensures LogsAtMostOne(s, Settle(h, s, id, epoch), 0)
  {
    hide Inv, Settle, SettlementQuote, AccountsGain, VaultsClear, QuoteOk;
    SettleAllOrNothing(h, s, id, epoch);
    if SettlementQuote(h, s, id, epoch).Success? {
      ClosingLogs(s.reservations, ReservationAt(s.reservations, id).value, Settled);
    }
  }

  lemma {:induction false} CancelLogs(s: State, id: Digest, epoch: Amount)
    requires Inv(s)
    ensures LogsAtMostOne(s, Cancel(s, id, epoch), 0)
  {
    hide Inv, Cancel, CancelStatus, AccountsGain, VaultsClear;
    CancelOutcomes(s, id, epoch);
    if CancelStatus(s, id, epoch) == Ok {
      ClosingLogs(s.reservations, ReservationAt(s.reservations, id).value, Cancelled);
    }
  }

  lemma {:induction false} ReserveLogs(h: Hashes, s: State, signed: SignedIntent)
    requires Inv(s)
    ensures LogsAtMostOne(s, Reserve(h, s, signed), 0)
  {
    hide Inv, Reserve, AdmissionStatus, AccountsReserve, ReservationOk, Raised, Risen;
    ReserveOutcomes(h, s, signed);
    SumAppend(s.reservations, NewReservation(h, signed.terms, s.epoch), IsClosed());
  }

  lemma {:induction false} DepositLogs(h: Hashes, s: State, c: Command)
    requires Inv(s) && c.CDeposit? && DepositFits(s, c.account, c.asset, c.amount)
    ensures LogsAtMostOne(s, Deposit(s, c.account, c.asset, c.amount), DepositCount(s, c))
  {
    if Depositable(s, c.account, c.asset, c.amount) {
      hide Inv, Deposit, Funds, LogsAtMostOne;
      DepositFunds(s, c.account, c.asset, c.amount);
      FundsLog(s, Deposit(s, c.account, c.asset, c.amount), c.account, AssetAt(s.assets, c.asset).value, c.amount);
    }
  }

  lemma FundsLog(s: State, o: Outcome, accountId: Digest, k: nat, amount: Amount)
    requires k < MAX_ASSETS && Funds(s, o.after, accountId, k, amount) && o.status == JournalStatus(s)
    ensures LogsAtMostOne(s, o, 1)
  {
    hide AccountsGain;
  }

  lemma {:induction false} StepLogs(h: Hashes, s: State, c: Command)
    requires Inv(s) && Admissible(h, s, c)
    ensures LogsAtMostOne(s, Step(h, s, c), DepositCount(s, c))
  {
    hide Inv, LogsAtMostOne, Step, Admissible, Deposit, Reserve, Settle, Cancel, DepositFits;
    StepDispatch(h, s, c);
    if c.CReserve? {
      ReserveLogs(h, s, c.signed);
    } else if c.CSettle? {
      SettleLogs(h, s, c.settleId, c.settleEpoch);
    } else if c.CCancel? {
      CancelLogs(s, c.cancelId, c.cancelEpoch);
    } else if c.CDeposit? {
      DepositLogs(h, s, c);
    } else {
      CatalogLogs(h, s, c);
    }
  }

  lemma CatalogLogs(h: Hashes, s: State, c: Command)
    requires c.CAddAsset? || c.CAddAccount? || c.CAddVault? || c.CAddLane?
    ensures LogsAtMostOne(s, Step(h, s, c), 0)
  {
  }

  lemma {:induction false} LifecycleBound(reservations: seq<Reservation>)
    ensures Sum(reservations, IsClosed()) <= |reservations|
  {
    SumBounded(reservations, IsClosed(), 1);
  }

  lemma {:induction false} LifecycleSmall(s: State)
    requires Inv(s)
    ensures Lifecycle(s) <= 2 * MAX_RESERVATIONS
  {
    LifecycleBound(s.reservations);
  }

  /** Every operation a run has committed: deposits, reservations, settlements and cancellations. */
  function Committed(h: Hashes, networkId: U32, commands: seq<Command>): nat {
    DepositCounts(h, Init(networkId), commands) + Lifecycle(RunFrom(h, Init(networkId), commands))
  }

  /** In every reachable ledger the journal holds one entry for each of the first 96 committed operations. */
  lemma {:induction false} JournalCountsCommitted(h: Hashes, networkId: U32, commands: seq<Command>)
    requires AdmissibleFrom(h, Init(networkId), commands)
    ensures |RunFrom(h, Init(networkId), commands).journal| == Min(MAX_JOURNAL, Committed(h, networkId, commands))
  {
    hide Inv, Step, Admissible, DepositCount, Lifecycle;
    if |commands| == 0 {
      NothingLogged(networkId);
    } else {
      var front := commands[..|commands| - 1];
      JournalCountsCommitted(h, networkId, front);
      InitInv(networkId);
      RunKeepsInv(h, Init(networkId), front);
      StepLogs(h, RunFrom(h, Init(networkId), front), Last(commands));
    }
  }

  lemma NothingLogged(networkId: U32)
    ensures |Init(networkId).journal| == 0 && Lifecycle(Init(networkId)) == 0
  {
  }

  /** A call that commits reports success exactly when fewer than 96 operations were committed before it. */
  lemma {:induction false} CommittedOkIff(h: Hashes, networkId: U32, commands: seq<Command>, c: Command)
    requires AdmissibleFrom(h, Init(networkId), commands + [c])
    requires Committed(h, networkId, commands + [c]) > Committed(h, networkId, commands)
    ensures Step(h, RunFrom(h, Init(networkId), commands), c).status
         == if Committed(h, networkId, commands) < MAX_JOURNAL then Ok else ErrCapacity
  {
    hide Inv, Step, Admissible, DepositCount, Lifecycle;
    assert (commands + [c])[..|commands|] == commands;
    JournalCountsCommitted(h, networkId, commands);
    InitInv(networkId);
    RunKeepsInv(h, Init(networkId), commands);
    StepLogs(h, RunFrom(h, Init(networkId), commands), c);
  }

  const MAX_DEPOSITS: int := 32

  /** With at most 32 committed deposits no more than 96 operations can be committed, so none goes unrecorded. */
  lemma {:induction false} JournalIsComplete(h: Hashes, networkId: U32, commands: seq<Command>)
    requires AdmissibleFrom(h, Init(networkId), commands)
    requires DepositCounts(h, Init(networkId), commands) <= MAX_DEPOSITS
    ensures |RunFrom(h, Init(networkId), commands).journal| == Committed(h, networkId, commands)
  {
    hide Inv, RunFrom, AdmissibleFrom, DepositCounts, Lifecycle;
    JournalCountsCommitted(h, networkId, commands);
    InitInv(networkId);
    RunKeepsInv(h, Init(networkId), commands);
    LifecycleSmall(RunFrom(h, Init(networkId), commands));
  }

  /** In such runs an operation that commits always reports success. */
  lemma {:induction false} CommittedMeansOk(h: Hashes, networkId: U32, commands: seq<Command>, c: Command)
    requires AdmissibleFrom(h, Init(networkId), commands + [c])
    requires DepositCounts(h, Init(networkId), commands + [c]) <= MAX_DEPOSITS
    requires Committed(h, networkId, commands + [c]) > Committed(h, networkId, commands)
    ensures Step(h, RunFrom(h, Init(networkId), commands), c).status == Ok
  {
    hide Inv, Step, RunFrom, AdmissibleFrom, DepositCounts, Lifecycle;
    CommittedOkIff(h, networkId, commands, c);
    InitInv(networkId);
    RunKeepsInv(h, Init(networkId), commands + [c]);
    LifecycleSmall(RunFrom(h, Init(networkId), commands + [c]));
  }
}
