/** When a reserved amount can be freed: by cancelling, by settling, or never; and how a run of cancellations empties
    the lock. */
module NoStuckFunds {
  import opened Amounts
  import opened Digests
  import opened Sums
  import opened Routes
  import opened LedgerTypes
  import opened LedgerSteps
  import opened LedgerInvariant
  import opened PendingProofs
  import opened PostingProofs
  import opened ClosingProofs
  import opened ReserveProofs
  import opened SettleProofs
  import opened Runs

  lemma {:induction false} OpenCancelStatus(s: State, r: nat, epoch: Amount)
    requires ReservationsOk(s) && Open(s, r)
    ensures var reservation := s.reservations[r];
            && ReservationAt(s.reservations, reservation.id) == Some(r)
            && reservation.reservedEpoch <= reservation.deadline
            && (CancelStatus(s, reservation.id, epoch) == Ok <==> CancelWindow(reservation, epoch))
  {
    ReservationFound(s.reservations, r);
    assert ReservationOk(s, s.reservations[r]);
  }

  /** The epochs at which an open reservation may be cancelled. */
  predicate CancelWindow(reservation: Reservation, epoch: Amount) {
    reservation.reservedEpoch <= epoch && (epoch < reservation.plan.settleAfter || reservation.deadline < epoch)
  }

  /** Some epoch is in the window exactly when the deadline is not the last epoch there is, or the reservation was made
      before its settlement window opens. */
  lemma {:induction false} WindowExists(reservation: Reservation)
    requires reservation.reservedEpoch <= reservation.deadline
    ensures (exists epoch: Amount :: CancelWindow(reservation, epoch))
       <==> reservation.deadline < U64_MAX || reservation.reservedEpoch < reservation.plan.settleAfter
  {
    if reservation.deadline < U64_MAX {
      assert CancelWindow(reservation, reservation.deadline + 1);
    } else if reservation.reservedEpoch < reservation.plan.settleAfter {
      assert CancelWindow(reservation, reservation.reservedEpoch);
    }
  }

  /** An open reservation can be cancelled at some epoch exactly under that condition. */
  lemma {:induction false} CancellableIff(s: State, r: nat)
    requires ReservationsOk(s) && Open(s, r)
    ensures var reservation := s.reservations[r];
            (exists epoch: Amount :: CancelStatus(s, reservation.id, epoch) == Ok)
            <==> reservation.deadline < U64_MAX || reservation.reservedEpoch < reservation.plan.settleAfter
  {
    hide ReservationsOk, CancelStatus;
    var reservation := s.reservations[r];
    OpenCancelStatus(s, r, 0);
    WindowExists(reservation);
    forall epoch: Amount
      ensures CancelStatus(s, reservation.id, epoch) == Ok <==> CancelWindow(reservation, epoch)
    {
      OpenCancelStatus(s, r, epoch);
    }
  }

  /** Once its deadline has passed an open reservation cancels: the payer gets exactly the gross amount back, no other
      account and no vault balance moves, and with room in the journal the call reports success. */
  lemma {:induction false} RefundAfterDeadline(s: State, r: nat, epoch: Amount)
    requires Inv(s) && Open(s, r) && s.reservations[r].deadline < epoch
    ensures var o := Cancel(s, s.reservations[r].id, epoch);
            && o.status == JournalStatus(s)
            && Inv(o.after)
            && Refunds(s, o.after, r, epoch)
  {
    assert ReservationsOk(s);
    hide Inv, ReservationsOk, Cancel, CancelStatus, Refunds;
    OpenCancelStatus(s, r, epoch);
    CancelCommits(s, s.reservations[r].id, epoch);
  }

  // ---------- Draining the lock ----------

  function IsOpen(): Reservation -> nat {
    (reservation: Reservation) => if reservation.state == Reserved then 1 else 0
  }

  /** Every open reservation has an epoch after its deadline. */
  predicate Expirable(reservations: seq<Reservation>) {
    forall r | 0 <= r < |reservations| && reservations[r].state == Reserved :: reservations[r].deadline < U64_MAX
  }

  /** Cancels the open ones among the first n reservations. */
  function DrainCommands(reservations: seq<Reservation>, n: nat): seq<Command>
    requires n <= |reservations| && Expirable(reservations)
  {
    if n == 0 then []
    else
      var reservation := reservations[n - 1];
      DrainCommands(reservations, n - 1)
      + (if reservation.state == Reserved then [CCancel(reservation.id, reservation.deadline + 1)] else [])
  }

  /** The first n reservations are closed, the rest untouched. */
  predicate DrainedTo(before: seq<Reservation>, after: seq<Reservation>, n: nat) {
    && |after| == |before|
    && (forall r | 0 <= r < |before| && r < n :: after[r].state != Reserved)
    && (forall r | n <= r < |before| :: after[r] == before[r])
  }

  lemma {:induction false} DrainOne(before: seq<Reservation>, t: State, n: nat, epoch: Amount)
    requires Inv(t) && Open(t, n) && DrainedTo(before, t.reservations, n) && t.reservations[n].deadline < epoch
    ensures var o := Cancel(t, t.reservations[n].id, epoch);
            && o.status == JournalStatus(t) && Inv(o.after)
            && DrainedTo(before, o.after.reservations, n + 1)
            && |o.after.journal| <= |t.journal| + 1
            && o.after.issued == t.issued && o.after.assets == t.assets
  {
    hide Inv, Cancel, AccountsGain, VaultsClear;
    RefundAfterDeadline(t, n, epoch);
  }

  lemma {:induction false} StillOpen(before: seq<Reservation>, t: State, n: nat)
    requires ReservationsOk(t) && n < |before| && DrainedTo(before, t.reservations, n) && before[n].state == Reserved
    ensures Open(t, n) && t.reservations[n] == before[n]
  {
    assert ReservationOk(t, t.reservations[n]);
  }

  /** What a drained prefix looks like. */
  predicate Drained(h: Hashes, s: State, commands: seq<Command>, n: nat)
    requires n <= |s.reservations|
  {
    var t := RunFrom(h, s, commands);
    && AdmissibleFrom(h, s, commands) && Inv(t)
    && DrainedTo(s.reservations, t.reservations, n)
    && |commands| == Sum(s.reservations[..n], IsOpen())
    && |t.journal| <= |s.journal| + |commands|
    && t.issued == s.issued && t.assets == s.assets
  }

  lemma {:induction false} DrainNext(before: seq<Reservation>, t: State, n: nat, epoch: Amount)
    requires Inv(t) && n < |before| && DrainedTo(before, t.reservations, n)
    requires before[n].state == Reserved && before[n].deadline < epoch
    ensures var o := Cancel(t, before[n].id, epoch);
            && o.status == JournalStatus(t) && Inv(o.after)
            && DrainedTo(before, o.after.reservations, n + 1)
            && |o.after.journal| <= |t.journal| + 1
            && o.after.issued == t.issued && o.after.assets == t.assets
  {
    InvParts(t);
    hide Inv, Cancel, AssetsOk, AccountsOk, VaultsOk, LanesOk, ColumnsOk, ReservationsOk, DistinctReservations,
      ReceiptsOk, AllRecorded, DrainedTo;
    StillOpen(before, t, n);
    DrainOne(before, t, n, epoch);
  }

  lemma {:induction false} DrainStep(h: Hashes, s: State, commands: seq<Command>, n: nat, epoch: Amount)
    requires n < |s.reservations| && s.reservations[n].state == Reserved && s.reservations[n].deadline < epoch
    requires Drained(h, s, commands, n)
    ensures Drained(h, s, commands + [CCancel(s.reservations[n].id, epoch)], n + 1)
    ensures Step(h, RunFrom(h, s, commands), CCancel(s.reservations[n].id, epoch)).status
         == JournalStatus(RunFrom(h, s, commands))
  {
    hide Inv, RunFrom, AdmissibleFrom, Admissible, Step, DrainedTo, Cancel;
    var t, command := RunFrom(h, s, commands), CCancel(s.reservations[n].id, epoch);
    DrainNext(s.reservations, t, n, epoch);
    RunAppend(h, s, commands, command);
    StepDispatch(h, t, command);
    SumPrefix(s.reservations, n, IsOpen());
  }

  lemma {:induction false} DrainSkip(h: Hashes, s: State, commands: seq<Command>, n: nat)
    requires n < |s.reservations| && s.reservations[n].state != Reserved && Drained(h, s, commands, n)
    ensures Drained(h, s, commands, n + 1)
  {
    hide Inv, RunFrom, AdmissibleFrom;
    SumPrefix(s.reservations, n, IsOpen());
  }

  lemma DrainStart(h: Hashes, s: State)
    requires Inv(s) && Expirable(s.reservations)
    ensures Drained(h, s, DrainCommands(s.reservations, 0), 0)
  {
    hide Inv;
  }

  /** Running the commands closes reservations one after the other. */
  lemma {:induction false} DrainRuns(h: Hashes, s: State, n: nat)
    requires Inv(s) && Expirable(s.reservations) && n <= |s.reservations|
    ensures Drained(h, s, DrainCommands(s.reservations, n), n)
    decreases n
  {
    hide *;
    if n == 0 {
      DrainStart(h, s);
    } else {
      DrainRuns(h, s, n - 1);
      DrainOneMore(h, s, n);
    }
  }

  lemma {:induction false} DrainOneMore(h: Hashes, s: State, n: nat)
    requires 0 < n <= |s.reservations| && Expirable(s.reservations)
    requires Drained(h, s, DrainCommands(s.reservations, n - 1), n - 1)
    ensures Drained(h, s, DrainCommands(s.reservations, n), n)
  {
    hide Drained, DrainCommands, Expirable;
    var reservation := s.reservations[n - 1];
    DrainUnfolds(s.reservations, n);
    if reservation.state == Reserved {
      DrainStep(h, s, DrainCommands(s.reservations, n - 1), n - 1, reservation.deadline + 1);
    } else {
      DrainSkip(h, s, DrainCommands(s.reservations, n - 1), n - 1);
    }
  }

  lemma DrainUnfolds(reservations: seq<Reservation>, n: nat)
    requires 0 < n <= |reservations| && Expirable(reservations)
    ensures var last := reservations[n - 1];
            if last.state == Reserved
            then && last.deadline < U64_MAX
                 && DrainCommands(reservations, n)
                    == DrainCommands(reservations, n - 1) + [CCancel(last.id, last.deadline + 1)]
            else DrainCommands(reservations, n) == DrainCommands(reservations, n - 1)
  {
  }

  lemma {:induction false} ClosedLocksNothing(reservations: seq<Reservation>, assetId: Digest)
    requires forall r | 0 <= r < |reservations| :: reservations[r].state != Reserved
    ensures Sum(reservations, LockedAs(assetId)) == 0
  {
    SumZero(reservations, LockedAs(assetId));
  }

  /** From any valid ledger whose open reservations can expire, one cancellation per open reservation unlocks
      everything: every issued unit is back in an account or a vault. */
  lemma {:induction false} EverythingUnlocks(h: Hashes, s: State)
    requires Inv(s) && Expirable(s.reservations)
    ensures var commands := DrainCommands(s.reservations, |s.reservations|);
            var t := RunFrom(h, s, commands);
            && AdmissibleFrom(h, s, commands) && Inv(t)
            && |commands| == Sum(s.reservations, IsOpen())
            && (forall assetId :: Sum(t.reservations, LockedAs(assetId)) == 0)
            && (forall k | 0 <= k < |t.assets| ::
                  Sum(t.accounts, BalanceIn(k)) + Sum(t.vaults, HeldAs(t.assets[k])) == s.issued[k])
  {
    hide AdmissibleFrom, RunFrom, CatalogOk, ReservationsOk, PendingCovers, NoncesCount, ReceiptsOk;
    var commands := DrainCommands(s.reservations, |s.reservations|);
    var t := RunFrom(h, s, commands);
    DrainRuns(h, s, |s.reservations|);
    assert s.reservations[..|s.reservations|] == s.reservations;
    forall assetId
      ensures Sum(t.reservations, LockedAs(assetId)) == 0
    {
      ClosedLocksNothing(t.reservations, assetId);
    }
    forall k | 0 <= k < |t.assets|
      ensures Sum(t.accounts, BalanceIn(k)) + Sum(t.vaults, HeldAs(t.assets[k])) == s.issued[k]
    {
      assert Observed(t, k) == t.issued[k];
    }
  }

  /** While the journal has room for one entry per open reservation, each of those cancellations reports success. */
  lemma {:induction false} DrainSucceeds(h: Hashes, s: State, n: nat)
    requires Inv(s) && Expirable(s.reservations) && n < |s.reservations| && s.reservations[n].state == Reserved
    requires |s.journal| + Sum(s.reservations, IsOpen()) <= MAX_JOURNAL
    ensures var reservation := s.reservations[n];
            Step(h, RunFrom(h, s, DrainCommands(s.reservations, n)),
                 CCancel(reservation.id, reservation.deadline + 1)).status == Ok
  {
    hide Inv, AdmissibleFrom, RunFrom, Step, DrainedTo;
    DrainRuns(h, s, n);
    DrainStep(h, s, DrainCommands(s.reservations, n), n, s.reservations[n].deadline + 1);
    SumPrefix(s.reservations, n, IsOpen());
    SumPrefixCovered(s.reservations, n + 1, IsOpen());
  }

  // ---------- Reservations that can never close ----------

  predicate StillReserved(s: State, r: nat) {
    r < |s.reservations| && s.reservations[r].state == Reserved
  }

  /** No admissible run closes the reservation. */
  ghost predicate NeverCloses(h: Hashes, s: State, r: nat) {
    forall commands: seq<Command> :: AdmissibleFrom(h, s, commands) ==> StillReserved(RunFrom(h, s, commands), r)
  }

  /** It was made inside its settlement window, which never ends, and its plan cannot be quoted. */
  predicate Stuck(s: State, reservation: Reservation)
    requires Plain(s, reservation)
  {
    && reservation.deadline == U64_MAX
    && reservation.plan.settleAfter <= reservation.reservedEpoch
    && !Quotable(s, reservation)
  }

  lemma {:induction false} SettleLeavesStuck(h: Hashes, s: State, r: nat, id: Digest, epoch: Amount)
    requires Inv(s) && Open(s, r) && Plain(s, s.reservations[r]) && Stuck(s, s.reservations[r])
    ensures StillReserved(Settle(h, s, id, epoch).after, r)
  {
    hide Inv, Settle, SettlementQuote, QuoteOk, AccountsGain, VaultsClear, Quotable, Plain;
    SettleAllOrNothing(h, s, id, epoch);
    QuotedIff(h, s, r, epoch);
  }

  lemma {:induction false} CancelLeavesStuck(s: State, r: nat, id: Digest, epoch: Amount)
    requires Inv(s) && Open(s, r) && Plain(s, s.reservations[r]) && Stuck(s, s.reservations[r])
    ensures StillReserved(Cancel(s, id, epoch).after, r)
  {
    InvParts(s);
    hide Inv, Cancel, CancelStatus, AccountsGain, VaultsClear, Quotable, Plain, ReservationsOk;
    CancelOutcomes(s, id, epoch);
    OpenCancelStatus(s, r, epoch);
  }

  lemma {:induction false} ReserveLeavesStuck(h: Hashes, s: State, r: nat, signed: SignedIntent)
    requires Inv(s) && Open(s, r)
    ensures StillReserved(Reserve(h, s, signed).after, r)
  {
    hide Inv, Reserve, AdmissionStatus, AccountsReserve, ReservationOk, Raised, Risen;
    ReserveOutcomes(h, s, signed);
  }

  lemma OthersLeaveReservations(h: Hashes, s: State, c: Command)
    requires !c.CReserve? && !c.CSettle? && !c.CCancel?
    ensures Step(h, s, c).after.reservations == s.reservations
  {
  }

  lemma {:induction false} StepLeavesStuck(h: Hashes, s: State, c: Command, r: nat)
    requires Inv(s) && Open(s, r) && Plain(s, s.reservations[r]) && Stuck(s, s.reservations[r])
    ensures StillReserved(Step(h, s, c).after, r)
  {
    hide Inv, Step, Admissible, Reserve, Settle, Cancel, Plain, Stuck, Deposit;
    StepDispatch(h, s, c);
    match c
    case CReserve(signed) => ReserveLeavesStuck(h, s, r, signed);
    case CSettle(id, epoch) => SettleLeavesStuck(h, s, r, id, epoch);
    case CCancel(id, epoch) => CancelLeavesStuck(s, r, id, epoch);
    case _ => OthersLeaveReservations(h, s, c);
  }

  /** Lanes never change, so neither does what a plain reservation is quoted by. */
  lemma {:induction false} StuckStays(s: State, t: State, r: nat)
    requires Evolves(s, t) && Open(s, r) && Plain(s, s.reservations[r]) && StillReserved(t, r)
    ensures t.reservations[r] == s.reservations[r] && Open(t, r) && Plain(t, t.reservations[r])
    ensures Stuck(t, t.reservations[r]) <==> Stuck(s, s.reservations[r])
  {
    assert Progresses(s.reservations[r], t.reservations[r]);
    LaneStays(s.lanes, t.lanes, s.reservations[r].plan.settlementLane);
    AssetStays(s.assets, t.assets, s.reservations[r].assetId);
  }

  lemma {:induction false} StuckForGood(h: Hashes, s: State, r: nat, commands: seq<Command>)
    requires Inv(s) && Open(s, r) && Plain(s, s.reservations[r]) && Stuck(s, s.reservations[r])
    requires AdmissibleFrom(h, s, commands)
    ensures StillReserved(RunFrom(h, s, commands), r)
  {
    hide Inv, Step, Admissible, Plain, Stuck, Evolves;
    if |commands| > 0 {
      var front := commands[..|commands| - 1];
      var t := RunFrom(h, s, front);
      StuckForGood(h, s, r, front);
      RunKeepsInv(h, s, front);
      RunEvolves(h, s, front);
      StuckStays(s, t, r);
      StepLeavesStuck(h, t, Last(commands), r);
    }
  }

  lemma {:induction false} OneCommand(h: Hashes, s: State, c: Command)
    requires c.CSettle? || c.CCancel?
    ensures AdmissibleFrom(h, s, [c]) && RunFrom(h, s, [c]) == Step(h, s, c).after
  {
    RunNothing(h, s);
    hide *;
    assert [c] == [] + [c];
    RunAppend(h, s, [], c);
    StepDispatch(h, s, c);
  }

  lemma {:induction false} CancelCloses(h: Hashes, s: State, r: nat, epoch: Amount)
    requires Inv(s) && Open(s, r) && CancelStatus(s, s.reservations[r].id, epoch) == Ok
    requires ReservationAt(s.reservations, s.reservations[r].id) == Some(r)
    ensures !NeverCloses(h, s, r)
  {
    hide Inv, Cancel, CancelStatus, Step, RunFrom, AdmissibleFrom, AccountsGain, VaultsClear;
    var c := CCancel(s.reservations[r].id, epoch);
    CancelCommits(s, s.reservations[r].id, epoch);
    OneCommand(h, s, c);
    StepDispatch(h, s, c);
    assert !StillReserved(RunFrom(h, s, [c]), r);
  }

  lemma {:induction false} SettleCloses(h: Hashes, s: State, r: nat, epoch: Amount)
    requires Inv(s) && Open(s, r) && SettlementQuote(h, s, s.reservations[r].id, epoch).Success?
    requires ReservationAt(s.reservations, s.reservations[r].id) == Some(r)
    ensures !NeverCloses(h, s, r)
  {
    hide Inv, Settle, SettlementQuote, QuoteOk, Step, RunFrom, AdmissibleFrom, AccountsGain, VaultsClear;
    var c := CSettle(s.reservations[r].id, epoch);
    SettleAllOrNothing(h, s, s.reservations[r].id, epoch);
    OneCommand(h, s, c);
    StepDispatch(h, s, c);
    assert !StillReserved(RunFrom(h, s, [c]), r);
  }

  /** On a lane without premium an open reservation is beyond every run, settling and cancelling alike, exactly when it
      was made inside a settlement window that never ends and its plan cannot be quoted. */
  lemma {:induction false} NeverClosesIff(h: Hashes, s: State, r: nat)
    requires Inv(s) && Open(s, r) && Plain(s, s.reservations[r])
    ensures NeverCloses(h, s, r) <==> Stuck(s, s.reservations[r])
  {
    var reservation := s.reservations[r];
    InvParts(s);
    hide Inv, Plain, Quotable, ReservationsOk, CancelStatus, AdmissibleFrom, RunFrom, SettlementQuote;
    if Stuck(s, reservation) {
      forall commands: seq<Command> | AdmissibleFrom(h, s, commands)
        ensures StillReserved(RunFrom(h, s, commands), r)
      {
        StuckForGood(h, s, r, commands);
      }
    } else {
      OpenCancelStatus(s, r, 0);
      CancellableIff(s, r);
      if epoch: Amount :| CancelStatus(s, reservation.id, epoch) == Ok {
        CancelCloses(h, s, r, epoch);
      } else {
        QuotedIff(h, s, r, U64_MAX);
        SettleCloses(h, s, r, U64_MAX);
      }
    }
  }
}
