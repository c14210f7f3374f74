/** What a signature vouches for: whose intents are reserved, and how often. */
module Intents {
  import opened Amounts
  import opened LedgerTypes
  import opened LedgerSteps
  import opened LedgerInvariant
  import opened ReserveProofs
  import opened Runs

  /** The account is the intent's payer, signed it as itself, and its seal over these terms is the signature's. */
  predicate Vouches(h: Hashes, account: Account, signed: SignedIntent) {
    && account.active
    && account.id == signed.terms.payer == signed.signature.signer
    && h.seal(account.verifier, signed.terms) == signed.signature.authenticator
  }

  /** In a ledger with distinct accounts a signature is accepted exactly when some account vouches for it. */
  lemma {:induction false} SignatureOkIff(h: Hashes, s: State, signed: SignedIntent)
    requires AccountsOk(s.accounts)
    ensures SignatureStatus(h, s, signed) == Ok
       <==> exists i | 0 <= i < |s.accounts| :: Vouches(h, s.accounts[i], signed)
  {
    if i :| 0 <= i < |s.accounts| && Vouches(h, s.accounts[i], signed) {
      AccountFound(s.accounts, i);
    }
  }

  /** Whether the call adds a reservation. */
  predicate Takes(h: Hashes, s: State, signed: SignedIntent) {
    Reserve(h, s, signed).after.reservations != s.reservations
  }

  lemma AdmittedMeans(h: Hashes, s: State, signed: SignedIntent)
    requires AdmissionStatus(h, s, signed) == Ok
    ensures SignatureStatus(h, s, signed) == Ok && signed.terms.networkId == s.networkId
    ensures AccountAt(s.accounts, signed.terms.payer).Some?
    ensures s.accounts[AccountAt(s.accounts, signed.terms.payer).value].intentNonce == signed.terms.payerNonce
    ensures !IntentKnown(s.reservations, signed.terms.intentId)
  {
    hide PlanStatus, IntentKnown;
  }

  /** Only a vouched intent of this network, carrying the payer's next nonce, is ever reserved. */
  lemma {:induction false} ReservedWasVouched(h: Hashes, s: State, signed: SignedIntent)
    requires Takes(h, s, signed)
    ensures signed.terms.networkId == s.networkId
    ensures exists i | 0 <= i < |s.accounts| ::
              Vouches(h, s.accounts[i], signed) && s.accounts[i].intentNonce == signed.terms.payerNonce
  {
    TakenIsAdmitted(h, s, signed);
    AdmittedMeans(h, s, signed);
    var p := AccountAt(s.accounts, signed.terms.payer).value;
    hide AdmissionStatus, PlanStatus, Takes;
    assert Vouches(h, s.accounts[p], signed);
  }

  lemma TakenIsAdmitted(h: Hashes, s: State, signed: SignedIntent)
    requires Takes(h, s, signed)
    ensures AdmissionStatus(h, s, signed) == Ok
  {
    hide AdmissionStatus, UpdateRoutePending, Debit, ReserveCommit, ReservationAt;
  }

  lemma {:induction false} TakenIsKnown(h: Hashes, s: State, signed: SignedIntent)
    requires Inv(s) && Takes(h, s, signed)
    ensures Reserve(h, s, signed).after.reservations
         == s.reservations + [NewReservation(h, signed.terms, s.epoch)]
  {
    hide Inv, AdmissionStatus, Reserve, ReservationOk;
    ReserveOutcomes(h, s, signed);
  }

  lemma {:induction false} KnownStays(a: seq<Reservation>, b: seq<Reservation>, i: nat)
    requires ReservationsProgress(a, b) && i < |a|
    ensures IntentKnown(b, a[i].intentId)
  {
    assert Progresses(a[i], b[i]);
    assert b[i].intentId == a[i].intentId;
  }

  /** A signed intent is reserved at most once: after any later run, failing calls included, presenting it again takes
      nothing. */
  lemma {:induction false} ReservedAtMostOnce(h: Hashes, s: State, signed: SignedIntent, commands: seq<Command>)
    requires Inv(s) && Takes(h, s, signed)
    requires AdmissibleFrom(h, Reserve(h, s, signed).after, commands)
    ensures !Takes(h, RunFrom(h, Reserve(h, s, signed).after, commands), signed)
  {
    var first := Reserve(h, s, signed).after;
    var t := RunFrom(h, first, commands);
    hide Inv, AdmissionStatus, Reserve, ReservationOk, Reserves, Evolves, IntentKnown, RunFrom, AdmissibleFrom;
    ReserveOutcomes(h, s, signed);
    TakenIsKnown(h, s, signed);
    RunEvolves(h, first, commands);
    EvolvesProgress(first, t);
    KnownStays(first.reservations, t.reservations, |s.reservations|);
    RunKeepsInv(h, first, commands);
    ReserveOutcomes(h, t, signed);
    if AdmissionStatus(h, t, signed) == Ok {
      AdmittedMeans(h, t, signed);
      assert false;
    }
  }

  lemma EvolvesProgress(s: State, t: State)
    requires Evolves(s, t)
    ensures ReservationsProgress(s.reservations, t.reservations)
  {
  }
}
