/** Which intents are admitted, and what the others are told: every check of a reserve call before its first write, as a
    table over the records of the ledger. */
module Admission {
  import opened Amounts
  import opened Digests
  import opened Routes
  import opened LedgerTypes
  import opened LedgerSteps
  import opened LedgerInvariant
  import opened Intents
  import opened Verdicts

  // ---------- Hops ----------

  /** The lane and both vaults of a hop exist. */
  predicate Known(s: State, hop: Hop) {
    LaneAt(s.lanes, hop.lane).Some? && VaultAt(s.vaults, hop.fromVault).Some? && VaultAt(s.vaults, hop.toVault).Some?
  }

  function HopChecks(s: State, assetId: Digest, gross: Amount, hop: Hop): seq<Check> {
    [Check(Known(s, hop), ErrNotFound), Check(HopOk(s, assetId, gross, hop), ErrPolicy)]
  }

  /** A hop passes exactly when its lane and vaults exist and are in the asset, its weight is at most the whole and its
      amount at most the gross amount. */
  lemma HopAnswer(s: State, terms: Terms, hop: Hop)
    ensures HopStatus(s, terms, hop) == Verdict(HopChecks(s, terms.assetId, terms.gross, hop))
    ensures HopStatus(s, terms, hop) == Ok <==> HopOk(s, terms.assetId, terms.gross, hop)
  {
    hide Verdict;
    VerdictOfTwo(HopChecks(s, terms.assetId, terms.gross, hop));
  }

  function RouteChecks(s: State, assetId: Digest, gross: Amount, hops: seq<Hop>): seq<Check> {
    if |hops| == 0 then [] else HopChecks(s, assetId, gross, hops[0]) + RouteChecks(s, assetId, gross, hops[1..])
  }

  lemma {:induction false} RouteAnswer(s: State, terms: Terms, hops: seq<Hop>)
    ensures HopsStatus(s, terms, hops) == Verdict(RouteChecks(s, terms.assetId, terms.gross, hops))
  {
    hide HopStatus, HopChecks, Verdict;
    if |hops| == 0 {
      VerdictOkIff([]);
    } else {
      HopAnswer(s, terms, hops[0]);
      RouteAnswer(s, terms, hops[1..]);
      VerdictConcat(HopChecks(s, terms.assetId, terms.gross, hops[0]),
                    RouteChecks(s, terms.assetId, terms.gross, hops[1..]));
    }
  }

  // ---------- Plans ----------

  /** The settlement lane is in the intent's asset and ends at the plan's beneficiary. */
  predicate LaneSuits(s: State, assetId: Digest, plan: Plan) {
    && LaneAt(s.lanes, plan.settlementLane).Some?
    && var lane := s.lanes[LaneAt(s.lanes, plan.settlementLane).value];
    && lane.assetId == assetId && lane.terminalAccount == plan.beneficiary
  }

  function PlanHeads(s: State, assetId: Digest, plan: Plan): seq<Check> {
    [Check(0 < |plan.hops| <= MAX_ROUTE_HOPS, ErrPolicy),
     Check(LaneAt(s.lanes, plan.settlementLane).Some?, ErrNotFound),
     Check(LaneSuits(s, assetId, plan), ErrPolicy),
     Check(AccountAt(s.accounts, plan.beneficiary).Some? && AccountAt(s.accounts, plan.operatorAccount).Some?,
           ErrNotFound),
     Check(SettlementLaneOk(s, assetId, plan), ErrPolicy)]
  }

  function PlanChecks(s: State, assetId: Digest, gross: Amount, plan: Plan): seq<Check> {
    PlanHeads(s, assetId, plan) + RouteChecks(s, assetId, gross, plan.hops)
  }

  lemma {:induction false} PlanAnswer(s: State, terms: Terms)
    ensures PlanStatus(s, terms) == Verdict(PlanChecks(s, terms.assetId, terms.gross, terms.plan))
  {
    var heads, routes := PlanHeads(s, terms.assetId, terms.plan), RouteChecks(s, terms.assetId, terms.gross,
                                                                              terms.plan.hops);
    RouteAnswer(s, terms, terms.plan.hops);
    VerdictConcat(heads, routes);
    hide HopsStatus, RouteChecks, Verdict, LaneAt, AccountAt;
    VerdictOfFive(heads);
  }

  // ---------- Intents ----------

  /** The payer's account carries this nonce. */
  predicate NextNonce(accounts: seq<Account>, payer: Digest, nonce: Amount) {
    exists i | 0 <= i < |accounts| :: accounts[i].active && accounts[i].id == payer && accounts[i].intentNonce == nonce
  }

  predicate Vouched(h: Hashes, accounts: seq<Account>, signed: SignedIntent) {
    exists i | 0 <= i < |accounts| :: Vouches(h, accounts[i], signed)
  }

  /** What is checked before the plan. */
  function IntentHeads(h: Hashes, s: State, signed: SignedIntent): seq<Check> {
    var terms := signed.terms;
    [Check(|s.reservations| < MAX_RESERVATIONS, ErrCapacity),
     Check(AccountAt(s.accounts, terms.payer).Some?, ErrNotFound),
     Check(Vouched(h, s.accounts, signed), ErrSignature),
     Check(terms.networkId == s.networkId, ErrPolicy),
     Check(s.epoch <= terms.deadline, ErrExpired),
     Check(NextNonce(s.accounts, terms.payer, terms.payerNonce), ErrDuplicate)]
  }

  /** What is checked after it. */
  function IntentTails(s: State, terms: Terms): seq<Check> {
    [Check(forall j | 0 <= j < |s.reservations| :: s.reservations[j].intentId != terms.intentId, ErrDuplicate),
     Check(terms.gross <= BalanceOf(s, terms.payer, terms.assetId), ErrBalance)]
  }

  function AdmissionChecks(h: Hashes, s: State, signed: SignedIntent): seq<Check> {
    IntentHeads(h, s, signed) + PlanChecks(s, signed.terms.assetId, signed.terms.gross, signed.terms.plan)
    + IntentTails(s, signed.terms)
  }

  lemma {:induction false} NonceIs(accounts: seq<Account>, payer: Digest, nonce: Amount)
    requires AccountsOk(accounts) && AccountAt(accounts, payer).Some?
    ensures NextNonce(accounts, payer, nonce) <==> accounts[AccountAt(accounts, payer).value].intentNonce == nonce
  {
    if i :| 0 <= i < |accounts| && accounts[i].active && accounts[i].id == payer && accounts[i].intentNonce == nonce {
      AccountFound(accounts, i);
    }
  }

  lemma SignatureAnswer(h: Hashes, s: State, signed: SignedIntent)
    requires AccountsOk(s.accounts)
    ensures SignatureStatus(h, s, signed)
         == if AccountAt(s.accounts, signed.terms.payer).None? then ErrNotFound
            else if !Vouched(h, s.accounts, signed) then ErrSignature else Ok
  {
    SignatureOkIff(h, s, signed);
    hide AccountAt, AccountsOk;
  }

  lemma {:induction false} HeadsAnswer(h: Hashes, s: State, signed: SignedIntent)
    requires AccountsOk(s.accounts)
    ensures Verdict(IntentHeads(h, s, signed))
         == if |s.reservations| >= MAX_RESERVATIONS then ErrCapacity
            else if SignatureStatus(h, s, signed) != Ok then SignatureStatus(h, s, signed)
            else if signed.terms.networkId != s.networkId then ErrPolicy
            else if signed.terms.deadline < s.epoch then ErrExpired
            else if !NextNonce(s.accounts, signed.terms.payer, signed.terms.payerNonce) then ErrDuplicate
            else Ok
  {
    var heads := IntentHeads(h, s, signed);
    SignatureAnswer(h, s, signed);
    hide Verdict, AccountAt, AccountsOk, SignatureStatus, Vouched, NextNonce;
    VerdictOfSix(heads);
  }

  lemma {:induction false} TailsAnswer(s: State, terms: Terms)
    ensures Verdict(IntentTails(s, terms))
         == if IntentKnown(s.reservations, terms.intentId) then ErrDuplicate
            else if BalanceOf(s, terms.payer, terms.assetId) < terms.gross then ErrBalance
            else Ok
  {
    var tails := IntentTails(s, terms);
    hide Verdict, BalanceOf;
    VerdictOfTwo(tails);
  }

  /** A reserve call is admitted, or answered by the first check that fails. */
  lemma {:induction false} AdmissionAnswer(h: Hashes, s: State, signed: SignedIntent)
    requires AccountsOk(s.accounts)
    ensures AdmissionStatus(h, s, signed) == Verdict(AdmissionChecks(h, s, signed))
  {
    var terms := signed.terms;
    var heads, plans := IntentHeads(h, s, signed), PlanChecks(s, terms.assetId, terms.gross, terms.plan);
    HeadsAnswer(h, s, signed);
    PlanAnswer(s, terms);
    TailsAnswer(s, terms);
    VerdictConcat(heads + plans, IntentTails(s, terms));
    VerdictConcat(heads, plans);
    SignatureAnswer(h, s, signed);
    if AccountAt(s.accounts, terms.payer).Some? {
      NonceIs(s.accounts, terms.payer, terms.payerNonce);
    }
    hide Verdict, AccountAt, AccountsOk, SignatureStatus, Vouched, NextNonce, PlanStatus, PlanChecks, IntentHeads,
      IntentTails, IntentKnown, BalanceOf;
  }

  lemma {:induction false} RoutePasses(s: State, assetId: Digest, gross: Amount, hops: seq<Hop>)
    ensures Verdict(RouteChecks(s, assetId, gross, hops)) == Ok
       <==> forall i | 0 <= i < |hops| :: HopOk(s, assetId, gross, hops[i])
  {
    hide HopOk, Verdict;
    if |hops| == 0 {
      VerdictOkIff([]);
    } else {
      RoutePasses(s, assetId, gross, hops[1..]);
      VerdictConcat(HopChecks(s, assetId, gross, hops[0]), RouteChecks(s, assetId, gross, hops[1..]));
      VerdictOfTwo(HopChecks(s, assetId, gross, hops[0]));
      HopOkIsKnown(s, assetId, gross, hops[0]);
      assert forall i | 0 < i < |hops| :: hops[i] == hops[1..][i - 1];
    }
  }

  lemma HopOkIsKnown(s: State, assetId: Digest, gross: Amount, hop: Hop)
    ensures HopOk(s, assetId, gross, hop) ==> Known(s, hop)
  {
  }

  lemma HeadsPass(h: Hashes, s: State, signed: SignedIntent)
    ensures Verdict(IntentHeads(h, s, signed)) == Ok
       <==> && |s.reservations| < MAX_RESERVATIONS
            && Vouched(h, s.accounts, signed)
            && NextNonce(s.accounts, signed.terms.payer, signed.terms.payerNonce)
            && signed.terms.networkId == s.networkId && s.epoch <= signed.terms.deadline
  {
    VerdictOfSix(IntentHeads(h, s, signed));
    VouchedIsPayer(h, s.accounts, signed);
    hide Verdict, AccountAt, Vouched, NextNonce;
  }

  lemma {:induction false} PlanPasses(s: State, assetId: Digest, gross: Amount, plan: Plan)
    ensures Verdict(PlanChecks(s, assetId, gross, plan)) == Ok
       <==> && HopsOk(s, assetId, gross, plan.hops) && SettlementLaneOk(s, assetId, plan)
            && AccountAt(s.accounts, plan.beneficiary).Some? && AccountAt(s.accounts, plan.operatorAccount).Some?
  {
    var heads := PlanHeads(s, assetId, plan);
    VerdictConcat(heads, RouteChecks(s, assetId, gross, plan.hops));
    RoutePasses(s, assetId, gross, plan.hops);
    VerdictOfFive(heads);
    hide Verdict, AccountAt, LaneAt, RouteChecks, HopOk;
  }

  lemma TailsPass(s: State, terms: Terms)
    ensures Verdict(IntentTails(s, terms)) == Ok
       <==> && (forall j | 0 <= j < |s.reservations| :: s.reservations[j].intentId != terms.intentId)
            && terms.gross <= BalanceOf(s, terms.payer, terms.assetId)
  {
    VerdictOfTwo(IntentTails(s, terms));
    hide Verdict, BalanceOf;
  }

  /** An intent is admitted if and only if there is room for a reservation; some account is its payer, vouches for it
      and carries its nonce; it is of this network, not expired and new; its plan has one to eight good hops and settles
      on a lane in its asset, to that lane's terminal account, at rates its ceiling covers; beneficiary and operator
      exist; and the payer can pay. */
  lemma {:induction false} AdmittedIff(h: Hashes, s: State, signed: SignedIntent)
    requires AccountsOk(s.accounts)
    ensures var terms, plan := signed.terms, signed.terms.plan;
            AdmissionStatus(h, s, signed) == Ok
            <==> && |s.reservations| < MAX_RESERVATIONS
                 && Vouched(h, s.accounts, signed)
                 && NextNonce(s.accounts, terms.payer, terms.payerNonce)
                 && terms.networkId == s.networkId && s.epoch <= terms.deadline
                 && HopsOk(s, terms.assetId, terms.gross, plan.hops)
                 && SettlementLaneOk(s, terms.assetId, plan)
                 && AccountAt(s.accounts, plan.beneficiary).Some? && AccountAt(s.accounts, plan.operatorAccount).Some?
                 && (forall j | 0 <= j < |s.reservations| :: s.reservations[j].intentId != terms.intentId)
                 && terms.gross <= BalanceOf(s, terms.payer, terms.assetId)
  {
    var terms, plan := signed.terms, signed.terms.plan;
    var plans := PlanChecks(s, terms.assetId, terms.gross, plan);
    AdmissionAnswer(h, s, signed);
    ChecksUnfold(h, s, signed);
    hide *;
    VerdictConcat(IntentHeads(h, s, signed) + plans, IntentTails(s, terms));
    VerdictConcat(IntentHeads(h, s, signed), plans);
    HeadsPass(h, s, signed);
    PlanPasses(s, terms.assetId, terms.gross, plan);
    TailsPass(s, terms);
  }

  lemma ChecksUnfold(h: Hashes, s: State, signed: SignedIntent)
    ensures AdmissionChecks(h, s, signed)
         == IntentHeads(h, s, signed) + PlanChecks(s, signed.terms.assetId, signed.terms.gross, signed.terms.plan)
            + IntentTails(s, signed.terms)
  {
    hide IntentHeads, IntentTails, PlanChecks;
  }

  lemma VouchedIsPayer(h: Hashes, accounts: seq<Account>, signed: SignedIntent)
    ensures Vouched(h, accounts, signed) ==> AccountAt(accounts, signed.terms.payer).Some?
  {
  }
}
