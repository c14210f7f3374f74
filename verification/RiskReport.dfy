/** The text a risk report's digest is taken over (src/risk.c): it always fits, and it determines the report. */
module RiskReport {
  import opened Amounts
  import opened Sums
  import opened Codec
  import opened Risk
  import opened RiskProofs

  const REPORT_BUFFER: int := 2048
  const LONGEST_NAME: int := 22

  function NumberFields(fields: seq<(string, Amount)>): string {
    if |fields| == 0 then "" else NumberField(fields[0].0, fields[0].1, NumberFields(fields[1..]))
  }

  /** Same names in the same order. */
  predicate SameNames(a: seq<(string, Amount)>, b: seq<(string, Amount)>) {
    |a| == |b| && forall i | 0 <= i < |a| :: a[i].0 == b[i].0
  }

  lemma {:induction false} FieldsLength(fields: seq<(string, Amount)>)
    requires forall i | 0 <= i < |fields| :: |fields[i].0| <= LONGEST_NAME
    ensures |NumberFields(fields)| <= (LONGEST_NAME + 22) * |fields|
  {
    if |fields| > 0 {
      FieldsLength(fields[1..]);
      NumberLengths(fields[0].1, 0);
    }
  }

  /** A list of named numbers is read back from its text. */
  lemma {:induction false} FieldsInjective(a: seq<(string, Amount)>, b: seq<(string, Amount)>)
    requires SameNames(a, b) && NumberFields(a) == NumberFields(b)
    ensures a == b
  {
    if |a| > 0 {
      var name := a[0].0;
      TakeNumberBack(name, a[0].1, U64_MAX, NumberFields(a[1..]));
      TakeNumberBack(name, b[0].1, U64_MAX, NumberFields(b[1..]));
      assert a[0] == b[0];
      FieldsInjective(a[1..], b[1..]);
      assert a == [a[0]] + a[1..] && b == [b[0]] + b[1..];
    }
  }

  function DecisionCode(d: Decision): Amount {
    match d
    case Approve => 0
    case Review => 1
    case Hold => 2
  }

  /** Everything in the report fits the width its field is printed with. */
  predicate Printable(r: Report) {
    Fits(r.totals) && r.totals.active < U32_SIZE && r.hhi < U32_SIZE && r.largestShare < U32_SIZE
  }

  function LossFields(r: Report): seq<(string, Amount)>
    requires Printable(r)
  {
    var t := r.totals;
    [("gross_volume", t.gross), ("pending_settlement", t.pending), ("available_liquidity", t.liquidity),
     ("expected_loss", t.expected), ("stress_loss", t.stress), ("loss_charge", r.lossCharge), ("liquidity_gap", t.gap),
     ("fee_reserve", t.fee)]
  }

  function CapitalFields(r: Report): seq<(string, Amount)> {
    [("concentration_addon", r.addOn), ("required_capital", r.required), ("target_capital", r.target),
     ("available_capital", r.available), ("capital_surplus", r.surplus), ("capital_shortfall", r.shortfall)]
  }

  function ConcentrationFields(r: Report): seq<(string, Amount)>
    requires Printable(r)
  {
    [("coverage_bps", r.coverage), ("hhi_bps", r.hhi), ("largest_lane_share_bps", r.largestShare),
     ("active_positions", r.totals.active), ("decision", DecisionCode(r.decision))]
  }

  /** The nineteen fields, in the order they are written. */
  function ReportFields(r: Report): seq<(string, Amount)>
    requires Printable(r)
  {
    LossFields(r) + CapitalFields(r) + ConcentrationFields(r)
  }

  function ReportText(r: Report): string
    requires Printable(r)
  {
    NumberFields(ReportFields(r))
  }

  /** The report of every accepted analysis can be printed, and its text fits the digest's 2048-character buffer: the
      analysis never fails for want of room. */
  lemma {:induction false} ReportFits(policy: Policy, ps: Portfolio, available: Amount)
    requires Analyze(policy, ps, available).Success?
    ensures var r := Analyze(policy, ps, available).value; Printable(r) && |ReportText(r)| < REPORT_BUFFER
  {
    var r := Analyze(policy, ps, available).value;
    AcceptedAnalysis(policy, ps, available);
    hide Analyze, NumberFields;
    ReportPrintable(policy, ps, r);
    FieldsLength(ReportFields(r));
  }

  lemma {:induction false} ReportPrintable(policy: Policy, ps: Portfolio, r: Report)
    requires FirstPass(policy, ps) && r.totals == TotalsOf(policy, ps)
    requires r.hhi == Sum(ps, SquareOf(r.totals.pending)) && r.largestShare == Largest(ps, ShareOf(r.totals.pending))
    ensures Printable(r)
  {
    SumBounded(ps, CountOf(), 1);
    IndexFits(r.totals.pending, ps, |ps|);
    assert ps[..|ps|] == ps;
    LargestSmall(r.totals.pending, ps);
  }

  lemma {:induction false} LargestSmall(total: Amount, ps: seq<Position>)
    ensures Largest(ps, ShareOf(total)) <= BPS
  {
    if |ps| > 0 {
      LargestSmall(total, ps[..|ps| - 1]);
    }
  }

  /** Two reports with the same text are the same report. */
  lemma {:induction false} ReportTextInjective(r: Report, t: Report)
    requires Printable(r) && Printable(t) && ReportText(r) == ReportText(t)
    ensures r == t
  {
    hide NumberFields;
    var a, b := ReportFields(r), ReportFields(t);
    FieldsInjective(a, b);
    SameFieldsSameReport(r, t);
  }

  lemma SameFieldsSameReport(r: Report, t: Report)
    requires Printable(r) && Printable(t) && ReportFields(r) == ReportFields(t)
    ensures r == t
  {
    var a, b := ReportFields(r), ReportFields(t);
    assert LossFields(r) == a[..8] && LossFields(t) == b[..8];
    assert CapitalFields(r) == a[8..14] && CapitalFields(t) == b[8..14];
    assert ConcentrationFields(r) == a[14..] && ConcentrationFields(t) == b[14..];
    SameLosses(LossFields(r), LossFields(t), r, t);
    SameCapital(CapitalFields(r), CapitalFields(t), r, t);
    SameConcentration(ConcentrationFields(r), ConcentrationFields(t), r, t);
  }

  lemma SameLosses(a: seq<(string, Amount)>, b: seq<(string, Amount)>, r: Report, t: Report)
    requires Printable(r) && Printable(t) && a == LossFields(r) && b == LossFields(t) && a == b
    ensures t.totals == r.totals.(active := t.totals.active) && r.lossCharge == t.lossCharge
  {
    assert a[0].1 == b[0].1 && a[1].1 == b[1].1 && a[2].1 == b[2].1 && a[3].1 == b[3].1;
    assert a[4].1 == b[4].1 && a[5].1 == b[5].1 && a[6].1 == b[6].1 && a[7].1 == b[7].1;
  }

  lemma SameCapital(a: seq<(string, Amount)>, b: seq<(string, Amount)>, r: Report, t: Report)
    requires a == CapitalFields(r) && b == CapitalFields(t) && a == b
    ensures r.addOn == t.addOn && r.required == t.required && r.target == t.target
    ensures r.available == t.available && r.surplus == t.surplus && r.shortfall == t.shortfall
  {
    assert a[0].1 == b[0].1 && a[1].1 == b[1].1 && a[2].1 == b[2].1;
    assert a[3].1 == b[3].1 && a[4].1 == b[4].1 && a[5].1 == b[5].1;
  }

  lemma SameConcentration(a: seq<(string, Amount)>, b: seq<(string, Amount)>, r: Report, t: Report)
    requires Printable(r) && Printable(t) && a == ConcentrationFields(r) && b == ConcentrationFields(t) && a == b
    ensures r.coverage == t.coverage && r.hhi == t.hhi && r.largestShare == t.largestShare
    ensures r.totals.active == t.totals.active && r.decision == t.decision
  {
    assert a[0].1 == b[0].1 && a[1].1 == b[1].1 && a[2].1 == b[2].1 && a[3].1 == b[3].1 && a[4].1 == b[4].1;
  }

  // ---------- Reading a report ----------

  function LossNames(): seq<string> {
    ["gross_volume", "pending_settlement", "available_liquidity", "expected_loss", "stress_loss", "loss_charge",
     "liquidity_gap", "fee_reserve"]
  }

  function CapitalNames(): seq<string> {
    ["concentration_addon", "required_capital", "target_capital", "available_capital", "capital_surplus",
     "capital_shortfall"]
  }

  function ConcentrationNames(): seq<string> {
    ["coverage_bps", "hhi_bps", "largest_lane_share_bps", "active_positions", "decision"]
  }

  /** The numbers under these names, in this order, and nothing after them. */
  function ReadFigures(names: seq<string>, text: string): Option<seq<nat>> {
    if |names| == 0 then (if text == "" then Some([]) else None)
    else
      var (n, rest) :- TakeNumber(names[0], U64_MAX, text);
      var figures :- ReadFigures(names[1..], rest);
      Some([n] + figures)
  }

  function Names(fields: seq<(string, Amount)>): (names: seq<string>)
    ensures |names| == |fields|
  {
    seq(|fields|, i requires 0 <= i < |fields| => fields[i].0)
  }

  function Figures(fields: seq<(string, Amount)>): (figures: seq<nat>)
    ensures |figures| == |fields|
  {
    seq(|fields|, i requires 0 <= i < |fields| => fields[i].1)
  }

  lemma {:induction false} FieldsReadBack(fields: seq<(string, Amount)>)
    ensures ReadFigures(Names(fields), NumberFields(fields)) == Some(Figures(fields))
  {
    if |fields| > 0 {
      TakeNumberBack(fields[0].0, fields[0].1, U64_MAX, NumberFields(fields[1..]));
      FieldsReadBack(fields[1..]);
      assert Names(fields)[1..] == Names(fields[1..]);
      assert Figures(fields) == [fields[0].1] + Figures(fields[1..]);
    }
  }

  lemma ListsConcat(a: seq<(string, Amount)>, b: seq<(string, Amount)>)
    ensures Names(a + b) == Names(a) + Names(b) && Figures(a + b) == Figures(a) + Figures(b)
  {
  }

  lemma LossesAre(r: Report)
    requires Printable(r)
    ensures Names(LossFields(r)) == LossNames()
    ensures Figures(LossFields(r))
         == [r.totals.gross, r.totals.pending, r.totals.liquidity, r.totals.expected, r.totals.stress, r.lossCharge,
             r.totals.gap, r.totals.fee]
  {
  }

  lemma CapitalsAre(r: Report)
    ensures Names(CapitalFields(r)) == CapitalNames()
    ensures Figures(CapitalFields(r)) == [r.addOn, r.required, r.target, r.available, r.surplus, r.shortfall]
  {
  }

  lemma ConcentrationsAre(r: Report)
    requires Printable(r)
    ensures Names(ConcentrationFields(r)) == ConcentrationNames()
    ensures Figures(ConcentrationFields(r))
         == [r.coverage, r.hhi, r.largestShare, r.totals.active,
             if r.decision == Approve then 0 else if r.decision == Review then 1 else 2]
  {
  }

  /** Reading the text of a report under the published names gives every figure of the report back. */
  lemma {:induction false} ReportReadsBack(r: Report)
    requires Printable(r)
    ensures ReadFigures(LossNames() + CapitalNames() + ConcentrationNames(), ReportText(r))
         == Some([r.totals.gross, r.totals.pending, r.totals.liquidity, r.totals.expected, r.totals.stress,
                  r.lossCharge,
                  r.totals.gap, r.totals.fee]
                 + [r.addOn, r.required, r.target, r.available, r.surplus, r.shortfall]
                 + [r.coverage, r.hhi, r.largestShare, r.totals.active,
                    if r.decision == Approve then 0 else if r.decision == Review then 1 else 2])
  {
    hide LossFields, CapitalFields, ConcentrationFields, ReadFigures, NumberFields, LossNames, CapitalNames,
      ConcentrationNames, Names, Figures;
    FieldsReadBack(ReportFields(r));
    ListsConcat(LossFields(r) + CapitalFields(r), ConcentrationFields(r));
    ListsConcat(LossFields(r), CapitalFields(r));
    LossesAre(r);
    CapitalsAre(r);
    ConcentrationsAre(r);
  }
}
