/** The decision engine's rule part: risk bands (app.py lines 73-81), the
    conditional-approval lines (96-107) and the explanation reasons (112-130). */
module Decision {
  import opened Ordering

  // ---- Risk bands ----

  datatype RiskLevel = LowRisk | MediumRisk | HighRisk

  datatype Verdict = Approve | ConditionalApproval | Reject

  /** A risk level together with the decision that goes with it. */
  datatype Band = Band(level: RiskLevel, verdict: Verdict)

  /** Lowest default probability of the medium band. */
  const MediumFloor: real := 0.15
  /** Lowest default probability of the high band. */
  const HighFloor: real := 0.30

  /** The band of a default probability. The three bands are half-open, cover
      every probability and do not overlap; each boundary belongs to the band
      above it. Probabilities outside [0, 1] are banded like any other. */
  function RiskBand(p: real): (b: Band)
    ensures b == Band(LowRisk, Approve) <==> p < MediumFloor
    ensures b == Band(MediumRisk, ConditionalApproval) <==> MediumFloor <= p < HighFloor
    ensures b == Band(HighRisk, Reject) <==> HighFloor <= p
  {
    if p < 0.15 then Band(LowRisk, Approve)
    else if p < 0.30 then Band(MediumRisk, ConditionalApproval)
    else Band(HighRisk, Reject)
  }

  /** Position of a level on the risk scale. */
  function Severity(l: RiskLevel): nat {
    match l
    case LowRisk => 0
    case MediumRisk => 1
    case HighRisk => 2
  }

  /** A higher probability never lands in a less severe band. */
  lemma RiskBandMonotone(p: real, q: real)
    requires p <= q
    ensures Severity(RiskBand(p).level) <= Severity(RiskBand(q).level)
  {
  }

  /** The boundaries themselves: 0.15 is medium and 0.30 is high. */
  lemma RiskBandBoundaries()
    ensures RiskBand(0.15) == Band(MediumRisk, ConditionalApproval)
    ensures RiskBand(0.30) == Band(HighRisk, Reject)
  {
  }

  /** The decision text the page compares against. */
  function VerdictLabel(v: Verdict): string {
    match v
    case Approve => "APPROVE"
    case ConditionalApproval => "CONDITIONAL APPROVAL"
    case Reject => "REJECT"
  }

  /** Comparing decision texts, as the page does, is comparing decisions. */
  lemma VerdictLabelsDistinct(v: Verdict, w: Verdict)
    ensures VerdictLabel(v) == VerdictLabel(w) <==> v == w
  {
  }

  // ---- Conditional-approval rules ----

  datatype Condition = ReduceInstallments | LowerPurchaseAmount | UpfrontPayment

  function ConditionText(c: Condition): string {
    match c
    case ReduceInstallments => "Reduce number of installments (max 6)"
    case LowerPurchaseAmount => "Lower purchase amount"
    case UpfrontPayment => "Require 20% upfront payment"
  }

  /** The order in which the condition lines are written. */
  function ConditionRank(c: Condition): int {
    match c
    case ReduceInstallments => 0
    case LowerPurchaseAmount => 1
    case UpfrontPayment => 2
  }

  /** Installment-to-income share above which fewer installments are recommended. */
  const InstallmentConditionThreshold: real := 0.30
  /** Share of monthly income above which a smaller purchase is recommended. */
  const PurchaseShareThreshold: real := 0.5

  /** The recommended conditions: two independent checks in fixed order, then the
      upfront payment, which is always present and always last. */
  function ConditionList(installmentToIncome: real, purchaseAmount: real, monthlyIncome: real): (cs: seq<Condition>)
    ensures ReduceInstallments in cs <==> installmentToIncome > InstallmentConditionThreshold
    ensures LowerPurchaseAmount in cs <==> purchaseAmount > monthlyIncome * PurchaseShareThreshold
    ensures UpfrontPayment in cs
    ensures StrictlyIncreasing(cs, ConditionRank)
    ensures |cs| > 0 && cs[|cs| - 1] == UpfrontPayment
  {
    (if installmentToIncome > 0.30 then [ReduceInstallments] else [])
    + (if purchaseAmount > monthlyIncome * 0.5 then [LowerPurchaseAmount] else [])
    + [UpfrontPayment]
  }

  /** Membership and order pin the condition list down: any list in writing order
      holding exactly the conditions that apply is the one produced. */
  lemma ConditionListUnique(installmentToIncome: real, purchaseAmount: real, monthlyIncome: real, cs: seq<Condition>)
    requires StrictlyIncreasing(cs, ConditionRank)
    requires ReduceInstallments in cs <==> installmentToIncome > InstallmentConditionThreshold
    requires LowerPurchaseAmount in cs <==> purchaseAmount > monthlyIncome * PurchaseShareThreshold
    requires UpfrontPayment in cs
    ensures cs == ConditionList(installmentToIncome, purchaseAmount, monthlyIncome)
  {
    var produced := ConditionList(installmentToIncome, purchaseAmount, monthlyIncome);
    forall c
      ensures c in cs <==> c in produced
    {
      match c
      case ReduceInstallments =>
      case LowerPurchaseAmount =>
      case UpfrontPayment =>
    }
    SameMembersSameSequence(cs, produced, ConditionRank);
  }

  /** What the conditional-approval section shows: the "Recommended Conditions"
      header, and the condition lines. */
  datatype ConditionsSection = ConditionsSection(headed: bool, lines: seq<string>)

  /** The section for a band. Only the header depends on the decision; the lines
      are the same for every band. */
  function Conditions(b: Band, installmentToIncome: real, purchaseAmount: real, monthlyIncome: real): (s: ConditionsSection)
    ensures s.headed <==> b.verdict == ConditionalApproval
    ensures var cs := ConditionList(installmentToIncome, purchaseAmount, monthlyIncome);
      |s.lines| == |cs| && forall i :: 0 <= i < |cs| ==> s.lines[i] == ConditionText(cs[i])
    ensures |s.lines| > 0 && s.lines[|s.lines| - 1] == "Require 20% upfront payment"
  {
    var cs := ConditionList(installmentToIncome, purchaseAmount, monthlyIncome);
    ConditionsSection(
      VerdictLabel(b.verdict) == "CONDITIONAL APPROVAL",
      seq(|cs|, i requires 0 <= i < |cs| => ConditionText(cs[i])))
  }

  /** The condition lines do not depend on the decision. */
  lemma ConditionLinesIgnoreVerdict(b: Band, b': Band, installmentToIncome: real, purchaseAmount: real, monthlyIncome: real)
    ensures Conditions(b, installmentToIncome, purchaseAmount, monthlyIncome).lines
         == Conditions(b', installmentToIncome, purchaseAmount, monthlyIncome).lines
  {
  }

  /** The reduce-installments line is written exactly when its condition applies,
      whatever the band. */
  lemma ReduceInstallmentsLine(b: Band, installmentToIncome: real, purchaseAmount: real, monthlyIncome: real)
    ensures ConditionText(ReduceInstallments) in Conditions(b, installmentToIncome, purchaseAmount, monthlyIncome).lines
        <==> installmentToIncome > InstallmentConditionThreshold
  {
    var s := Conditions(b, installmentToIncome, purchaseAmount, monthlyIncome);
    var cs := ConditionList(installmentToIncome, purchaseAmount, monthlyIncome);
    if ConditionText(ReduceInstallments) in s.lines {
      var i :| 0 <= i < |s.lines| && s.lines[i] == ConditionText(ReduceInstallments);
      assert ConditionText(cs[i]) == ConditionText(ReduceInstallments);
      assert cs[i] == ReduceInstallments;
    }
    if installmentToIncome > InstallmentConditionThreshold {
      var i :| 0 <= i < |cs| && cs[i] == ReduceInstallments;
      assert s.lines[i] == ConditionText(ReduceInstallments);
    }
  }

  /** A line names a condition exactly when that condition is in the list, whatever
      the band. */
  lemma ConditionLinesMembership(b: Band, installmentToIncome: real, purchaseAmount: real, monthlyIncome: real)
    ensures forall c ::
      (ConditionText(c) in Conditions(b, installmentToIncome, purchaseAmount, monthlyIncome).lines <==>
       c in ConditionList(installmentToIncome, purchaseAmount, monthlyIncome))
  {
    var s := Conditions(b, installmentToIncome, purchaseAmount, monthlyIncome);
    var cs := ConditionList(installmentToIncome, purchaseAmount, monthlyIncome);
    forall c
      ensures ConditionText(c) in s.lines <==> c in cs
    {
      if ConditionText(c) in s.lines {
        var i :| 0 <= i < |s.lines| && s.lines[i] == ConditionText(c);
        assert ConditionText(cs[i]) == ConditionText(c);
        assert cs[i] == c;
      }
      if c in cs {
        var i :| 0 <= i < |cs| && cs[i] == c;
        assert s.lines[i] == ConditionText(c);
      }
    }
  }

  // ---- Decision explanation ----

  /** The raw and derived values the reason rules look at. */
  datatype RiskFacts = RiskFacts(
    installmentToIncome: real,
    avgOverdueDays: real,
    missedPayments: real,
    previousBnplLoans: real)

  datatype Reason = InstallmentBurden | PaymentDelays | MissedPayments | ManyPreviousLoans

  /** The rule behind each reason. */
  predicate Fires(r: Reason, f: RiskFacts) {
    match r
    case InstallmentBurden => f.installmentToIncome > 0.35
    case PaymentDelays => f.avgOverdueDays > 10.0
    case MissedPayments => f.missedPayments > 2.0
    case ManyPreviousLoans => f.previousBnplLoans > 3.0
  }

  /** The order in which the reasons are checked. */
  function ReasonRank(r: Reason): int {
    match r
    case InstallmentBurden => 0
    case PaymentDelays => 1
    case MissedPayments => 2
    case ManyPreviousLoans => 3
  }

  function ReasonText(r: Reason): string {
    match r
    case InstallmentBurden => "Installment amount is high relative to income"
    case PaymentDelays => "Frequent payment delays in past behavior"
    case MissedPayments => "Multiple missed payments observed"
    case ManyPreviousLoans => "High number of previous BNPL loans"
  }

  /** The line shown when no reason fires. */
  const NoMajorRiskFactors: string := "No major risk factors detected"

  lemma ReasonTextIsNotFallback(r: Reason)
    ensures ReasonText(r) != NoMajorRiskFactors
  {
  }

  /** The reasons that fire, each once, in checking order. */
  function FiringReasons(f: RiskFacts): (rs: seq<Reason>)
    ensures forall r :: r in rs <==> Fires(r, f)
    ensures StrictlyIncreasing(rs, ReasonRank)
    ensures forall i, j :: 0 <= i < j < |rs| ==> rs[i] != rs[j]
  {
    (if f.installmentToIncome > 0.35 then [InstallmentBurden] else [])
    + (if f.avgOverdueDays > 10.0 then [PaymentDelays] else [])
    + (if f.missedPayments > 2.0 then [MissedPayments] else [])
    + (if f.previousBnplLoans > 3.0 then [ManyPreviousLoans] else [])
  }

  /** Membership and order pin the reason list down: any list in checking order
      holding exactly the firing reasons is the one produced. */
  lemma FiringReasonsUnique(f: RiskFacts, rs: seq<Reason>)
    requires StrictlyIncreasing(rs, ReasonRank)
    requires forall r :: r in rs <==> Fires(r, f)
    ensures rs == FiringReasons(f)
  {
    SameMembersSameSequence(rs, FiringReasons(f), ReasonRank);
  }

  /** The explanation lines: the texts of the firing reasons, or the single
      no-risk-factors line when none fires; never empty. */
  function ReasonLines(f: RiskFacts): (lines: seq<string>)
    ensures |lines| > 0
    ensures lines == [NoMajorRiskFactors] <==> forall r :: !Fires(r, f)
    ensures (exists r :: Fires(r, f)) ==>
      var rs := FiringReasons(f);
      |lines| == |rs| && forall i :: 0 <= i < |rs| ==> lines[i] == ReasonText(rs[i])
  {
    var rs := FiringReasons(f);
    if |rs| > 0 then
      var lines := seq(|rs|, i requires 0 <= i < |rs| => ReasonText(rs[i]));
      assert lines[0] != NoMajorRiskFactors by {
        ReasonTextIsNotFallback(rs[0]);
      }
      assert Fires(rs[0], f);
      lines
    else
      [NoMajorRiskFactors]
  }

  /** Distinct reasons have distinct texts. */
  lemma ReasonTextInjective(r: Reason, r': Reason)
    ensures ReasonText(r) == ReasonText(r') ==> r == r'
  {
  }

  /** A reason's text is among the explanation lines exactly when its rule fires. */
  lemma ReasonLine(f: RiskFacts, r: Reason)
    ensures ReasonText(r) in ReasonLines(f) <==> Fires(r, f)
  {
    var lines := ReasonLines(f);
    var rs := FiringReasons(f);
    if ReasonText(r) in lines {
      ReasonTextIsNotFallback(r);
      assert lines != [NoMajorRiskFactors];
      var i :| 0 <= i < |lines| && lines[i] == ReasonText(r);
      ReasonTextInjective(rs[i], r);
    }
    if Fires(r, f) {
      var i :| 0 <= i < |rs| && rs[i] == r;
      assert lines[i] == ReasonText(r);
    }
  }

  /** Every reason at once: the explanation names exactly the firing reasons. */
  lemma ReasonLinesMembership(f: RiskFacts)
    ensures forall r :: ReasonText(r) in ReasonLines(f) <==> Fires(r, f)
  {
    forall r
      ensures ReasonText(r) in ReasonLines(f) <==> Fires(r, f)
    {
      ReasonLine(f, r);
    }
  }

  /** The installment reason's threshold lies above the installment condition's,
      so whenever the reason fires the condition is recommended too. */
  lemma InstallmentReasonImpliesCondition(f: RiskFacts, purchaseAmount: real, monthlyIncome: real)
    requires Fires(InstallmentBurden, f)
    ensures ReduceInstallments in ConditionList(f.installmentToIncome, purchaseAmount, monthlyIncome)
  {
  }
}
