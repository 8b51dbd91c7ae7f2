/** One press of "Predict Risk" (app.py lines 37-144) as a pure function: the feature
    deriver, the two black boxes given as parameters, and the decision engine. */
module Evaluation {
  import opened Results
  import opened Features
  import opened Decision
  import opened Attribution

  /** Why a submission produced no explanation table. A declared column the
      record lacks stops the evaluation before anything is shown. An attribution
      list whose length differs from the column list is only noticed when the table
      is built, so the sections written before it are carried in `written`. */
  datatype EvaluationError =
    | SchemaMismatch(missing: seq<string>)
    | AttributionLengthMismatch(features: nat, values: nat, written: Assessment)

  /** Everything the result page shows for one applicant. */
  datatype Assessment = Assessment(
    probability: real,
    band: Band,
    conditions: ConditionsSection,
    reasons: seq<string>,
    explanation: seq<Row>)

  /** The values the reason rules read for an applicant. */
  function FactsOf(a: Applicant): (f: RiskFacts)
    requires ValidInstallments(a.installments)
    ensures f.installmentToIncome * SafeDenominator(a.monthlyIncome) * (a.installments as real) == a.purchaseAmount
    ensures f.avgOverdueDays == a.avgOverdueDays && f.missedPayments == a.missedPayments
    ensures f.previousBnplLoans == a.previousBnplLoans
  {
    var d := DeriveRatios(a);
    RiskFacts(d.installmentToIncome, a.avgOverdueDays, a.missedPayments, a.previousBnplLoans)
  }

  /** What the sections above the explanation table say for an applicant and a
      probability of default: the band and decision, the conditions header and
      lines, and the reason lines. */
  predicate SectionsFor(a: Applicant, p: real, page: Assessment)
    requires ValidInstallments(a.installments)
  {
    var f := FactsOf(a);
    var cs := ConditionList(f.installmentToIncome, a.purchaseAmount, a.monthlyIncome);
    && page.probability == p
    && (page.band == Band(LowRisk, Approve) <==> p < MediumFloor)
    && (page.band == Band(MediumRisk, ConditionalApproval) <==> MediumFloor <= p < HighFloor)
    && (page.band == Band(HighRisk, Reject) <==> HighFloor <= p)
    && (page.conditions.headed <==> MediumFloor <= p < HighFloor)
    && (ConditionText(ReduceInstallments) in page.conditions.lines <==>
        f.installmentToIncome > InstallmentConditionThreshold)
    && (ConditionText(LowerPurchaseAmount) in page.conditions.lines <==>
        a.purchaseAmount > a.monthlyIncome * PurchaseShareThreshold)
    && ConditionText(UpfrontPayment) in page.conditions.lines
    && |page.conditions.lines| == |cs|
    && (forall i :: 0 <= i < |cs| ==> page.conditions.lines[i] == ConditionText(cs[i]))
    && (forall r :: ReasonText(r) in page.reasons <==> Fires(r, f))
    && (page.reasons == [NoMajorRiskFactors] <==> forall r :: !Fires(r, f))
    && ((exists r :: Fires(r, f)) ==>
          var rs := FiringReasons(f);
          |page.reasons| == |rs| && forall i :: 0 <= i < |rs| ==> page.reasons[i] == ReasonText(rs[i]))
  }

  /** The sections written before the explanation table, with the table still
      empty. */
  function Judge(a: Applicant, p: real): (page: Assessment)
    requires ValidInstallments(a.installments)
    ensures SectionsFor(a, p, page)
    ensures page.explanation == []
  {
    var band := RiskBand(p);
    var f := FactsOf(a);
    ConditionLinesMembership(band, f.installmentToIncome, a.purchaseAmount, a.monthlyIncome);
    ReasonLinesMembership(f);
    Assessment(
      p,
      band,
      Conditions(band, f.installmentToIncome, a.purchaseAmount, a.monthlyIncome),
      ReasonLines(f),
      [])
  }

  /** The decision engine proper: the result page for a probability of default and
      attribution values aligned with the declared feature names. The table shows
      the largest attributions, each row at most as often as the labelled rows hold
      it. */
  function Decide(a: Applicant, p: real, featureNames: seq<string>, values: seq<real>): (page: Assessment)
    requires ValidInstallments(a.installments)
    requires |values| == |featureNames|
    ensures SectionsFor(a, p, page)
    ensures |page.explanation| == Min(ShownRows, |featureNames|)
    ensures ByMagnitude(page.explanation)
    ensures multiset(page.explanation) <= multiset(LabelRows(featureNames, values))
    ensures forall x, y ::
      (x in page.explanation && y in multiset(LabelRows(featureNames, values)) - multiset(page.explanation)
       ==> Abs(x.value) >= Abs(y.value))
  {
    Judge(a, p).(explanation := Explanation(featureNames, values))
  }

  /** Evaluates one submission. `scorer` stands for the classifier's probability of
      default and `explainer` for the attribution values, both applied to the
      derived feature vector. A declared column the record lacks stops the
      evaluation before the scorer is called. An attribution list whose length
      differs from the column list stops it at the table, after the other sections
      are written. */
  function Assess(a: Applicant, featureNames: seq<string>, scorer: seq<real> -> real, explainer: seq<real> -> seq<real>)
    : (r: Result<Assessment, EvaluationError>)
    requires ValidInstallments(a.installments)
    ensures (r.Failure? && r.error.SchemaMismatch?) <==>
      exists i :: 0 <= i < |featureNames| && ParseColumn(featureNames[i]).None?
    ensures r.Failure? && r.error.SchemaMismatch? ==>
      forall n :: n in r.error.missing <==> n in featureNames && ParseColumn(n).None?
    ensures r.Success? <==>
      (forall i :: 0 <= i < |featureNames| ==> ParseColumn(featureNames[i]).Some?)
      && |explainer(DeriveFeatures(a, featureNames).value)| == |featureNames|
    ensures r.Failure? && r.error.AttributionLengthMismatch? ==>
      var v := DeriveFeatures(a, featureNames).value;
      && r.error.features == |featureNames|
      && r.error.values == |explainer(v)|
      && r.error.values != r.error.features
      && r.error.written == Judge(a, scorer(v))
    ensures r.Success? ==>
      var v := DeriveFeatures(a, featureNames).value;
      |explainer(v)| == |featureNames| && r.value == Decide(a, scorer(v), featureNames, explainer(v))
  {
    match DeriveFeatures(a, featureNames)
    case Failure(e) => Failure(SchemaMismatch(e.names))
    case Success(v) =>
      var values := explainer(v);
      if |values| != |featureNames| then
        Failure(AttributionLengthMismatch(|featureNames|, |values|, Judge(a, scorer(v))))
      else
        Success(Decide(a, scorer(v), featureNames, values))
  }

  /** On the page: the reduce-installments line is written exactly when the
      installment-to-income ratio exceeds 0.30, and whenever the installment reason
      is given, the reduce-installments line is written too. */
  lemma InstallmentAdviceOnPage(a: Applicant, p: real, featureNames: seq<string>, values: seq<real>)
    requires ValidInstallments(a.installments)
    requires |values| == |featureNames|
    ensures var page := Decide(a, p, featureNames, values);
      && (ConditionText(ReduceInstallments) in page.conditions.lines
          <==> DeriveRatios(a).installmentToIncome > InstallmentConditionThreshold)
      && (ReasonText(InstallmentBurden) in page.reasons ==> ConditionText(ReduceInstallments) in page.conditions.lines)
  {
    var page := Decide(a, p, featureNames, values);
    var f := FactsOf(a);
    ReduceInstallmentsLine(page.band, f.installmentToIncome, a.purchaseAmount, a.monthlyIncome);
    ReasonLine(f, InstallmentBurden);
  }
}
