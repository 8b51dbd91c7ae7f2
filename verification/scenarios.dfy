/** Worked examples of the rule engine, stated as lemmas over the model. */
module Scenarios {
  import opened Features
  import opened Decision
  import opened Attribution
  import opened Evaluation

  /** All four reasons fire and are listed in checking order. */
  lemma AllReasonsInOrder()
    ensures FiringReasons(RiskFacts(0.4, 15.0, 3.0, 5.0))
         == [InstallmentBurden, PaymentDelays, Reason.MissedPayments, ManyPreviousLoans]
  {
  }

  /** A salaried applicant with a clean record and a modest purchase: no reason
      fires, so the single no-risk-factors line is shown, and only the upfront
      payment is recommended. */
  lemma CleanApplicant(age: int, e: Employment)
    ensures var a := Applicant(age, 50000.0, 20000.0, 6, e, 0.0, 0.0, 0.0);
      && ReasonLines(FactsOf(a)) == [NoMajorRiskFactors]
      && ConditionList(DeriveRatios(a).installmentToIncome, a.purchaseAmount, a.monthlyIncome) == [UpfrontPayment]
  {
    var a := Applicant(age, 50000.0, 20000.0, 6, e, 0.0, 0.0, 0.0);
    var d := DeriveRatios(a);
    assert d.installmentAmount * 6.0 == 20000.0;
    assert d.installmentToIncome * 50000.0 == d.installmentAmount;
    assert FiringReasons(FactsOf(a)) == [];
  }

  /** A heavy purchase over three installments with a poor record: every reason
      fires, and both optional conditions are recommended. */
  lemma StretchedApplicant(age: int, e: Employment)
    ensures var a := Applicant(age, 50000.0, 90000.0, 3, e, 20.0, 5.0, 4.0);
      && FiringReasons(FactsOf(a)) == [InstallmentBurden, PaymentDelays, Reason.MissedPayments, ManyPreviousLoans]
      && ConditionList(DeriveRatios(a).installmentToIncome, a.purchaseAmount, a.monthlyIncome)
         == [ReduceInstallments, LowerPurchaseAmount, UpfrontPayment]
  {
    var a := Applicant(age, 50000.0, 90000.0, 3, e, 20.0, 5.0, 4.0);
    var d := DeriveRatios(a);
    assert d.installmentAmount * 3.0 == 90000.0;
    assert d.installmentToIncome * 50000.0 == d.installmentAmount;
    assert d.installmentToIncome == 0.6;
  }
}
