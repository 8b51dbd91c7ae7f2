/** The feature deriver: from the applicant's form values to the column vector the
    scorer expects (app.py lines 38-68). */
module Features {
  import opened Results

  /** The three choices of the employment select box. */
  datatype Employment = Salaried | SelfEmployed | Unemployed

  /** One applicant's raw form values. Age and the installment count come from
      bounded widgets; the other number inputs accept any value. */
  datatype Applicant = Applicant(
    age: int,
    monthlyIncome: real,
    purchaseAmount: real,
    installments: int,
    employment: Employment,
    avgOverdueDays: real,
    missedPayments: real,
    previousBnplLoans: real)

  /** The installment counts the select box offers. */
  predicate ValidInstallments(n: int) {
    n == 3 || n == 6 || n == 9 || n == 12
  }

  /** The floor that keeps the income and purchase denominators away from zero. */
  const EPS: real := 0.000001

  /** One-hot employment columns; Salaried is the baseline with both flags 0. */
  datatype EmploymentFlags = EmploymentFlags(selfEmployed: real, unemployed: real)

  /** Reads an employment status back from its flags; `None` for a pair that no
      status produces. */
  function EmploymentOf(f: EmploymentFlags): Option<Employment> {
    if f == EmploymentFlags(0.0, 0.0) then Some(Salaried)
    else if f == EmploymentFlags(1.0, 0.0) then Some(SelfEmployed)
    else if f == EmploymentFlags(0.0, 1.0) then Some(Unemployed)
    else None
  }

  /** The one-hot encoding: each flag is 0 or 1, at most one is set, both are
      clear exactly for Salaried, and the status can be read back. */
  function Flags(e: Employment): (f: EmploymentFlags)
    ensures f.selfEmployed in {0.0, 1.0} && f.unemployed in {0.0, 1.0}
    ensures f.selfEmployed + f.unemployed <= 1.0
    ensures (f.selfEmployed == 0.0 && f.unemployed == 0.0) <==> e == Salaried
    ensures EmploymentOf(f) == Some(e)
  {
    EmploymentFlags(
      if e == SelfEmployed then 1.0 else 0.0,
      if e == Unemployed then 1.0 else 0.0)
  }

  /** Every flag pair that reads back as a status is that status's encoding. */
  lemma FlagsDecodeOnlyEncodings(f: EmploymentFlags, e: Employment)
    requires EmploymentOf(f) == Some(e)
    ensures Flags(e) == f
  {
  }

  /** `max(x, EPS)`: never below EPS, and the raw value itself once it reaches EPS. */
  function SafeDenominator(x: real): (r: real)
    ensures r >= EPS && r > 0.0
    ensures r >= x
    ensures r == x || r == EPS
    ensures x >= EPS ==> r == x
  {
    if x >= EPS then x else EPS
  }

  /** The four derived ratios. */
  datatype Ratios = Ratios(
    incomePurchaseRatio: real,
    installmentAmount: real,
    installmentToIncome: real,
    paymentRiskScore: real)

  /** Derives the ratios. The two divisions by guarded denominators are well
      defined for every income and purchase amount, zero and negative included. */
  function DeriveRatios(a: Applicant): (d: Ratios)
    requires ValidInstallments(a.installments)
    ensures d.incomePurchaseRatio > 0.0
    ensures d.incomePurchaseRatio * SafeDenominator(a.purchaseAmount) == SafeDenominator(a.monthlyIncome)
    ensures d.installmentAmount * (a.installments as real) == a.purchaseAmount
    ensures d.installmentToIncome * SafeDenominator(a.monthlyIncome) == d.installmentAmount
    ensures 5.0 * d.paymentRiskScore == 3.0 * a.avgOverdueDays + 2.0 * a.missedPayments
    ensures a.purchaseAmount >= 0.0 ==> d.installmentAmount >= 0.0 && d.installmentToIncome >= 0.0
  {
    var safePurchase := SafeDenominator(a.purchaseAmount);
    var safeIncome := SafeDenominator(a.monthlyIncome);
    var installmentAmount := a.purchaseAmount / (a.installments as real);
    Ratios(
      safeIncome / safePurchase,
      installmentAmount,
      installmentAmount / safeIncome,
      0.6 * a.avgOverdueDays + 0.4 * a.missedPayments)
  }

  /** The thirteen columns of the assembled record. */
  datatype Feature =
    | Age
    | MonthlyIncome
    | PurchaseAmount
    | Installments
    | PreviousBnplLoans
    | AvgOverdueDays
    | MissedPayments
    | EmploymentSelfEmployed
    | EmploymentUnemployed
    | IncomePurchaseRatio
    | InstallmentAmount
    | InstallmentToIncome
    | PaymentRiskScore

  const AllFeatures: set<Feature> := {
    Age, MonthlyIncome, PurchaseAmount, Installments, PreviousBnplLoans,
    AvgOverdueDays, MissedPayments, EmploymentSelfEmployed, EmploymentUnemployed,
    IncomePurchaseRatio, InstallmentAmount, InstallmentToIncome, PaymentRiskScore }

  lemma AllFeaturesComplete()
    ensures forall f :: f in AllFeatures
  {
    forall f
      ensures f in AllFeatures
    {
      match f
      case Age =>
      case MonthlyIncome =>
      case PurchaseAmount =>
      case Installments =>
      case PreviousBnplLoans =>
      case AvgOverdueDays =>
      case MissedPayments =>
      case EmploymentSelfEmployed =>
      case EmploymentUnemployed =>
      case IncomePurchaseRatio =>
      case InstallmentAmount =>
      case InstallmentToIncome =>
      case PaymentRiskScore =>
    }
  }

  /** The column name of each feature in the record. */
  function ColumnName(f: Feature): string {
    match f
    case Age => "age"
    case MonthlyIncome => "monthly_income"
    case PurchaseAmount => "purchase_amount"
    case Installments => "installments"
    case PreviousBnplLoans => "previous_bnpl_loans"
    case AvgOverdueDays => "avg_overdue_days"
    case MissedPayments => "missed_payments"
    case EmploymentSelfEmployed => "employment_status_Self-Employed"
    case EmploymentUnemployed => "employment_status_Unemployed"
    case IncomePurchaseRatio => "income_purchase_ratio"
    case InstallmentAmount => "installment_amount"
    case InstallmentToIncome => "installment_to_income"
    case PaymentRiskScore => "payment_risk_score"
  }

  /** The feature a column name denotes, if any: the inverse of `ColumnName`. */
  function ParseColumn(name: string): (r: Option<Feature>)
    ensures r.Some? ==> ColumnName(r.value) == name
    ensures r.None? ==> forall f :: ColumnName(f) != name
  {
    if name == "age" then Some(Age)
    else if name == "monthly_income" then Some(MonthlyIncome)
    else if name == "purchase_amount" then Some(PurchaseAmount)
    else if name == "installments" then Some(Installments)
    else if name == "previous_bnpl_loans" then Some(PreviousBnplLoans)
    else if name == "avg_overdue_days" then Some(AvgOverdueDays)
    else if name == "missed_payments" then Some(MissedPayments)
    else if name == "employment_status_Self-Employed" then Some(EmploymentSelfEmployed)
    else if name == "employment_status_Unemployed" then Some(EmploymentUnemployed)
    else if name == "income_purchase_ratio" then Some(IncomePurchaseRatio)
    else if name == "installment_amount" then Some(InstallmentAmount)
    else if name == "installment_to_income" then Some(InstallmentToIncome)
    else if name == "payment_risk_score" then Some(PaymentRiskScore)
    else None
  }

  /** Parsing a feature's own column name gives the feature back, so the thirteen
      column names are pairwise distinct. */
  lemma ColumnNameRoundTrip(f: Feature)
    ensures ParseColumn(ColumnName(f)) == Some(f)
  {
  }

  lemma ColumnNamesDistinct()
    ensures forall f, g :: ColumnName(f) == ColumnName(g) ==> f == g
  {
    forall f, g | ColumnName(f) == ColumnName(g)
      ensures f == g
    {
      ColumnNameRoundTrip(f);
      ColumnNameRoundTrip(g);
    }
  }

  /** The value a feature takes for an applicant. */
  function FeatureValue(a: Applicant, f: Feature): real
    requires ValidInstallments(a.installments)
  {
    var flags := Flags(a.employment);
    var d := DeriveRatios(a);
    match f
    case Age => a.age as real
    case MonthlyIncome => a.monthlyIncome
    case PurchaseAmount => a.purchaseAmount
    case Installments => a.installments as real
    case PreviousBnplLoans => a.previousBnplLoans
    case AvgOverdueDays => a.avgOverdueDays
    case MissedPayments => a.missedPayments
    case EmploymentSelfEmployed => flags.selfEmployed
    case EmploymentUnemployed => flags.unemployed
    case IncomePurchaseRatio => d.incomePurchaseRatio
    case InstallmentAmount => d.installmentAmount
    case InstallmentToIncome => d.installmentToIncome
    case PaymentRiskScore => d.paymentRiskScore
  }

  /** The one-row record of all thirteen columns, keyed by column name. */
  function Assemble(a: Applicant): map<string, real>
    requires ValidInstallments(a.installments)
  {
    ColumnNamesDistinct();
    map f | f in AllFeatures :: ColumnName(f) := FeatureValue(a, f)
  }

  /** Each column name is a key of the record and holds its feature's value. */
  lemma AssembledColumn(a: Applicant, f: Feature)
    requires ValidInstallments(a.installments)
    ensures ColumnName(f) in Assemble(a) && Assemble(a)[ColumnName(f)] == FeatureValue(a, f)
  {
    AllFeaturesComplete();
    ColumnNamesDistinct();
  }

  /** Each key of the record is one of the column names. */
  lemma AssembledKey(a: Applicant, k: string)
    requires ValidInstallments(a.installments)
    requires k in Assemble(a)
    ensures ParseColumn(k).Some?
  {
    var f :| f in AllFeatures && ColumnName(f) == k;
    ColumnNameRoundTrip(f);
  }

  /** The record's keys are exactly the thirteen column names, and each holds its
      feature's value. */
  lemma AssembledRecord(a: Applicant)
    requires ValidInstallments(a.installments)
    ensures forall f :: ColumnName(f) in Assemble(a) && Assemble(a)[ColumnName(f)] == FeatureValue(a, f)
    ensures forall k :: k in Assemble(a) <==> ParseColumn(k).Some?
  {
    forall f
      ensures ColumnName(f) in Assemble(a) && Assemble(a)[ColumnName(f)] == FeatureValue(a, f)
    {
      AssembledColumn(a, f);
    }
    forall k
      ensures k in Assemble(a) <==> ParseColumn(k).Some?
    {
      if k in Assemble(a) {
        AssembledKey(a, k);
      }
      if ParseColumn(k).Some? {
        AssembledColumn(a, ParseColumn(k).value);
      }
    }
  }

  /** Why column selection failed: the requested names missing from the record. */
  datatype SchemaError = MissingColumns(names: seq<string>)

  /** `record[names]`: one value per requested name, in request order, or the
      list of requested names the record lacks. */
  function SelectColumns(record: map<string, real>, names: seq<string>): (r: Result<seq<real>, SchemaError>)
    ensures r.Success? <==> forall i :: 0 <= i < |names| ==> names[i] in record
    ensures r.Success? ==> |r.value| == |names|
    ensures r.Success? ==> forall i :: 0 <= i < |names| ==> r.value[i] == record[names[i]]
    ensures r.Failure? ==> forall n :: n in r.error.names <==> n in names && n !in record
  {
    if |names| == 0 then Success([])
    else
      var rest := SelectColumns(record, names[1..]);
      if names[0] in record then
        match rest
        case Success(values) => Success([record[names[0]]] + values)
        case Failure(e) => Failure(e)
      else
        var missing := if rest.Failure? then rest.error.names else [];
        Failure(MissingColumns([names[0]] + missing))
  }

  /** The feature vector for the scorer's declared column names: it exists exactly
      when every declared name is one of the thirteen columns, and then holds each
      column's value in declared order. */
  function DeriveFeatures(a: Applicant, featureNames: seq<string>): (r: Result<seq<real>, SchemaError>)
    requires ValidInstallments(a.installments)
    ensures r.Success? <==> forall i :: 0 <= i < |featureNames| ==> ParseColumn(featureNames[i]).Some?
    ensures r.Success? ==> |r.value| == |featureNames|
    ensures r.Success? ==> forall i :: 0 <= i < |featureNames| ==>
      r.value[i] == FeatureValue(a, ParseColumn(featureNames[i]).value)
    ensures r.Failure? ==> forall n :: n in r.error.names <==> n in featureNames && ParseColumn(n).None?
  {
    AssembledRecord(a);
    SelectColumns(Assemble(a), featureNames)
  }
}
