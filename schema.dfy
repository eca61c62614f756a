/**
 * The records the preprocessing code works on, the category maps it applies
 * and the column lists it produces.
 *
 * A pandas frame is modelled as a sequence of typed records; a cell that can
 * be NaN is an Option. Applicant is one row of the generated CSV, Application
 * one row built by the web form, FeatureRow one row of the feature matrix X
 * that both paths hand to the model.
 */
module Schema {
  import opened Wrappers
  import opened Text

  /** The numeric columns neither path changes; they pass from input to X as they are. */
  datatype Untouched = Untouched(
    age: real,
    seasonalVariation: real,
    incomeVolatility: real,
    debtToIncomeRatio: real,
    transactionFrequency: real,
    creditCardUtilization: real,
    subscriptionServices: real,
    financialEmergenciesLastYear: real,
    inflationRate: real,
    customerFeedbackScore: real,
    workConsistency: real,
    avgPlatformTenure: real,
    costOfLivingIndex: real)

  /**
   * One row of the generated data set. Exactly the eight columns of the
   * generator's missing-value configuration are optional.
   */
  datatype Applicant = Applicant(
    applicantId: int,
    educationLevel: Option<string>,
    gigPlatforms: string,
    numPlatforms: real,
    workExperience: Option<real>,
    monthlyIncome: Option<real>,
    savingsBalance: Option<real>,
    creditScore: Option<real>,
    existingLoans: real,
    loanAmountRequested: real,
    avgMonthlyExpenses: Option<real>,
    reasonForLoan: string,
    platformRatings: string,
    penalties: real,
    alternativeIncomeSource: string,
    loanCoapplicant: string,
    location: string,
    urbanRural: Option<string>,
    familyDependents: Option<int>,
    loanApproved: int,
    untouched: Untouched)

  /** One row submitted for prediction: every field is present, there is no label. */
  datatype Application = Application(
    educationLevel: string,
    numPlatforms: real,
    workExperience: real,
    monthlyIncome: real,
    savingsBalance: real,
    creditScore: real,
    existingLoans: real,
    loanAmountRequested: real,
    avgMonthlyExpenses: real,
    penalties: real,
    alternativeIncomeSource: string,
    loanCoapplicant: string,
    urbanRural: string,
    familyDependents: int,
    reasonForLoan: string,
    platformRatings: string,
    untouched: Untouched)

  /**
   * One row of X. reasonDummies holds the reason_for_loan_<r> columns in
   * order; extraRatings holds the rating columns 3, 4, ... that the training
   * path leaves behind (a one-pair dictionary, or None for an empty cell).
   */
  datatype FeatureRow = FeatureRow(
    educationLevel: int,
    numPlatforms: real,
    workExperience: Option<real>,
    monthlyIncome: Option<real>,
    savingsBalance: Option<real>,
    creditScore: Option<real>,
    existingLoans: real,
    loanAmountRequested: real,
    avgMonthlyExpenses: Option<real>,
    penalties: real,
    alternativeIncomeSource: int,
    loanCoapplicant: real,
    urbanRural: int,
    familyDependents: int,
    reasonDummies: seq<int>,
    extraRatings: seq<Option<(string, string)>>,
    avgPlatformRating: real,
    untouched: Untouched)

  /** The exceptions the preprocessing code raises, each wrapped in a CustomException. */
  datatype PreprocessError =
    | EmptyColumnMode(column: string)   // mode()[0] of a column without any value: KeyError
    | MalformedRatingItem               // dict([x.split(':')]) of an item without exactly one ':'
    | TooFewRatingColumns               // selecting rating columns 0, 1, 2 when no row has three items
    | UnparseableRating                 // float() of a rating value
    | NanToInt(column: string)          // astype(int) of a column holding an unmapped value
    | EmptyInput                        // iloc[0] of a frame without rows
    | TransformerNotFound               // no saved PowerTransformer
    | ResamplingFailed                  // SMOTE refused the training set

  /** The fixed reason vocabulary of the prediction path. */
  const ReasonsForLoan: seq<string> :=
    ["Debt Consolidation", "Education", "Home Renovation", "Medical Emergency", "Other", "Vehicle Purchase"]

  /** The reasons the data generator draws from. */
  const GeneratedReasons: seq<string> :=
    ["Vehicle Purchase", "Medical Emergency", "Education", "Home Renovation", "Debt Consolidation",
     "Business Expansion", "Other"]

  /** Category labels listed by their code. */
  const EducationLevels: seq<string> := ["High School", "Graduate", "Postgraduate"]
  const UrbanRuralLabels: seq<string> := ["Rural", "Urban"]
  const YesNoLabels: seq<string> := ["No", "Yes"]

  /** The map {'High School': 0, 'Graduate': 1, 'Postgraduate': 2}; None is the NaN map() gives any other value. */
  function EducationCode(s: string): (c: Option<int>)
    ensures c.Some? <==> s in EducationLevels
    ensures c.Some? ==> 0 <= c.value < |EducationLevels| && EducationLevels[c.value] == s
  {
    if s == "High School" then Some(0)
    else if s == "Graduate" then Some(1)
    else if s == "Postgraduate" then Some(2)
    else None
  }

  /** The map {'Urban': 1, 'Rural': 0}. */
  function UrbanCode(s: string): (c: Option<int>)
    ensures c.Some? <==> s in UrbanRuralLabels
    ensures c.Some? ==> 0 <= c.value < |UrbanRuralLabels| && UrbanRuralLabels[c.value] == s
  {
    if s == "Urban" then Some(1)
    else if s == "Rural" then Some(0)
    else None
  }

  /** The map {'Yes': 1, 'No': 0}. */
  function YesNoCode(s: string): (c: Option<int>)
    ensures c.Some? <==> s in YesNoLabels
    ensures c.Some? ==> 0 <= c.value < |YesNoLabels| && YesNoLabels[c.value] == s
  {
    if s == "Yes" then Some(1)
    else if s == "No" then Some(0)
    else None
  }

  /** Every label of a map gets its own code back. */
  lemma CodesRoundTrip()
    ensures forall i :: 0 <= i < |EducationLevels| ==> EducationCode(EducationLevels[i]) == Some(i)
    ensures forall i :: 0 <= i < |UrbanRuralLabels| ==> UrbanCode(UrbanRuralLabels[i]) == Some(i)
    ensures forall i :: 0 <= i < |YesNoLabels| ==> YesNoCode(YesNoLabels[i]) == Some(i)
  {
  }

  /** The one-hot cells of a row: 1 in the column of its own value, 0 elsewhere. */
  function Indicator(vocab: seq<string>, v: string): (cells: seq<int>)
    ensures |cells| == |vocab|
    ensures forall k :: 0 <= k < |vocab| ==> (cells[k] == 1 <==> vocab[k] == v) && (cells[k] == 0 <==> vocab[k] != v)
  {
    seq(|vocab|, k requires 0 <= k < |vocab| => if vocab[k] == v then 1 else 0)
  }

  /** The columns of X both paths share, in the order of the input frame. */
  const BaseColumns: seq<string> := [
    "age", "education_level", "num_platforms", "work_experience", "monthly_income",
    "seasonal_variation", "income_volatility", "savings_balance", "debt_to_income_ratio",
    "credit_score", "existing_loans", "loan_amount_requested", "transaction_frequency",
    "avg_monthly_expenses", "credit_card_utilization", "subscription_services",
    "financial_emergencies_last_year", "inflation_rate", "customer_feedback_score",
    "work_consistency", "penalties", "alternative_income_source", "loan_coapplicant",
    "urban_rural", "avg_platform_tenure", "family_dependents", "cost_of_living_index"]

  const DummyPrefix: string := "reason_for_loan_"

  function DummyColumns(vocab: seq<string>): (cols: seq<string>)
    ensures |cols| == |vocab|
    ensures forall k :: 0 <= k < |vocab| ==> cols[k] == DummyPrefix + vocab[k]
  {
    seq(|vocab|, k requires 0 <= k < |vocab| => DummyPrefix + vocab[k])
  }

  /** The names pandas gives the rating columns left over after 0, 1 and 2: 3, 4, ... */
  function ExtraColumns(extras: nat): (cols: seq<string>)
    ensures |cols| == extras
    ensures forall k :: 0 <= k < extras ==> cols[k] == NatToString(k + 3)
  {
    seq(extras, k requires 0 <= k < extras => NatToString(k + 3))
  }

  /** The columns of X after training preprocessing. */
  function TrainingColumns(vocab: seq<string>, extras: nat): seq<string>
  {
    BaseColumns + DummyColumns(vocab) + ExtraColumns(extras) + ["avg_platform_rating"]
  }

  /** The columns of the frame the prediction path returns. */
  function PredictionColumns(): seq<string>
  {
    BaseColumns + DummyColumns(ReasonsForLoan) + ["avg_platform_rating"]
  }

  /** With fewer than six reasons the column after the dummies differs in its first letter. */
  lemma ShortVocabularyDiffers(vocab: seq<string>, extras: nat)
    requires |vocab| < |ReasonsForLoan|
    ensures TrainingColumns(vocab, extras) != PredictionColumns()
  {
    var t := TrainingColumns(vocab, extras);
    var p := PredictionColumns();
    var at := |BaseColumns| + |vocab|;
    if |t| == |p| {
      assert extras > 0;
      assert p[at] == DummyPrefix + ReasonsForLoan[|vocab|];
      assert p[at][0] == 'r';
      assert t[at] == ExtraColumns(extras)[0] == NatToString(3);
      assert IsDigit(t[at][0]);
      assert t[at] != p[at];
    }
  }

  /**
   * The frame built for prediction has exactly the training columns, in the
   * same order, if and only if the training reasons (after the dropped first
   * one) are the fixed six and no row had more than three ratings.
   */
  lemma {:induction false} ColumnParity(vocab: seq<string>, extras: nat)
    ensures TrainingColumns(vocab, extras) == PredictionColumns() <==> vocab == ReasonsForLoan && extras == 0
  {
    var t := TrainingColumns(vocab, extras);
    var p := PredictionColumns();
    var b := |BaseColumns|;
    assert ExtraColumns(0) == [];
    if |vocab| < |ReasonsForLoan| {
      ShortVocabularyDiffers(vocab, extras);
    } else if t == p {
      assert |vocab| == 6 && extras == 0;
      forall k | 0 <= k < 6 ensures vocab[k] == ReasonsForLoan[k] {
        assert t[b + k] == DummyPrefix + vocab[k];
        assert p[b + k] == DummyPrefix + ReasonsForLoan[k];
        assert vocab[k] == t[b + k][|DummyPrefix|..];
      }
    }
  }
}
