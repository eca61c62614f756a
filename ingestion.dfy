/**
 * The two deterministic pieces of the synthetic data generator
 * (src/components/data_ingestion.py): the label rule determine_loan_approval
 * and the missing-value injection, which may blank only the columns of its
 * configuration. The random draws that feed them are parameters.
 */
module Ingestion {
  import opened Wrappers
  import opened Schema

  // ---------------------------------------------------------------------
  // determine_loan_approval (lines 164-186)
  // ---------------------------------------------------------------------

  /** The columns of one generated applicant the label rule reads; credit score and work consistency are integers. */
  datatype LabelInputs = LabelInputs(
    creditScore: int,
    debtToIncomeRatio: real,
    savingsBalance: real,
    loanAmountRequested: real,
    customerFeedbackScore: real,
    workConsistency: int,
    loanCoapplicant: string)

  /** Python's all() over a list of flags. */
  function All(flags: seq<bool>): (b: bool)
    ensures b <==> forall k :: 0 <= k < |flags| ==> flags[k]
  {
    if |flags| == 0 then true else flags[0] && All(flags[1..])
  }

  /** The seven criteria of line 182, in their order. */
  function Criteria(a: LabelInputs): (flags: seq<bool>)
    ensures |flags| == 7
  {
    var critCredit := a.creditScore > 650;
    var critDti := a.debtToIncomeRatio < 0.4;
    var critSavings := a.savingsBalance > a.loanAmountRequested * 0.2;
    var critFeedback := a.customerFeedbackScore > 70.0;
    var critConsistency := a.workConsistency >= 3;
    var critMinCredit := a.creditScore >= 500;
    var critCoapplicant := if a.loanCoapplicant == "No" then a.creditScore > 700 else true;
    [critCredit, critDti, critSavings, critFeedback, critConsistency, critMinCredit, critCoapplicant]
  }

  /** The label: 1 when every criterion holds, 0 otherwise. */
  function DetermineLoanApproval(a: LabelInputs): (approved: int)
    ensures approved == 0 || approved == 1
  {
    if All(Criteria(a)) then 1 else 0
  }

  /** The five basic criteria of lines 166-170. */
  predicate BasicCriteria(a: LabelInputs)
  {
    && a.creditScore > 650
    && a.debtToIncomeRatio < 0.4
    && a.savingsBalance > a.loanAmountRequested * 0.2
    && a.customerFeedbackScore > 70.0
    && a.workConsistency >= 3
  }

  /**
   * An applicant is approved exactly when the five basic criteria hold and,
   * without a co-applicant, the credit score is above 700.
   */
  lemma ApprovalRule(a: LabelInputs)
    ensures DetermineLoanApproval(a) == 1 <==> BasicCriteria(a) && (a.loanCoapplicant == "No" ==> a.creditScore > 700)
  {
    var flags := Criteria(a);
    if BasicCriteria(a) && (a.loanCoapplicant == "No" ==> a.creditScore > 700) {
      forall k | 0 <= k < 7 ensures flags[k] {
      }
    } else if !BasicCriteria(a) {
      assert !flags[0] || !flags[1] || !flags[2] || !flags[3] || !flags[4];
    } else {
      assert !flags[6];
    }
  }

  /** Without a co-applicant an approval needs a credit score above 700. */
  lemma NoCoapplicantNeeds700(a: LabelInputs)
    requires a.loanCoapplicant == "No" && DetermineLoanApproval(a) == 1
    ensures a.creditScore > 700
  {
    ApprovalRule(a);
  }

  /** The rule with crit_min_credit left out of the list. */
  function WithoutMinCredit(a: LabelInputs): (approved: int)
    ensures approved == 0 || approved == 1
  {
    var flags := Criteria(a);
    if All(flags[..5] + flags[6..]) then 1 else 0
  }

  /** crit_min_credit (>= 500) follows from crit_credit (> 650): dropping it never changes a label. */
  lemma MinCreditRedundant(a: LabelInputs)
    ensures WithoutMinCredit(a) == DetermineLoanApproval(a)
  {
    var flags := Criteria(a);
    var rest := flags[..5] + flags[6..];
    if All(rest) {
      assert rest[0] && rest[5];
      forall k | 0 <= k < 7 ensures flags[k] {
        if k < 5 {
          assert flags[k] == rest[k];
        } else if k == 6 {
          assert flags[k] == rest[5];
        }
      }
    } else {
      var j :| 0 <= j < |rest| && !rest[j];
      assert !flags[if j < 5 then j else j + 1];
    }
  }

  /** Raising the credit score with every other input fixed never turns an approval into a rejection. */
  lemma MonotoneInCredit(a: LabelInputs, higher: int)
    requires a.creditScore <= higher
    requires DetermineLoanApproval(a) == 1
    ensures DetermineLoanApproval(a.(creditScore := higher)) == 1
  {
    ApprovalRule(a);
    ApprovalRule(a.(creditScore := higher));
  }

  // ---------------------------------------------------------------------
  // Missing-value injection (lines 232-244)
  // ---------------------------------------------------------------------

  /** The columns of missing_config. */
  datatype MissingColumn =
    | EducationLevelColumn | WorkExperienceColumn | MonthlyIncomeColumn | SavingsBalanceColumn
    | CreditScoreColumn | AvgMonthlyExpensesColumn | UrbanRuralColumn | FamilyDependentsColumn

  /** missing_config: each column with the fraction of rows it loses, in the order of the dictionary. */
  const MissingConfig: seq<(MissingColumn, real)> := [
    (EducationLevelColumn, 0.08), (WorkExperienceColumn, 0.08), (MonthlyIncomeColumn, 0.12),
    (SavingsBalanceColumn, 0.12), (CreditScoreColumn, 0.12), (AvgMonthlyExpensesColumn, 0.12),
    (UrbanRuralColumn, 0.05), (FamilyDependentsColumn, 0.03)]

  /** The cell of a missing_config column is NaN. */
  predicate IsNull(a: Applicant, c: MissingColumn)
  {
    match c
    case EducationLevelColumn => a.educationLevel.None?
    case WorkExperienceColumn => a.workExperience.None?
    case MonthlyIncomeColumn => a.monthlyIncome.None?
    case SavingsBalanceColumn => a.savingsBalance.None?
    case CreditScoreColumn => a.creditScore.None?
    case AvgMonthlyExpensesColumn => a.avgMonthlyExpenses.None?
    case UrbanRuralColumn => a.urbanRural.None?
    case FamilyDependentsColumn => a.familyDependents.None?
  }

  /** df.loc[row, col] = np.nan on one row. */
  function Nulled(a: Applicant, c: MissingColumn): Applicant
  {
    match c
    case EducationLevelColumn => a.(educationLevel := None)
    case WorkExperienceColumn => a.(workExperience := None)
    case MonthlyIncomeColumn => a.(monthlyIncome := None)
    case SavingsBalanceColumn => a.(savingsBalance := None)
    case CreditScoreColumn => a.(creditScore := None)
    case AvgMonthlyExpensesColumn => a.(avgMonthlyExpenses := None)
    case UrbanRuralColumn => a.(urbanRural := None)
    case FamilyDependentsColumn => a.(familyDependents := None)
  }

  /** A row with every missing_config cell blanked: what injection can never change. */
  function Fixed(a: Applicant): Applicant
  {
    a.(educationLevel := None, workExperience := None, monthlyIncome := None, savingsBalance := None,
       creditScore := None, avgMonthlyExpenses := None, urbanRural := None, familyDependents := None)
  }

  /** One pass of the loop: the sampled rows get a NaN in column c. */
  function NulledRows(df: seq<Applicant>, c: MissingColumn, sample: set<int>): (out: seq<Applicant>)
    ensures |out| == |df|
  {
    seq(|df|, i requires 0 <= i < |df| => if i in sample then Nulled(df[i], c) else df[i])
  }

  /**
   * The whole loop: the k-th column of missing_config blanked on the rows of
   * samples[k], the index labels df.sample(frac=ratio) drew for it.
   */
  function Injected(df: seq<Applicant>, samples: seq<set<int>>, n: nat): (out: seq<Applicant>)
    requires |samples| == |MissingConfig| && n <= |MissingConfig|
    ensures |out| == |df|
  {
    if n == 0 then df else NulledRows(Injected(df, samples, n - 1), MissingConfig[n - 1].0, samples[n - 1])
  }

  /** The loop of lines 243-244 over a frame held in an array. */
  method InjectMissing(frame: array<Applicant>, samples: seq<set<int>>)
    requires |samples| == |MissingConfig|
    modifies frame
    ensures frame[..] == Injected(old(frame[..]), samples, |MissingConfig|)
  {
    ghost var df := frame[..];
    for k := 0 to |MissingConfig|
      invariant frame[..] == Injected(df, samples, k)
    {
      var col := MissingConfig[k].0;
      for i := 0 to frame.Length
        invariant forall j :: 0 <= j < i ==> frame[j] == (if j in samples[k] then Nulled(Injected(df, samples, k)[j], col) else Injected(df, samples, k)[j])
        invariant forall j :: i <= j < frame.Length ==> frame[j] == Injected(df, samples, k)[j]
      {
        if i in samples[k] {
          frame[i] := Nulled(frame[i], col);
        }
      }
      assert frame[..] == Injected(df, samples, k + 1);
    }
  }

  lemma NulledFixed(a: Applicant, c: MissingColumn)
    ensures Fixed(Nulled(a, c)) == Fixed(a)
    ensures IsNull(Nulled(a, c), c)
    ensures forall d :: d != c ==> (IsNull(Nulled(a, c), d) <==> IsNull(a, d))
  {
  }

  /** Some pass among the first n blanked column c on row i. */
  predicate SampledFor(samples: seq<set<int>>, n: nat, c: MissingColumn, i: int)
    requires |samples| == |MissingConfig| && n <= |MissingConfig|
  {
    exists m :: 0 <= m < n && MissingConfig[m].0 == c && i in samples[m]
  }

  /**
   * Injection touches only the missing_config columns: every other cell of
   * every row, the label, the reason and the ratings string among them, is
   * kept, and a configured cell is NaN exactly when it already was or its
   * row was sampled for that column.
   */
  lemma {:induction false} InjectionOnlyConfigured(df: seq<Applicant>, samples: seq<set<int>>, n: nat)
    requires |samples| == |MissingConfig| && n <= |MissingConfig|
    ensures forall i :: 0 <= i < |df| ==> Fixed(Injected(df, samples, n)[i]) == Fixed(df[i])
    ensures forall i, c :: 0 <= i < |df| ==>
      (IsNull(Injected(df, samples, n)[i], c) <==> IsNull(df[i], c) || SampledFor(samples, n, c, i))
  {
    if n > 0 {
      InjectionOnlyConfigured(df, samples, n - 1);
      var prev := Injected(df, samples, n - 1);
      var out := Injected(df, samples, n);
      var col := MissingConfig[n - 1].0;
      forall i, c | 0 <= i < |df|
        ensures Fixed(out[i]) == Fixed(df[i])
        ensures IsNull(out[i], c) <==> IsNull(df[i], c) || SampledFor(samples, n, c, i)
      {
        NulledFixed(prev[i], col);
        if SampledFor(samples, n, c, i) && !SampledFor(samples, n - 1, c, i) {
          var m :| 0 <= m < n && MissingConfig[m].0 == c && i in samples[m];
          assert m == n - 1;
        }
      }
    }
  }

  /** After the whole loop the label, the reason and the ratings string of every row are the generated ones. */
  lemma InjectionKeepsLabels(df: seq<Applicant>, samples: seq<set<int>>)
    requires |samples| == |MissingConfig|
    ensures forall i :: 0 <= i < |df| ==>
      && Injected(df, samples, |MissingConfig|)[i].loanApproved == df[i].loanApproved
      && Injected(df, samples, |MissingConfig|)[i].reasonForLoan == df[i].reasonForLoan
      && Injected(df, samples, |MissingConfig|)[i].platformRatings == df[i].platformRatings
  {
    InjectionOnlyConfigured(df, samples, |MissingConfig|);
    forall i | 0 <= i < |df|
      ensures Injected(df, samples, |MissingConfig|)[i].loanApproved == df[i].loanApproved
    {
      assert Fixed(Injected(df, samples, |MissingConfig|)[i]).loanApproved == Fixed(df[i]).loanApproved;
    }
  }
}
