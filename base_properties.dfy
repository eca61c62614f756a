/**
 * What _base_preprocessing guarantees about the rows it produces: the
 * fraud rule, the group-wise imputation, the first-time-applicant sentinel,
 * the order of the recombined frame, the category fills and the dummy
 * vocabulary.
 */
module BaseProperties {
  import opened Wrappers
  import opened Text
  import opened Stats
  import opened Schema
  import opened Frames
  import opened Preprocessing

  // ---------------------------------------------------------------------
  // The dummy vocabulary
  // ---------------------------------------------------------------------

  /** Python's string order is a strict total order. */
  lemma LexLessIsOrder()
    ensures StrictTotalOrder(LexLess)
  {
    forall a: string ensures !LexLess(a, a) {
      LexLessIrreflexive(a);
    }
    forall a: string, b: string, c: string | LexLess(a, b) && LexLess(b, c) ensures LexLess(a, c) {
      LexLessTransitive(a, b, c);
    }
    forall a: string, b: string ensures a == b || LexLess(a, b) || LexLess(b, a) {
      LexLessTotal(a, b);
    }
  }

  /** r is the smallest reason of the frame. */
  predicate IsLeastReason(df: seq<Applicant>, r: string)
  {
    forall j :: 0 <= j < |df| ==> r == df[j].reasonForLoan || LexLess(r, df[j].reasonForLoan)
  }

  /**
   * The dummy columns are sorted and come from the frame's reasons; a row's
   * reason has no column of its own exactly when it is the smallest reason
   * (the category drop_first removes).
   */
  lemma {:induction false} VocabularyFacts(df: seq<Applicant>)
    ensures StrictlySorted(DummyVocab(df), LexLess)
    ensures forall v :: v in DummyVocab(df) ==> v in Reasons(df)
    ensures forall i :: 0 <= i < |df| ==> (df[i].reasonForLoan !in DummyVocab(df) <==> IsLeastReason(df, df[i].reasonForLoan))
  {
    LexLessIsOrder();
    var rs := Reasons(df);
    var cats := SortedDistinct(rs, LexLess);
    SortedDistinctSorted(rs, LexLess);
    var vocab := DummyVocab(df);
    forall i | 0 <= i < |df|
      ensures df[i].reasonForLoan !in vocab <==> IsLeastReason(df, df[i].reasonForLoan)
    {
      var r := df[i].reasonForLoan;
      assert r in rs;
      assert r in cats;
      var p :| 0 <= p < |cats| && cats[p] == r;
      if p == 0 {
        forall j | 0 <= j < |df| ensures r == df[j].reasonForLoan || LexLess(r, df[j].reasonForLoan) {
          assert df[j].reasonForLoan in rs;
          var q :| 0 <= q < |cats| && cats[q] == df[j].reasonForLoan;
          assert q == 0 || LexLess(cats[0], cats[q]);
        }
        forall q | 1 <= q < |cats| ensures cats[q] != r {
          assert LexLess(cats[0], cats[q]);
          LexLessIrreflexive(r);
        }
        assert r !in vocab;
      } else {
        assert vocab[p - 1] == r;
        assert LexLess(cats[0], r);
        assert cats[0] in rs;
        var j :| 0 <= j < |df| && df[j].reasonForLoan == cats[0];
        LexLessIrreflexive(r);
        assert !IsLeastReason(df, r);
      }
    }
  }

  /** The reasons the generator draws, in LexLess order. */
  const SortedGeneratedReasons: seq<string> := ["Business Expansion"] + ReasonsForLoan

  lemma SortedGeneratedReasonsSorted()
    ensures StrictlySorted(SortedGeneratedReasons, LexLess)
  {
    var s := SortedGeneratedReasons;
    assert s == ["Business Expansion", "Debt Consolidation", "Education", "Home Renovation",
                 "Medical Emergency", "Other", "Vehicle Purchase"];
    forall k | 0 <= k < |s| - 1 ensures LexLess(s[k], s[k + 1]) {
      assert s[k][0] < s[k + 1][0];
    }
    ChainSorted(s);
  }

  /** A list whose neighbours are in LexLess order is sorted. */
  lemma ChainSorted(s: seq<string>)
    requires forall k :: 0 <= k < |s| - 1 ==> LexLess(s[k], s[k + 1])
    ensures StrictlySorted(s, LexLess)
  {
    forall i, j | 0 <= i < j < |s| ensures LexLess(s[i], s[j]) {
      ChainLess(s, i, j);
    }
  }

  lemma {:induction false} ChainLess(s: seq<string>, i: int, j: int)
    requires forall k :: 0 <= k < |s| - 1 ==> LexLess(s[k], s[k + 1])
    requires 0 <= i < j < |s|
    ensures LexLess(s[i], s[j])
    decreases j - i
  {
    if i + 1 < j {
      ChainLess(s, i + 1, j);
      LexLessTransitive(s[i], s[i + 1], s[j]);
    }
  }

  /**
   * On data drawn from the generator's seven reasons, the training dummies
   * are exactly the six columns the prediction path builds, in the same
   * order: "Business Expansion" is the one drop_first removes.
   */
  lemma GeneratorVocabulary(df: seq<Applicant>)
    requires forall i :: 0 <= i < |df| ==> df[i].reasonForLoan in GeneratedReasons
    requires forall r :: r in GeneratedReasons ==> exists i :: 0 <= i < |df| && df[i].reasonForLoan == r
    ensures DummyVocab(df) == ReasonsForLoan
  {
    LexLessIsOrder();
    var rs := Reasons(df);
    var cats := SortedDistinct(rs, LexLess);
    SortedDistinctSorted(rs, LexLess);
    SortedGeneratedReasonsSorted();
    forall y ensures y in cats <==> y in SortedGeneratedReasons {
      if y in SortedGeneratedReasons {
        assert y in GeneratedReasons;
        var i :| 0 <= i < |df| && df[i].reasonForLoan == y;
        assert rs[i] == y;
      }
      if y in cats {
        var i :| 0 <= i < |rs| && rs[i] == y;
        assert y in GeneratedReasons;
      }
    }
    StrictlySortedUnique(cats, SortedGeneratedReasons, LexLess);
  }

  // ---------------------------------------------------------------------
  // The fraud rule (lines 55-56)
  // ---------------------------------------------------------------------

  /** fraud_flag is 1 on a row exactly when its fraud condition holds, and 0 otherwise. */
  predicate FlagsAgree(s: seq<Row>)
  {
    forall k :: 0 <= k < |s| ==> (s[k].fraudFlag == 1 <==> IsFraud(s[k].rec)) && (s[k].fraudFlag == 0 <==> !IsFraud(s[k].rec))
  }

  /**
   * fraud_flag is 1 exactly on the rows with work_experience 0 and no
   * monthly_income; those rows have loan_approved 0; nothing else in the
   * record changes.
   */
  lemma FraudRule(df: seq<Applicant>, vocab: seq<string>)
    ensures |FraudMarked(Dummied(df, vocab))| == |df|
    ensures forall i :: 0 <= i < |df| ==>
      var r := FraudMarked(Dummied(df, vocab))[i];
      && (r.fraudFlag == 1 <==> IsFraud(df[i]))
      && (r.fraudFlag == 0 <==> !IsFraud(df[i]))
      && r.rec == (if IsFraud(df[i]) then df[i].(loanApproved := 0) else df[i])
      && r.dummies == Indicator(vocab, df[i].reasonForLoan)
    ensures FlagsAgree(FraudMarked(Dummied(df, vocab)))
  {
  }

  /** A row of Where(s, f) is a row of s with flag f, and every such row is kept. */
  lemma {:induction false} WhereMembers(s: seq<Row>, f: int, r: Row)
    ensures r in Where(s, f) <==> r in s && r.fraudFlag == f
  {
    if |s| > 0 {
      var t := s[..|s| - 1];
      WhereMembers(t, f, r);
      assert s == t + [s[|s| - 1]];
    }
  }

  lemma WhereAgrees(s: seq<Row>, f: int)
    requires FlagsAgree(s)
    ensures FlagsAgree(Where(s, f))
  {
    forall k | 0 <= k < |Where(s, f)|
      ensures (Where(s, f)[k].fraudFlag == 1 <==> IsFraud(Where(s, f)[k].rec))
      ensures (Where(s, f)[k].fraudFlag == 0 <==> !IsFraud(Where(s, f)[k].rec))
    {
      WhereMembers(s, f, Where(s, f)[k]);
    }
  }

  // ---------------------------------------------------------------------
  // Imputation by group (lines 58-66)
  // ---------------------------------------------------------------------

  /** Every fraud row gets monthly_income 0 and keeps work_experience 0. */
  lemma FraudImputation(fraud: seq<Row>)
    requires FlagsAgree(fraud)
    requires forall k :: 0 <= k < |fraud| ==> fraud[k].fraudFlag == 1
    ensures |FraudImputed(fraud)| == |fraud|
    ensures forall k :: 0 <= k < |fraud| ==>
      && FraudImputed(fraud)[k].rec == fraud[k].rec.(monthlyIncome := Some(0.0))
      && FraudImputed(fraud)[k].rec.workExperience == Some(0.0)
      && FraudImputed(fraud)[k].fraudFlag == 1
  {
  }

  /** The median the zero-experience replacement uses: the experience median after the gaps are filled. */
  function ZeroWorkMedian(nonFraud: seq<Row>): Option<real>
  {
    Median(Present(FillMedian(WorkExperience, FillMedian(MonthlyIncome, nonFraud)), WorkExperience))
  }

  /**
   * A row with the cells imputation may write blanked out: what every
   * statement after the fraud rule leaves alone (the label, the reason
   * dummies, fraud_flag, the ratings and every other column).
   */
  function Kept(r: Row): Row
  {
    r.(rec := r.rec.(educationLevel := None, workExperience := None, monthlyIncome := None, savingsBalance := None,
                     creditScore := None, avgMonthlyExpenses := None, urbanRural := None, familyDependents := None),
       firstTimeApplicant := 0)
  }

  /** Every statement after the fraud rule keeps Kept. */
  lemma KeptStep(st: Step, r: Row)
    requires !st.ZeroFraudLabels? && !st.MarkFraud?
    ensures Kept(ApplyStep(st, r)) == Kept(r)
  {
  }

  lemma KeptAll(st: Step, s: seq<Row>)
    requires !st.ZeroFraudLabels? && !st.MarkFraud?
    ensures |ApplyAll(st, s)| == |s|
    ensures forall k :: 0 <= k < |s| ==> Kept(ApplyAll(st, s)[k]) == Kept(s[k])
  {
    forall k | 0 <= k < |s| ensures Kept(ApplyAll(st, s)[k]) == Kept(s[k]) {
      KeptStep(st, s[k]);
    }
  }

  /**
   * What lines 63-66 do to one row, given the three medians: income and
   * experience gaps filled, zero experience replaced, nothing else changed.
   */
  predicate RowImputed(before: Row, after: Row, incomeMedian: Option<real>, workMedian: Option<real>, zeroMedian: Option<real>)
  {
    && after.rec.monthlyIncome == (if before.rec.monthlyIncome.None? then incomeMedian else before.rec.monthlyIncome)
    && after.rec.workExperience ==
         (if before.rec.workExperience.None? then (if workMedian == Some(0.0) then zeroMedian else workMedian)
          else if before.rec.workExperience == Some(0.0) then zeroMedian
          else before.rec.workExperience)
    && after.rec == before.rec.(monthlyIncome := after.rec.monthlyIncome, workExperience := after.rec.workExperience)
    && after.fraudFlag == before.fraudFlag && after.dummies == before.dummies && after.firstTimeApplicant == before.firstTimeApplicant
  }

  lemma NonFraudRow(r: Row, incomeMedian: Option<real>, workMedian: Option<real>, zeroMedian: Option<real>)
    ensures RowImputed(r, ApplyStep(ReplaceZero(WorkExperience, zeroMedian), ApplyStep(FillNa(WorkExperience, workMedian), ApplyStep(FillNa(MonthlyIncome, incomeMedian), r))),
                       incomeMedian, workMedian, zeroMedian)
  {
  }

  /** NonFraudImputed row by row: the three statements with the medians of the group. */
  lemma NonFraudSteps(nonFraud: seq<Row>)
    ensures |NonFraudImputed(nonFraud)| == |nonFraud|
    ensures forall k :: 0 <= k < |nonFraud| ==>
      NonFraudImputed(nonFraud)[k]
      == ApplyStep(ReplaceZero(WorkExperience, ZeroWorkMedian(nonFraud)),
           ApplyStep(FillNa(WorkExperience, Median(Present(nonFraud, WorkExperience))),
             ApplyStep(FillNa(MonthlyIncome, Median(Present(nonFraud, MonthlyIncome))), nonFraud[k])))
  {
    var mi := Median(Present(nonFraud, MonthlyIncome));
    var incomeFilled := FillMedian(MonthlyIncome, nonFraud);
    forall i | 0 <= i < |nonFraud| ensures Get(nonFraud[i].rec, WorkExperience) == Get(incomeFilled[i].rec, WorkExperience) {
      assert incomeFilled[i] == ApplyStep(FillNa(MonthlyIncome, mi), nonFraud[i]);
    }
    PresentUnchanged(nonFraud, incomeFilled, WorkExperience);
    var mw := Median(Present(nonFraud, WorkExperience));
    var workFilled := FillMedian(WorkExperience, incomeFilled);
    var mz := ZeroWorkMedian(nonFraud);
    assert NonFraudImputed(nonFraud) == ApplyAll(ReplaceZero(WorkExperience, mz), workFilled);
    forall k | 0 <= k < |nonFraud|
      ensures NonFraudImputed(nonFraud)[k] == ApplyStep(ReplaceZero(WorkExperience, mz), ApplyStep(FillNa(WorkExperience, mw), ApplyStep(FillNa(MonthlyIncome, mi), nonFraud[k])))
    {
      assert incomeFilled[k] == ApplyStep(FillNa(MonthlyIncome, mi), nonFraud[k]);
      assert workFilled[k] == ApplyStep(FillNa(WorkExperience, mw), incomeFilled[k]);
    }
  }

  /** The row-wise statements, lifted to the group with the medians held abstract. */
  lemma RowsImputed(before: seq<Row>, after: seq<Row>, incomeMedian: Option<real>, workMedian: Option<real>, zeroMedian: Option<real>)
    requires |after| == |before|
    requires forall k :: 0 <= k < |before| ==>
      after[k] == ApplyStep(ReplaceZero(WorkExperience, zeroMedian), ApplyStep(FillNa(WorkExperience, workMedian), ApplyStep(FillNa(MonthlyIncome, incomeMedian), before[k])))
    ensures forall k :: 0 <= k < |before| ==> RowImputed(before[k], after[k], incomeMedian, workMedian, zeroMedian)
  {
    forall k | 0 <= k < |before| {
      NonFraudRow(before[k], incomeMedian, workMedian, zeroMedian);
    }
  }

  /**
   * Non-fraud gaps are filled from the medians of the non-fraud rows alone:
   * a missing income becomes the median of the group's present incomes, a
   * missing experience the median of its present experiences, a zero
   * experience (also one just filled in) the experience median after the
   * fill, and a present non-zero value is kept. Only these two columns change.
   */
  lemma NonFraudImputation(nonFraud: seq<Row>)
    ensures |NonFraudImputed(nonFraud)| == |nonFraud|
    ensures forall k :: 0 <= k < |nonFraud| ==>
      RowImputed(nonFraud[k], NonFraudImputed(nonFraud)[k],
                 Median(Present(nonFraud, MonthlyIncome)), Median(Present(nonFraud, WorkExperience)), ZeroWorkMedian(nonFraud))
  {
    NonFraudSteps(nonFraud);
    RowsImputed(nonFraud, NonFraudImputed(nonFraud), Median(Present(nonFraud, MonthlyIncome)), Median(Present(nonFraud, WorkExperience)), ZeroWorkMedian(nonFraud));
  }

  lemma ZeroWorkRows(before: seq<Row>, after: seq<Row>, incomeMedian: Option<real>, workMedian: Option<real>, zeroMedian: Option<real>)
    requires |after| == |before|
    requires forall k :: 0 <= k < |before| ==> RowImputed(before[k], after[k], incomeMedian, workMedian, zeroMedian)
    ensures forall k :: 0 <= k < |before| && after[k].rec.workExperience == Some(0.0) ==> zeroMedian == Some(0.0)
  {
  }

  /** After the replacement a non-fraud row has experience 0 only if the replacing median is itself 0. */
  lemma ZeroWorkOnlyIfZeroMedian(nonFraud: seq<Row>)
    ensures forall k :: 0 <= k < |nonFraud| && NonFraudImputed(nonFraud)[k].rec.workExperience == Some(0.0) ==>
      ZeroWorkMedian(nonFraud) == Some(0.0)
  {
    NonFraudImputation(nonFraud);
    ZeroWorkRows(nonFraud, NonFraudImputed(nonFraud), Median(Present(nonFraud, MonthlyIncome)), Median(Present(nonFraud, WorkExperience)), ZeroWorkMedian(nonFraud));
  }

  lemma NonFraudKept(nonFraud: seq<Row>)
    ensures |NonFraudImputed(nonFraud)| == |nonFraud|
    ensures forall k :: 0 <= k < |nonFraud| ==> Kept(NonFraudImputed(nonFraud)[k]) == Kept(nonFraud[k])
  {
    var incomeFilled := FillMedian(MonthlyIncome, nonFraud);
    var workFilled := FillMedian(WorkExperience, incomeFilled);
    KeptAll(FillNa(MonthlyIncome, Median(Present(nonFraud, MonthlyIncome))), nonFraud);
    KeptAll(FillNa(WorkExperience, Median(Present(incomeFilled, WorkExperience))), incomeFilled);
    KeptAll(ReplaceZero(WorkExperience, Median(Present(workFilled, WorkExperience))), workFilled);
  }

  // ---------------------------------------------------------------------
  // Recombination (line 68)
  // ---------------------------------------------------------------------

  /**
   * The recombined frame keeps every row: the non-fraud group first, then
   * the fraud group, each in its original order, and every row keeps all
   * it had but the imputed cells (its label, dummies, fraud_flag, ratings).
   */
  lemma RecombinationOrder(marked: seq<Row>)
    ensures |Recombined(marked)| == |Where(marked, 0)| + |Where(marked, 1)|
    ensures forall k :: 0 <= k < |Where(marked, 0)| ==>
      Kept(Recombined(marked)[k]) == Kept(Where(marked, 0)[k])
    ensures forall j :: 0 <= j < |Where(marked, 1)| ==>
      Kept(Recombined(marked)[|Where(marked, 0)| + j]) == Kept(Where(marked, 1)[j])
  {
    RecombinedLength(marked);
    forall k | 0 <= k < |Where(marked, 0)| ensures Kept(Recombined(marked)[k]) == Kept(Where(marked, 0)[k]) {
      RecombinedNonFraudKept(Where(marked, 0), Where(marked, 1), k);
    }
    forall j | 0 <= j < |Where(marked, 1)| ensures Kept(Recombined(marked)[|Where(marked, 0)| + j]) == Kept(Where(marked, 1)[j]) {
      RecombinedFraudKept(Where(marked, 0), Where(marked, 1), j);
    }
  }

  lemma RecombinedLength(marked: seq<Row>)
    ensures |Recombined(marked)| == |Where(marked, 0)| + |Where(marked, 1)|
  {
    ImputedLengths(Where(marked, 0), Where(marked, 1));
  }

  /** Imputation keeps the size of each group. */
  lemma ImputedLengths(nonFraud: seq<Row>, fraud: seq<Row>)
    ensures |NonFraudImputed(nonFraud)| == |nonFraud| && |FraudImputed(fraud)| == |fraud|
  {
  }

  /** Row k of the non-fraud group keeps its place and Kept. */
  lemma RecombinedNonFraudKept(nonFraud: seq<Row>, fraud: seq<Row>, k: int)
    requires 0 <= k < |nonFraud|
    ensures |NonFraudImputed(nonFraud)| == |nonFraud|
    ensures Kept((NonFraudImputed(nonFraud) + FraudImputed(fraud))[k]) == Kept(nonFraud[k])
  {
    NonFraudKept(nonFraud);
    var a, b := NonFraudImputed(nonFraud), FraudImputed(fraud);
    assert (a + b)[k] == a[k];
  }

  /** Row j of the fraud group follows the non-fraud group and keeps Kept. */
  lemma RecombinedFraudKept(nonFraud: seq<Row>, fraud: seq<Row>, j: int)
    requires 0 <= j < |fraud|
    ensures |FraudImputed(fraud)| == |fraud|
    ensures |NonFraudImputed(nonFraud)| + j < |NonFraudImputed(nonFraud) + FraudImputed(fraud)|
    ensures Kept((NonFraudImputed(nonFraud) + FraudImputed(fraud))[|nonFraud| + j]) == Kept(fraud[j])
  {
    ImputedLengths(nonFraud, fraud);
    KeptStep(FillNa(MonthlyIncome, Some(0.0)), fraud[j]);
    var a, b := NonFraudImputed(nonFraud), FraudImputed(fraud);
    assert (a + b)[|a| + j] == b[j];
  }

  // ---------------------------------------------------------------------
  // First-time applicants and the credit-score sentinel (lines 71-77)
  // ---------------------------------------------------------------------

  /** With a non-zero replacing median, no imputed non-fraud row meets the first-time condition. */
  lemma NonFraudNotFirstTime(nonFraud: seq<Row>)
    requires ZeroWorkMedian(nonFraud) != Some(0.0)
    ensures |NonFraudImputed(nonFraud)| == |nonFraud|
    ensures forall k :: 0 <= k < |nonFraud| ==>
      !IsFirstTime(NonFraudImputed(nonFraud)[k].rec) && NonFraudImputed(nonFraud)[k].fraudFlag == nonFraud[k].fraudFlag
  {
    NonFraudImputation(nonFraud);
    ZeroWorkRows(nonFraud, NonFraudImputed(nonFraud), Median(Present(nonFraud, MonthlyIncome)), Median(Present(nonFraud, WorkExperience)), ZeroWorkMedian(nonFraud));
  }

  /** Every imputed fraud row keeps experience 0, so it meets the first-time condition exactly without existing loans. */
  lemma FraudFirstTime(fraud: seq<Row>)
    requires forall k :: 0 <= k < |fraud| ==> IsFraud(fraud[k].rec)
    ensures |FraudImputed(fraud)| == |fraud|
    ensures forall k :: 0 <= k < |fraud| ==>
      (IsFirstTime(FraudImputed(fraud)[k].rec) <==> FraudImputed(fraud)[k].rec.existingLoans == 0.0)
      && FraudImputed(fraud)[k].fraudFlag == fraud[k].fraudFlag
  {
    forall k | 0 <= k < |fraud| ensures FraudImputed(fraud)[k] == ApplyStep(FillNa(MonthlyIncome, Some(0.0)), fraud[k]) {
    }
  }

  /** Every row of the fraud group meets the fraud condition. */
  lemma FraudGroup(marked: seq<Row>)
    requires FlagsAgree(marked)
    ensures forall k :: 0 <= k < |Where(marked, 1)| ==> IsFraud(Where(marked, 1)[k].rec)
  {
    WhereAgrees(marked, 1);
  }

  /** In the recombined frame the first-time condition holds only on fraud rows, when the non-fraud median is not 0. */
  lemma RecombinedFirstTime(marked: seq<Row>)
    requires FlagsAgree(marked)
    requires ZeroWorkMedian(Where(marked, 0)) != Some(0.0)
    ensures forall i :: 0 <= i < |Recombined(marked)| ==>
      (IsFirstTime(Recombined(marked)[i].rec) <==> Recombined(marked)[i].fraudFlag == 1 && Recombined(marked)[i].rec.existingLoans == 0.0)
  {
    var nonFraud, fraud := Where(marked, 0), Where(marked, 1);
    NonFraudNotFirstTime(nonFraud);
    FraudGroup(marked);
    FraudFirstTime(fraud);
    FirstTimeConcat(NonFraudImputed(nonFraud), FraudImputed(fraud));
  }

  lemma FirstTimeConcat(a: seq<Row>, b: seq<Row>)
    requires forall k :: 0 <= k < |a| ==> !IsFirstTime(a[k].rec) && a[k].fraudFlag == 0
    requires forall k :: 0 <= k < |b| ==> (IsFirstTime(b[k].rec) <==> b[k].rec.existingLoans == 0.0) && b[k].fraudFlag == 1
    ensures forall i :: 0 <= i < |a + b| ==>
      (IsFirstTime((a + b)[i].rec) <==> (a + b)[i].fraudFlag == 1 && (a + b)[i].rec.existingLoans == 0.0)
  {
  }

  /** first_time_applicant is the first-time condition of the row; nothing the condition reads changes. */
  lemma CreditAdjustedRows(rows: seq<Row>)
    ensures |CreditAdjusted(rows)| == |rows|
    ensures forall i :: 0 <= i < |rows| ==>
      && (CreditAdjusted(rows)[i].firstTimeApplicant == 1 <==> IsFirstTime(rows[i].rec))
      && CreditAdjusted(rows)[i].fraudFlag == rows[i].fraudFlag
      && CreditAdjusted(rows)[i].rec.existingLoans == rows[i].rec.existingLoans
      && CreditAdjusted(rows)[i].rec.creditScore == (if IsFirstTime(rows[i].rec) then Some(-1.0) else rows[i].rec.creditScore)
  {
    forall i | 0 <= i < |rows| ensures CreditAdjusted(rows)[i] == ApplyStep(CreditSentinel, ApplyStep(MarkFirstTime, rows[i])) {
    }
  }

  /**
   * When the non-fraud experience median is not 0, only fraud rows can be
   * first-time applicants: first_time_applicant is 1 exactly on the fraud
   * rows without existing loans.
   */
  lemma FirstTimeOnlyFraud(marked: seq<Row>)
    requires FlagsAgree(marked)
    requires ZeroWorkMedian(Where(marked, 0)) != Some(0.0)
    ensures forall i :: 0 <= i < |CreditAdjusted(Recombined(marked))| ==>
      var r := CreditAdjusted(Recombined(marked))[i];
      r.firstTimeApplicant == 1 <==> r.fraudFlag == 1 && r.rec.existingLoans == 0.0
  {
    RecombinedFirstTime(marked);
    CreditAdjustedRows(Recombined(marked));
  }

  /**
   * Rows flagged as first-time applicants get credit_score -1 even when it
   * was missing, keep it through the median fill, and the -1 values are
   * part of the values the credit-score median is taken over.
   */
  lemma SentinelSurvives(rows: seq<Row>)
    ensures |MediansFilled(CreditAdjusted(rows))| == |rows|
    ensures forall i :: 0 <= i < |rows| && CreditAdjusted(rows)[i].firstTimeApplicant == 1 ==>
      && CreditAdjusted(rows)[i].rec.creditScore == Some(-1.0)
      && MediansFilled(CreditAdjusted(rows))[i].rec.creditScore == Some(-1.0)
      && -1.0 in Present(FillMedian(AvgMonthlyExpenses, FillMedian(SavingsBalance, CreditAdjusted(rows))), CreditScore)
  {
    var c := CreditAdjusted(rows);
    CreditAdjustedRows(rows);
    var s1 := FillMedian(SavingsBalance, c);
    var s2 := FillMedian(AvgMonthlyExpenses, s1);
    var s3 := FillMedian(CreditScore, s2);
    assert MediansFilled(c) == s3;
    forall i | 0 <= i < |rows| && c[i].firstTimeApplicant == 1
      ensures s3[i].rec.creditScore == Some(-1.0)
      ensures -1.0 in Present(s2, CreditScore)
    {
      assert s1[i] == ApplyStep(FillNa(SavingsBalance, Median(Present(c, SavingsBalance))), c[i]);
      assert s2[i] == ApplyStep(FillNa(AvgMonthlyExpenses, Median(Present(s1, AvgMonthlyExpenses))), s1[i]);
      assert s3[i] == ApplyStep(FillNa(CreditScore, Median(Present(s2, CreditScore))), s2[i]);
      assert Get(s2[i].rec, CreditScore) == Some(-1.0);
      PresentMembers(s2, CreditScore, -1.0);
    }
  }

  // ---------------------------------------------------------------------
  // Category gaps (lines 78-80)
  // ---------------------------------------------------------------------

  lemma {:induction false} PresentDependentsKept(s: seq<Row>, u: string)
    ensures PresentDependents(ApplyAll(FillUrbanRural(u), s)) == PresentDependents(s)
  {
    if |s| > 0 {
      var t := s[..|s| - 1];
      PresentDependentsKept(t, u);
      assert ApplyAll(FillUrbanRural(u), s)[..|s| - 1] == ApplyAll(FillUrbanRural(u), t);
    }
  }

  lemma {:induction false} PresentEducationKept(s: seq<Row>, u: string, d: int)
    ensures PresentEducation(ApplyAll(FillDependents(d), ApplyAll(FillUrbanRural(u), s))) == PresentEducation(s)
  {
    if |s| > 0 {
      var t := s[..|s| - 1];
      PresentEducationKept(t, u, d);
      assert ApplyAll(FillDependents(d), ApplyAll(FillUrbanRural(u), s))[..|s| - 1]
        == ApplyAll(FillDependents(d), ApplyAll(FillUrbanRural(u), t));
    }
  }

  /** Some row has an urban_rural value. */
  predicate HasUrbanRural(s: seq<Row>)
  {
    exists i :: 0 <= i < |s| && s[i].rec.urbanRural.Some?
  }

  /** Some row has a family_dependents value. */
  predicate HasDependents(s: seq<Row>)
  {
    exists i :: 0 <= i < |s| && s[i].rec.familyDependents.Some?
  }

  /** Some row has an education_level value. */
  predicate HasEducation(s: seq<Row>)
  {
    exists i :: 0 <= i < |s| && s[i].rec.educationLevel.Some?
  }

  lemma {:induction false} PresentUrbanEmpty(s: seq<Row>)
    ensures PresentUrbanRural(s) != [] <==> HasUrbanRural(s)
  {
    if |s| > 0 {
      var t := s[..|s| - 1];
      PresentUrbanEmpty(t);
      if HasUrbanRural(t) {
        var i :| 0 <= i < |t| && t[i].rec.urbanRural.Some?;
        assert s[i] == t[i];
      }
      if i :| 0 <= i < |s| && s[i].rec.urbanRural.Some? {
        if i < |t| {
          assert t[i] == s[i];
        }
      }
    }
  }

  lemma {:induction false} PresentDependentsEmpty(s: seq<Row>)
    ensures PresentDependents(s) != [] <==> HasDependents(s)
  {
    if |s| > 0 {
      var t := s[..|s| - 1];
      PresentDependentsEmpty(t);
      if HasDependents(t) {
        var i :| 0 <= i < |t| && t[i].rec.familyDependents.Some?;
        assert s[i] == t[i];
      }
      if i :| 0 <= i < |s| && s[i].rec.familyDependents.Some? {
        if i < |t| {
          assert t[i] == s[i];
        }
      }
    }
  }

  lemma {:induction false} PresentEducationEmpty(s: seq<Row>)
    ensures PresentEducation(s) != [] <==> HasEducation(s)
  {
    if |s| > 0 {
      var t := s[..|s| - 1];
      PresentEducationEmpty(t);
      if HasEducation(t) {
        var i :| 0 <= i < |t| && t[i].rec.educationLevel.Some?;
        assert s[i] == t[i];
      }
      if i :| 0 <= i < |s| && s[i].rec.educationLevel.Some? {
        if i < |t| {
          assert t[i] == s[i];
        }
      }
    }
  }

  /**
   * mode()[0] fails exactly on a column without any value, checked in the
   * order urban_rural, family_dependents, education_level.
   */
  lemma ModeErrors(rows: seq<Row>)
    ensures ModesFilled(rows) == Err(EmptyColumnMode("urban_rural")) <==> !HasUrbanRural(rows)
    ensures ModesFilled(rows) == Err(EmptyColumnMode("family_dependents")) <==>
      HasUrbanRural(rows) && !HasDependents(rows)
    ensures ModesFilled(rows) == Err(EmptyColumnMode("education_level")) <==>
      HasUrbanRural(rows) && HasDependents(rows) && !HasEducation(rows)
    ensures ModesFilled(rows).Ok? <==> HasUrbanRural(rows) && HasDependents(rows) && HasEducation(rows)
  {
    PresentUrbanEmpty(rows);
    PresentDependentsEmpty(rows);
    PresentEducationEmpty(rows);
    var m := FirstMode(PresentUrbanRural(rows), LexLess);
    if m.Some? {
      PresentDependentsKept(rows, m.value);
      var d := FirstMode(PresentDependents(rows), IntLess);
      if d.Some? {
        PresentEducationKept(rows, m.value, d.value);
      }
    }
  }

  /** after differs from before at most in urban_rural, family_dependents and education_level. */
  predicate CategoriesOnly(before: Row, after: Row)
  {
    after == before.(rec := before.rec.(urbanRural := after.rec.urbanRural,
                                        familyDependents := after.rec.familyDependents,
                                        educationLevel := after.rec.educationLevel))
  }

  /** The fills of lines 78-80 on one row. */
  lemma ModeRow(r: Row, u: string, d: int, e: string)
    ensures
      var out := ApplyStep(FillEducation(e), ApplyStep(FillDependents(d), ApplyStep(FillUrbanRural(u), r)));
      && out.rec.urbanRural == Some(r.rec.urbanRural.GetOr(u))
      && out.rec.familyDependents == Some(r.rec.familyDependents.GetOr(d))
      && out.rec.educationLevel == Some(r.rec.educationLevel.GetOr(e))
      && CategoriesOnly(r, out)
      && Kept(out) == Kept(r)
  {
  }

  /**
   * When the three columns each hold a value, every gap gets the most
   * frequent present value of its column (the smallest on a tie), computed
   * over the rows as they came in, present values stay, and no other cell
   * of any row changes.
   */
  lemma ModeValues(rows: seq<Row>)
    requires PresentUrbanRural(rows) != [] && PresentDependents(rows) != [] && PresentEducation(rows) != []
    ensures ModesFilled(rows).Ok?
    ensures
      var out := ModesFilled(rows).value;
      && |out| == |rows|
      && forall i :: 0 <= i < |rows| ==>
        && out[i].rec.urbanRural == Some(rows[i].rec.urbanRural.GetOr(FirstMode(PresentUrbanRural(rows), LexLess).value))
        && out[i].rec.familyDependents == Some(rows[i].rec.familyDependents.GetOr(FirstMode(PresentDependents(rows), IntLess).value))
        && out[i].rec.educationLevel == Some(rows[i].rec.educationLevel.GetOr(FirstMode(PresentEducation(rows), LexLess).value))
        && CategoriesOnly(rows[i], out[i])
        && Kept(out[i]) == Kept(rows[i])
  {
    PresentDependentsKept(rows, FirstMode(PresentUrbanRural(rows), LexLess).value);
    PresentEducationKept(rows, FirstMode(PresentUrbanRural(rows), LexLess).value, FirstMode(PresentDependents(rows), IntLess).value);
    var u := FirstMode(PresentUrbanRural(rows), LexLess).value;
    var d := FirstMode(PresentDependents(rows), IntLess).value;
    var e := FirstMode(PresentEducation(rows), LexLess).value;
    var withUrban := ApplyAll(FillUrbanRural(u), rows);
    PresentDependentsKept(rows, u);
    var withDependents := ApplyAll(FillDependents(d), withUrban);
    PresentEducationKept(rows, u, d);
    var out := ApplyAll(FillEducation(e), withDependents);
    assert ModesFilled(rows) == Ok(out);
    forall i | 0 <= i < |rows|
      ensures out[i] == ApplyStep(FillEducation(e), ApplyStep(FillDependents(d), ApplyStep(FillUrbanRural(u), rows[i])))
    {
    }
    forall i | 0 <= i < |rows| {
      ModeRow(rows[i], u, d, e);
    }
  }
}
