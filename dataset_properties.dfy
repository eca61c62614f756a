/**
 * What _base_preprocessing returns as a whole: the shape of X and y, the
 * encoded codes against the label tables, the labels in recombined order,
 * and which inputs make the mode fill fail.
 */
module DatasetProperties {
  import opened Wrappers
  import opened Stats
  import opened Schema
  import opened Frames
  import opened Preprocessing
  import opened BaseProperties

  // ---------------------------------------------------------------------
  // Encoding (lines 99-107, 124-126)
  // ---------------------------------------------------------------------

  /**
   * The astype(int) calls fail exactly when some row holds a value its map
   * does not know; otherwise every code reads back as the row's label, the
   * six skewed columns go through log1p, and y is loan_approved row by row.
   */
  lemma EncodingRows(rows: seq<Row>, t: RatingsTable, log1p: real -> real)
    requires |t.avg| == |rows| && |t.extras| == |rows|
    ensures Encoded(rows, t, log1p).Err? <==> exists i :: 0 <= i < |rows| && !AllMapped(rows[i])
    ensures Encoded(rows, t, log1p).Err? ==> Encoded(rows, t, log1p).error.NanToInt?
    ensures Encoded(rows, t, log1p).Ok? ==>
      var x, y := Encoded(rows, t, log1p).value.0, Encoded(rows, t, log1p).value.1;
      && |x| == |rows| && |y| == |rows|
      && forall i :: 0 <= i < |rows| ==>
        var a := rows[i].rec;
        && 0 <= x[i].educationLevel < 3 && Some(EducationLevels[x[i].educationLevel]) == a.educationLevel
        && 0 <= x[i].urbanRural < 2 && Some(UrbanRuralLabels[x[i].urbanRural]) == a.urbanRural
        && 0 <= x[i].alternativeIncomeSource < 2 && YesNoLabels[x[i].alternativeIncomeSource] == a.alternativeIncomeSource
        && (exists c :: 0 <= c < 2 && YesNoLabels[c] == a.loanCoapplicant && x[i].loanCoapplicant == log1p(c as real))
        && Some(x[i].familyDependents) == a.familyDependents
        && x[i].numPlatforms == log1p(a.numPlatforms) && x[i].savingsBalance == MapOption(log1p, a.savingsBalance)
        && x[i].existingLoans == log1p(a.existingLoans) && x[i].loanAmountRequested == log1p(a.loanAmountRequested)
        && x[i].penalties == log1p(a.penalties)
        && x[i].workExperience == a.workExperience && x[i].monthlyIncome == a.monthlyIncome
        && x[i].creditScore == a.creditScore && x[i].avgMonthlyExpenses == a.avgMonthlyExpenses
        && x[i].reasonDummies == rows[i].dummies && x[i].avgPlatformRating == t.avg[i]
        && x[i].untouched == a.untouched
        && y[i] == a.loanApproved
  {
    if Encoded(rows, t, log1p).Ok? {
      var x := Encoded(rows, t, log1p).value.0;
      forall i | 0 <= i < |rows|
        ensures exists c :: 0 <= c < 2 && YesNoLabels[c] == rows[i].rec.loanCoapplicant && x[i].loanCoapplicant == log1p(c as real)
      {
        var c := YesNoCode(rows[i].rec.loanCoapplicant).value;
        assert YesNoLabels[c] == rows[i].rec.loanCoapplicant;
      }
    }
  }

  // ---------------------------------------------------------------------
  // The category columns before the mode fill
  // ---------------------------------------------------------------------

  /** The cells the mode fill reads: urban_rural, family_dependents, education_level. */
  function CategoriesOf(a: Applicant): (Option<string>, Option<int>, Option<string>)
  {
    (a.urbanRural, a.familyDependents, a.educationLevel)
  }

  lemma CategoriesStep(st: Step, r: Row)
    requires !st.FillUrbanRural? && !st.FillDependents? && !st.FillEducation?
    ensures CategoriesOf(ApplyStep(st, r).rec) == CategoriesOf(r.rec)
  {
  }

  lemma CategoriesAll(st: Step, s: seq<Row>)
    requires !st.FillUrbanRural? && !st.FillDependents? && !st.FillEducation?
    ensures |ApplyAll(st, s)| == |s|
    ensures forall k :: 0 <= k < |s| ==> CategoriesOf(ApplyAll(st, s)[k].rec) == CategoriesOf(s[k].rec)
  {
    forall k | 0 <= k < |s| ensures CategoriesOf(ApplyAll(st, s)[k].rec) == CategoriesOf(s[k].rec) {
      CategoriesStep(st, s[k]);
    }
  }

  lemma FillMedianCategories(c: NumColumn, s: seq<Row>)
    ensures |FillMedian(c, s)| == |s|
    ensures forall k :: 0 <= k < |s| ==> CategoriesOf(FillMedian(c, s)[k].rec) == CategoriesOf(s[k].rec)
  {
    CategoriesAll(FillNa(c, Median(Present(s, c))), s);
  }

  lemma NonFraudCategories(nonFraud: seq<Row>)
    ensures |NonFraudImputed(nonFraud)| == |nonFraud|
    ensures forall k :: 0 <= k < |nonFraud| ==> CategoriesOf(NonFraudImputed(nonFraud)[k].rec) == CategoriesOf(nonFraud[k].rec)
  {
    var incomeFilled := FillMedian(MonthlyIncome, nonFraud);
    var workFilled := FillMedian(WorkExperience, incomeFilled);
    FillMedianCategories(MonthlyIncome, nonFraud);
    FillMedianCategories(WorkExperience, incomeFilled);
    CategoriesAll(ReplaceZero(WorkExperience, Median(Present(workFilled, WorkExperience))), workFilled);
  }

  /** The statements after the recombination keep the category cells of every row. */
  lemma AfterRecombinationCategories(rows: seq<Row>)
    ensures |MediansFilled(CreditAdjusted(rows))| == |rows|
    ensures forall k :: 0 <= k < |rows| ==> CategoriesOf(MediansFilled(CreditAdjusted(rows))[k].rec) == CategoriesOf(rows[k].rec)
  {
    var first := ApplyAll(MarkFirstTime, rows);
    CategoriesAll(MarkFirstTime, rows);
    var c := CreditAdjusted(rows);
    CategoriesAll(CreditSentinel, first);
    var s1 := FillMedian(SavingsBalance, c);
    var s2 := FillMedian(AvgMonthlyExpenses, s1);
    FillMedianCategories(SavingsBalance, c);
    FillMedianCategories(AvgMonthlyExpenses, s1);
    FillMedianCategories(CreditScore, s2);
  }

  /** The category cells of every row, in order. */
  function RowCategories(rows: seq<Row>): (cs: seq<(Option<string>, Option<int>, Option<string>)>)
    ensures |cs| == |rows| && forall i :: 0 <= i < |rows| ==> cs[i] == CategoriesOf(rows[i].rec)
  {
    seq(|rows|, i requires 0 <= i < |rows| => CategoriesOf(rows[i].rec))
  }

  function InputCategories(df: seq<Applicant>): (cs: seq<(Option<string>, Option<int>, Option<string>)>)
    ensures |cs| == |df| && forall j :: 0 <= j < |df| ==> cs[j] == CategoriesOf(df[j])
  {
    seq(|df|, j requires 0 <= j < |df| => CategoriesOf(df[j]))
  }

  /** rows and df are as long and hold the same category cells, up to order. */
  ghost predicate SameCategories(rows: seq<Row>, df: seq<Applicant>)
  {
    |rows| == |df| && forall x :: x in RowCategories(rows) <==> x in InputCategories(df)
  }

  /** Concatenating the two groups, each with its rows' categories kept, keeps the categories of the frame. */
  lemma GroupsCategories(marked: seq<Row>, df: seq<Applicant>, a: seq<Row>, b: seq<Row>)
    requires forall i :: 0 <= i < |marked| ==> marked[i].fraudFlag == 0 || marked[i].fraudFlag == 1
    requires |marked| == |df| && forall j :: 0 <= j < |df| ==> CategoriesOf(marked[j].rec) == CategoriesOf(df[j])
    requires |a| == |Where(marked, 0)| && forall k :: 0 <= k < |a| ==> CategoriesOf(a[k].rec) == CategoriesOf(Where(marked, 0)[k].rec)
    requires |b| == |Where(marked, 1)| && forall k :: 0 <= k < |b| ==> CategoriesOf(b[k].rec) == CategoriesOf(Where(marked, 1)[k].rec)
    ensures SameCategories(a + b, df)
  {
    WhereCount(marked);
    GroupsCategoriesFromInput(marked, df, a, b);
    GroupsCategoriesCover(marked, df, a, b);
  }

  /** Every row of the two groups carries the categories of some input row. */
  lemma GroupsCategoriesFromInput(marked: seq<Row>, df: seq<Applicant>, a: seq<Row>, b: seq<Row>)
    requires forall i :: 0 <= i < |marked| ==> marked[i].fraudFlag == 0 || marked[i].fraudFlag == 1
    requires |marked| == |df| && forall j :: 0 <= j < |df| ==> CategoriesOf(marked[j].rec) == CategoriesOf(df[j])
    requires |a| == |Where(marked, 0)| && forall k :: 0 <= k < |a| ==> CategoriesOf(a[k].rec) == CategoriesOf(Where(marked, 0)[k].rec)
    requires |b| == |Where(marked, 1)| && forall k :: 0 <= k < |b| ==> CategoriesOf(b[k].rec) == CategoriesOf(Where(marked, 1)[k].rec)
    ensures forall i :: 0 <= i < |a + b| ==> RowCategories(a + b)[i] in InputCategories(df)
  {
    var nonFraud, fraud := Where(marked, 0), Where(marked, 1);
    var rc := a + b;
    forall i | 0 <= i < |rc| ensures RowCategories(rc)[i] in InputCategories(df) {
      var r := if i < |a| then nonFraud[i] else fraud[i - |a|];
      assert RowCategories(rc)[i] == CategoriesOf(r.rec);
      WhereMembers(marked, r.fraudFlag, r);
      var j :| 0 <= j < |marked| && marked[j] == r;
      assert InputCategories(df)[j] == CategoriesOf(r.rec);
    }
  }

  /** The categories of every input row appear in one of the two groups. */
  lemma GroupsCategoriesCover(marked: seq<Row>, df: seq<Applicant>, a: seq<Row>, b: seq<Row>)
    requires forall i :: 0 <= i < |marked| ==> marked[i].fraudFlag == 0 || marked[i].fraudFlag == 1
    requires |marked| == |df| && forall j :: 0 <= j < |df| ==> CategoriesOf(marked[j].rec) == CategoriesOf(df[j])
    requires |a| == |Where(marked, 0)| && forall k :: 0 <= k < |a| ==> CategoriesOf(a[k].rec) == CategoriesOf(Where(marked, 0)[k].rec)
    requires |b| == |Where(marked, 1)| && forall k :: 0 <= k < |b| ==> CategoriesOf(b[k].rec) == CategoriesOf(Where(marked, 1)[k].rec)
    ensures forall j :: 0 <= j < |df| ==> InputCategories(df)[j] in RowCategories(a + b)
  {
    var nonFraud, fraud := Where(marked, 0), Where(marked, 1);
    var rc := a + b;
    forall j | 0 <= j < |df| ensures InputCategories(df)[j] in RowCategories(rc) {
      var r := marked[j];
      WhereMembers(marked, r.fraudFlag, r);
      if r.fraudFlag == 0 {
        var k :| 0 <= k < |nonFraud| && nonFraud[k] == r;
        assert RowCategories(rc)[k] == CategoriesOf(r.rec);
      } else {
        var k :| 0 <= k < |fraud| && fraud[k] == r;
        assert RowCategories(rc)[|a| + k] == CategoriesOf(r.rec);
      }
    }
  }

  /** Statements that keep every row's categories in place keep SameCategories. */
  lemma SameCategoriesPointwise(rows: seq<Row>, rows': seq<Row>, df: seq<Applicant>)
    requires SameCategories(rows, df)
    requires |rows'| == |rows| && forall k :: 0 <= k < |rows| ==> CategoriesOf(rows'[k].rec) == CategoriesOf(rows[k].rec)
    ensures SameCategories(rows', df)
  {
    forall k | 0 <= k < |rows| ensures RowCategories(rows')[k] == RowCategories(rows)[k] {
    }
    assert RowCategories(rows') == RowCategories(rows);
  }

  /** The recombined frame holds the category cells of the input rows. */
  lemma RecombinedCategories(df: seq<Applicant>)
    ensures SameCategories(Recombined(FraudMarked(Dummied(df, DummyVocab(df)))), df)
  {
    var marked := FraudMarked(Dummied(df, DummyVocab(df)));
    FraudRule(df, DummyVocab(df));
    var nonFraud, fraud := Where(marked, 0), Where(marked, 1);
    NonFraudCategories(nonFraud);
    CategoriesAll(FillNa(MonthlyIncome, Some(0.0)), fraud);
    GroupsCategories(marked, df, NonFraudImputed(nonFraud), FraudImputed(fraud));
  }

  /** The rows the mode fill sees hold, up to order, the category cells of the input rows. */
  lemma ImputedCategories(df: seq<Applicant>)
    ensures SameCategories(Imputed(df), df)
  {
    var rc := Recombined(FraudMarked(Dummied(df, DummyVocab(df))));
    RecombinedCategories(df);
    AfterRecombinationCategories(rc);
    SameCategoriesPointwise(rc, MediansFilled(CreditAdjusted(rc)), df);
  }

  /** Some input row has an urban_rural value. */
  predicate InputHasUrbanRural(df: seq<Applicant>)
  {
    exists j :: 0 <= j < |df| && df[j].urbanRural.Some?
  }

  /** Some input row has a family_dependents value. */
  predicate InputHasDependents(df: seq<Applicant>)
  {
    exists j :: 0 <= j < |df| && df[j].familyDependents.Some?
  }

  /** Some input row has an education_level value. */
  predicate InputHasEducation(df: seq<Applicant>)
  {
    exists j :: 0 <= j < |df| && df[j].educationLevel.Some?
  }

  /** Rows with the same category cells as df hold a urban_rural value exactly when df does. */
  lemma UrbanRuralPresence(rows: seq<Row>, df: seq<Applicant>)
    requires SameCategories(rows, df)
    ensures HasUrbanRural(rows) <==> InputHasUrbanRural(df)
  {
    if i :| 0 <= i < |rows| && rows[i].rec.urbanRural.Some? {
      var j := InputWitness(rows, df, i);
      assert df[j].urbanRural.Some?;
    }
    if j :| 0 <= j < |df| && df[j].urbanRural.Some? {
      var i := RowWitness(rows, df, j);
      assert rows[i].rec.urbanRural.Some?;
    }
  }

  /** The same for family_dependents. */
  lemma DependentsPresence(rows: seq<Row>, df: seq<Applicant>)
    requires SameCategories(rows, df)
    ensures HasDependents(rows) <==> InputHasDependents(df)
  {
    if i :| 0 <= i < |rows| && rows[i].rec.familyDependents.Some? {
      var j := InputWitness(rows, df, i);
      assert df[j].familyDependents.Some?;
    }
    if j :| 0 <= j < |df| && df[j].familyDependents.Some? {
      var i := RowWitness(rows, df, j);
      assert rows[i].rec.familyDependents.Some?;
    }
  }

  /** The same for education_level. */
  lemma EducationPresence(rows: seq<Row>, df: seq<Applicant>)
    requires SameCategories(rows, df)
    ensures HasEducation(rows) <==> InputHasEducation(df)
  {
    if i :| 0 <= i < |rows| && rows[i].rec.educationLevel.Some? {
      var j := InputWitness(rows, df, i);
      assert df[j].educationLevel.Some?;
    }
    if j :| 0 <= j < |df| && df[j].educationLevel.Some? {
      var i := RowWitness(rows, df, j);
      assert rows[i].rec.educationLevel.Some?;
    }
  }

  /** An input row with the category cells of row i. */
  lemma InputWitness(rows: seq<Row>, df: seq<Applicant>, i: int) returns (j: int)
    requires SameCategories(rows, df) && 0 <= i < |rows|
    ensures 0 <= j < |df| && CategoriesOf(df[j]) == CategoriesOf(rows[i].rec)
  {
    assert RowCategories(rows)[i] in InputCategories(df);
    j :| 0 <= j < |df| && InputCategories(df)[j] == RowCategories(rows)[i];
  }

  /** A row with the category cells of input row j. */
  lemma RowWitness(rows: seq<Row>, df: seq<Applicant>, j: int) returns (i: int)
    requires SameCategories(rows, df) && 0 <= j < |df|
    ensures 0 <= i < |rows| && CategoriesOf(rows[i].rec) == CategoriesOf(df[j])
  {
    assert InputCategories(df)[j] in RowCategories(rows);
    i :| 0 <= i < |rows| && RowCategories(rows)[i] == InputCategories(df)[j];
  }

  /**
   * _base_preprocessing fails with the mode fill's KeyError exactly when a
   * category column is empty in the input: urban_rural first, then
   * family_dependents, then education_level. The fraud rule, the
   * imputation and the median fills never fill or empty those columns.
   */
  lemma BaseModeErrors(df: seq<Applicant>, log1p: real -> real)
    ensures BaseSpec(df, log1p) == Err(EmptyColumnMode("urban_rural")) <==> !InputHasUrbanRural(df)
    ensures BaseSpec(df, log1p) == Err(EmptyColumnMode("family_dependents")) <==>
      InputHasUrbanRural(df) && !InputHasDependents(df)
    ensures BaseSpec(df, log1p) == Err(EmptyColumnMode("education_level")) <==>
      InputHasUrbanRural(df) && InputHasDependents(df) && !InputHasEducation(df)
  {
    var rows := Imputed(df);
    ImputedCategories(df);
    UrbanRuralPresence(rows, df);
    DependentsPresence(rows, df);
    EducationPresence(rows, df);
    ModeErrors(rows);
    ModeErrorsOnly(rows, DummyVocab(df), log1p, "urban_rural");
    ModeErrorsOnly(rows, DummyVocab(df), log1p, "family_dependents");
    ModeErrorsOnly(rows, DummyVocab(df), log1p, "education_level");
  }

  /** Only the mode fill raises EmptyColumnMode. */
  lemma ModeErrorsOnly(rows: seq<Row>, vocab: seq<string>, log1p: real -> real, col: string)
    ensures Finished(rows, vocab, log1p) == Err(EmptyColumnMode(col)) <==> ModesFilled(rows) == Err(EmptyColumnMode(col))
  {
    if ModesFilled(rows).Ok? {
      var filled := ModesFilled(rows).value;
      var t := RatingsStep(filled);
      if t.Ok? {
        EncodingRows(filled, t.value, log1p);
      }
    }
  }

  // ---------------------------------------------------------------------
  // The labels in recombined order (lines 55-56, 68, 124-126)
  // ---------------------------------------------------------------------

  /** loan_approved of the rows the fraud rule leaves alone, in input order. */
  function NonFraudLabels(df: seq<Applicant>): (ls: seq<int>)
    ensures |ls| <= |df|
  {
    if |df| == 0 then []
    else NonFraudLabels(df[..|df| - 1]) + (if IsFraud(df[|df| - 1]) then [] else [df[|df| - 1].loanApproved])
  }

  /** The labels after the recombination: the non-fraud labels in order, then a 0 for every fraud row. */
  function RecombinedLabels(df: seq<Applicant>): (ls: seq<int>)
    ensures |ls| == |df|
  {
    NonFraudLabels(df) + seq(|df| - |NonFraudLabels(df)|, _ => 0)
  }

  /** The non-fraud group holds the non-fraud labels, in order. */
  lemma {:induction false} WhereLabels(marked: seq<Row>, df: seq<Applicant>)
    requires |marked| == |df|
    requires forall i :: 0 <= i < |df| ==>
      && (marked[i].fraudFlag == 0 <==> !IsFraud(df[i]))
      && (!IsFraud(df[i]) ==> marked[i].rec.loanApproved == df[i].loanApproved)
    ensures |Where(marked, 0)| == |NonFraudLabels(df)|
    ensures forall k :: 0 <= k < |Where(marked, 0)| ==> Where(marked, 0)[k].rec.loanApproved == NonFraudLabels(df)[k]
  {
    if |df| > 0 {
      var n := |df| - 1;
      WhereLabels(marked[..n], df[..n]);
    }
  }

  /** The statements after the recombination keep Kept of every row. */
  lemma AfterRecombinationKept(rows: seq<Row>)
    ensures |MediansFilled(CreditAdjusted(rows))| == |rows|
    ensures forall k :: 0 <= k < |rows| ==> Kept(MediansFilled(CreditAdjusted(rows))[k]) == Kept(rows[k])
  {
    var first := ApplyAll(MarkFirstTime, rows);
    KeptAll(MarkFirstTime, rows);
    var c := CreditAdjusted(rows);
    KeptAll(CreditSentinel, first);
    var s1 := FillMedian(SavingsBalance, c);
    var s2 := FillMedian(AvgMonthlyExpenses, s1);
    KeptAll(FillNa(SavingsBalance, Median(Present(c, SavingsBalance))), c);
    KeptAll(FillNa(AvgMonthlyExpenses, Median(Present(s1, AvgMonthlyExpenses))), s1);
    KeptAll(FillNa(CreditScore, Median(Present(s2, CreditScore))), s2);
  }

  /**
   * The rows the mode fill sees carry the labels in recombined order, and
   * each its dummy cells, one per vocabulary entry.
   */
  lemma ImputedLabels(df: seq<Applicant>)
    ensures |Imputed(df)| == |df|
    ensures forall k :: 0 <= k < |df| ==>
      Imputed(df)[k].rec.loanApproved == RecombinedLabels(df)[k] && |Imputed(df)[k].dummies| == |DummyVocab(df)|
  {
    var vocab := DummyVocab(df);
    var marked := FraudMarked(Dummied(df, vocab));
    FraudRule(df, vocab);
    RecombinedLabelRows(marked, df, vocab);
    var rc := Recombined(marked);
    AfterRecombinationKept(rc);
    forall k | 0 <= k < |df|
      ensures Imputed(df)[k].rec.loanApproved == RecombinedLabels(df)[k] && |Imputed(df)[k].dummies| == |vocab|
    {
      assert Kept(Imputed(df)[k]) == Kept(rc[k]);
    }
  }

  /** The recombined frame carries the labels in recombined order, each row with its dummy cells. */
  lemma RecombinedLabelRows(marked: seq<Row>, df: seq<Applicant>, vocab: seq<string>)
    requires |marked| == |df|
    requires forall i :: 0 <= i < |df| ==>
      && (marked[i].fraudFlag == 1 <==> IsFraud(df[i]))
      && (marked[i].fraudFlag == 0 <==> !IsFraud(df[i]))
      && marked[i].rec.loanApproved == (if IsFraud(df[i]) then 0 else df[i].loanApproved)
      && |marked[i].dummies| == |vocab|
    ensures |Recombined(marked)| == |df|
    ensures forall k :: 0 <= k < |df| ==>
      Recombined(marked)[k].rec.loanApproved == RecombinedLabels(df)[k] && |Recombined(marked)[k].dummies| == |vocab|
  {
    WhereCount(marked);
    WhereLabels(marked, df);
    assert RowsLabelled(marked, vocab);
    RecombinedNonFraudRows(marked, vocab);
    RecombinedFraudRows(marked, vocab);
  }

  /** Every marked row has one dummy cell per vocabulary entry, and label 0 when it is flagged. */
  predicate RowsLabelled(marked: seq<Row>, vocab: seq<string>)
  {
    forall i :: 0 <= i < |marked| ==>
      |marked[i].dummies| == |vocab| && (marked[i].fraudFlag == 1 ==> marked[i].rec.loanApproved == 0)
  }

  /** The non-fraud part of the recombined frame: the non-fraud labels in order. */
  lemma RecombinedNonFraudRows(marked: seq<Row>, vocab: seq<string>)
    requires RowsLabelled(marked, vocab) && |Where(marked, 0)| + |Where(marked, 1)| == |marked|
    ensures |Recombined(marked)| == |marked|
    ensures forall k :: 0 <= k < |Where(marked, 0)| ==>
      Recombined(marked)[k].rec.loanApproved == Where(marked, 0)[k].rec.loanApproved && |Recombined(marked)[k].dummies| == |vocab|
  {
    var nonFraud := Where(marked, 0);
    RecombinedLength(marked);
    forall k | 0 <= k < |nonFraud|
      ensures Recombined(marked)[k].rec.loanApproved == nonFraud[k].rec.loanApproved && |Recombined(marked)[k].dummies| == |vocab|
    {
      RecombinedNonFraudKept(nonFraud, Where(marked, 1), k);
      WhereMembers(marked, 0, nonFraud[k]);
      MarkedRow(marked, vocab, nonFraud[k]);
    }
  }

  /** The fraud part of the recombined frame: every label 0. */
  lemma RecombinedFraudRows(marked: seq<Row>, vocab: seq<string>)
    requires RowsLabelled(marked, vocab) && |Where(marked, 0)| + |Where(marked, 1)| == |marked|
    ensures |Recombined(marked)| == |marked|
    ensures forall k :: |Where(marked, 0)| <= k < |marked| ==>
      Recombined(marked)[k].rec.loanApproved == 0 && |Recombined(marked)[k].dummies| == |vocab|
  {
    RecombinedLength(marked);
    forall k | |Where(marked, 0)| <= k < |marked|
      ensures Recombined(marked)[k].rec.loanApproved == 0 && |Recombined(marked)[k].dummies| == |vocab|
    {
      RecombinedFraudRow(marked, vocab, k - |Where(marked, 0)|);
    }
  }

  lemma RecombinedFraudRow(marked: seq<Row>, vocab: seq<string>, j: int)
    requires RowsLabelled(marked, vocab) && |Where(marked, 0)| + |Where(marked, 1)| == |marked|
    requires 0 <= j < |Where(marked, 1)|
    ensures |Where(marked, 0)| + j < |Recombined(marked)|
    ensures Recombined(marked)[|Where(marked, 0)| + j].rec.loanApproved == 0
    ensures |Recombined(marked)[|Where(marked, 0)| + j].dummies| == |vocab|
  {
    var r := Where(marked, 1)[j];
    RecombinedFraudKept(Where(marked, 0), Where(marked, 1), j);
    WhereMembers(marked, 1, r);
    MarkedRow(marked, vocab, r);
  }

  /** A row of the marked frame has one dummy cell per vocabulary entry, and label 0 when it is flagged. */
  lemma MarkedRow(marked: seq<Row>, vocab: seq<string>, r: Row)
    requires RowsLabelled(marked, vocab)
    requires r in marked
    ensures |r.dummies| == |vocab| && (r.fraudFlag == 1 ==> r.rec.loanApproved == 0)
  {
    var j :| 0 <= j < |marked| && marked[j] == r;
  }

  /** When the mode fill succeeds it keeps every row in place, with all it had but the filled cells. */
  lemma ModeFillKept(rows: seq<Row>)
    requires ModesFilled(rows).Ok?
    ensures |ModesFilled(rows).value| == |rows|
    ensures forall i :: 0 <= i < |rows| ==> CategoriesOnly(rows[i], ModesFilled(rows).value[i])
    ensures forall i :: 0 <= i < |rows| ==> Kept(ModesFilled(rows).value[i]) == Kept(rows[i])
  {
    ModeErrors(rows);
    PresentUrbanEmpty(rows);
    PresentDependentsEmpty(rows);
    PresentEducationEmpty(rows);
    ModeValues(rows);
  }

  /**
   * After steps 7-10, X and y have a row per imputed row: y its label, and X
   * its dummy cells and, unchanged, the four numeric cells the median fills
   * wrote (credit score, with its -1 sentinel, included).
   */
  lemma FinishedRows(rows: seq<Row>, vocab: seq<string>, log1p: real -> real)
    requires Finished(rows, vocab, log1p).Ok?
    ensures
      var d := Finished(rows, vocab, log1p).value;
      && d.vocab == vocab && |d.x| == |rows| && |d.y| == |rows|
      && forall i :: 0 <= i < |rows| ==>
        && d.y[i] == rows[i].rec.loanApproved && d.x[i].reasonDummies == rows[i].dummies
        && d.x[i].workExperience == rows[i].rec.workExperience
        && d.x[i].monthlyIncome == rows[i].rec.monthlyIncome
        && d.x[i].creditScore == rows[i].rec.creditScore
        && d.x[i].avgMonthlyExpenses == rows[i].rec.avgMonthlyExpenses
  {
    ModeFillKept(rows);
    var filled := ModesFilled(rows).value;
    var t := RatingsStep(filled).value;
    EncodingRows(filled, t, log1p);
    forall i | 0 <= i < |rows| ensures CategoriesOnly(rows[i], filled[i]) {
    }
  }

  /**
   * The -1 credit-score sentinel of a first-time applicant (lines 71-72)
   * reaches X: the median and mode fills leave it in place.
   */
  lemma SentinelInFeatures(df: seq<Applicant>, log1p: real -> real)
    requires BaseSpec(df, log1p).Ok?
    ensures |CreditAdjusted(Recombined(FraudMarked(Dummied(df, DummyVocab(df)))))| == |df|
    ensures |BaseSpec(df, log1p).value.x| == |df|
    ensures forall i :: 0 <= i < |df| && CreditAdjusted(Recombined(FraudMarked(Dummied(df, DummyVocab(df)))))[i].firstTimeApplicant == 1 ==>
      BaseSpec(df, log1p).value.x[i].creditScore == Some(-1.0)
  {
    var recombined := Recombined(FraudMarked(Dummied(df, DummyVocab(df))));
    ImputedLabels(df);
    SentinelSurvives(recombined);
    BaseLabels(df, log1p);
    FinishedRows(Imputed(df), DummyVocab(df), log1p);
  }

  /**
   * A successful _base_preprocessing returns one row of X and one label per
   * input row: y holds the labels of the non-fraud rows in input order and
   * then a 0 for every fraud row, and every row of X has one dummy cell per
   * vocabulary entry.
   */
  lemma BaseLabels(df: seq<Applicant>, log1p: real -> real)
    requires BaseSpec(df, log1p).Ok?
    ensures
      var d := BaseSpec(df, log1p).value;
      && d.vocab == DummyVocab(df) && |d.x| == |df|
      && d.y == RecombinedLabels(df)
      && forall i :: 0 <= i < |df| ==> |d.x[i].reasonDummies| == |d.vocab|
  {
    var rows := Imputed(df);
    ImputedLabels(df);
    FinishedRows(rows, DummyVocab(df), log1p);
    var d := BaseSpec(df, log1p).value;
    assert d.y == RecombinedLabels(df);
  }
}
