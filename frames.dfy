/**
 * The working frame of the training preprocessing: the input columns plus
 * the columns the code adds on the way (the reason dummies, fraud_flag and
 * first_time_applicant), and the vectorised statements that rewrite it.
 *
 * Each `df.loc[mask, col] = value`, `df[col] = expr` and `fillna` statement
 * is a Step; applying it to every row of an array in place is ApplyInPlace.
 * Boolean selection (`df[df[col] == v]`) is Select.
 */
module Frames {
  import opened Wrappers
  import opened Schema

  datatype Row = Row(rec: Applicant, dummies: seq<int>, fraudFlag: int, firstTimeApplicant: int)

  /** The numeric columns that can hold NaN. */
  datatype NumColumn = WorkExperience | MonthlyIncome | SavingsBalance | AvgMonthlyExpenses | CreditScore

  function Get(a: Applicant, c: NumColumn): Option<real>
  {
    match c
    case WorkExperience => a.workExperience
    case MonthlyIncome => a.monthlyIncome
    case SavingsBalance => a.savingsBalance
    case AvgMonthlyExpenses => a.avgMonthlyExpenses
    case CreditScore => a.creditScore
  }

  function Set(a: Applicant, c: NumColumn, v: Option<real>): (b: Applicant)
    ensures Get(b, c) == v
    ensures forall d :: d != c ==> Get(b, d) == Get(a, d)
  {
    match c
    case WorkExperience => a.(workExperience := v)
    case MonthlyIncome => a.(monthlyIncome := v)
    case SavingsBalance => a.(savingsBalance := v)
    case AvgMonthlyExpenses => a.(avgMonthlyExpenses := v)
    case CreditScore => a.(creditScore := v)
  }

  /** The fraud condition: a work experience equal to 0 (NaN is not) and a missing monthly income. */
  predicate IsFraud(a: Applicant)
  {
    a.workExperience == Some(0.0) && a.monthlyIncome.None?
  }

  /** The first-time-applicant condition: a work experience equal to 0 and no existing loans. */
  predicate IsFirstTime(a: Applicant)
  {
    a.workExperience == Some(0.0) && a.existingLoans == 0.0
  }

  /** One vectorised statement of the training preprocessing, applied to every row. */
  datatype Step =
    | ZeroFraudLabels                            // loan_approved = 0 where the fraud condition holds
    | MarkFraud                                  // fraud_flag = the fraud condition as 0/1
    | FillNa(col: NumColumn, value: Option<real>) // fillna(value); None is a NaN median, which fills nothing
    | ReplaceZero(col: NumColumn, value: Option<real>) // col = value where col == 0
    | MarkFirstTime                              // first_time_applicant = the first-time condition as 0/1
    | CreditSentinel                             // credit_score = -1 where first_time_applicant == 1
    | FillUrbanRural(urbanFill: string)
    | FillDependents(dependentsFill: int)
    | FillEducation(educationFill: string)

  function ApplyStep(st: Step, r: Row): Row
  {
    match st
    case ZeroFraudLabels =>
      if IsFraud(r.rec) then r.(rec := r.rec.(loanApproved := 0)) else r
    case MarkFraud =>
      r.(fraudFlag := if IsFraud(r.rec) then 1 else 0)
    case FillNa(c, v) =>
      if Get(r.rec, c).None? then r.(rec := Set(r.rec, c, v)) else r
    case ReplaceZero(c, v) =>
      if Get(r.rec, c) == Some(0.0) then r.(rec := Set(r.rec, c, v)) else r
    case MarkFirstTime =>
      r.(firstTimeApplicant := if IsFirstTime(r.rec) then 1 else 0)
    case CreditSentinel =>
      if r.firstTimeApplicant == 1 then r.(rec := r.rec.(creditScore := Some(-1.0))) else r
    case FillUrbanRural(v) =>
      if r.rec.urbanRural.None? then r.(rec := r.rec.(urbanRural := Some(v))) else r
    case FillDependents(v) =>
      if r.rec.familyDependents.None? then r.(rec := r.rec.(familyDependents := Some(v))) else r
    case FillEducation(v) =>
      if r.rec.educationLevel.None? then r.(rec := r.rec.(educationLevel := Some(v))) else r
  }

  /** The frame after one statement: the statement applied to every row, rows in place. */
  function ApplyAll(st: Step, s: seq<Row>): (r: seq<Row>)
  {
    seq(|s|, i requires 0 <= i < |s| => ApplyStep(st, s[i]))
  }

  /** Runs one vectorised statement over the frame in place. */
  method ApplyInPlace(a: array<Row>, st: Step)
    modifies a
    ensures a[..] == ApplyAll(st, old(a[..]))
  {
    for i := 0 to a.Length
      invariant forall k :: 0 <= k < i ==> a[k] == ApplyStep(st, old(a[k]))
      invariant forall k :: i <= k < a.Length ==> a[k] == old(a[k])
    {
      a[i] := ApplyStep(st, a[i]);
    }
  }

  /** The rows whose fraud_flag equals flag, in their order. */
  function Where(s: seq<Row>, flag: int): (w: seq<Row>)
    ensures |w| <= |s|
    ensures forall k :: 0 <= k < |w| ==> w[k].fraudFlag == flag
  {
    if |s| == 0 then []
    else if s[|s| - 1].fraudFlag == flag then Where(s[..|s| - 1], flag) + [s[|s| - 1]]
    else Where(s[..|s| - 1], flag)
  }

  /** df[df['fraud_flag'] == flag].copy() */
  method Select(a: array<Row>, flag: int) returns (w: seq<Row>)
    ensures w == Where(a[..], flag)
  {
    w := [];
    for i := 0 to a.Length
      invariant w == Where(a[..i], flag)
    {
      assert a[..i + 1][..i] == a[..i];
      if a[i].fraudFlag == flag {
        w := w + [a[i]];
      }
    }
    assert a[..a.Length] == a[..];
  }

  /** A new array holding s. */
  method FromSeq(s: seq<Row>) returns (a: array<Row>)
    ensures fresh(a) && a[..] == s
  {
    a := new Row[|s|](i requires 0 <= i < |s| => s[i]);
  }

  /** The present values of a numeric column, in row order. */
  function Present(s: seq<Row>, c: NumColumn): (v: seq<real>)
    ensures |v| <= |s|
  {
    if |s| == 0 then []
    else
      match Get(s[|s| - 1].rec, c)
      case Some(x) => Present(s[..|s| - 1], c) + [x]
      case None => Present(s[..|s| - 1], c)
  }

  function PresentUrbanRural(s: seq<Row>): seq<string>
  {
    if |s| == 0 then []
    else
      match s[|s| - 1].rec.urbanRural
      case Some(x) => PresentUrbanRural(s[..|s| - 1]) + [x]
      case None => PresentUrbanRural(s[..|s| - 1])
  }

  function PresentDependents(s: seq<Row>): seq<int>
  {
    if |s| == 0 then []
    else
      match s[|s| - 1].rec.familyDependents
      case Some(x) => PresentDependents(s[..|s| - 1]) + [x]
      case None => PresentDependents(s[..|s| - 1])
  }

  function PresentEducation(s: seq<Row>): seq<string>
  {
    if |s| == 0 then []
    else
      match s[|s| - 1].rec.educationLevel
      case Some(x) => PresentEducation(s[..|s| - 1]) + [x]
      case None => PresentEducation(s[..|s| - 1])
  }

  /** A value is present in a column exactly when some row holds it. */
  lemma {:induction false} PresentMembers(s: seq<Row>, c: NumColumn, x: real)
    ensures x in Present(s, c) <==> exists i :: 0 <= i < |s| && Get(s[i].rec, c) == Some(x)
  {
    if |s| > 0 {
      var t := s[..|s| - 1];
      PresentMembers(t, c, x);
      if x in Present(t, c) {
        var i :| 0 <= i < |t| && Get(t[i].rec, c) == Some(x);
        assert s[i] == t[i];
      }
      if exists i :: 0 <= i < |s| && Get(s[i].rec, c) == Some(x) {
        var i :| 0 <= i < |s| && Get(s[i].rec, c) == Some(x);
        if i < |t| {
          assert t[i] == s[i];
        }
      }
    }
  }

  /** Every row has flag 0 or 1, so the two selections together are as long as the frame. */
  lemma {:induction false} WhereCount(s: seq<Row>)
    requires forall i :: 0 <= i < |s| ==> s[i].fraudFlag == 0 || s[i].fraudFlag == 1
    ensures |Where(s, 0)| + |Where(s, 1)| == |s|
  {
    if |s| > 0 {
      WhereCount(s[..|s| - 1]);
    }
  }

  /** Selecting by flag and concatenating keeps every row: the two groups partition the frame. */
  lemma {:induction false} WherePartition(s: seq<Row>)
    requires forall i :: 0 <= i < |s| ==> s[i].fraudFlag == 0 || s[i].fraudFlag == 1
    ensures multiset(Where(s, 0) + Where(s, 1)) == multiset(s)
  {
    if |s| > 0 {
      var t, last := s[..|s| - 1], s[|s| - 1];
      WherePartition(t);
      assert s == t + [last];
      assert multiset(s) == multiset(t) + multiset{last};
      var w0, w1 := Where(t, 0), Where(t, 1);
      if last.fraudFlag == 0 {
        assert Where(s, 0) == w0 + [last] && Where(s, 1) == w1;
        assert multiset(w0 + [last] + w1) == multiset(w0 + w1) + multiset{last};
      } else {
        assert Where(s, 0) == w0 && Where(s, 1) == w1 + [last];
        assert multiset(w0 + (w1 + [last])) == multiset(w0 + w1) + multiset{last};
      }
    }
  }

  /** A statement that keeps a column keeps its present values. */
  lemma {:induction false} PresentUnchanged(s: seq<Row>, s': seq<Row>, c: NumColumn)
    requires |s| == |s'|
    requires forall i :: 0 <= i < |s| ==> Get(s[i].rec, c) == Get(s'[i].rec, c)
    ensures Present(s, c) == Present(s', c)
  {
    if |s| > 0 {
      PresentUnchanged(s[..|s| - 1], s'[..|s| - 1], c);
    }
  }

  /** The present values of a column split by flag are, together, those of the whole frame. */
  lemma {:induction false} PresentPartition(s: seq<Row>, c: NumColumn)
    requires forall i :: 0 <= i < |s| ==> s[i].fraudFlag == 0 || s[i].fraudFlag == 1
    ensures multiset(Present(Where(s, 0), c)) + multiset(Present(Where(s, 1), c)) == multiset(Present(s, c))
  {
    if |s| > 0 {
      var t, last := s[..|s| - 1], s[|s| - 1];
      assert s == t + [last];
      PresentPartition(t, c);
      PresentLast(t, last, c);
      var w0, w1 := Where(t, 0), Where(t, 1);
      if last.fraudFlag == 0 {
        assert Where(s, 0) == w0 + [last] && Where(s, 1) == w1;
        PresentLast(w0, last, c);
      } else {
        assert Where(s, 0) == w0 && Where(s, 1) == w1 + [last];
        PresentLast(w1, last, c);
      }
    }
  }

  /** The value a row contributes to the present values of a column. */
  function Cell(r: Row, c: NumColumn): seq<real>
  {
    if Get(r.rec, c).Some? then [Get(r.rec, c).value] else []
  }

  lemma PresentLast(s: seq<Row>, r: Row, c: NumColumn)
    ensures Present(s + [r], c) == Present(s, c) + Cell(r, c)
  {
    assert (s + [r])[..|s|] == s;
  }

  /** Present distributes over concatenation. */
  lemma {:induction false} PresentAppend(s: seq<Row>, u: seq<Row>, c: NumColumn)
    ensures Present(s + u, c) == Present(s, c) + Present(u, c)
    decreases |u|
  {
    if |u| == 0 {
      assert s + u == s;
    } else {
      var u' := u[..|u| - 1];
      var last := u[|u| - 1];
      assert (s + u)[..|s + u| - 1] == s + u';
      assert (s + u)[|s + u| - 1] == last;
      PresentAppend(s, u', c);
      match Get(last.rec, c)
      case Some(x) =>
        calc {
          Present(s + u, c);
          Present(s + u', c) + [x];
          Present(s, c) + Present(u', c) + [x];
          Present(s, c) + Present(u, c);
        }
      case None =>
    }
  }
}
