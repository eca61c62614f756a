/**
 * The platform-ratings text, "Zomato:4.7; Swiggy:3.3": how the data
 * generator writes it, how it derives the feedback score from it, how the
 * training preprocessing reads it (split on "; ", one dictionary per item,
 * the first three items averaged) and how the prediction path reads it
 * (split on ';', strip, skip anything that does not parse).
 */
module Ratings {
  import opened Wrappers
  import opened Text
  import opened Stats

  // ---------------------------------------------------------------------
  // The generator side (src/components/data_ingestion.py)
  // ---------------------------------------------------------------------

  /**
   * A platform with its drawn rating. The rating is round(x, 1), so it is
   * kept as a whole number of tenths.
   */
  type Entry = (string, nat)

  /** The item f"{p}:{r}" for one platform. */
  function RatingItem(e: Entry): string
  {
    e.0 + ":" + FormatTenths(e.1)
  }

  function RatingItems(entries: seq<Entry>): (items: seq<string>)
    ensures |items| == |entries|
  {
    if |entries| == 0 then [] else [RatingItem(entries[0])] + RatingItems(entries[1..])
  }

  /** generate_platform_ratings: the items joined with "; ", in platform order. */
  function GeneratePlatformRatings(entries: seq<Entry>): string
  {
    Join(RatingItems(entries), "; ")
  }

  /** The ratings as numbers. */
  function RatingValues(entries: seq<Entry>): (vs: seq<real>)
    ensures |vs| == |entries|
  {
    if |entries| == 0 then [] else [entries[0].1 as real / 10.0] + RatingValues(entries[1..])
  }

  /**
   * A platform name the format can carry: no ':' or ';', and not starting
   * with whitespace (all of the generator's platform names qualify).
   */
  predicate CleanName(p: string)
  {
    ':' !in p && ';' !in p && (|p| == 0 || !IsSpace(p[0]))
  }

  predicate AllClean(entries: seq<Entry>)
  {
    forall k :: 0 <= k < |entries| ==> CleanName(entries[k].0)
  }

  /**
   * The part of the feedback score that comes from the ratings text:
   * mean(float(r.split(":")[1]) for r in ratings.split("; ")). None stands
   * for the IndexError or ValueError of an item that does not have that shape.
   */
  function FeedbackRatingsMean(ratings: string): Option<real>
  {
    match SecondFields(Split(ratings, "; "))
    case None => None
    case Some(vs) => Some(Mean(vs))
  }

  /** float(r.split(":")[1]) for every item r. */
  function SecondFields(items: seq<string>): (r: Option<seq<real>>)
    requires |items| > 0
    ensures r.Some? ==> |r.value| == |items|
  {
    var p := Split(items[0], ":");
    var head := if |p| >= 2 then ParseReal(p[1]) else None;
    if head.None? then None
    else if |items| == 1 then Some([head.value])
    else
      match SecondFields(items[1..])
      case None => None
      case Some(rest) => Some([head.value] + rest)
  }

  // ---------------------------------------------------------------------
  // Facts about the generated text
  // ---------------------------------------------------------------------

  /** A generated item holds no ';', and splits on ':' into the name and the printed rating. */
  lemma ItemShape(e: Entry)
    requires CleanName(e.0)
    ensures ';' !in RatingItem(e)
    ensures Split(RatingItem(e), ":") == [e.0, FormatTenths(e.1)]
  {
    var f := FormatTenths(e.1);
    FormatTenthsShape(e.1);
    assert ':' !in f;
    assert Join([e.0, f], ":") == RatingItem(e);
    SplitJoin([e.0, f], ":");
  }

  /** The rating of a generated item reads back as the drawn value. */
  lemma ItemValue(e: Entry)
    ensures ParseReal(FormatTenths(e.1)) == Some(e.1 as real / 10.0)
  {
    ParseFormatTenths(e.1);
  }

  lemma {:induction false} ItemsFree(entries: seq<Entry>)
    requires AllClean(entries)
    ensures forall k :: 0 <= k < |entries| ==> ';' !in RatingItems(entries)[k]
  {
    if |entries| > 0 {
      ItemShape(entries[0]);
      ItemsFree(entries[1..]);
    }
  }

  lemma GeneratedItems(entries: seq<Entry>)
    requires |entries| > 0 && AllClean(entries)
    ensures Split(GeneratePlatformRatings(entries), "; ") == RatingItems(entries)
  {
    ItemsFree(entries);
    SplitJoin(RatingItems(entries), "; ");
  }

  /** A generated item has a second field, and it reads back as the drawn rating. */
  lemma ItemSecondField(e: Entry)
    requires CleanName(e.0)
    ensures |Split(RatingItem(e), ":")| == 2
    ensures ParseReal(Split(RatingItem(e), ":")[1]) == Some(e.1 as real / 10.0)
  {
    ItemShape(e);
    ItemValue(e);
  }

  lemma ConsParts<T>(x: T, rest: seq<T>)
    ensures ([x] + rest)[0] == x && ([x] + rest)[1..] == rest
  {
  }

  lemma {:induction false} SecondFieldsOfItems(entries: seq<Entry>)
    requires |entries| > 0 && AllClean(entries)
    ensures SecondFields(RatingItems(entries)) == Some(RatingValues(entries))
  {
    var x := RatingItem(entries[0]);
    var rest := RatingItems(entries[1..]);
    ItemSecondField(entries[0]);
    ConsParts(x, rest);
    var v := entries[0].1 as real / 10.0;
    assert RatingValues(entries) == [v] + RatingValues(entries[1..]);
    if |entries| > 1 {
      SecondFieldsOfItems(entries[1..]);
    } else {
      assert RatingValues(entries[1..]) == [];
      assert [v] + [] == [v];
    }
  }

  /**
   * The feedback score's ratings term is the mean of the generated ratings:
   * splitting on "; " and then ':' recovers every rating exactly.
   */
  lemma FeedbackRoundTrip(entries: seq<Entry>)
    requires |entries| > 0 && AllClean(entries)
    ensures FeedbackRatingsMean(GeneratePlatformRatings(entries)) == Some(Mean(RatingValues(entries)))
  {
    GeneratedItems(entries);
    SecondFieldsOfItems(entries);
  }

  // ---------------------------------------------------------------------
  // The training path (src/components/data_preprocessing.py:84-91)
  // ---------------------------------------------------------------------

  /** The cells of one row of platform_ratings.str.split('; ', expand=True). */
  function RatingCells(ratings: string): (cells: seq<string>)
    ensures |cells| >= 1
  {
    Split(ratings, "; ")
  }

  /** dict([x.split(':')]): the single (name, rating) pair, or None for the ValueError of any other shape. */
  function RatingPair(cell: string): (pair: Option<(string, string)>)
    ensures pair.Some? <==> |Split(cell, ":")| == 2
    ensures pair.Some? ==> cell == pair.value.0 + ":" + pair.value.1
  {
    var p := Split(cell, ":");
    if |p| == 2 then
      SplitTwoPieces(cell, ":");
      Some((p[0], p[1]))
    else None
  }

  /** The pairs of one row, or None when some cell is malformed. */
  function RowPairs(cells: seq<string>): (pairs: Option<seq<(string, string)>>)
    ensures pairs.Some? ==> |pairs.value| == |cells|
  {
    if |cells| == 0 then Some([])
    else
      match RatingPair(cells[0])
      case None => None
      case Some(p) =>
        match RowPairs(cells[1..])
        case None => None
        case Some(rest) => Some([p] + rest)
  }

  /** float() of every rating value, or None when one does not parse. */
  function ParseValues(pairs: seq<(string, string)>): (vs: Option<seq<real>>)
    ensures vs.Some? ==> |vs.value| == |pairs|
  {
    if |pairs| == 0 then Some([])
    else
      match ParseReal(pairs[0].1)
      case None => None
      case Some(v) =>
        match ParseValues(pairs[1..])
        case None => None
        case Some(rest) => Some([v] + rest)
  }

  /** A row is read when every cell is a pair, and then gives exactly those pairs. */
  lemma {:induction false} RowPairsSpec(cells: seq<string>)
    ensures RowPairs(cells).Some? <==> forall k :: 0 <= k < |cells| ==> RatingPair(cells[k]).Some?
    ensures RowPairs(cells).Some? ==> forall k :: 0 <= k < |cells| ==> RowPairs(cells).value[k] == RatingPair(cells[k]).value
  {
    if |cells| > 0 {
      var rest := cells[1..];
      RowPairsSpec(rest);
      assert forall k :: 1 <= k < |cells| ==> cells[k] == rest[k - 1];
    }
  }

  /** Values that all parse give exactly the parsed numbers. */
  lemma {:induction false} ParseValuesOf(pairs: seq<(string, string)>, vs: seq<real>)
    requires |vs| == |pairs|
    requires forall k :: 0 <= k < |pairs| ==> ParseReal(pairs[k].1) == Some(vs[k])
    ensures ParseValues(pairs) == Some(vs)
  {
    if |pairs| > 0 {
      ParseValuesOf(pairs[1..], vs[1..]);
      assert vs == [vs[0]] + vs[1..];
    }
  }

  /** One value float() rejects makes the whole row fail. */
  lemma {:induction false} ParseValuesFails(pairs: seq<(string, string)>, k: nat)
    requires k < |pairs| && ParseReal(pairs[k].1).None?
    ensures ParseValues(pairs).None?
  {
    if k > 0 {
      ParseValuesFails(pairs[1..], k - 1);
    }
  }

  function Min(a: nat, b: nat): nat
  {
    if a <= b then a else b
  }

  /**
   * avg_platform_rating of one row: calculate_avg over columns 0, 1 and 2
   * (a one-pair dictionary averages to its value, an empty cell gives NaN)
   * and mean(axis=1), which skips the NaN cells. None is the ValueError of
   * a value float() rejects.
   */
  function RowAverage(pairs: seq<(string, string)>): Option<real>
    requires |pairs| > 0
  {
    match ParseValues(pairs[..Min(3, |pairs|)])
    case None => None
    case Some(vs) => Some(Mean(vs))
  }

  /** The pairs a generated string holds. */
  function GeneratedPairs(entries: seq<Entry>): (pairs: seq<(string, string)>)
    ensures |pairs| == |entries|
  {
    if |entries| == 0 then [] else [(entries[0].0, FormatTenths(entries[0].1))] + GeneratedPairs(entries[1..])
  }

  lemma {:induction false} RowPairsOfItems(entries: seq<Entry>)
    requires AllClean(entries)
    ensures RowPairs(RatingItems(entries)) == Some(GeneratedPairs(entries))
  {
    if |entries| > 0 {
      ItemShape(entries[0]);
      RowPairsOfItems(entries[1..]);
    }
  }

  lemma {:induction false} ValuesOfPairs(entries: seq<Entry>)
    ensures ParseValues(GeneratedPairs(entries)) == Some(RatingValues(entries))
  {
    if |entries| > 0 {
      ItemValue(entries[0]);
      ValuesOfPairs(entries[1..]);
      assert RatingValues(entries) == [entries[0].1 as real / 10.0] + RatingValues(entries[1..]);
    }
  }

  lemma {:induction false} GeneratedPairsPrefix(entries: seq<Entry>, n: nat)
    requires n <= |entries|
    ensures GeneratedPairs(entries)[..n] == GeneratedPairs(entries[..n])
  {
    if n > 0 {
      GeneratedPairsPrefix(entries[1..], n - 1);
      assert entries[..n][1..] == entries[1..][..n - 1];
    }
  }

  lemma TakeAll<T>(s: seq<T>)
    ensures s[..|s|] == s
  {
  }

  /**
   * The training path recovers the mean of the generated ratings for the
   * generator's one to three platforms.
   */
  lemma TrainingRoundTrip(entries: seq<Entry>)
    requires 0 < |entries| <= 3 && AllClean(entries)
    ensures RowPairs(RatingCells(GeneratePlatformRatings(entries))) == Some(GeneratedPairs(entries))
    ensures RowAverage(GeneratedPairs(entries)) == Some(Mean(RatingValues(entries)))
  {
    GeneratedItems(entries);
    RowPairsOfItems(entries);
    var pairs := GeneratedPairs(entries);
    TakeAll(pairs);
    ValuesOfPairs(entries);
  }

  /**
   * With more than three platforms the training path averages only the
   * first three ratings.
   */
  lemma TrainingUsesFirstThree(entries: seq<Entry>)
    requires |entries| > 3 && AllClean(entries)
    ensures RowPairs(RatingCells(GeneratePlatformRatings(entries))) == Some(GeneratedPairs(entries))
    ensures RowAverage(GeneratedPairs(entries)) == Some(Mean(RatingValues(entries[..3])))
  {
    GeneratedItems(entries);
    RowPairsOfItems(entries);
    GeneratedPairsPrefix(entries, 3);
    ValuesOfPairs(entries[..3]);
  }

  // ---------------------------------------------------------------------
  // The prediction path (src/components/data_preprocessing.py:191-213)
  // ---------------------------------------------------------------------

  /** [item.strip() for item in pieces if item.strip()] */
  function NonEmptyStripped(pieces: seq<string>): (items: seq<string>)
    ensures |items| <= |pieces|
  {
    if |pieces| == 0 then []
    else
      var front := NonEmptyStripped(pieces[..|pieces| - 1]);
      var last := Strip(pieces[|pieces| - 1]);
      if last == "" then front else front + [last]
  }

  /** The items of a ratings string: split on ';', stripped, empty ones dropped. */
  function Items(ratingStr: string): seq<string>
  {
    NonEmptyStripped(Split(ratingStr, ";"))
  }

  /** An item's score: it must split on ':' into exactly two parts, and float() must accept the second. */
  function ItemRating(item: string): Option<real>
  {
    var parts := Split(item, ":");
    if |parts| == 2 then ParseReal(Strip(parts[1])) else None
  }

  /** The score of every item, None where the item is skipped. */
  function Scores(items: seq<string>): (scores: seq<Option<real>>)
    ensures |scores| == |items|
  {
    seq(|items|, k requires 0 <= k < |items| => ItemRating(items[k]))
  }

  /** The present values, in order. */
  function Somes(os: seq<Option<real>>): (vs: seq<real>)
    ensures |vs| <= |os|
  {
    if |os| == 0 then []
    else
      var front := Somes(os[..|os| - 1]);
      match os[|os| - 1]
      case Some(v) => front + [v]
      case None => front
  }

  /** The scores of the items that have one, in order. */
  function KeptRatings(items: seq<string>): (ratings: seq<real>)
    ensures |ratings| <= |items|
  {
    Somes(Scores(items))
  }

  /** What calculate_average_platform_rating returns: the mean of the kept scores, or 0.0 when there are none. */
  function AverageRating(ratingStr: string): real
  {
    var ratings := KeptRatings(Items(ratingStr));
    if |ratings| == 0 then 0.0 else Mean(ratings)
  }

  /**
   * calculate_average_platform_rating: collects the scores item by item and
   * averages them. It is total: every string gets a value.
   */
  method CalculateAveragePlatformRating(ratingStr: string) returns (avg: real)
    ensures avg == AverageRating(ratingStr)
  {
    var items := Items(ratingStr);
    var ratings: seq<real> := [];
    for i := 0 to |items|
      invariant ratings == Somes(Scores(items)[..i])
    {
      assert Scores(items)[..i + 1][..i] == Scores(items)[..i];
      var parts := Split(items[i], ":");
      if |parts| == 2 {
        var score := ParseReal(Strip(parts[1]));
        if score.Some? {
          ratings := ratings + [score.value];
        }
      }
    }
    assert Scores(items)[..|items|] == Scores(items);
    if |ratings| > 0 {
      avg := Mean(ratings);
    } else {
      avg := 0.0;
    }
  }

  /** The average lies within any bounds every kept score respects; with no score it is 0.0. */
  lemma AverageRatingWithin(ratingStr: string, lo: real, hi: real)
    requires forall k :: 0 <= k < |KeptRatings(Items(ratingStr))| ==> lo <= KeptRatings(Items(ratingStr))[k] <= hi
    ensures |KeptRatings(Items(ratingStr))| == 0 ==> AverageRating(ratingStr) == 0.0
    ensures |KeptRatings(Items(ratingStr))| > 0 ==> lo <= AverageRating(ratingStr) <= hi
  {
    var ratings := KeptRatings(Items(ratingStr));
    if |ratings| > 0 {
      MeanWithin(ratings, lo, hi);
    }
  }

  /** Present values distribute over concatenation. */
  lemma {:induction false} SomesAppend(a: seq<Option<real>>, b: seq<Option<real>>)
    ensures Somes(a + b) == Somes(a) + Somes(b)
    decreases |b|
  {
    if |b| == 0 {
      assert a + b == a;
    } else {
      var b' := b[..|b| - 1];
      assert (a + b)[..|a + b| - 1] == a + b';
      SomesAppend(a, b');
    }
  }

  /** Items are scored one by one: the kept scores of a concatenation are the concatenated kept scores. */
  lemma KeptAppend(a: seq<string>, b: seq<string>)
    ensures KeptRatings(a + b) == KeptRatings(a) + KeptRatings(b)
  {
    forall k | 0 <= k < |a + b| ensures Scores(a + b)[k] == (Scores(a) + Scores(b))[k] {
      var x := (a + b)[k];
      assert Scores(a + b)[k] == ItemRating(x);
      if k < |a| {
        assert x == a[k] && Scores(a)[k] == ItemRating(x);
      } else {
        assert x == b[k - |a|] && Scores(b)[k - |a|] == ItemRating(x);
      }
    }
    assert Scores(a + b) == Scores(a) + Scores(b);
    SomesAppend(Scores(a), Scores(b));
  }

  lemma {:induction false} StrippedAppend(a: seq<string>, b: seq<string>)
    ensures NonEmptyStripped(a + b) == NonEmptyStripped(a) + NonEmptyStripped(b)
    decreases |b|
  {
    if |b| == 0 {
      assert a + b == a;
    } else {
      var b' := b[..|b| - 1];
      assert (a + b)[..|a + b| - 1] == a + b';
      StrippedAppend(a, b');
    }
  }

  /** " " before every item. */
  function Prefixed(items: seq<string>): (r: seq<string>)
    ensures |r| == |items|
    ensures forall k :: 0 <= k < |items| ==> r[k] == " " + items[k]
  {
    seq(|items|, k requires 0 <= k < |items| => " " + items[k])
  }

  lemma PrependToJoin(p: string, xs: seq<string>, sep: string)
    requires |xs| > 0
    ensures p + Join(xs, sep) == Join([p + xs[0]] + xs[1..], sep)
  {
    var ys := [p + xs[0]] + xs[1..];
    assert ys[1..] == xs[1..];
  }

  /** Joining with "; " is joining with ';' after putting a space before every later item. */
  lemma {:induction false} JoinSpaced(items: seq<string>)
    requires |items| > 0
    ensures Join(items, "; ") == Join([items[0]] + Prefixed(items[1..]), ";")
  {
    if |items| > 1 {
      var rest := items[1..];
      JoinSpaced(rest);
      PrependToJoin(" ", [rest[0]] + Prefixed(rest[1..]), ";");
      assert Prefixed(rest) == [" " + rest[0]] + Prefixed(rest[1..]);
      assert Join(items, "; ") == items[0] + ";" + (" " + Join(rest, "; "));
      var ys := [items[0]] + Prefixed(rest);
      assert ys[1..] == Prefixed(rest);
    }
  }

  /** A generated item is its own strip(), with or without a space before it. */
  lemma StripItem(e: Entry)
    requires CleanName(e.0)
    ensures Strip(RatingItem(e)) == RatingItem(e)
    ensures Strip(" " + RatingItem(e)) == RatingItem(e)
  {
    var x := RatingItem(e);
    var f := FormatTenths(e.1);
    FormatTenthsShape(e.1);
    assert x == e.0 + ":" + f;
    assert x[|x| - 1] == f[|f| - 1];
    assert !IsSpace(x[0]);
    assert LStrip(x) == x;
    assert (" " + x)[1..] == x;
    assert LStrip(" " + x) == x;
    assert RStrip(x) == x;
  }

  /** The prediction parser scores a generated item with its rating. */
  lemma ItemRatingOf(e: Entry)
    requires CleanName(e.0)
    ensures ItemRating(RatingItem(e)) == Some(e.1 as real / 10.0)
  {
    ItemShape(e);
    FormatTenthsShape(e.1);
    var f := FormatTenths(e.1);
    assert LStrip(f) == f;
    assert RStrip(f) == f;
    ItemValue(e);
  }

  lemma PrefixedCons(x: string, rest: seq<string>)
    ensures Prefixed([x] + rest) == [" " + x] + Prefixed(rest)
  {
  }

  lemma StrippedSingle(p: string)
    requires Strip(p) != ""
    ensures NonEmptyStripped([p]) == [Strip(p)]
  {
    assert [p][..0] == [];
  }

  lemma {:induction false} StrippedItems(entries: seq<Entry>)
    requires AllClean(entries)
    ensures NonEmptyStripped(Prefixed(RatingItems(entries))) == RatingItems(entries)
  {
    if |entries| > 0 {
      var x := RatingItem(entries[0]);
      var rest := RatingItems(entries[1..]);
      StripItem(entries[0]);
      PrefixedCons(x, rest);
      StrippedAppend([" " + x], Prefixed(rest));
      StrippedSingle(" " + x);
      StrippedItems(entries[1..]);
    }
  }

  lemma {:induction false} ItemsAt(entries: seq<Entry>, k: nat)
    requires k < |entries|
    ensures RatingItems(entries)[k] == RatingItem(entries[k])
    ensures RatingValues(entries)[k] == entries[k].1 as real / 10.0
  {
    if k > 0 {
      ItemsAt(entries[1..], k - 1);
    }
  }

  /** Every value present: all of them are kept. */
  lemma {:induction false} SomesAll(os: seq<Option<real>>, vs: seq<real>)
    requires |os| == |vs|
    requires forall k :: 0 <= k < |os| ==> os[k] == Some(vs[k])
    ensures Somes(os) == vs
  {
    if |os| > 0 {
      var n := |os| - 1;
      SomesAll(os[..n], vs[..n]);
      assert vs == vs[..n] + [vs[n]];
    }
  }

  lemma KeptOfItems(entries: seq<Entry>)
    requires AllClean(entries)
    ensures KeptRatings(RatingItems(entries)) == RatingValues(entries)
  {
    var scores := Scores(RatingItems(entries));
    var vs := RatingValues(entries);
    forall k | 0 <= k < |entries|
      ensures scores[k] == Some(vs[k])
    {
      ItemsAt(entries, k);
      ItemRatingOf(entries[k]);
    }
    SomesAll(scores, vs);
  }

  /**
   * The prediction parser reads back the generated ratings: the average of
   * a generated string is the mean of the ratings drawn for it.
   */
  lemma PredictionRoundTrip(entries: seq<Entry>)
    requires |entries| > 0 && AllClean(entries)
    ensures AverageRating(GeneratePlatformRatings(entries)) == Mean(RatingValues(entries))
  {
    var items := RatingItems(entries);
    var x := items[0];
    var tail := RatingItems(entries[1..]);
    assert items == [x] + tail;
    JoinSpaced(items);
    var pieces := [x] + Prefixed(tail);
    ItemShape(entries[0]);
    ItemsFree(entries[1..]);
    forall k | 0 <= k < |pieces| ensures ';' !in pieces[k] {
      if k > 0 {
        assert pieces[k] == " " + tail[k - 1];
      }
    }
    SplitJoin(pieces, ";");
    StripItem(entries[0]);
    StrippedAppend([x], Prefixed(tail));
    StrippedItems(entries[1..]);
    assert NonEmptyStripped([x]) == [x];
    assert Items(GeneratePlatformRatings(entries)) == items;
    KeptOfItems(entries);
  }

  /** The platforms of the docstring example. */
  const ExampleEntries: seq<Entry> := [("Zomato", 47), ("Swiggy", 33)]

  lemma ExampleText()
    ensures GeneratePlatformRatings(ExampleEntries) == "Zomato:4.7; Swiggy:3.3"
  {
    ExampleItems();
    var items := ["Zomato:4.7", "Swiggy:3.3"];
    assert items[1..] == ["Swiggy:3.3"];
    assert Join(items[1..], "; ") == "Swiggy:3.3";
  }

  /** The two items of the example, in platform order. */
  lemma ExampleItems()
    ensures RatingItems(ExampleEntries) == ["Zomato:4.7", "Swiggy:3.3"]
  {
    ExampleItem("Zomato", 47, "Zomato:4.7");
    ExampleItem("Swiggy", 33, "Swiggy:3.3");
    var rest := ExampleEntries[1..];
    assert rest == [("Swiggy", 33)] && rest[1..] == [];
    assert RatingItems(rest) == ["Swiggy:3.3"];
  }

  lemma ExampleItem(name: string, tenths: nat, text: string)
    requires tenths == 47 || tenths == 33
    requires text == name + ":" + (if tenths == 47 then "4.7" else "3.3")
    ensures RatingItem((name, tenths)) == text
  {
    assert NatToString(4) == "4" && NatToString(3) == "3";
    assert FormatTenths(tenths) == (if tenths == 47 then "4.7" else "3.3");
  }

  lemma ExampleMean()
    ensures Mean(RatingValues(ExampleEntries)) == 4.0
  {
    var rest := ExampleEntries[1..];
    assert rest == [("Swiggy", 33)] && rest[1..] == [];
    assert RatingValues(rest) == [3.3];
    var vs := RatingValues(ExampleEntries);
    assert vs == [4.7, 3.3];
    assert vs[..1] == [4.7] && vs[..1][..0] == [];
    assert Sum([4.7]) == 4.7;
    assert Sum(vs) == 8.0;
  }

  /** The example of the docstring: "Zomato:4.7; Swiggy:3.3" averages to 4.0. */
  lemma DocstringExample()
    ensures AverageRating("Zomato:4.7; Swiggy:3.3") == 4.0
  {
    ExampleText();
    ExampleMean();
    PredictionRoundTrip(ExampleEntries);
  }
}
