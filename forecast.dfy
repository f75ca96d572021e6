/**
 * The date side of the trend forecast: sorting (date, amount) rows and attaching
 * day ordinals, generating the forecast dates `start + i days` with their ISO
 * strings and ordinals, and the two extrapolators. The least-squares fit itself is
 * a parameter `fit`; a fitted model is the affine map `Trend`.
 */
module Forecast {
  import opened Wrappers
  import opened Calendar

  /** One row of the (date, amount) data frame. */
  datatype Row = Row(date: Date, amount: int)

  /** A row after preprocessing, with its `date_ordinal` column. */
  datatype OrdinalRow = OrdinalRow(date: Date, amount: int, dateOrdinal: int)

  /** A fitted linear model: prediction = coef * ordinal + intercept. */
  datatype Trend = Trend(coef: real, intercept: real)

  /** The dates as `YYYY-MM-DD` strings and one predicted value per date. */
  datatype Prediction = Prediction(dates: seq<string>, values: seq<real>)

  /** Python's `OverflowError` from `start_date + timedelta(days=i)` past 9999-12-31. */
  datatype ForecastError =
    | DateOverflow  // `date + timedelta` raised `OverflowError`
    | EmptyBatch    // `LinearRegression.predict` raised `ValueError` on zero samples

  function Key(r: Row): int {
    ToOrdinal(r.date)
  }

  predicate SortedByDate(s: seq<Row>) {
    forall i, j :: 0 <= i < j < |s| ==> Key(s[i]) <= Key(s[j])
  }

  lemma SortedCons(x: Row, s: seq<Row>)
    requires SortedByDate(s) && (s == [] || Key(x) <= Key(s[0]))
    ensures SortedByDate([x] + s)
  {
  }

  function InsertByDate(r: Row, s: seq<Row>): (t: seq<Row>)
    requires SortedByDate(s)
    ensures multiset(t) == multiset(s) + multiset{r}
    ensures |t| == |s| + 1 && (t[0] == r || (s != [] && t[0] == s[0]))
    ensures SortedByDate(t)
  {
    if s == [] || Key(r) <= Key(s[0]) then
      SortedCons(r, s);
      [r] + s
    else
      var rest := InsertByDate(r, s[1..]);
      InsertAfterHead(r, s, rest);
      [s[0]] + rest
  }

  /** A row that goes after the head of `s`: the head followed by the insertion into the tail. */
  lemma InsertAfterHead(r: Row, s: seq<Row>, rest: seq<Row>)
    requires SortedByDate(s) && s != [] && Key(s[0]) < Key(r)
    requires multiset(rest) == multiset(s[1..]) + multiset{r} && SortedByDate(rest)
    requires |rest| == |s| && (rest[0] == r || (|s| > 1 && rest[0] == s[1]))
    ensures multiset([s[0]] + rest) == multiset(s) + multiset{r}
    ensures SortedByDate([s[0]] + rest)
  {
    assert s == [s[0]] + s[1..];
    SortedCons(s[0], rest);
  }

  /** `sort_values(by="date")`: the rows in non-decreasing date order. */
  function SortByDate(s: seq<Row>): (t: seq<Row>)
    ensures SortedByDate(t) && multiset(t) == multiset(s)
  {
    if s == [] then []
    else
      assert s == [s[0]] + s[1..];
      InsertByDate(s[0], SortByDate(s[1..]))
  }

  /** The rows without their ordinal column. */
  function Rows(s: seq<OrdinalRow>): (t: seq<Row>)
    ensures |t| == |s| && forall i :: 0 <= i < |s| ==> t[i] == Row(s[i].date, s[i].amount)
  {
    seq(|s|, i requires 0 <= i < |s| => Row(s[i].date, s[i].amount))
  }

  /** What `preprocess_date_data` returns for `data`: a sorted permutation with correct ordinals. */
  ghost predicate Preprocessed(out: seq<OrdinalRow>, data: seq<Row>) {
    && multiset(Rows(out)) == multiset(data)
    && (forall i, j :: 0 <= i < j < |out| ==> out[i].dateOrdinal <= out[j].dateOrdinal)
    && (forall i :: 0 <= i < |out| ==> out[i].dateOrdinal == ToOrdinal(out[i].date))
  }

  /** `preprocess_date_data`: sort by date, then fill the `date_ordinal` column row by row. */
  method PreprocessDateData(data: seq<Row>) returns (out: seq<OrdinalRow>)
    ensures |out| == |data|
    ensures multiset(Rows(out)) == multiset(data)
    ensures forall i, j :: 0 <= i < j < |out| ==> out[i].dateOrdinal <= out[j].dateOrdinal
    ensures forall i :: 0 <= i < |out| ==> out[i].dateOrdinal == ToOrdinal(out[i].date)
  {
    var sorted := SortByDate(data);
    out := AttachOrdinals(sorted);
    WithOrdinalsPreprocessed(out, sorted, data);
  }

  /** The `apply` over the date column: each row with its ordinal, in the same order. */
  method AttachOrdinals(sorted: seq<Row>) returns (out: seq<OrdinalRow>)
    ensures |out| == |sorted| && forall k :: 0 <= k < |out| ==> out[k] == WithOrdinal(sorted[k])
  {
    out := [];
    var i := 0;
    while i < |sorted|
      invariant 0 <= i <= |sorted| && |out| == i
      invariant forall k :: 0 <= k < i ==> out[k] == WithOrdinal(sorted[k])
    {
      out := out + [WithOrdinal(sorted[i])];
      i := i + 1;
    }
  }

  /** A row with its `date_ordinal` column filled in. */
  function WithOrdinal(r: Row): OrdinalRow {
    OrdinalRow(r.date, r.amount, ToOrdinal(r.date))
  }

  /** The sorted rows with their ordinals attached are what preprocessing promises. */
  lemma WithOrdinalsPreprocessed(out: seq<OrdinalRow>, sorted: seq<Row>, data: seq<Row>)
    requires sorted == SortByDate(data)
    requires |out| == |sorted| && forall k :: 0 <= k < |out| ==> out[k] == WithOrdinal(sorted[k])
    ensures |out| == |data|
    ensures multiset(Rows(out)) == multiset(data)
    ensures forall i, j :: 0 <= i < j < |out| ==> out[i].dateOrdinal <= out[j].dateOrdinal
    ensures forall i :: 0 <= i < |out| ==> out[i].dateOrdinal == ToOrdinal(out[i].date)
  {
    assert Rows(out) == sorted;
    assert |multiset(sorted)| == |multiset(data)|;
    SortedOrdinals(out, sorted);
  }

  /** Rows that are sorted by date, with their ordinals attached, are sorted by ordinal. */
  lemma SortedOrdinals(out: seq<OrdinalRow>, sorted: seq<Row>)
    requires Rows(out) == sorted && SortedByDate(sorted)
    requires forall k :: 0 <= k < |out| ==> out[k].dateOrdinal == ToOrdinal(out[k].date)
    ensures forall i, j :: 0 <= i < j < |out| ==> out[i].dateOrdinal <= out[j].dateOrdinal
  {
    forall i, j | 0 <= i < j < |out| ensures out[i].dateOrdinal <= out[j].dateOrdinal {
      assert Key(sorted[i]) <= Key(sorted[j]);
      assert Rows(out)[i] == sorted[i] && Rows(out)[j] == sorted[j];
    }
  }

  /** The model's prediction at a day ordinal. */
  function Predict(t: Trend, ordinal: int): real {
    t.coef * ordinal as real + t.intercept
  }

  /** `[start_date + timedelta(days=i) for i in range(n)]`, or `None` when a date overflows. */
  function FutureDates(start: Date, n: int): (r: Option<seq<Date>>)
    ensures r.Some? <==> n <= 0 || ToOrdinal(start) + n - 1 <= MaxOrdinal
    ensures r.Some? ==> |r.value| == (if n <= 0 then 0 else n)
    ensures r.Some? ==> forall i :: 0 <= i < |r.value| ==> ToOrdinal(r.value[i]) == ToOrdinal(start) + i
  {
    if n <= 0 then Some([])
    else
      match FutureDates(start, n - 1)
      case None => None
      case Some(prefix) =>
        match AddDays(start, n - 1)
        case None => None
        case Some(last) => Some(prefix + [last])
  }

  /** Each of `ds` rendered `YYYY-MM-DD`. */
  function IsoDates(ds: seq<Date>): (r: seq<string>)
    ensures |r| == |ds| && forall i :: 0 <= i < |ds| ==> r[i] == IsoDate(ds[i])
  {
    seq(|ds|, i requires 0 <= i < |ds| => IsoDate(ds[i]))
  }

  /** The model's prediction at the ordinal of each of `ds`. */
  function Predictions(model: Trend, ds: seq<Date>): (r: seq<real>)
    ensures |r| == |ds| && forall i :: 0 <= i < |ds| ==> r[i] == Predict(model, ToOrdinal(ds[i]))
  {
    seq(|ds|, i requires 0 <= i < |ds| => Predict(model, ToOrdinal(ds[i])))
  }

  /** A date of the sequence `FutureDates` builds is the day with its ordinal. */
  lemma FutureDateAt(start: Date, n: int, i: int)
    requires FutureDates(start, n).Some? && 0 <= i < |FutureDates(start, n).value|
    ensures 1 <= ToOrdinal(start) + i <= MaxOrdinal
    ensures FutureDates(start, n).value[i] == FromOrdinal(ToOrdinal(start) + i)
  {
    var d := FutureDates(start, n).value[i];
    assert ToOrdinal(d) == ToOrdinal(start) + i;
    FromToOrdinal(d);
  }

  /** The rendered dates and the predictions at the dates `FutureDates` builds, one by one. */
  lemma ForecastAt(model: Trend, start: Date, n: int)
    requires FutureDates(start, n).Some?
    ensures forall i :: 0 <= i < |FutureDates(start, n).value| ==>
      && 1 <= ToOrdinal(start) + i <= MaxOrdinal
      && IsoDates(FutureDates(start, n).value)[i] == IsoDate(FromOrdinal(ToOrdinal(start) + i))
      && Predictions(model, FutureDates(start, n).value)[i] == Predict(model, ToOrdinal(start) + i)
  {
    var ds := FutureDates(start, n).value;
    forall i | 0 <= i < |ds|
      ensures 1 <= ToOrdinal(start) + i <= MaxOrdinal
      ensures IsoDates(ds)[i] == IsoDate(FromOrdinal(ToOrdinal(start) + i))
      ensures Predictions(model, ds)[i] == Predict(model, ToOrdinal(start) + i)
    {
      FutureDateAt(start, n, i);
      PredictionAt(model, ds, ToOrdinal(start) + i, i);
    }
  }

  /** The prediction at a date is the prediction at its ordinal. */
  lemma PredictionAt(model: Trend, ds: seq<Date>, ordinal: int, i: int)
    requires 0 <= i < |ds| && ToOrdinal(ds[i]) == ordinal
    ensures Predictions(model, ds)[i] == Predict(model, ordinal)
  {
  }

  /**
   * `predict_future_data`: the `n` consecutive dates from `start` (the i-th is the day
   * whose ordinal is `start.toordinal() + i`) rendered `YYYY-MM-DD`, and the model's
   * prediction at each of those ordinals. A date past 9999-12-31 fails first; with no
   * date at all (`n <= 0`) the model is asked to predict an empty batch, which it refuses.
   */
  function PredictFutureData(model: Trend, start: Date, n: int): (r: Result<Prediction, ForecastError>)
    ensures r == Failure(DateOverflow) <==> 0 < n && MaxOrdinal < ToOrdinal(start) + n - 1
    ensures r == Failure(EmptyBatch) <==> n <= 0
    ensures r.Success? <==> 0 < n && ToOrdinal(start) + n - 1 <= MaxOrdinal
    ensures r.Success? ==> |r.value.dates| == |r.value.values| == n
    ensures r.Success? ==> forall i :: 0 <= i < |r.value.dates| ==>
      r.value.dates[i] == IsoDate(FromOrdinal(ToOrdinal(start) + i))
    ensures r.Success? ==> forall i :: 0 <= i < |r.value.values| ==>
      r.value.values[i] == Predict(model, ToOrdinal(start) + i)
  {
    match FutureDates(start, n)
    case None => Failure(DateOverflow)
    case Some(ds) =>
      if n <= 0 then Failure(EmptyBatch)
      else
        ForecastAt(model, start, n);
        Success(Prediction(IsoDates(ds), Predictions(model, ds)))
  }

  /** The first forecast date is the start date itself. */
  lemma FirstPredictedDateIsStart(model: Trend, start: Date, n: int)
    requires PredictFutureData(model, start, n).Success?
    ensures PredictFutureData(model, start, n).value.dates[0] == IsoDate(start)
  {
    var p := PredictFutureData(model, start, n).value;
    assert p.dates[0] == IsoDate(FromOrdinal(ToOrdinal(start) + 0));
    FromToOrdinal(start);
  }

  /** Every forecast string reads back as the date `start + i days`. */
  lemma PredictedDateReadsBack(model: Trend, start: Date, n: int, i: int)
    requires PredictFutureData(model, start, n).Success? && 0 <= i < n
    ensures var s := PredictFutureData(model, start, n).value.dates[i];
      ParseIsoDate(s).Some? && ToOrdinal(ParseIsoDate(s).value) == ToOrdinal(start) + i
  {
    var d := FromOrdinal(ToOrdinal(start) + i);
    assert PredictFutureData(model, start, n).value.dates[i] == IsoDate(d);
    ParseIsoDateOfIsoDate(d);
  }

  /** Consecutive forecast strings name consecutive days. */
  lemma PredictedDatesConsecutive(model: Trend, start: Date, n: int, i: int)
    requires PredictFutureData(model, start, n).Success?
    requires 0 <= i && i + 1 < n
    ensures var p := PredictFutureData(model, start, n).value;
      && ParseIsoDate(p.dates[i]).Some? && ParseIsoDate(p.dates[i + 1]).Some?
      && ToOrdinal(ParseIsoDate(p.dates[i + 1]).value) == ToOrdinal(ParseIsoDate(p.dates[i]).value) + 1
  {
    PredictedDateReadsBack(model, start, n, i);
    PredictedDateReadsBack(model, start, n, i + 1);
  }

  /** The forecast never names a day twice. */
  lemma PredictedDatesDistinct(model: Trend, start: Date, n: int, i: int, j: int)
    requires PredictFutureData(model, start, n).Success?
    requires 0 <= i < j < n
    ensures PredictFutureData(model, start, n).value.dates[i] != PredictFutureData(model, start, n).value.dates[j]
  {
    PredictedDateReadsBack(model, start, n, i);
    PredictedDateReadsBack(model, start, n, j);
  }

  /** A line's prediction one day later is its prediction plus the slope. */
  lemma PredictStep(t: Trend, ordinal: int, next: int)
    requires next == ordinal + 1
    ensures Predict(t, next) == Predict(t, ordinal) + t.coef
  {
    assert next as real == ordinal as real + 1.0;
    assert t.coef * (ordinal as real + 1.0) == t.coef * ordinal as real + t.coef;
  }

  /** Predictions at two dates a day apart differ by the slope. */
  lemma PredictionsStep(model: Trend, ds: seq<Date>, i: int)
    requires 0 <= i && i + 1 < |ds| && ToOrdinal(ds[i + 1]) == ToOrdinal(ds[i]) + 1
    ensures Predictions(model, ds)[i + 1] == Predictions(model, ds)[i] + model.coef
  {
    PredictStep(model, ToOrdinal(ds[i]), ToOrdinal(ds[i + 1]));
  }

  /** Consecutive forecast values differ by the fitted slope. */
  lemma PredictedValuesStep(model: Trend, start: Date, n: int, i: int)
    requires PredictFutureData(model, start, n).Success?
    requires 0 <= i && i + 1 < n
    ensures PredictFutureData(model, start, n).value.values[i + 1]
         == PredictFutureData(model, start, n).value.values[i] + model.coef
  {
    var ds := FutureDates(start, n).value;
    assert PredictFutureData(model, start, n).value.values == Predictions(model, ds);
    PredictionsStep(model, ds, i);
  }

  /** The latest date among the rows. */
  function LatestDate(data: seq<Row>): (d: Date)
    requires data != []
    ensures exists i :: 0 <= i < |data| && data[i].date == d
    ensures forall i :: 0 <= i < |data| ==> ToOrdinal(data[i].date) <= ToOrdinal(d)
  {
    if |data| == 1 then data[0].date
    else
      var rest := LatestDate(data[1..]);
      if ToOrdinal(rest) < ToOrdinal(data[0].date) then data[0].date else rest
  }

  /** The last row of a sorted permutation carries the latest date. */
  lemma LastIsLatest(out: seq<OrdinalRow>, data: seq<Row>)
    requires data != [] && |out| == |data| && Preprocessed(out, data)
    ensures out[|out| - 1].date == LatestDate(data)
  {
    var last := out[|out| - 1];
    var latest := LatestDate(data);
    assert Rows(out)[|out| - 1] in multiset(data);
    var i :| 0 <= i < |data| && data[i].date == latest;
    assert data[i] in multiset(Rows(out));
    var k :| 0 <= k < |out| && Rows(out)[k] == data[i];
    assert ToOrdinal(out[k].date) <= ToOrdinal(last.date);
    OrdinalInjective(last.date, latest);
  }

  /**
   * `extrapolate_data_from_date`: `([], [])` for no data; otherwise fit the preprocessed
   * rows and predict `daysToPredict` days from `startDate`.
   */
  method ExtrapolateDataFromDate(data: seq<Row>, fit: seq<OrdinalRow> -> Trend, startDate: Date, daysToPredict: int)
    returns (r: Result<Prediction, ForecastError>, ghost trained: seq<OrdinalRow>)
    ensures data == [] ==> r == Success(Prediction([], []))
    ensures data != [] ==> Preprocessed(trained, data) && |trained| == |data|
    ensures data != [] ==> r == PredictFutureData(fit(trained), startDate, daysToPredict)
  {
    if data == [] {
      return Success(Prediction([], [])), [];
    }
    var rows := PreprocessDateData(data);
    var model := fit(rows);
    r := PredictFutureData(model, startDate, daysToPredict);
    trained := rows;
  }

  /**
   * `extrapolate_data`: like the above, but starting at the date of the last row after
   * sorting, so the first forecast date is the latest historical date.
   */
  method ExtrapolateData(data: seq<Row>, fit: seq<OrdinalRow> -> Trend, daysToPredict: int)
    returns (r: Result<Prediction, ForecastError>, ghost trained: seq<OrdinalRow>)
    ensures data == [] ==> r == Success(Prediction([], []))
    ensures data != [] ==> Preprocessed(trained, data) && |trained| == |data|
    ensures data != [] ==> r == PredictFutureData(fit(trained), LatestDate(data), daysToPredict)
    ensures data != [] && r.Success? ==> r.value.dates[0] == IsoDate(LatestDate(data))
  {
    if data == [] {
      return Success(Prediction([], [])), [];
    }
    var rows := PreprocessDateData(data);
    var model := fit(rows);
    var startDate := rows[|rows| - 1].date;
    LastIsLatest(rows, data);
    r := PredictFutureData(model, startDate, daysToPredict);
    trained := rows;
    if r.Success? {
      FirstPredictedDateIsStart(model, startDate, daysToPredict);
    }
  }
}
