/** The forecasting functions of the dashboard: shaping the last closes into
    a one-feature model input, and the recursive multi-day forecast that
    slides a 20-day, four-feature window forward one predicted day at a time
    and then brings the predictions back to price units. */
module Dashboard {
  import opened Series
  import opened Recursion

  /** A three-dimensional array (batch, time step, feature). */
  type Tensor3 = seq<seq<seq<real>>>

  /** A forecast: one date and one price per forecast day. */
  datatype Forecast = Forecast(dates: seq<int>, values: seq<real>)

  /** The last `seqLength` Close values, each scaled on its own by the
      one-column `scale`, shaped (1, seqLength, 1); `seqLength` defaults to
      the window length 20. A history shorter than `seqLength` cannot be
      reshaped. */
  function PrepareInput(data: seq<Record>, scale: real -> real, seqLength: nat := SeqLength): (r: Result<Tensor3>)
    ensures r.Err? <==> |data| < seqLength
    ensures r.Err? ==> r.error == ShapeMismatch
    ensures r.Ok? ==> |r.value| == 1 && |r.value[0]| == seqLength
    ensures r.Ok? ==> forall i :: 0 <= i < seqLength ==>
      r.value[0][i] == [scale(data[|data| - seqLength + i].row.close)]
  {
    var last := Tail(Closes(Rows(data)), seqLength);
    var scaled := seq(|last|, i requires 0 <= i < |last| => scale(last[i]));
    if |scaled| != seqLength then Err(ShapeMismatch)
    else Ok([seq(seqLength, i requires 0 <= i < seqLength => [scaled[i]])])
  }

  /** The normalised starting window: the last (up to) `SeqLength` rows of
      the history, each passed through the scaler's forward transform. */
  function InitialWindow(s: Scaler, data: seq<Record>): (w: Window)
    ensures |w| == if |data| < SeqLength then |data| else SeqLength
    ensures forall i :: 0 <= i < |w| ==> w[i] == s.transform(data[|data| - |w| + i].row)
  {
    MapRows(s.transform, Rows(Tail(data, SeqLength)))
  }

  /** Back to price units: each normalised prediction is padded with three
      zero placeholder cells, the padded matrix is inverse-transformed, and
      only column 0 is kept. */
  function Denormalise(s: Scaler, preds: seq<real>): (out: seq<real>)
    ensures |out| == |preds|
    ensures forall i :: 0 <= i < |preds| ==>
      out[i] == s.inverseTransform(Row(preds[i], 0.0, 0.0, 0.0)).close
  {
    var padded := seq(|preds|, i requires 0 <= i < |preds| => Row(preds[i], 0.0, 0.0, 0.0));
    Closes(MapRows(s.inverseTransform, padded))
  }

  /** The zero placeholders are harmless for a scaler that works column by
      column: normalising rows and then denormalising their Close cells alone
      gives back the original Close cells. */
  lemma TargetRoundTrip(s: Scaler, rows: seq<Row>)
    requires forall r: Row :: s.inverseTransform(s.transform(r)) == r
    requires forall r: Row, r': Row :: r.close == r'.close ==>
      s.inverseTransform(r).close == s.inverseTransform(r').close
    ensures Denormalise(s, Closes(MapRows(s.transform, rows))) == Closes(rows)
  {
  }

  /** The recursive forecast for `numDays` days (7 by default) after the
      last day of `data`. The last `SeqLength` rows are normalised into the window
      `entrada`; each iteration asks the model for the next normalised Close,
      records it with its date, and slides the window: the oldest row leaves,
      and a row made of the prediction and the exogenous cells of the current
      last row is appended. The predictions are denormalised at the end.
      A window that cannot be reshaped to (1, SeqLength, 4) is found at the
      first iteration, before any model call. `fed` lists the windows the
      model was called on, one per call. */
  method GenerateForecasts(predict: Window -> real, s: Scaler, data: seq<Record>, numDays: int := 7)
    returns (r: Result<Forecast>, ghost fed: seq<Window>)
    ensures data == [] ==> r == Err(EmptyHistory)
    ensures data != [] && numDays >= 1 && |data| < SeqLength ==> r == Err(ShapeMismatch)
    ensures data != [] && (numDays <= 0 || |data| >= SeqLength) ==> r.Ok?
    ensures r.Err? ==> fed == []
    ensures r.Ok? ==>
      var n := if numDays < 0 then 0 else numDays;
      |r.value.dates| == n && |r.value.values| == n && |fed| == n
    ensures r.Ok? ==> forall i :: 0 <= i < |r.value.dates| ==>
      r.value.dates[i] == data[|data| - 1].date + 1 + i
    ensures r.Ok? ==> forall i, j :: 0 <= i < j < |r.value.dates| ==>
      r.value.dates[i] < r.value.dates[j]
    ensures r.Ok? && numDays >= 1 ==>
      var w0 := InitialWindow(s, data);
      |w0| == SeqLength &&
      fed == Inputs(predict, w0, numDays) &&
      r.value.values == Denormalise(s, Predictions(predict, w0, numDays))
    ensures r.Ok? && numDays == 1 ==>
      r.value.values == [s.inverseTransform(Row(predict(InitialWindow(s, data)), 0.0, 0.0, 0.0)).close]
  {
    var entrada := InitialWindow(s, data);
    var forecasts: seq<real> := [];
    var dates: seq<int> := [];
    fed := [];
    if |data| == 0 {
      return Err(EmptyHistory), fed;
    }
    var start := data[|data| - 1].date + 1;
    var currentDate := start;
    ghost var w0 := entrada;
    while |forecasts| < numDays
      invariant |dates| == |forecasts| == |fed|
      invariant numDays >= 0 ==> |forecasts| <= numDays
      invariant numDays < 0 ==> forecasts == []
      invariant |entrada| == |w0|
      invariant |w0| != SeqLength ==> forecasts == [] && entrada == w0
      invariant |w0| == SeqLength ==>
        entrada == WindowAfter(predict, w0, |forecasts|) &&
        forecasts == Predictions(predict, w0, |forecasts|) &&
        fed == Inputs(predict, w0, |fed|)
      invariant currentDate == start + |dates|
      invariant forall i :: 0 <= i < |dates| ==> dates[i] == start + i
      decreases numDays - |forecasts|
    {
      if |entrada| != SeqLength {
        return Err(ShapeMismatch), fed;
      }
      var pred := predict(entrada);
      fed := fed + [entrada];
      forecasts := forecasts + [pred];
      dates := dates + [currentDate];
      entrada := Slide(entrada, pred);
      currentDate := currentDate + 1;
    }
    r := Ok(Forecast(dates, Denormalise(s, forecasts)));
  }
}
