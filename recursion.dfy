/** The recursive multi-step forecast as a specification: the window after k
    steps, the k predictions made on the way, and what every cell of the
    window holds after any number of steps. The model is any function from a
    window to a normalised Close value. */
module Recursion {
  import opened Series

  /** The row appended after a prediction `p`: the prediction as the new
      Close, beside the exogenous cells of the window's current last row. */
  function NextRow(p: real, last: Row): Row {
    Row(p, last.fgi, last.ethClose, last.dxy)
  }

  /** One slide of the window: drop the oldest row, append the new one. */
  function Slide(w: Window, p: real): (w': Window)
    requires |w| > 0
    ensures |w'| == |w|
    ensures forall i :: 0 <= i < |w| - 1 ==> w'[i] == w[i + 1]
    ensures w'[|w| - 1].close == p
    ensures Exogenous(w'[|w| - 1]) == Exogenous(w[|w| - 1])
  {
    w[1..] + [NextRow(p, w[|w| - 1])]
  }

  /** The window after `k` iterations of the forecast loop started on `w0`. */
  function WindowAfter(predict: Window -> real, w0: Window, k: nat): (w: Window)
    requires |w0| > 0
    ensures |w| == |w0|
    decreases k
  {
    if k == 0 then w0
    else
      var prev := WindowAfter(predict, w0, k - 1);
      Slide(prev, predict(prev))
  }

  /** The predictions collected by the first `k` iterations, in order. */
  function Predictions(predict: Window -> real, w0: Window, k: nat): (ps: seq<real>)
    requires |w0| > 0
    ensures |ps| == k
    decreases k
  {
    if k == 0 then []
    else Predictions(predict, w0, k - 1) + [predict(WindowAfter(predict, w0, k - 1))]
  }

  /** The windows the model is called on by the first `k` iterations, in order. */
  function Inputs(predict: Window -> real, w0: Window, k: nat): (ws: seq<Window>)
    requires |w0| > 0
    ensures |ws| == k
    decreases k
  {
    if k == 0 then []
    else Inputs(predict, w0, k - 1) + [WindowAfter(predict, w0, k - 1)]
  }

  /** The `j`-th model call sees the window as it stood after `j`
      iterations, a window of the initial length. */
  lemma {:induction false} InputAt(predict: Window -> real, w0: Window, k: nat, j: nat)
    requires |w0| > 0 && j < k
    ensures Inputs(predict, w0, k)[j] == WindowAfter(predict, w0, j)
    ensures |Inputs(predict, w0, k)[j]| == |w0|
    decreases k
  {
    if j < k - 1 {
      InputAt(predict, w0, k - 1, j);
    }
  }

  /** Prediction `j` is the model applied to the window as it stood after
      `j` iterations; in particular the first one is the model applied to
      the initial window. */
  lemma {:induction false} PredictionAt(predict: Window -> real, w0: Window, k: nat, j: nat)
    requires |w0| > 0 && j < k
    ensures Predictions(predict, w0, k)[j] == predict(WindowAfter(predict, w0, j))
    decreases k
  {
    if j < k - 1 {
      PredictionAt(predict, w0, k - 1, j);
    }
  }

  /** Every cell of the window after `k` iterations: a row still inside the
      original window has moved `k` places towards the front; any later row
      holds a prediction, stored as-is, beside the exogenous cells of the
      initial window's last row. */
  lemma {:induction false} WindowAt(predict: Window -> real, w0: Window, k: nat, i: nat)
    requires |w0| > 0 && i < |w0|
    ensures WindowAfter(predict, w0, k)[i] ==
      if i + k < |w0| then w0[i + k]
      else NextRow(Predictions(predict, w0, k)[i + k - |w0|], w0[|w0| - 1])
    decreases k
  {
    var n := |w0|;
    if k > 0 {
      var prev := WindowAfter(predict, w0, k - 1);
      var p := predict(prev);
      var w := WindowAfter(predict, w0, k);
      assert w == Slide(prev, p);
      assert Predictions(predict, w0, k) == Predictions(predict, w0, k - 1) + [p];
      if i < n - 1 {
        WindowAt(predict, w0, k - 1, i + 1);
      } else {
        WindowAt(predict, w0, k - 1, n - 1);
      }
    }
  }

  /** The window after `k` iterations is the old window minus its first `k`
      rows, followed by the rows built from the predictions. */
  lemma {:induction false} OldRowsShift(predict: Window -> real, w0: Window, k: nat)
    requires |w0| > 0
    ensures forall i :: 0 <= i < |w0| - k ==> WindowAfter(predict, w0, k)[i] == w0[i + k]
  {
    forall i | 0 <= i < |w0| - k
      ensures WindowAfter(predict, w0, k)[i] == w0[i + k]
    {
      WindowAt(predict, w0, k, i);
    }
  }

  /** After `k` iterations the last min(k, |w0|) Close cells of the window are
      the most recent predictions, in the order they were made. */
  lemma {:induction false} RecentPredictions(predict: Window -> real, w0: Window, k: nat)
    requires |w0| > 0
    ensures forall i :: 0 <= i < |w0| && |w0| <= i + k ==>
      WindowAfter(predict, w0, k)[i].close == Predictions(predict, w0, k)[i + k - |w0|]
  {
    forall i | 0 <= i < |w0| && |w0| <= i + k
      ensures WindowAfter(predict, w0, k)[i].close == Predictions(predict, w0, k)[i + k - |w0|]
    {
      WindowAt(predict, w0, k, i);
    }
  }

  /** Exogenous cells never change along the forecast: every appended row,
      and so the window's last row after any number of iterations, carries
      the exogenous cells of the initial window's last row; after at least
      |w0| iterations every row of the window does. */
  lemma {:induction false} ExogenousFrozen(predict: Window -> real, w0: Window, k: nat)
    requires |w0| > 0
    ensures Exogenous(WindowAfter(predict, w0, k)[|w0| - 1]) == Exogenous(w0[|w0| - 1])
    ensures forall i :: 0 <= i < |w0| && |w0| <= i + k ==>
      Exogenous(WindowAfter(predict, w0, k)[i]) == Exogenous(w0[|w0| - 1])
    ensures k >= |w0| ==> forall i :: 0 <= i < |w0| ==>
      Exogenous(WindowAfter(predict, w0, k)[i]) == Exogenous(w0[|w0| - 1])
  {
    forall i | 0 <= i < |w0| && |w0| <= i + k
      ensures Exogenous(WindowAfter(predict, w0, k)[i]) == Exogenous(w0[|w0| - 1])
    {
      WindowAt(predict, w0, k, i);
    }
    WindowAt(predict, w0, k, |w0| - 1);
  }

  /** With a model that repeats the last Close of its window (a
      trend-following stub), every prediction equals the last Close of the
      initial window, so the forecast is flat. */
  lemma {:induction false} PersistenceModelIsFlat(predict: Window -> real, w0: Window, k: nat)
    requires |w0| > 0
    requires forall w: Window :: |w| > 0 ==> predict(w) == w[|w| - 1].close
    ensures forall j :: 0 <= j < k ==> Predictions(predict, w0, k)[j] == w0[|w0| - 1].close
    decreases k
  {
    if k > 0 {
      PersistenceModelIsFlat(predict, w0, k - 1);
      var prev := WindowAfter(predict, w0, k - 1);
      if k > 1 {
        var before := WindowAfter(predict, w0, k - 2);
        assert prev == Slide(before, predict(before));
        assert prev[|w0| - 1].close == predict(before);
        PredictionAt(predict, w0, k - 1, k - 2);
      }
      assert predict(prev) == w0[|w0| - 1].close;
    }
  }
}
