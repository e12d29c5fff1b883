# Recursive Bitcoin price forecaster — Dafny model

This project models the forecasting core of a Streamlit dashboard that predicts
the daily Bitcoin close (BTC-USD) with an LSTM. The core is `gerar_previsoes`
in `app/dashboard.py`. It normalises the last 20 rows of a four-column table
(`Close`, `fgi`, `eth_close`, `dxy`). It then calls a single-step model once per
forecast day. After each call it slides the fixed 20×4 window: the oldest row
is dropped, and a row made of the prediction and the current last row's three
exogenous cells is appended. Each forecast day gets the calendar date after the
previous one, starting the day after the last historical date. At the end, only
column 0 of the inverse-scaled predictions is kept. The small helper
`preparar_entrada` (tail, scale and reshape of the last closes) is modelled too.

The LSTM (`modelo.predict`) and the fitted `MinMaxScaler` (`transform`,
`inverse_transform`) are foreign code. They appear as function parameters: the
model maps a window to a normalised Close, and the scaler maps one row at a
time. Cells are `real`, and dates are integer day numbers.

Modules:

- `Series` (`series.dfy`): the row, record and scaler types, the error kinds
  and small column and tail helpers.
- `Recursion` (`recursion.dfy`): the forecast loop as a specification. It holds
  the window after k steps, the k predictions, and the k windows the model
  sees. It also holds the lemmas on what every window cell contains.
- `Dashboard` (`dashboard.dfy`): `PrepareInput`, the initial window, the
  denormalisation, and the imperative `GenerateForecasts` loop. The loop is
  proved against the `Recursion` functions.

The code takes the last 20 rows of the whole table (`tail(20)`). It raises the
shape error only when the loop runs (line 78). With a horizon of 0 or less, a
short table therefore raises no shape error there. What the foreign scaler
then does with the empty prediction matrix at line 102 is not modelled (see
the `Dashboard.GenerateForecasts` line under "## Left out"). The model follows
the code here, not a reading where the window must always be exactly 20 rows
and the horizon at least 1.

## Model

| member | source | states |
|---|---|---|
| `Dashboard.PrepareInput` | app/dashboard.py:48-53 | `seqLength` defaults to 20. Fails with a shape mismatch exactly when fewer than `seqLength` rows exist. Otherwise the result has shape (1, seqLength, 1), and cell i is the scaled Close of the i-th of the last `seqLength` rows. |
| `Dashboard.InitialWindow` | app/dashboard.py:66-68 | The starting window holds min(rows, 20) rows. Row i is the forward transform of the matching row among the table's last 20, in order. |
| `Dashboard.Denormalise` | app/dashboard.py:100-102 | One output per prediction. Output i is column 0 of the inverse transform of the row (pred_i, 0, 0, 0). |
| `Dashboard.TargetRoundTrip` | app/dashboard.py:100-102 | Take a scaler that inverts its transform and whose inverse Close column depends only on the Close input. For it, the zero placeholders are harmless: normalising rows and denormalising their Close cells gives back the original Close cells. |
| `Dashboard.GenerateForecasts` | app/dashboard.py:55-104 | `numDays` defaults to 7. An empty table fails. A short table with a horizon of at least 1 fails with a shape mismatch before any model call. Otherwise there are exactly max(numDays, 0) dates, values and model calls. Dates run from the last date + 1 in steps of one day, so they strictly increase. Call i sees the window after i steps. The values are the denormalised recursive predictions. With a horizon of 1, the single value is the denormalised model output on the initial window. |
| `Recursion.Slide` | app/dashboard.py:87-96 | The window keeps its length. Rows move one place to the front. The new last row holds the prediction as-is, with the exogenous cells of the previous last row. |
| `Recursion.WindowAfter` | app/dashboard.py:76-96 | After any number of iterations the window still has its initial length (20 rows when the loop runs). |
| `Recursion.InputAt` | app/dashboard.py:76-81 | Model call j receives the window as it stood after j iterations. That window has the initial length. |
| `Recursion.Predictions` | app/dashboard.py:76-84 | Exactly k predictions after k iterations, in the order they were made. |
| `Recursion.Inputs` | app/dashboard.py:76-81 | Exactly k model inputs after k iterations, one window per model call. |
| `Recursion.PredictionAt` | app/dashboard.py:78-84 | Prediction j is the model applied to the window after j iterations, so the first one is the model applied to the normalised initial window. |
| `Recursion.WindowAt` | app/dashboard.py:89-96 | Gives every cell after k iterations. A row still from the original window has moved k places forward. Every later row is (prediction, exogenous cells of the initial last row), with the predictions in order. |
| `Recursion.OldRowsShift` | app/dashboard.py:96 | After k iterations, the first (window length − k) rows are the original rows k places later. |
| `Recursion.RecentPredictions` | app/dashboard.py:81-96 | After k iterations, the last min(k, 20) Close cells of the window are the most recent predictions, in the order they were made. |
| `Recursion.ExogenousFrozen` | app/dashboard.py:89-96 | Every appended row, and the last row at every step, carries the exogenous cells of the initial window's last row. After 20 or more iterations every row does. |
| `Recursion.PersistenceModelIsFlat` | app/dashboard.py:81-96 | Take a model that returns its window's last Close. With it, every prediction equals the initial window's last Close, so the forecast is flat. |

## Left out

- Streamlit page setup, sidebar, tabs, tables, messages and spinner (app/dashboard.py:10-19, 118-221): user interface with no logic.
- `carregar_dados`, `carregar_modelo` and the scaler loading with their cache decorators (app/dashboard.py:22-46, 107-116): file I/O and library loading.
- The Plotly charts and the historical mean, min, max and last statistics: presentation on floating point.
- The LSTM and `MinMaxScaler` arithmetic: foreign floating-point code, taken as function parameters. The scaler is modelled row by row. Its own dimensionality checks, and its rejection of a matrix with zero rows, are not modelled. `PrepareInput` takes its one-column scaler as a function on single values.
- Floating point: cells are exact reals.
- Failures inside the foreign calls are not modelled: `predict`, `transform` and `inverseTransform` are total functions here. In the source an exception from `modelo.predict` (line 81) or from the scaler (lines 68, 102) reaches the caller with no partial result.
- The error kinds are this model's labels. In `Dashboard.GenerateForecasts`, `EmptyHistory` stands for any failure on a table with no rows. The source may fail there already at line 68, when the scaler rejects zero rows, before `dados.index[-1]` at line 73.
- Dashboard.GenerateForecasts: with `numDays` ≤ 0 the model returns empty dates and values. The source would pass an empty 0×4 matrix to the foreign `inverse_transform`, and what that does is not modelled. The dashboard's slider never asks for fewer than 1 day.
- Dashboard.GenerateForecasts: the column selection cannot fail, because a row always has exactly the four named columns. The `KeyError` for a missing column is not modelled.
- Dashboard.GenerateForecasts: the `(1, 20, 4)` reshape of the window and the `[0, 0]` read of the model output are folded into the model parameter (a window of rows to one value).
- Dashboard.PrepareInput: `seq_length` is a natural number. The pandas and NumPy behaviour for a negative `seq_length` is not modelled.
- Dates are day numbers. `timedelta(days=1)` on a timestamp is modelled as + 1.
- Idempotence is not stated as a separate property. Every member is a function of its inputs, or a method whose results are fixed by its postconditions.
