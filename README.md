# Mooviz screener core, modelled in Dafny

Mooviz is a one-page Streamlit stock screener (`app.py`). For a fixed list of
US tickers it fetches each ticker's quote and one year of daily closes. It
builds one summary row per ticker: price, daily change, P/E, volume in
millions, market cap in billions, and a 14-period RSI. Three sliders then set
a maximum P/E, a minimum volume and a maximum RSI, and the rows inside all
three bounds are shown, largest daily change first.

The project models the three pieces of logic in that script:

- `rsi.dfy`, module `Indicator`: `calculate_rsi`. It covers the diff / where /
  rolling-mean / division chain over exact reals. It keeps pandas' details
  that change the value: the leading NaN of `diff()` becomes a 0 in both
  columns, the rolling mean is NaN until 14 entries exist, an empty series
  yields 50, and a zero mean loss is replaced by infinity, which makes RS and
  so the RSI 0.
- `snapshot.dfy`, module `Snapshot`: the body of `get_data`. A method's loop
  builds one `Row` per ticker. Each row uses the `dict.get` fallback chains,
  the unit conversions, the "more than 14 closes, else 50" guard and
  `round(rsi, 2)`.
- `screener.dfy`, module `Screener`: the expression that filters and sorts
  the table. It is lifted into `Screen(rows, perMax, volumeMin, rsiMax)`.

The quote dictionary and the close series come from the network. They are
parameters here: `quote: string -> Info` and `history: string -> seq<real>`.
The slider positions are plain integer parameters.

The model follows the code where it differs from the conventional design of
such a screener:

- A window with no falling day reads RSI 0, not 100. This includes a steadily
  rising series. A flat window also reads 0, not 50. The reason is that a zero
  mean loss becomes a zero RS (`NoDownMoveGivesZero`,
  `RisingOrFlatRowReadsZero`). A window with no rising day also reads 0
  (`NoUpMoveGivesZero`). The indicator's exact value therefore never reaches
  100. The table's RSI column can still show 100.00, because `round(rsi, 2)`
  turns a value above 99.995 into 100, and an RSI slider below 100 then drops
  that row.
- Missing numeric fields become 0 and are not marked as unavailable. As a
  result, a ticker without any P/E passes every P/E bound
  (`NoEarningsPassesPerBound`).
- The code does not deduplicate tickers, has no per-ticker failure status and
  no separate unfiltered view. Its sort does not break ties by input order.

## Model

| member | source | states |
|---|---|---|
| `Indicator.GainLossSplit` | app.py:44-45 | every close-to-close move splits into a gain and a loss that are both non-negative, never both non-zero, and whose difference is the move |
| `Indicator.Sum` | app.py:44-45 | the sum of a column of non-negative entries is non-negative, and it is zero exactly when every entry is zero |
| `Indicator.MeansNonNegative` | app.py:44-45 | the trailing 14-entry means of the gain and loss columns are non-negative, and each is zero exactly when its column is all zero over the window |
| `Indicator.Gain` | app.py:44 | the gain of a move is the larger of the move and 0: non-negative, at least the move, and either 0 or the move itself |
| `Indicator.Loss` | app.py:45 | the loss of a move is the larger of minus the move and 0: non-negative, at least minus the move, and either 0 or minus the move |
| `Indicator.GainAt` | app.py:43-44 | every entry of the gain column is non-negative, and position 0, where `diff()` leaves NaN, holds 0 |
| `Indicator.LossAt` | app.py:43-45 | every entry of the loss column is non-negative, and position 0 holds 0 |
| `Indicator.Gains` | app.py:43-44 | the gain column has one entry per close, all non-negative |
| `Indicator.Losses` | app.py:43-45 | the loss column has one entry per close, all non-negative |
| `Indicator.TrailingMean` | app.py:44-45 | the last value of the 14-entry rolling mean times 14 is the sum of the column's last 14 entries, and it is non-negative for a non-negative column |
| `Indicator.MeanGain` | app.py:44 | the trailing mean gain is never negative |
| `Indicator.MeanLoss` | app.py:45 | the trailing mean loss is never negative |
| `Indicator.RelativeStrength` | app.py:46 | a zero mean loss, read as an infinite divisor, gives RS 0; otherwise RS times the mean loss is the mean gain |
| `Indicator.RsiFromMeans` | app.py:46-47 | `100 - 100/(1 + gain/loss)`, with a zero loss replaced by infinity, lies in [0, 100); it is 0 when the mean loss is 0, it equals 100·g/(g+l) when the mean loss is positive, and it is 0 exactly when one of the two means is 0 |
| `Indicator.CalculateRsi` | app.py:42-48 | an empty series gives 50; 1 to 13 closes give NaN; 14 or more closes give a number in [0, 100) |
| `Indicator.CalculateRsiByMeans` | app.py:45-48 | for more than 14 closes: a zero mean loss gives RSI 0; a positive mean loss gives `100 - 100/(1 + meanGain/meanLoss)`; the RSI is 0 exactly when one mean is 0 |
| `Indicator.GainWindowFromSuffix` | app.py:43-45 | the last 14 entries of the gain and loss columns are determined by the last 15 closes alone |
| `Indicator.SameWindowsSameRsi` | app.py:44-48 | two series whose trailing gain and loss windows agree have the same RSI |
| `Indicator.RsiDependsOnLastFifteen` | app.py:43-48 | for series of more than 14 closes, the RSI depends only on the last 15 closes, that is on the last 14 moves |
| `Indicator.NoDownMoveGivesZero` | app.py:45-47 | if no move in the window falls (a rising or a flat series), the mean loss is 0 and the RSI is 0 |
| `Indicator.NoUpMoveGivesZero` | app.py:44-47 | if no move in the window rises, the mean gain is 0 and the RSI is 0 |
| `Indicator.MixedWindowIsInterior` | app.py:44-47 | if the window has at least one rising and at least one falling move, the RSI is strictly between 0 and 100 |
| `Snapshot.Lookup` | app.py:33-37 | definition of `info.get(key, default)`; what it yields is stated through `Snapshot.BuildRow`'s contract |
| `Snapshot.RoundCents` | app.py:38 | `round(x, 2)` is a whole number of hundredths within 0.005 of `x`, and an exact tie goes to the even number of hundredths |
| `Snapshot.RoundCentsKeepsCents` | app.py:38 | a value that is already a whole number of hundredths is unchanged by rounding |
| `Snapshot.RoundCentsWithinPercent` | app.py:38 | rounding keeps a value inside [0, 100] |
| `Snapshot.RowRsi` | app.py:30 | a series of 14 closes or fewer gives RSI 50 without calling the indicator; a longer one gives the indicator's value, which is below 100; either way the value is in [0, 100] |
| `Snapshot.BuildRow` | app.py:31-39 | the row keeps the ticker; price is the market price, else the previous close, else 0; P/E is the forward P/E, else the trailing P/E, else 0; a missing change, volume or market cap is 0; volume times 1,000,000 and market cap times 1,000,000,000 give back the quote's figures; the RSI is a whole number of hundredths in [0, 100], is 50 for 14 closes or fewer, and is otherwise within 0.005 of the indicator's value |
| `Snapshot.RisingOrFlatRowReadsZero` | app.py:30-47 | a ticker whose last 14 moves include no fall shows RSI 0 in its row |
| `Snapshot.GetData` | app.py:24-40 | exactly one row per ticker, in input order; row i is the row built from ticker i's quote and closes, carries ticker i as its name, and has an RSI in [0, 100] |
| `Screener.Passes` | app.py:64-66 | definition of the row mask (three inclusive bounds); what it keeps is stated through the contracts of `Screener.Filter` and `Screener.Screen` |
| `Screener.Filter` | app.py:63-66 | the mask keeps each row inside all three inclusive bounds as often as it occurs and drops every other row; it never makes the table longer |
| `Screener.Insert` | app.py:67 | inserting a row into rows ordered by change, largest first, keeps that order and adds exactly that row |
| `Screener.SortByChange` | app.py:67 | the result is ordered by change, largest first, and is a permutation of the input |
| `Screener.Screen` | app.py:63-67 | the shown table is ordered by change, largest first, and holds exactly the input rows with P/E at most `perMax`, volume at least `volumeMin` and RSI at most `rsiMax`, each as often as in the input |
| `Screener.ScreenMembership` | app.py:63-67 | a row is shown if and only if it is an input row inside all three bounds |
| `Screener.ScreenNoLonger` | app.py:63-67 | the shown table is never longer than the input table |
| `Screener.ScreenIdempotent` | app.py:63-67 | screening the shown table again with the same bounds shows the same rows, as often each |
| `Screener.NoEarningsPassesPerBound` | app.py:35 | a ticker with neither forward nor trailing P/E gets P/E 0, so it passes the P/E bound at every slider position from the minimum of 0 upwards |
| `Screener.ShortHistoryRsiBound` | app.py:30 | a ticker with 14 closes or fewer passes the RSI bound exactly when the slider is at 50 or above |
| `Screener.TopRsiBoundKeepsAll` | app.py:61-66 | when the RSI slider is at 100 or above, a row passes exactly when it meets the P/E and volume bounds |

## Left out

- Streamlit presentation: page setup, titles, slider widgets, the styled table, the treemap, the success message and the balloons. The slider values are parameters.
- `@st.cache_data(ttl=300)`: the caching and its five-minute expiry happen inside Streamlit, not in this script.
- The network calls `yf.Ticker`, `.info` and `.history(period="1y")`. They are modelled as always succeeding: `get_data` has no error handling, so a failed fetch raises out of it and no table is built, while `GetData` always returns one row per ticker. The quote is a `map<string, real>` that holds only the fields that are present. The close series is given with NaNs already dropped, as `dropna()` leaves it. A quote field that is present but holds `None` is not modelled, because `dict.get` would return `None` rather than the default.
- Floating point. The model uses exact reals. It leaves out the rounding error of pandas' rolling sums, so a mean loss that is zero in exact arithmetic could come out as a tiny non-zero float. It also leaves out `float('inf')`, which becomes an explicit zero-loss branch, and binary representation effects in `round`.
- `calculate_rsi`'s `period` parameter is fixed at its default of 14. That is the only value the script uses, and the guard in `get_data` hard-codes the same 14.
- An empty ticker list: pandas would raise on the missing `PER` column of an empty frame, while `Screen` returns an empty table. The script's ticker list is hard-coded and not empty.
- The hard-coded ticker list itself, which is data.
- Screener.Screen: states the order only up to ties in the change column. pandas' default sort is not stable, so the source fixes no order among equal changes. The model's insertion sort picks one order, but no contract depends on it.
- Screener.ScreenIdempotent: states that the same rows come back, as a multiset, and not in the same order, for the same reason.
- Snapshot.GetData: takes the quote and the close series as functions of the ticker name, so two copies of one ticker in the list get identical rows. The script fetches each list entry separately, so two fetches of one name could differ. Its ticker list holds no duplicates.
