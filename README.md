# stock_dashboard — indicator engine and row builder in Dafny

This project models the part of `stock_dashboard.py` that turns one ticker's
daily bars into one row of the terminal dashboard:

- the lookbacks (`Stock.last_price`, `Stock.last_volume`,
  `Stock.price_history`, `Stock.vol_history`), read with pandas' negative
  `iloc` indexes, so a series that is too short raises `IndexError`;
- the indicators: MACD and its signal line over `ewm(span, adjust=False)`
  exponential moving averages (`Stock.macd`), the 20-bar Bollinger bands
  (`Stock.bolinger`) and the simple-rolling-mean RSI (`Stock.rsi`);
- the colouring rules and the `"/"`-joined columns of
  `Stock.stock_line_data`, its fixed header `Stock.stock_line_header`, and
  the single coloured value of a volatility index (`Index.last_price`).

Prices and volumes are exact reals. A coloured value is a `Token`, either a
`Label` or a `Num` with an `Emphasis` of `Plain`, `Red` or `Green`; `Red`
and `Green` are what `Stock.red`/`Stock.green` and `Index.red`/`Index.green`
produce. A column is the sequence of pieces `"/".join` produces: tokens
separated by `Sep`. Every exception the source can raise on the way to a row,
and the NaN bands pandas yields for a short Bollinger window, is an `Error`
in a `Result`:

- `IndexOutOfRange`: a negative `iloc` past the start of the series, or an
  RSI series that is empty after `dropna`;
- `NotConvertible`: `float()` of an empty column;
- `ZeroDivision`: a zero lookback volume in the percentage change;
- `UndefinedBands`: a Bollinger window that pandas leaves as NaN (pandas
  raises nothing there).

Modules:

- `Series`: bars, `Result`, and the sums, means and variances the indicators
  need, with their algebra.
- `Indicators`: lookbacks, EMA and MACD, Bollinger bands, RSI.
- `Presentation`: the colour rules and the `"/"` join with its inverse.
- `Dashboard`: the header, `Index.last_price`, the row as a specification
  function (`StockLine`), the imperative row builder `StockLineData` proved
  equal to it, and what a row promises.

`Stock.stock_line_data` builds its row by appending to a list, with loops
over the price and volume lookbacks. The model keeps that form.
`StockLineData` is a method that appends one joined column at a time.
`PriceColumnData` and `VolumeColumnData` keep the `for` loops, and the MACD,
Bollinger and RSI columns keep the source's `if` chains. Each method is
proved equal to a specification function, and the properties are proved
about those functions.

Where the code departs from the usual reading of these indicators, the
model follows the code:

- A lookback price below the last price (`last > v`) is coloured red, the
  colour the dashboard otherwise uses for a fall. So for closes that rise
  every day, every lookback price is red (`Dashboard.RisingPriceColumn`).
- When no RSI window has any price movement, the source raises `IndexError`
  from `rsi.iloc[-1]` after `dropna`. It does not report a neutral RSI
  (`Indicators.FlatRsi`, `Dashboard.FlatStockLine`).
- A series shorter than a lookback or a window raises, and the whole row
  raises with it. There is no placeholder token (`Dashboard.StockLineOutcome`).
- The lookbacks are the closes at `iloc[-2]`, `iloc[-5]`, `iloc[-20]` and
  `iloc[-240]`, and the volumes at `iloc[-2]` and `iloc[-5]`. These are 1, 4,
  19 and 239 bars before the last bar, not 1, 5, 20 and 240 bars back.

## Model

| member | source | states |
|---|---|---|
| Indicators.LastClose | stock_dashboard.py:144-146 | the latest close exactly when there is a bar; `IndexOutOfRange` otherwise |
| Indicators.LastVolume | stock_dashboard.py:148-150 | the latest volume exactly when there is a bar; `IndexOutOfRange` otherwise |
| Indicators.PriceHistory | stock_dashboard.py:132-142 | the closes at offsets 2, 5, 20 and 240 from the end, in that order, exactly when there are at least 240 bars; `IndexOutOfRange` otherwise |
| Indicators.VolumeHistory | stock_dashboard.py:121-129 | the volumes at offsets 2 and 5 from the end exactly when there are at least 5 bars; `IndexOutOfRange` otherwise |
| Indicators.Ema | stock_dashboard.py:66-67 | the `adjust=False` EMA has one value per input value |
| Indicators.EmaFirst | stock_dashboard.py:66-67 | the EMA starts at the first value, with no warm-up |
| Indicators.EmaStep | stock_dashboard.py:66-67 | every later EMA value is alpha times the new value plus one minus alpha times the previous average |
| Indicators.EmaPrefix | stock_dashboard.py:66-67 | the EMA of a prefix is the prefix of the EMA, so a value never depends on later bars |
| Indicators.EmaBounded | stock_dashboard.py:66-69 | the EMA stays within any bounds that hold for the whole input |
| Indicators.MacdLine | stock_dashboard.py:68 | the MACD line has one value per close |
| Indicators.Macd | stock_dashboard.py:64-73 | defined exactly when there is a close, `NotConvertible` otherwise; the MACD is the fast EMA minus the slow EMA at the last bar, and the signal is the 9-span EMA of the MACD line there |
| Indicators.SignalWithinMacdRange | stock_dashboard.py:68-72 | the signal never leaves the range the MACD line stays in |
| Indicators.FlatMacd | stock_dashboard.py:64-73 | constant closes give a MACD and a signal of exactly 0 |
| Indicators.Bollinger | stock_dashboard.py:76-87 | defined exactly when a full window exists; the mid band is the window mean; the bands are ordered and each lies 2 standard deviations from the mid; an empty series is `NotConvertible`, a short one `UndefinedBands` |
| Indicators.FlatBands | stock_dashboard.py:76-87 | constant closes give three equal bands at the close, i.e. zero bandwidth |
| Indicators.Changes | stock_dashboard.py:93-94 | one day-over-day change per bar after the first |
| Indicators.SplitChange | stock_dashboard.py:97-105 | the up part is non-negative, the down part non-positive, at most one is non-zero, and they add back to the change |
| Indicators.AverageUp | stock_dashboard.py:108 | the rolling mean of gains is never negative |
| Indicators.RsiAt | stock_dashboard.py:108-112 | a defined RSI lies between 0 and 100 |
| Indicators.RsiUndefinedIffFlat | stock_dashboard.py:108-115 | an RSI window is dropped as NaN exactly when no price moves in it |
| Indicators.RsiAboveHalfIffGainsDominate | stock_dashboard.py:112 | the RSI is above 50 exactly when average gains exceed average losses |
| Indicators.LastDefinedWindow | stock_dashboard.py:115-118 | finds the latest defined RSI window at or before a position, and every later window is undefined |
| Indicators.RsiWith | stock_dashboard.py:90-118 | succeeds exactly when some window of that width is defined, with the value of the latest defined window (between 0 and 100); `IndexOutOfRange` otherwise |
| Indicators.Rsi | stock_dashboard.py:90-118 | as written: the result is the 14-bar RSI whatever window is passed |
| Indicators.RsiIgnoresWindow | stock_dashboard.py:90-108 | for closes 1, 2, 3 and window 2, `rsi` raises although the 2-bar RSI is 100 |
| Indicators.FlatRsi | stock_dashboard.py:90-118 | constant closes have no defined RSI window, so the RSI raises `IndexOutOfRange` |
| Indicators.RisingChanges | stock_dashboard.py:93-94 | closes that rise every day give only positive changes |
| Indicators.AllGainsWindow | stock_dashboard.py:108-112 | a window of gains only has an RSI of exactly 100 |
| Indicators.RisingRsi | stock_dashboard.py:90-118 | closes that rise every day give an RSI of exactly 100 |
| Presentation.VolatilityToken | stock_dashboard.py:30-36 | red exactly above 20, green exactly below 12, plain from 12 to 20 |
| Presentation.PriceTokens | stock_dashboard.py:162-168 | one token per lookback price, in order; red exactly when the last price is above it, green otherwise |
| Presentation.MacdTokens | stock_dashboard.py:172-178 | the MACD plain, then the signal: red exactly when it is negative and below the MACD, green otherwise |
| Presentation.BandTokens | stock_dashboard.py:182-191 | low, mid and high in order; only the first matching rule recolours (mid red, else low red, else high green), so at most one band is coloured |
| Presentation.OrderedBandTokens | stock_dashboard.py:182-191 | for ordered bands the low band is never coloured; the mid is red exactly when the last price is below it, and the high is green exactly when the last price is above it |
| Presentation.RsiToken | stock_dashboard.py:194-198 | green exactly above 50, red otherwise |
| Presentation.RsiTokenGreenIffGainsDominate | stock_dashboard.py:194-198 | the RSI column is green exactly when average gains exceed average losses |
| Presentation.VolumeTokens | stock_dashboard.py:204-209 | one percentage change per lookback volume exactly when none is zero, `ZeroDivision` otherwise; green exactly when the last volume is above the lookback |
| Presentation.VolumeColourIsSign | stock_dashboard.py:205-209 | for a positive lookback volume the colour is the sign of the percentage change: green exactly when it is positive |
| Presentation.Join | stock_dashboard.py:168 | `"/".join`: tokens at even positions, separators between them |
| Presentation.JoinRoundTrip | stock_dashboard.py:168 | splitting a joined column gives back its tokens, with one separator fewer than tokens |
| Dashboard.TitleSlashes | stock_dashboard.py:216 | a title of n names without '/' holds n - 1 slashes |
| Dashboard.HeaderSlashes | stock_dashboard.py:215-216 | each of the seven header titles holds one slash fewer than the values it names |
| Dashboard.HeaderTitles | stock_dashboard.py:215-216 | the header is exactly "Ticker", "Last", "1d/1w/1m/1y", "macd/sig", "low/mid/high", "rsi", "vol/1d/1w", in that order |
| Dashboard.IndexLastPrice | stock_dashboard.py:28-37 | the index's latest close exactly when there is a bar, `IndexOutOfRange` otherwise; red exactly above 20, green exactly below 12 |
| Dashboard.VolumeColumn | stock_dashboard.py:201-210 | the last volume plain, then one percentage-change token per lookback volume, exactly when no lookback volume is zero; `ZeroDivision` otherwise |
| Dashboard.AssembleLine | stock_dashboard.py:153-212 | the row exists exactly when every lookup succeeds and no volume divides by zero; otherwise the error is the first failure in the source's evaluation order; the row is the seven joined columns in source order |
| Dashboard.PriceColumnData | stock_dashboard.py:162-168 | the price loop yields the price tokens |
| Dashboard.VolumeColumnData | stock_dashboard.py:201-210 | the volume loop yields the volume column, or `ZeroDivision` at the first zero lookback volume |
| Dashboard.MacdColumnData | stock_dashboard.py:172-178 | the MACD branch yields the MACD tokens |
| Dashboard.BandColumnData | stock_dashboard.py:182-191 | the Bollinger `if`/`elif` chain yields the band tokens |
| Dashboard.RsiColumnData | stock_dashboard.py:194-198 | the RSI branch yields the RSI token |
| Dashboard.StockLineData | stock_dashboard.py:153-212 | building the row column by column gives exactly `StockLine`, including which exception ends it |
| Dashboard.JoinColumnsRoundTrip | stock_dashboard.py:168-210 | splitting every joined column gives back its tokens |
| Dashboard.ColumnTokens | stock_dashboard.py:153-212 | the seven columns split into the ticker, the plain last price, then the price, MACD, band, RSI and volume tokens, in that order |
| Dashboard.ColumnsMatchHeader | stock_dashboard.py:153-216 | with four lookback prices and three volume values, the row has one column per header title and each column one value and separator per name and slash of its title |
| Dashboard.StockLineOutcome | stock_dashboard.py:153-212 | a row exists exactly when there are 240 bars, some 14-bar RSI window is defined, and neither lookback volume is zero; a short series or an undefined RSI is `IndexOutOfRange`, a zero volume is `ZeroDivision` |
| Dashboard.StockLineColumns | stock_dashboard.py:153-216 | every row matches the header column by column; its first column is the ticker and its second the plain last close |
| Dashboard.StockLinePriceColumn | stock_dashboard.py:158-168 | the price column holds the closes at offsets 2, 5, 20 and 240 from the end, coloured against the last close |
| Dashboard.StockLineRsiColumn | stock_dashboard.py:193-198 | the RSI column holds the 14-bar RSI of the closes |
| Dashboard.FlatStockLine | stock_dashboard.py:153-212 | a ticker whose closes never move gets no row: `IndexOutOfRange` |
| Dashboard.AllRedPrices | stock_dashboard.py:162-168 | lookback prices all below the last price are all red |
| Dashboard.RisingLookbacks | stock_dashboard.py:132-168 | for closes that rise every day, the last close is above every lookback and every lookback price is red |
| Dashboard.RisingStockLine | stock_dashboard.py:153-212 | a year of closes that rise every day, with non-zero lookback volumes, gives a row whose RSI column is 100 in green |
| Dashboard.RisingPriceColumn | stock_dashboard.py:153-168 | in any row of closes that rise every day, every lookback price is red |

## Left out

- Downloading bars (`yf.download`, the date arithmetic in `Index.__init__` and `Stock.__init__`, `reset_index`): the bars are a parameter. The `history` attribute only sizes the download.
- `round(..., 2)` and floating point: every value is an exact real, so rounding and float error are not modelled. The source rounds the last price, the lookbacks, MACD, signal, bands, RSI and volumes to 2 decimals before it compares them, so a colour can differ from the model's when a value lies within 0.005 of what it is compared against (`signal < 0`, `rsi > 50`, `mid > last`, `last > v`).
- The standard deviation's square root: `Indicators.Bollinger` takes the standard deviation as a parameter, constrained to be the non-negative root of the window's sample variance (`IsWindowSd`).
- A Bollinger window that is not full is NaN in pandas and is printed, not raised; the model makes it `UndefinedBands`. A row never reaches it, because the price lookback already needs 240 bars.
- pandas' in-place column writes on `self.df` (the EMA, MACD, SMA and band columns) and the in-place masking of `change_up`/`change_down`: these are modelled as functions of the closes. No later read depends on the written columns.
- The discarded `change.equals(change_up + change_down)` check: its content is the `SplitChange` contract instead.
- `termcolor` styling (`reverse`, `blink`) and `str()` formatting: a value is a token with an emphasis tag.
- `stock_watch`, `tabulate`, `print` and the command-line driver: these render and print rows and are outside the core.
- The open, high and low fields of a bar: the core never reads them.

## Findings

| source | as written | input that shows it | evidently intended | confidence | as-written member | corrected member |
|---|---|---|---|---|---|---|
| stock_dashboard.py:90-108 | `rsi(win=14)` averages over `rolling(14)` and ignores `win` | closes 1, 2, 3 with `win=2`: the 2-bar RSI is 100, but the 14-bar rolling mean never fills, so `iloc[-1]` raises | averages over `rolling(win)` | not executed | Indicators.Rsi, Indicators.RsiIgnoresWindow | Indicators.RsiWith |
