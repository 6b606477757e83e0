/** One dashboard row per ticker (Stock.stock_line_data), its header
    (Stock.stock_line_header) and the single-value row of a volatility index
    (Index.last_price). */
module Dashboard {
  import opened Series
  import opened Indicators
  import opened Presentation

  /** A column: its tokens joined by "/". */
  type Column = seq<Piece>
  type Row = seq<Column>

  /** Number of '/' in a string. */
  function SlashCount(s: string): nat
  {
    if |s| == 0 then 0 else (if s[0] == '/' then 1 else 0) + SlashCount(s[1..])
  }

  /** A column title: the names of the values it shows, "/"-joined. */
  function Title(names: seq<string>): string
  {
    if |names| == 0 then "" else if |names| == 1 then names[0] else names[0] + "/" + Title(names[1..])
  }

  /** The names of the values in each column, in column order. */
  function HeaderNames(): (names: seq<seq<string>>)
    ensures |names| == 7
  {
    [["Ticker"], ["Last"], ["1d", "1w", "1m", "1y"], ["macd", "sig"], ["low", "mid", "high"], ["rsi"], ["vol", "1d", "1w"]]
  }

  /** Stock.stock_line_header: "Ticker", "Last", "1d/1w/1m/1y", "macd/sig",
      "low/mid/high", "rsi", "vol/1d/1w". */
  function StockLineHeader(): (h: seq<string>)
    ensures |h| == |HeaderNames()|
  {
    seq(7, k requires 0 <= k < 7 => Title(HeaderNames()[k]))
  }

  lemma {:induction false} SlashCountAppend(a: string, b: string)
    ensures SlashCount(a + b) == SlashCount(a) + SlashCount(b)
  {
    if |a| > 0 {
      assert (a + b)[1..] == a[1..] + b;
      SlashCountAppend(a[1..], b);
    } else {
      assert a + b == b;
    }
  }

  lemma {:induction false} NoSlash(s: string)
    requires '/' !in s
    ensures SlashCount(s) == 0
  {
    if |s| > 0 {
      assert s[0] in s;
      assert forall c :: c in s[1..] ==> c in s;
      NoSlash(s[1..]);
    }
  }

  /** Joining n names that hold no '/' gives a title with n - 1 slashes. */
  lemma {:induction false} TitleSlashes(names: seq<string>)
    requires forall i :: 0 <= i < |names| ==> '/' !in names[i]
    ensures SlashCount(Title(names)) == if |names| == 0 then 0 else |names| - 1
  {
    if |names| > 1 {
      TitleSlashes(names[1..]);
      SlashCountAppend(names[0], "/");
      SlashCountAppend(names[0] + "/", Title(names[1..]));
      NoSlash(names[0]);
    } else if |names| == 1 {
      NoSlash(names[0]);
    }
  }

  /** Each title has one '/' fewer than the values it names. */
  lemma HeaderSlashes()
    ensures forall k :: 0 <= k < 7 ==> SlashCount(StockLineHeader()[k]) == |HeaderNames()[k]| - 1
  {
    forall k | 0 <= k < 7 ensures SlashCount(StockLineHeader()[k]) == |HeaderNames()[k]| - 1 {
      TitleSlashes(HeaderNames()[k]);
    }
  }

  /** Stock.stock_line_header: the seven titles, character for character. */
  lemma HeaderTitles()
    ensures StockLineHeader() == ["Ticker", "Last", "1d/1w/1m/1y", "macd/sig", "low/mid/high", "rsi", "vol/1d/1w"]
  {
    assert Title(["1y"]) == "1y";
    assert Title(["1m", "1y"]) == "1m/1y";
    assert Title(["1w", "1m", "1y"]) == "1w/1m/1y";
    assert Title(["1d", "1w", "1m", "1y"]) == "1d/1w/1m/1y";
    assert Title(["sig"]) == "sig";
    assert Title(["macd", "sig"]) == "macd/sig";
    assert Title(["high"]) == "high";
    assert Title(["mid", "high"]) == "mid/high";
    assert Title(["low", "mid", "high"]) == "low/mid/high";
    assert Title(["1w"]) == "1w";
    assert Title(["1d", "1w"]) == "1d/1w";
    assert Title(["vol", "1d", "1w"]) == "vol/1d/1w";
  }

  /** Index.last_price: the latest close of the index, coloured by the alert thresholds. */
  function IndexLastPrice(bars: seq<Bar>): (r: Result<Token>)
    ensures r.Success? <==> |bars| >= 1
    ensures r.Failure? ==> r.error == IndexOutOfRange
    ensures r.Success? ==> r.value.Num? && r.value.value == bars[|bars| - 1].close
    ensures r.Success? ==> (r.value.emphasis == Red <==> bars[|bars| - 1].close > AlertHigh)
    ensures r.Success? ==> (r.value.emphasis == Green <==> bars[|bars| - 1].close < AlertLow)
  {
    var p :- LastClose(bars);
    Success(VolatilityToken(p))
  }

  /** The volume column: the last volume uncoloured, then one percentage change
      per lookback volume; a zero lookback volume is a division by zero. */
  function VolumeColumn(lastVol: real, volumes: seq<real>): (r: Result<seq<Token>>)
    ensures r.Success? <==> forall i :: 0 <= i < |volumes| ==> volumes[i] != 0.0
    ensures r.Failure? ==> r.error == ZeroDivision
    ensures r.Success? ==> |r.value| == |volumes| + 1 && r.value[0] == Num(lastVol, Plain)
    ensures r.Success? ==> forall i :: 0 <= i < |volumes| ==> r.value[i + 1] == VolumeToken(lastVol, volumes[i])
  {
    var changes :- VolumeTokens(lastVol, volumes);
    Success([Num(lastVol, Plain)] + changes)
  }

  /** The row's columns as token lists, in the order the source appends them. */
  function Columns(ticker: string, last: real, history: seq<real>, m: MacdValues, bands: Bands,
                   rsi: real, vol: seq<Token>): seq<seq<Token>>
  {
    [[Label(ticker)]] + [[Num(last, Plain)]] + [PriceTokens(last, history)] + [MacdTokens(m.macd, m.signal)] +
    [BandTokens(last, bands)] + [[RsiToken(rsi)]] + [vol]
  }

  /** Each column "/"-joined. */
  function JoinColumns(columns: seq<seq<Token>>): (row: Row)
    ensures |row| == |columns|
    ensures forall k :: 0 <= k < |columns| ==> row[k] == Join(columns[k])
  {
    seq(|columns|, k requires 0 <= k < |columns| => Join(columns[k]))
  }

  /** The row from the values stock_line_data reads, taken in the source's
      order: the first of them that is an exception is the row's exception. */
  function AssembleLine(ticker: string, last: Result<real>, history: Result<seq<real>>,
                        macd: Result<MacdValues>, bands: Result<Bands>, rsi: Result<real>,
                        lastVol: Result<real>, volumes: Result<seq<real>>): (line: Result<Row>)
    ensures line.Success? <==>
              last.Success? && history.Success? && macd.Success? && bands.Success? && rsi.Success? &&
              lastVol.Success? && volumes.Success? && VolumeColumn(lastVol.value, volumes.value).Success?
    ensures line.Failure? ==>
              line.error ==
                (if last.Failure? then last.error
                 else if history.Failure? then history.error
                 else if macd.Failure? then macd.error
                 else if bands.Failure? then bands.error
                 else if rsi.Failure? then rsi.error
                 else if lastVol.Failure? then lastVol.error
                 else if volumes.Failure? then volumes.error
                 else ZeroDivision)
    ensures line.Success? ==>
              line.value == JoinColumns(Columns(ticker, last.value, history.value, macd.value, bands.value, rsi.value,
                                                VolumeColumn(lastVol.value, volumes.value).value))
  {
    var p :- last;
    var h :- history;
    var m :- macd;
    var b :- bands;
    var r :- rsi;
    var v :- lastVol;
    var vs :- volumes;
    var vol :- VolumeColumn(v, vs);
    Success(JoinColumns(Columns(ticker, p, h, m, b, r, vol)))
  }

  /** What Stock.stock_line_data returns for a ticker, or the exception it raises. */
  function StockLine(ticker: string, bars: seq<Bar>, sd: real): Result<Row>
    requires IsWindowSd(Closes(bars), BandWindow, sd)
  {
    var cs := Closes(bars);
    AssembleLine(ticker, LastClose(bars), PriceHistory(bars), Macd(cs, FastSpan, SlowSpan, SignalSpan),
                 Bollinger(cs, BandWindow, sd), RsiWith(cs, RsiWindow), LastVolume(bars), VolumeHistory(bars))
  }

  /** The price column's loop: each lookback close coloured against the last price. */
  method PriceColumnData(last: real, history: seq<real>) returns (l: seq<Token>)
    ensures l == PriceTokens(last, history)
  {
    l := [];
    for i := 0 to |history|
      invariant |l| == i
      invariant forall k :: 0 <= k < i ==> l[k] == PriceToken(last, history[k])
    {
      var v := history[i];
      if last > v {
        l := l + [Num(v, Red)];
      } else {
        l := l + [Num(v, Green)];
      }
    }
  }

  /** The volume column's loop: the last volume, then the percentage change
      against each lookback volume, stopping at the first zero. */
  method VolumeColumnData(lastVol: real, volumes: seq<real>) returns (r: Result<seq<Token>>)
    ensures r == VolumeColumn(lastVol, volumes)
  {
    var l := [Num(lastVol, Plain)];
    for i := 0 to |volumes|
      invariant |l| == i + 1 && l[0] == Num(lastVol, Plain)
      invariant forall k :: 0 <= k < i ==> volumes[k] != 0.0 && l[k + 1] == VolumeToken(lastVol, volumes[k])
    {
      var v := volumes[i];
      if v == 0.0 {
        return Failure(ZeroDivision);
      }
      var pct := (lastVol - v) / v * 100.0;
      if lastVol > v {
        l := l + [Num(pct, Green)];
      } else {
        l := l + [Num(pct, Red)];
      }
    }
    assert l == [Num(lastVol, Plain)] + VolumeTokens(lastVol, volumes).value;
    r := Success(l);
  }

  /** The MACD column: the signal red when negative and below MACD, green otherwise. */
  method MacdColumnData(m: MacdValues) returns (l: seq<Token>)
    ensures l == MacdTokens(m.macd, m.signal)
  {
    if m.signal < 0.0 && m.signal < m.macd {
      l := [Num(m.macd, Plain), Num(m.signal, Red)];
    } else {
      l := [Num(m.macd, Plain), Num(m.signal, Green)];
    }
  }

  /** The Bollinger column: all three bands uncoloured, then the first matching rule recolours one. */
  method BandColumnData(last: real, bands: Bands) returns (l: seq<Token>)
    ensures l == BandTokens(last, bands)
  {
    var low, mid, high := Num(bands.low, Plain), Num(bands.mid, Plain), Num(bands.high, Plain);
    if bands.mid > last {
      mid := Num(bands.mid, Red);
    } else if bands.low > last {
      low := Num(bands.low, Red);
    } else if last > bands.high {
      high := Num(bands.high, Green);
    }
    l := [low, mid, high];
  }

  /** The RSI column: green above 50, red otherwise. */
  method RsiColumnData(rsi: real) returns (l: seq<Token>)
    ensures l == [RsiToken(rsi)]
  {
    if rsi > 50.0 {
      l := [Num(rsi, Green)];
    } else {
      l := [Num(rsi, Red)];
    }
  }

  /** Appending a joined column to a row is joining one more column. */
  lemma JoinColumnsAppend(columns: seq<seq<Token>>, column: seq<Token>)
    ensures JoinColumns(columns + [column]) == JoinColumns(columns) + [Join(column)]
  {
    assert forall k :: 0 <= k < |columns| ==> (columns + [column])[k] == columns[k];
  }

  /** Stock.stock_line_data: the row is built column by column in the source's
      order; a failing lookup or division ends it with that failure. */
  method StockLineData(ticker: string, bars: seq<Bar>, sd: real) returns (r: Result<Row>)
    requires IsWindowSd(Closes(bars), BandWindow, sd)
    ensures r == StockLine(ticker, bars, sd)
  {
    var cs := Closes(bars);
    var line: Row := [Join([Label(ticker)])];
    ghost var columns: seq<seq<Token>> := [[Label(ticker)]];
    assert line == JoinColumns(columns);

    var last :- LastClose(bars);
    JoinColumnsAppend(columns, [Num(last, Plain)]);
    line, columns := line + [Join([Num(last, Plain)])], columns + [[Num(last, Plain)]];

    // Once the year lookback exists, MACD, the bands and the volume lookups
    // cannot fail; only the RSI and the volume divisions still can.
    var history :- PriceHistory(bars);
    var prices := PriceColumnData(last, history);
    JoinColumnsAppend(columns, prices);
    line, columns := line + [Join(prices)], columns + [prices];

    var m := Macd(cs, FastSpan, SlowSpan, SignalSpan).value;
    var macd := MacdColumnData(m);
    JoinColumnsAppend(columns, macd);
    line, columns := line + [Join(macd)], columns + [macd];

    var bands := Bollinger(cs, BandWindow, sd).value;
    var band := BandColumnData(last, bands);
    JoinColumnsAppend(columns, band);
    line, columns := line + [Join(band)], columns + [band];

    var rsi :- RsiWith(cs, RsiWindow);
    var rsiColumn := RsiColumnData(rsi);
    JoinColumnsAppend(columns, rsiColumn);
    line, columns := line + [Join(rsiColumn)], columns + [rsiColumn];

    var lastVol := LastVolume(bars).value;
    var volumes := VolumeHistory(bars).value;
    var vol :- VolumeColumnData(lastVol, volumes);
    JoinColumnsAppend(columns, vol);
    line, columns := line + [Join(vol)], columns + [vol];
    assert line == JoinColumns(columns);
    assert columns == Columns(ticker, last, history, m, bands, rsi, vol);
    r := Success(line);
  }

  // ---------------------------------------------------------------------------
  // What a row promises

  /** Splitting every joined column of a row gives back that column's tokens,
      with one separator fewer than tokens. */
  lemma JoinColumnsRoundTrip(columns: seq<seq<Token>>)
    ensures forall k :: 0 <= k < |columns| ==> Tokens(JoinColumns(columns)[k]) == columns[k]
    ensures forall k :: 0 <= k < |columns| ==>
              SepCount(JoinColumns(columns)[k]) == if |columns[k]| == 0 then 0 else |columns[k]| - 1
  {
    forall k | 0 <= k < |columns|
      ensures Tokens(JoinColumns(columns)[k]) == columns[k]
      ensures SepCount(JoinColumns(columns)[k]) == if |columns[k]| == 0 then 0 else |columns[k]| - 1
    {
      JoinRoundTrip(columns[k]);
    }
  }

  /** Splitting the row's columns gives, in order, the ticker, the plain last
      price, the price, MACD, band, RSI and volume tokens. */
  lemma ColumnTokens(ticker: string, last: real, history: seq<real>, m: MacdValues, bands: Bands,
                     rsi: real, vol: seq<Token>)
    ensures var row := JoinColumns(Columns(ticker, last, history, m, bands, rsi, vol));
            |row| == 7 &&
            Tokens(row[0]) == [Label(ticker)] &&
            Tokens(row[1]) == [Num(last, Plain)] &&
            Tokens(row[2]) == PriceTokens(last, history) &&
            Tokens(row[3]) == MacdTokens(m.macd, m.signal) &&
            Tokens(row[4]) == BandTokens(last, bands) &&
            Tokens(row[5]) == [RsiToken(rsi)] &&
            Tokens(row[6]) == vol
  {
    var columns := Columns(ticker, last, history, m, bands, rsi, vol);
    assert columns == [[Label(ticker)], [Num(last, Plain)], PriceTokens(last, history), MacdTokens(m.macd, m.signal),
                       BandTokens(last, bands), [RsiToken(rsi)], vol];
    JoinColumnsRoundTrip(columns);
  }

  /** With four lookback prices and a volume column of three values, every
      joined column holds one value per "/"-separated name of its title. */
  lemma ColumnsMatchHeader(ticker: string, last: real, history: seq<real>, m: MacdValues, bands: Bands,
                           rsi: real, vol: seq<Token>)
    requires |history| == 4 && |vol| == 3
    ensures var row := JoinColumns(Columns(ticker, last, history, m, bands, rsi, vol));
            |row| == |StockLineHeader()| &&
            forall k :: 0 <= k < |row| ==>
              |Tokens(row[k])| == |HeaderNames()[k]| && SepCount(row[k]) == SlashCount(StockLineHeader()[k])
  {
    var columns := Columns(ticker, last, history, m, bands, rsi, vol);
    assert columns == [[Label(ticker)], [Num(last, Plain)], PriceTokens(last, history), MacdTokens(m.macd, m.signal),
                       BandTokens(last, bands), [RsiToken(rsi)], vol];
    assert forall k :: 0 <= k < 7 ==> |columns[k]| == |HeaderNames()[k]|;
    JoinColumnsRoundTrip(columns);
    HeaderSlashes();
  }

  /** A row exists exactly when there is a year of bars, some RSI window is
      defined and neither lookback volume is zero; otherwise the first failing
      step names the error. */
  lemma StockLineOutcome(ticker: string, bars: seq<Bar>, sd: real)
    requires IsWindowSd(Closes(bars), BandWindow, sd)
    ensures StockLine(ticker, bars, sd).Success? <==>
              |bars| >= Year && RsiWith(Closes(bars), RsiWindow).Success? &&
              bars[|bars| - 2].volume != 0.0 && bars[|bars| - 5].volume != 0.0
    ensures StockLine(ticker, bars, sd).Failure? ==>
              StockLine(ticker, bars, sd).error ==
                (if |bars| < Year || RsiWith(Closes(bars), RsiWindow).Failure? then IndexOutOfRange else ZeroDivision)
  {
    var cs := Closes(bars);
    var n := |bars|;
    if n >= Year {
      var volumes := VolumeHistory(bars).value;
      assert volumes == [bars[n - 2].volume, bars[n - 5].volume];
      if bars[n - 2].volume != 0.0 && bars[n - 5].volume != 0.0 {
        forall i | 0 <= i < |volumes| ensures volumes[i] != 0.0 {
          assert i == 0 || i == 1;
        }
      } else {
        assert volumes[0] == 0.0 || volumes[1] == 0.0;
      }
    }
  }

  /** A row has one column per header title and each column one value per
      name of its title; the first column is the ticker, the second the plain
      last close. */
  lemma StockLineColumns(ticker: string, bars: seq<Bar>, sd: real)
    requires IsWindowSd(Closes(bars), BandWindow, sd)
    requires StockLine(ticker, bars, sd).Success?
    ensures |bars| >= Year
    ensures var row := StockLine(ticker, bars, sd).value;
            |row| == |StockLineHeader()| &&
            forall k :: 0 <= k < |row| ==>
              |Tokens(row[k])| == |HeaderNames()[k]| && SepCount(row[k]) == SlashCount(StockLineHeader()[k])
    ensures var row := StockLine(ticker, bars, sd).value;
            var n := |bars|;
            Tokens(row[0]) == [Label(ticker)] &&
            Tokens(row[1]) == [Num(bars[n - 1].close, Plain)]
  {
    StockLineOutcome(ticker, bars, sd);
    var cs := Closes(bars);
    var last, history := LastClose(bars), PriceHistory(bars);
    var macd, bands, rsi := Macd(cs, FastSpan, SlowSpan, SignalSpan), Bollinger(cs, BandWindow, sd), RsiWith(cs, RsiWindow);
    var lastVol, volumes := LastVolume(bars), VolumeHistory(bars);
    var line := AssembleLine(ticker, last, history, macd, bands, rsi, lastVol, volumes);
    assert StockLine(ticker, bars, sd) == line;
    var vol := VolumeColumn(lastVol.value, volumes.value).value;
    ColumnsMatchHeader(ticker, last.value, history.value, macd.value, bands.value, rsi.value, vol);
    ColumnTokens(ticker, last.value, history.value, macd.value, bands.value, rsi.value, vol);
  }

  /** A ticker whose closes never move has no defined RSI window, so its row
      raises instead of showing a neutral RSI. */
  lemma FlatStockLine(ticker: string, bars: seq<Bar>, sd: real, c: real)
    requires IsWindowSd(Closes(bars), BandWindow, sd)
    requires forall i :: 0 <= i < |bars| ==> bars[i].close == c
    ensures StockLine(ticker, bars, sd) == Failure(IndexOutOfRange)
  {
    FlatRsi(Closes(bars), c, RsiWindow);
    StockLineOutcome(ticker, bars, sd);
  }

  /** The price column of a row holds the closes 2, 5, 20 and 240 bars back,
      coloured against the last close. */
  lemma StockLinePriceColumn(ticker: string, bars: seq<Bar>, sd: real)
    requires IsWindowSd(Closes(bars), BandWindow, sd)
    requires StockLine(ticker, bars, sd).Success?
    ensures |bars| >= Year
    ensures var n := |bars|;
            Tokens(StockLine(ticker, bars, sd).value[2]) ==
              PriceTokens(bars[n - 1].close, [bars[n - 2].close, bars[n - 5].close, bars[n - 20].close, bars[n - 240].close])
  {
    StockLineOutcome(ticker, bars, sd);
    var cs := Closes(bars);
    var last, history := LastClose(bars), PriceHistory(bars);
    var macd, bands, rsi := Macd(cs, FastSpan, SlowSpan, SignalSpan), Bollinger(cs, BandWindow, sd), RsiWith(cs, RsiWindow);
    var lastVol, volumes := LastVolume(bars), VolumeHistory(bars);
    assert StockLine(ticker, bars, sd) == AssembleLine(ticker, last, history, macd, bands, rsi, lastVol, volumes);
    var vol := VolumeColumn(lastVol.value, volumes.value).value;
    ColumnTokens(ticker, last.value, history.value, macd.value, bands.value, rsi.value, vol);
  }

  /** The RSI column of a row shows the RSI of the closes. */
  lemma StockLineRsiColumn(ticker: string, bars: seq<Bar>, sd: real)
    requires IsWindowSd(Closes(bars), BandWindow, sd)
    requires StockLine(ticker, bars, sd).Success?
    ensures RsiWith(Closes(bars), RsiWindow).Success?
    ensures Tokens(StockLine(ticker, bars, sd).value[5]) == [RsiToken(RsiWith(Closes(bars), RsiWindow).value)]
  {
    StockLineOutcome(ticker, bars, sd);
    var cs := Closes(bars);
    var last, history := LastClose(bars), PriceHistory(bars);
    var macd, bands, rsi := Macd(cs, FastSpan, SlowSpan, SignalSpan), Bollinger(cs, BandWindow, sd), RsiWith(cs, RsiWindow);
    var lastVol, volumes := LastVolume(bars), VolumeHistory(bars);
    assert StockLine(ticker, bars, sd) == AssembleLine(ticker, last, history, macd, bands, rsi, lastVol, volumes);
    var vol := VolumeColumn(lastVol.value, volumes.value).value;
    ColumnTokens(ticker, last.value, history.value, macd.value, bands.value, rsi.value, vol);
  }

  /** A price column against closes all below the last one is all red. */
  lemma AllRedPrices(last: real, history: seq<real>)
    requires forall k :: 0 <= k < |history| ==> last > history[k]
    ensures forall t :: t in PriceTokens(last, history) ==> t.Num? && t.emphasis == Red
  {
    var ts := PriceTokens(last, history);
    forall t | t in ts ensures t.Num? && t.emphasis == Red {
      var k :| 0 <= k < |ts| && ts[k] == t;
    }
  }

  /** When closes rise every day, the last close is above every lookback
      close, so all four lookback prices are red. */
  lemma RisingLookbacks(bars: seq<Bar>)
    requires |bars| >= Year
    requires Rising(Closes(bars))
    ensures var n := |bars|;
            var history := [bars[n - 2].close, bars[n - 5].close, bars[n - 20].close, bars[n - 240].close];
            (forall k :: 0 <= k < |history| ==> bars[n - 1].close > history[k]) &&
            forall t :: t in PriceTokens(bars[n - 1].close, history) ==> t.Num? && t.emphasis == Red
  {
    var cs := Closes(bars);
    var n := |bars|;
    var history := [bars[n - 2].close, bars[n - 5].close, bars[n - 20].close, bars[n - 240].close];
    forall k | 0 <= k < |history| ensures bars[n - 1].close > history[k] {
      var back := [2, 5, 20, 240][k];
      RisingIncreasing(cs, n - back, n - 1);
    }
    AllRedPrices(bars[n - 1].close, history);
  }

  /** A ticker whose closes rise every day, with non-zero lookback volumes, gets
      a row whose RSI is 100 in green. */
  lemma RisingStockLine(ticker: string, bars: seq<Bar>, sd: real)
    requires IsWindowSd(Closes(bars), BandWindow, sd)
    requires |bars| >= Year
    requires Rising(Closes(bars))
    requires bars[|bars| - 2].volume != 0.0 && bars[|bars| - 5].volume != 0.0
    ensures StockLine(ticker, bars, sd).Success?
    ensures Tokens(StockLine(ticker, bars, sd).value[5]) == [Num(100.0, Green)]
  {
    RisingRsi(Closes(bars), RsiWindow);
    StockLineOutcome(ticker, bars, sd);
    StockLineRsiColumn(ticker, bars, sd);
    assert RsiToken(100.0) == Num(100.0, Green);
  }

  /** In a row of a ticker whose closes rise every day, every lookback price is red. */
  lemma RisingPriceColumn(ticker: string, bars: seq<Bar>, sd: real)
    requires IsWindowSd(Closes(bars), BandWindow, sd)
    requires Rising(Closes(bars))
    requires StockLine(ticker, bars, sd).Success?
    ensures forall t :: t in Tokens(StockLine(ticker, bars, sd).value[2]) ==> t.Num? && t.emphasis == Red
  {
    StockLinePriceColumn(ticker, bars, sd);
    RisingLookbacks(bars);
  }
}
