/** The indicator engine of stock_dashboard.py: the last values and the
    lookbacks of the close and volume columns, MACD over exponential moving
    averages, Bollinger bands and the simple-average RSI. */
module Indicators {
  import opened Series

  // Lookback offsets, counted from the end as the source's negative indexes.
  const Day := 2
  const Week := 5
  const Month := 20   // four weeks
  const Year := 240   // twelve months

  const FastSpan := 12
  const SlowSpan := 26
  const SignalSpan := 9
  const BandWindow := 20
  /** The window the source's RSI actually averages over. */
  const RsiWindow := 14

  /** Stock.last_price: the latest close. */
  function LastClose(bars: seq<Bar>): (r: Result<real>)
    ensures r.Success? <==> |bars| >= 1
    ensures r.Success? ==> r.value == bars[|bars| - 1].close
    ensures r.Failure? ==> r.error == IndexOutOfRange
  {
    FromEnd(Closes(bars), 1)
  }

  /** Stock.last_volume: the latest volume. */
  function LastVolume(bars: seq<Bar>): (r: Result<real>)
    ensures r.Success? <==> |bars| >= 1
    ensures r.Success? ==> r.value == bars[|bars| - 1].volume
    ensures r.Failure? ==> r.error == IndexOutOfRange
  {
    FromEnd(Volumes(bars), 1)
  }

  /** Stock.price_history: the closes a day, a week, a month and a year back, in that order. */
  function PriceHistory(bars: seq<Bar>): (r: Result<seq<real>>)
    ensures r.Success? <==> |bars| >= Year
    ensures r.Failure? ==> r.error == IndexOutOfRange
    ensures r.Success? ==> var n := |bars|;
      r.value == [bars[n - 2].close, bars[n - 5].close, bars[n - 20].close, bars[n - 240].close]
  {
    var cs := Closes(bars);
    var day :- FromEnd(cs, Day);
    var week :- FromEnd(cs, Week);
    var month :- FromEnd(cs, Month);
    var year :- FromEnd(cs, Year);
    Success([day, week, month, year])
  }

  /** Stock.vol_history: the volumes a day and a week back, in that order. */
  function VolumeHistory(bars: seq<Bar>): (r: Result<seq<real>>)
    ensures r.Success? <==> |bars| >= Week
    ensures r.Failure? ==> r.error == IndexOutOfRange
    ensures r.Success? ==> var n := |bars|;
      r.value == [bars[n - 2].volume, bars[n - 5].volume]
  {
    var vs := Volumes(bars);
    var day :- FromEnd(vs, Day);
    var week :- FromEnd(vs, Week);
    Success([day, week])
  }

  // ---------------------------------------------------------------------------
  // Exponential moving average, pandas ewm(span, adjust=False).mean()

  function Alpha(span: nat): real
    requires span >= 1
  {
    2.0 / (span as real + 1.0)
  }

  /** One step of the smoothing: the new value weighted by alpha, the previous average by 1 - alpha. */
  function Smooth(alpha: real, x: real, previous: real): real
  {
    alpha * x + (1.0 - alpha) * previous
  }

  /** e[0] = x[0]; e[t] = Smooth(alpha, x[t], e[t - 1]), as a left fold. */
  function Ema(xs: seq<real>, span: nat): (e: seq<real>)
    requires span >= 1
    ensures |e| == |xs|
  {
    if |xs| <= 1 then xs
    else
      var prev := Ema(xs[..|xs| - 1], span);
      prev + [Smooth(Alpha(span), xs[|xs| - 1], prev[|prev| - 1])]
  }

  lemma {:induction false} EmaPrefix(xs: seq<real>, span: nat, k: nat)
    requires span >= 1 && k <= |xs|
    ensures Ema(xs, span)[..k] == Ema(xs[..k], span)
  {
    if k == |xs| {
      assert xs[..k] == xs;
    } else {
      var init := xs[..|xs| - 1];
      EmaPrefix(init, span, k);
      assert init[..k] == xs[..k];
    }
  }

  /** The EMA starts at the first value: there is no warm-up. */
  lemma {:induction false} EmaFirst(xs: seq<real>, span: nat)
    requires span >= 1 && |xs| >= 1
    ensures Ema(xs, span)[0] == xs[0]
  {
    if |xs| > 1 {
      EmaFirst(xs[..|xs| - 1], span);
    }
  }

  /** Every later EMA value follows the recursion e[t] = alpha * x[t] + (1 - alpha) * e[t - 1]. */
  lemma {:induction false} EmaStep(xs: seq<real>, span: nat, t: nat)
    requires span >= 1 && 1 <= t < |xs|
    ensures Ema(xs, span)[t] == Smooth(Alpha(span), xs[t], Ema(xs, span)[t - 1])
  {
    var init := xs[..|xs| - 1];
    var prev := Ema(init, span);
    var e := Ema(xs, span);
    assert e == prev + [Smooth(Alpha(span), xs[|xs| - 1], prev[|prev| - 1])];
    assert e[t - 1] == prev[t - 1];
    if t < |xs| - 1 {
      EmaStep(init, span, t);
      assert init[t] == xs[t];
    }
  }

  /** Every EMA value lies within the range of the series it smooths. */
  lemma {:induction false} EmaBounded(xs: seq<real>, span: nat, lo: real, hi: real)
    requires span >= 1
    requires forall i :: 0 <= i < |xs| ==> lo <= xs[i] <= hi
    ensures forall i :: 0 <= i < |xs| ==> lo <= Ema(xs, span)[i] <= hi
  {
    if |xs| > 1 {
      var init := xs[..|xs| - 1];
      EmaBounded(init, span, lo, hi);
      var prev := Ema(init, span);
      ConvexStep(Alpha(span), xs[|xs| - 1], prev[|prev| - 1], lo, hi);
    }
  }

  datatype MacdValues = MacdValues(macd: real, signal: real)

  /** MACD line: fast EMA minus slow EMA at every bar. */
  function MacdLine(cs: seq<real>, fast: nat, slow: nat): (m: seq<real>)
    requires fast >= 1 && slow >= 1
    ensures |m| == |cs|
  {
    var f := Ema(cs, fast);
    var s := Ema(cs, slow);
    seq(|cs|, t requires 0 <= t < |cs| => f[t] - s[t])
  }

  /** Stock.macd: the latest MACD value and the latest value of its signal line. */
  function Macd(cs: seq<real>, fast: nat, slow: nat, signal: nat): (r: Result<MacdValues>)
    requires fast >= 1 && slow >= 1 && signal >= 1
    ensures r.Success? <==> |cs| >= 1
    ensures r.Failure? ==> r.error == NotConvertible
    ensures r.Success? ==> r.value.macd == Ema(cs, fast)[|cs| - 1] - Ema(cs, slow)[|cs| - 1]
    ensures r.Success? ==> r.value.signal == Ema(MacdLine(cs, fast, slow), signal)[|cs| - 1]
  {
    if |cs| == 0 then Failure(NotConvertible)
    else
      var line := MacdLine(cs, fast, slow);
      var sline := Ema(line, signal);
      Success(MacdValues(line[|cs| - 1], sline[|cs| - 1]))
  }

  /** The signal line is an average of the MACD line, so it never leaves the
      range the MACD line stays in. */
  lemma SignalWithinMacdRange(cs: seq<real>, fast: nat, slow: nat, signal: nat, lo: real, hi: real)
    requires fast >= 1 && slow >= 1 && signal >= 1 && |cs| >= 1
    requires forall t :: 0 <= t < |cs| ==> lo <= MacdLine(cs, fast, slow)[t] <= hi
    ensures lo <= Macd(cs, fast, slow, signal).value.signal <= hi
  {
    EmaBounded(MacdLine(cs, fast, slow), signal, lo, hi);
  }

  /** A flat series has no momentum: MACD and its signal line are both zero. */
  lemma FlatMacd(cs: seq<real>, c: real, fast: nat, slow: nat, signal: nat)
    requires fast >= 1 && slow >= 1 && signal >= 1 && |cs| >= 1
    requires forall i :: 0 <= i < |cs| ==> cs[i] == c
    ensures Macd(cs, fast, slow, signal) == Success(MacdValues(0.0, 0.0))
  {
    EmaBounded(cs, fast, c, c);
    EmaBounded(cs, slow, c, c);
    var line := MacdLine(cs, fast, slow);
    assert forall t :: 0 <= t < |line| ==> line[t] == 0.0;
    EmaBounded(line, signal, 0.0, 0.0);
  }

  // ---------------------------------------------------------------------------
  // Bollinger bands

  datatype Bands = Bands(low: real, mid: real, high: real)

  /** The last `win` closes, the window the latest band is computed over. */
  function LastWindow(cs: seq<real>, win: nat): seq<real>
    requires win <= |cs|
  {
    cs[|cs| - win..]
  }

  /** `sd` is the window's sample standard deviation: its non-negative square root
      of the sample variance (the model has no square root, so the caller supplies it). */
  predicate IsWindowSd(cs: seq<real>, win: nat, sd: real)
  {
    win >= 2 && (win <= |cs| ==> sd >= 0.0 && sd * sd == SampleVariance(LastWindow(cs, win)))
  }

  /** Stock.bolinger: the `win`-bar mean flanked by two sample standard deviations. */
  function Bollinger(cs: seq<real>, win: nat, sd: real): (r: Result<Bands>)
    requires IsWindowSd(cs, win, sd)
    ensures r.Success? <==> |cs| >= win
    ensures r.Failure? ==> r.error == (if |cs| == 0 then NotConvertible else UndefinedBands)
    ensures r.Success? ==> r.value.mid == Mean(LastWindow(cs, win))
    ensures r.Success? ==> r.value.low <= r.value.mid <= r.value.high
    ensures r.Success? ==> r.value.high - r.value.mid == r.value.mid - r.value.low == 2.0 * sd
  {
    if |cs| == 0 then Failure(NotConvertible)
    else if |cs| < win then Failure(UndefinedBands)
    else
      var mid := Mean(LastWindow(cs, win));
      Success(Bands(mid - 2.0 * sd, mid, mid + 2.0 * sd))
  }

  /** Over a flat window the three bands coincide with the price. */
  lemma FlatBands(cs: seq<real>, c: real, win: nat, sd: real)
    requires IsWindowSd(cs, win, sd) && |cs| >= win
    requires forall i :: 0 <= i < |cs| ==> cs[i] == c
    ensures Bollinger(cs, win, sd) == Success(Bands(c, c, c))
  {
    ConstantWindow(LastWindow(cs, win), c);
    SquareZero(sd);
  }

  // ---------------------------------------------------------------------------
  // RSI over simple rolling means of gains and losses

  /** close.diff() with the leading NaN dropped. */
  function Changes(cs: seq<real>): (ch: seq<real>)
    ensures |ch| == if |cs| == 0 then 0 else |cs| - 1
  {
    if |cs| == 0 then [] else seq(|cs| - 1, i requires 0 <= i < |cs| - 1 => cs[i + 1] - cs[i])
  }

  datatype Move = Move(up: real, down: real)

  /** A change split into its rising part (negatives zeroed) and its falling part
      (positives zeroed); the two parts add up to the change again. */
  function SplitChange(d: real): (m: Move)
    ensures m.up >= 0.0 && m.down <= 0.0
    ensures m.up + m.down == d
    ensures m.up == 0.0 || m.down == 0.0
  {
    Move(if d < 0.0 then 0.0 else d, if d > 0.0 then 0.0 else d)
  }

  function Ups(ch: seq<real>): seq<real>
  {
    seq(|ch|, i requires 0 <= i < |ch| => SplitChange(ch[i]).up)
  }

  function Downs(ch: seq<real>): seq<real>
  {
    seq(|ch|, i requires 0 <= i < |ch| => SplitChange(ch[i]).down)
  }

  /** The `win` changes that end at change `j`. */
  function Window(xs: seq<real>, win: nat, j: nat): seq<real>
    requires 1 <= win && win - 1 <= j < |xs|
  {
    xs[j + 1 - win..j + 1]
  }

  /** Rolling mean of the gains ending at change `j`. */
  function AverageUp(ch: seq<real>, win: nat, j: nat): (a: real)
    requires 1 <= win && win - 1 <= j < |ch|
    ensures a >= 0.0
  {
    SumOfNonNegatives(Window(Ups(ch), win, j));
    Sum(Window(Ups(ch), win, j)) / win as real
  }

  /** Absolute value of the rolling mean of the losses ending at change `j`. */
  function AverageDown(ch: seq<real>, win: nat, j: nat): real
    requires 1 <= win && win - 1 <= j < |ch|
  {
    Abs(Sum(Window(Downs(ch), win, j)) / win as real)
  }

  /** 100 * avg_up / (avg_up + avg_down) for the window ending at change `j`;
      None where pandas computes 0/0 = NaN. */
  function RsiAt(ch: seq<real>, win: nat, j: nat): (r: Option<real>)
    requires 1 <= win && win - 1 <= j < |ch|
    ensures r.Some? ==> 0.0 <= r.value <= 100.0
  {
    var up := AverageUp(ch, win, j);
    var down := AverageDown(ch, win, j);
    if up + down == 0.0 then None
    else
      Share(up, down);
      Some(100.0 * up / (up + down))
  }

  /** A window's RSI is undefined exactly when the price did not move in it. */
  lemma RsiUndefinedIffFlat(ch: seq<real>, win: nat, j: nat)
    requires 1 <= win && win - 1 <= j < |ch|
    ensures RsiAt(ch, win, j).None? <==> forall i :: j + 1 - win <= i <= j ==> ch[i] == 0.0
  {
    var ups := Window(Ups(ch), win, j);
    var downs := Window(Downs(ch), win, j);
    SumOfNonNegatives(ups);
    SumOfNonPositives(downs);
    if forall i :: j + 1 - win <= i <= j ==> ch[i] == 0.0 {
      assert forall i :: 0 <= i < |ups| ==> ups[i] == 0.0;
      assert forall i :: 0 <= i < |downs| ==> downs[i] == 0.0;
    }
    if RsiAt(ch, win, j).None? {
      forall i | j + 1 - win <= i <= j ensures ch[i] == 0.0 {
        assert ups[i - (j + 1 - win)] == 0.0 && downs[i - (j + 1 - win)] == 0.0;
      }
    }
  }

  /** RSI is above 50 exactly when the window's average gain exceeds its average loss. */
  lemma RsiAboveHalfIffGainsDominate(ch: seq<real>, win: nat, j: nat)
    requires 1 <= win && win - 1 <= j < |ch|
    requires RsiAt(ch, win, j).Some?
    ensures RsiAt(ch, win, j).value > 50.0 <==> AverageUp(ch, win, j) > AverageDown(ch, win, j)
  {
    Share(AverageUp(ch, win, j), AverageDown(ch, win, j));
  }

  /** The latest window, at or before change `hi`, whose RSI is defined. */
  function LastDefinedWindow(ch: seq<real>, win: nat, hi: int): (k: Option<nat>)
    requires 1 <= win && -1 <= hi < |ch|
    ensures k.Some? ==> win - 1 <= k.value <= hi && RsiAt(ch, win, k.value).Some?
    ensures forall j :: win - 1 <= j <= hi && (k.None? || k.value < j) ==> RsiAt(ch, win, j).None?
    decreases hi + 1
  {
    if hi < win - 1 then None
    else if RsiAt(ch, win, hi).Some? then Some(hi)
    else LastDefinedWindow(ch, win, hi - 1)
  }

  /** RSI over `win`-change windows: the value of the latest window that is defined
      (rsi.dropna().iloc[-1]); an IndexError when none is. */
  function RsiWith(cs: seq<real>, win: nat): (r: Result<real>)
    requires win >= 1
    ensures r.Success? ==> 0.0 <= r.value <= 100.0
    ensures r.Success? <==> exists j :: win - 1 <= j < |Changes(cs)| && RsiAt(Changes(cs), win, j).Some?
    ensures r.Failure? ==> r.error == IndexOutOfRange
    ensures r.Success? ==> exists k :: win - 1 <= k < |Changes(cs)| && RsiAt(Changes(cs), win, k) == Some(r.value) &&
                                       forall j :: k < j < |Changes(cs)| ==> RsiAt(Changes(cs), win, j).None?
  {
    var ch := Changes(cs);
    match LastDefinedWindow(ch, win, |ch| - 1)
    case None => Failure(IndexOutOfRange)
    case Some(k) => Success(RsiAt(ch, win, k).value)
  }

  /** Stock.rsi as written: the `win` argument is never read, the windows are 14 changes. */
  function Rsi(cs: seq<real>, win: nat): (r: Result<real>)
    ensures r == RsiWith(cs, RsiWindow)
  {
    RsiWith(cs, RsiWindow)
  }

  /** A window argument other than 14 changes nothing: on three rising closes
      with win = 2 the source fails where a 2-change RSI is 100. */
  lemma RsiIgnoresWindow()
    ensures Rsi([1.0, 2.0, 3.0], 2).Failure?
    ensures RsiWith([1.0, 2.0, 3.0], 2) == Success(100.0)
  {
    var ch := Changes([1.0, 2.0, 3.0]);
    assert ch == [1.0, 1.0];
    assert SplitChange(1.0) == Move(1.0, 0.0);
    assert Ups(ch)[0] == 1.0 && Ups(ch)[1] == 1.0;
    assert Downs(ch)[0] == 0.0 && Downs(ch)[1] == 0.0;
    assert Ups(ch) == [1.0, 1.0];
    assert Downs(ch) == [0.0, 0.0];
    assert Window(Ups(ch), 2, 1) == Ups(ch);
    assert Window(Downs(ch), 2, 1) == Downs(ch);
    assert RsiAt(ch, 2, 1) == Some(100.0);
  }

  /** Over a flat series no RSI window is defined, so the source raises. */
  lemma FlatRsi(cs: seq<real>, c: real, win: nat)
    requires win >= 1
    requires forall i :: 0 <= i < |cs| ==> cs[i] == c
    ensures RsiWith(cs, win) == Failure(IndexOutOfRange)
  {
    var ch := Changes(cs);
    forall j | win - 1 <= j < |ch| ensures RsiAt(ch, win, j).None? {
      RsiUndefinedIffFlat(ch, win, j);
    }
  }

  /** Every close above the one before it. */
  ghost predicate Rising(cs: seq<real>)
  {
    |cs| <= 1 || (cs[0] < cs[1] && Rising(cs[1..]))
  }

  /** In a rising series every close is above every earlier one. */
  lemma {:induction false} RisingIncreasing(cs: seq<real>, i: nat, j: nat)
    requires Rising(cs)
    requires i < j < |cs|
    ensures cs[i] < cs[j]
  {
    if i == 0 {
      if j > 1 {
        RisingIncreasing(cs[1..], 0, j - 1);
      }
    } else {
      RisingIncreasing(cs[1..], i - 1, j - 1);
    }
  }

  /** Every change of a rising series is a gain. */
  lemma RisingChanges(cs: seq<real>)
    requires Rising(cs)
    ensures forall i :: 0 <= i < |Changes(cs)| ==> Changes(cs)[i] > 0.0
  {
    forall i | 0 <= i < |Changes(cs)| ensures Changes(cs)[i] > 0.0 {
      RisingIncreasing(cs, i, i + 1);
    }
  }

  /** A window of gains only has an RSI of 100. */
  lemma AllGainsWindow(ch: seq<real>, win: nat, j: nat)
    requires 1 <= win && win - 1 <= j < |ch|
    requires forall i :: j + 1 - win <= i <= j ==> ch[i] > 0.0
    ensures RsiAt(ch, win, j) == Some(100.0)
  {
    var ups := Window(Ups(ch), win, j);
    var downs := Window(Downs(ch), win, j);
    assert forall i :: 0 <= i < |downs| ==> downs[i] == SplitChange(ch[j + 1 - win + i]).down;
    SumOfNonPositives(downs);
    SumOfNonNegatives(ups);
    assert ups[0] == ch[j + 1 - win];
    assert Sum(ups) > 0.0;
    DivCompare(Sum(ups), win as real, 0.0);
    var up := AverageUp(ch, win, j);
    assert AverageDown(ch, win, j) == 0.0;
    Share(up, 0.0);
  }

  /** Over a strictly rising series with at least one full window the RSI is 100. */
  lemma RisingRsi(cs: seq<real>, win: nat)
    requires win >= 1 && |cs| >= win + 1
    requires Rising(cs)
    ensures RsiWith(cs, win) == Success(100.0)
  {
    var ch := Changes(cs);
    RisingChanges(cs);
    AllGainsWindow(ch, win, |ch| - 1);
  }
}
