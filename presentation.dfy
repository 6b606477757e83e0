/** The presentation rules of stock_dashboard.py: which value of a column is
    coloured, and in which colour. Each rule is a first-match if/elif/else
    chain in the source; the colour is kept as an emphasis tag, the terminal
    escape codes (reverse video, blink) are not modelled. */
module Presentation {
  import opened Series
  import opened Indicators

  datatype Emphasis = Plain | Red | Green

  /** A display token: a fixed label, or a number with the emphasis chosen for it. */
  datatype Token = Label(text: string) | Num(value: real, emphasis: Emphasis)

  /** One element of a "/"-joined column: a token or the separator between two. */
  datatype Piece = Sep | Tok(token: Token)

  const AlertHigh := 20.0
  const AlertLow := 12.0

  /** Index.last_price: a volatility index above 20 is red, below 12 green, plain otherwise. */
  function VolatilityToken(p: real): (t: Token)
    ensures t.Num? && t.value == p
    ensures t.emphasis == Red <==> p > AlertHigh
    ensures t.emphasis == Green <==> p < AlertLow
    ensures t.emphasis == Plain <==> AlertLow <= p <= AlertHigh
  {
    if p > AlertHigh then Num(p, Red)
    else if p < AlertLow then Num(p, Green)
    else Num(p, Plain)
  }

  function PriceToken(last: real, v: real): Token
  {
    if last > v then Num(v, Red) else Num(v, Green)
  }

  /** The price column: one token per lookback close, in lookback order; a close
      the last price is above is red, any other green. */
  function PriceTokens(last: real, history: seq<real>): (ts: seq<Token>)
    ensures |ts| == |history|
    ensures forall i :: 0 <= i < |ts| ==> ts[i].Num? && ts[i].value == history[i]
    ensures forall i :: 0 <= i < |ts| ==> (ts[i].emphasis == Red <==> last > history[i])
    ensures forall i :: 0 <= i < |ts| ==> (ts[i].emphasis == Green <==> last <= history[i])
  {
    seq(|history|, i requires 0 <= i < |history| => PriceToken(last, history[i]))
  }

  /** The MACD column: MACD is never coloured; the signal is red when it is
      negative and below MACD, green otherwise. */
  function MacdTokens(macd: real, signal: real): (ts: seq<Token>)
    ensures |ts| == 2 && ts[0] == Num(macd, Plain)
    ensures ts[1].Num? && ts[1].value == signal
    ensures ts[1].emphasis == Red <==> signal < 0.0 && signal < macd
    ensures ts[1].emphasis == Green <==> !(signal < 0.0 && signal < macd)
  {
    if signal < 0.0 && signal < macd then [Num(macd, Plain), Num(signal, Red)]
    else [Num(macd, Plain), Num(signal, Green)]
  }

  function IsEmphasised(t: Token): bool
  {
    t.Num? && t.emphasis != Plain
  }

  /** The Bollinger column, low/mid/high in that order, with the first matching
      rule only: mid red when the price is below it, else low red when the price
      is below it, else high green when the price is above it. */
  function BandTokens(last: real, b: Bands): (ts: seq<Token>)
    ensures |ts| == 3
    ensures ts[0].Num? && ts[0].value == b.low
    ensures ts[1].Num? && ts[1].value == b.mid
    ensures ts[2].Num? && ts[2].value == b.high
    ensures ts[1].emphasis == Red <==> b.mid > last
    ensures ts[0].emphasis == Red <==> !(b.mid > last) && b.low > last
    ensures ts[2].emphasis == Green <==> !(b.mid > last) && !(b.low > last) && last > b.high
    ensures ts[0].emphasis != Green && ts[1].emphasis != Green && ts[2].emphasis != Red
    ensures forall i, j :: 0 <= i < j < 3 && IsEmphasised(ts[i]) ==> !IsEmphasised(ts[j])
  {
    if b.mid > last then [Num(b.low, Plain), Num(b.mid, Red), Num(b.high, Plain)]
    else if b.low > last then [Num(b.low, Red), Num(b.mid, Plain), Num(b.high, Plain)]
    else if last > b.high then [Num(b.low, Plain), Num(b.mid, Plain), Num(b.high, Green)]
    else [Num(b.low, Plain), Num(b.mid, Plain), Num(b.high, Plain)]
  }

  /** For ordered bands the second rule never fires (a price below the low band
      is below the mid band too): mid is red exactly when the price is below it,
      high green exactly when the price is above it, and low is never coloured. */
  lemma OrderedBandTokens(last: real, b: Bands)
    requires b.low <= b.mid <= b.high
    ensures BandTokens(last, b)[0].emphasis == Plain
    ensures BandTokens(last, b)[1].emphasis == (if last < b.mid then Red else Plain)
    ensures BandTokens(last, b)[2].emphasis == (if last > b.high then Green else Plain)
  {
  }

  /** The RSI column: green above 50, red otherwise. */
  function RsiToken(rsi: real): (t: Token)
    ensures t.Num? && t.value == rsi
    ensures t.emphasis == Green <==> rsi > 50.0
    ensures t.emphasis == Red <==> rsi <= 50.0
  {
    if rsi > 50.0 then Num(rsi, Green) else Num(rsi, Red)
  }

  /** An RSI token is green exactly when the window's average gain beats its average loss. */
  lemma RsiTokenGreenIffGainsDominate(ch: seq<real>, win: nat, j: nat)
    requires 1 <= win && win - 1 <= j < |ch|
    requires RsiAt(ch, win, j).Some?
    ensures RsiToken(RsiAt(ch, win, j).value).emphasis == Green <==> AverageUp(ch, win, j) > AverageDown(ch, win, j)
  {
    RsiAboveHalfIffGainsDominate(ch, win, j);
  }

  /** Percentage change of the last volume against an earlier one. */
  function PercentChange(lastVol: real, v: real): real
    requires v != 0.0
  {
    (lastVol - v) / v * 100.0
  }

  function VolumeToken(lastVol: real, v: real): Token
    requires v != 0.0
  {
    if lastVol > v then Num(PercentChange(lastVol, v), Green) else Num(PercentChange(lastVol, v), Red)
  }

  /** The volume percentages, one per lookback volume in lookback order; a zero
      lookback volume is a division by zero. */
  function VolumeTokens(lastVol: real, history: seq<real>): (r: Result<seq<Token>>)
    ensures r.Success? <==> forall i :: 0 <= i < |history| ==> history[i] != 0.0
    ensures r.Failure? ==> r.error == ZeroDivision
    ensures r.Success? ==> |r.value| == |history|
    ensures r.Success? ==> forall i :: 0 <= i < |history| ==>
                             r.value[i].Num? && r.value[i].value == PercentChange(lastVol, history[i])
    ensures r.Success? ==> forall i :: 0 <= i < |history| ==>
                             (r.value[i].emphasis == Green <==> lastVol > history[i]) &&
                             (r.value[i].emphasis == Red <==> lastVol <= history[i])
  {
    if forall i :: 0 <= i < |history| ==> history[i] != 0.0 then
      Success(seq(|history|, i requires 0 <= i < |history| => VolumeToken(lastVol, history[i])))
    else Failure(ZeroDivision)
  }

  /** Against a positive earlier volume the colour is the sign of the change:
      green exactly when the percentage is positive. */
  lemma VolumeColourIsSign(lastVol: real, v: real)
    requires v > 0.0
    ensures VolumeToken(lastVol, v).emphasis == Green <==> PercentChange(lastVol, v) > 0.0
    ensures VolumeToken(lastVol, v).emphasis == Red <==> PercentChange(lastVol, v) <= 0.0
  {
    DivCompare(lastVol - v, v, 0.0);
  }

  // ---------------------------------------------------------------------------
  // "/".join of a column's tokens

  /** Tokens with a separator between each two; the tokens sit at the even positions. */
  function Join(ts: seq<Token>): (ps: seq<Piece>)
    ensures |ps| == if |ts| == 0 then 0 else 2 * |ts| - 1
    ensures forall i :: 0 <= i < |ps| ==> ps[i] == if i % 2 == 0 then Tok(ts[i / 2]) else Sep
  {
    if |ts| <= 1 then seq(|ts|, i requires 0 <= i < |ts| => Tok(ts[i]))
    else [Tok(ts[0]), Sep] + Join(ts[1..])
  }

  /** The tokens of a column, separators dropped. */
  function Tokens(ps: seq<Piece>): seq<Token>
  {
    if |ps| == 0 then []
    else (if ps[0].Tok? then [ps[0].token] else []) + Tokens(ps[1..])
  }

  function SepCount(ps: seq<Piece>): nat
  {
    if |ps| == 0 then 0 else (if ps[0] == Sep then 1 else 0) + SepCount(ps[1..])
  }

  /** Splitting a joined column gives back its tokens, and a column of n tokens
      holds n - 1 separators. */
  lemma {:induction false} JoinRoundTrip(ts: seq<Token>)
    ensures Tokens(Join(ts)) == ts
    ensures SepCount(Join(ts)) == if |ts| == 0 then 0 else |ts| - 1
  {
    if |ts| > 1 {
      JoinRoundTrip(ts[1..]);
      var rest := Join(ts[1..]);
      assert Join(ts)[1..] == [Sep] + rest;
      assert ([Sep] + rest)[1..] == rest;
    } else if |ts| == 1 {
      assert Join(ts) == [Tok(ts[0])];
      assert Join(ts)[1..] == [];
    }
  }
}
