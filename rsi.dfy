/**
 * The 14-period relative strength index of Mooviz (`calculate_rsi` in app.py),
 * over exact reals.
 *
 * The model takes the moves between consecutive closes and splits each into
 * its rising part and its falling part, the first position counting as 0 in
 * both. It averages each over the last 14 entries, reads a zero mean loss as
 * an infinite divisor (so the relative strength is 0), and takes
 * 100 - 100/(1 + RS) at the last position, or 50 for an empty series.
 */
module Indicator {

  /** The window of `calculate_rsi`; the only caller uses the default. */
  const Period: nat := 14

  /** The last value of the RSI column: a number, or pandas' NaN. */
  datatype RsiResult = Defined(value: real) | Nan

  /** The gain of one close-to-close move: the move itself when it is up, else 0. */
  function Gain(delta: real): (g: real)
    ensures g >= 0.0 && g >= delta
    ensures g == 0.0 || g == delta
  {
    if delta > 0.0 then delta else 0.0
  }

  /** The loss of one close-to-close move: its size when it is down, else 0. */
  function Loss(delta: real): (l: real)
    ensures l >= 0.0 && l >= -delta
    ensures l == 0.0 || l == -delta
  {
    if delta < 0.0 then -delta else 0.0
  }

  /** Every move splits into a gain and a loss that are non-negative, never both
      non-zero, and whose difference is the move again. */
  lemma GainLossSplit(delta: real)
    ensures Gain(delta) >= 0.0 && Loss(delta) >= 0.0
    ensures Gain(delta) == 0.0 || Loss(delta) == 0.0
    ensures Gain(delta) - Loss(delta) == delta
  {
  }

  /** Entry `i` of the gain column: position 0 holds the 0 that
      `where(delta > 0, 0)` puts in place of diff()'s leading NaN. */
  function GainAt(closes: seq<real>, i: nat): (g: real)
    requires i < |closes|
    ensures g >= 0.0
    ensures i == 0 ==> g == 0.0
  {
    if i == 0 then 0.0 else Gain(closes[i] - closes[i - 1])
  }

  /** Entry `i` of the loss column, built the same way. */
  function LossAt(closes: seq<real>, i: nat): (l: real)
    requires i < |closes|
    ensures l >= 0.0
    ensures i == 0 ==> l == 0.0
  {
    if i == 0 then 0.0 else Loss(closes[i] - closes[i - 1])
  }

  /** The gain column, one entry per close. */
  function Gains(closes: seq<real>): (column: seq<real>)
    ensures |column| == |closes| && AllNonNegative(column)
  {
    seq(|closes|, i requires 0 <= i < |closes| => GainAt(closes, i))
  }

  /** The loss column, one entry per close. */
  function Losses(closes: seq<real>): (column: seq<real>)
    ensures |column| == |closes| && AllNonNegative(column)
  {
    seq(|closes|, i requires 0 <= i < |closes| => LossAt(closes, i))
  }

  predicate AllNonNegative(s: seq<real>) {
    forall i :: 0 <= i < |s| ==> s[i] >= 0.0
  }

  predicate AllZero(s: seq<real>) {
    forall i :: 0 <= i < |s| ==> s[i] == 0.0
  }

  /** The sum of a column of non-negative values is non-negative, and it is zero
      exactly when every value is. */
  function Sum(s: seq<real>): (t: real)
    ensures AllNonNegative(s) ==> t >= 0.0
    ensures AllNonNegative(s) ==> (t == 0.0 <==> AllZero(s))
  {
    if s == [] then 0.0
    else
      var rest := Sum(s[1..]);
      assert AllNonNegative(s) ==> AllNonNegative(s[1..]);
      assert AllZero(s) <==> s[0] == 0.0 && AllZero(s[1..]) by {
        if s[0] == 0.0 && AllZero(s[1..]) {
          forall i | 0 <= i < |s| ensures s[i] == 0.0 {
            if i > 0 { assert s[i] == s[1..][i - 1]; }
          }
        }
      }
      s[0] + rest
  }

  /** The last value of `rolling(window=14).mean()`: the mean of the final
      `Period` entries of the column. */
  function TrailingMean(column: seq<real>): (mean: real)
    requires |column| >= Period
    ensures mean * Period as real == Sum(column[|column| - Period..])
    ensures AllNonNegative(column) ==> mean >= 0.0
  {
    Sum(column[|column| - Period..]) / Period as real
  }

  /** The mean gain over the window; never negative. */
  function MeanGain(closes: seq<real>): (mean: real)
    requires |closes| >= Period
    ensures mean >= 0.0
  {
    TrailingMean(Gains(closes))
  }

  /** The mean loss over the window; never negative. */
  function MeanLoss(closes: seq<real>): (mean: real)
    requires |closes| >= Period
    ensures mean >= 0.0
  {
    TrailingMean(Losses(closes))
  }

  /** Both trailing means are non-negative; each is zero exactly when its column
      is zero across the window. */
  lemma MeansNonNegative(closes: seq<real>)
    requires |closes| >= Period
    ensures MeanGain(closes) >= 0.0 && MeanLoss(closes) >= 0.0
    ensures MeanGain(closes) == 0.0 <==> AllZero(Gains(closes)[|closes| - Period..])
    ensures MeanLoss(closes) == 0.0 <==> AllZero(Losses(closes)[|closes| - Period..])
  {
    var n := |closes|;
    var gains, losses := Gains(closes)[n - Period..], Losses(closes)[n - Period..];
    forall i | 0 <= i < Period ensures gains[i] >= 0.0 && losses[i] >= 0.0 {
      assert gains[i] == GainAt(closes, n - Period + i);
      assert losses[i] == LossAt(closes, n - Period + i);
    }
    assert AllNonNegative(gains) && AllNonNegative(losses);
  }

  /** `gain / loss.replace(0, inf)`: a zero mean loss is replaced by infinity,
      which makes the quotient 0. */
  function RelativeStrength(meanGain: real, meanLoss: real): (rs: real)
    ensures meanLoss == 0.0 ==> rs == 0.0
    ensures meanLoss != 0.0 ==> rs * meanLoss == meanGain
  {
    if meanLoss == 0.0 then 0.0 else meanGain / meanLoss
  }

  /** `100 - 100 / (1 + rs)` on two non-negative means. With a positive mean
      loss this equals the share of gains in all movement, 100 * g / (g + l);
      with a zero mean loss it is 0; it never reaches 100. */
  function RsiFromMeans(meanGain: real, meanLoss: real): (rsi: real)
    requires meanGain >= 0.0 && meanLoss >= 0.0
    ensures 0.0 <= rsi < 100.0
    ensures meanLoss == 0.0 ==> rsi == 0.0
    ensures meanLoss > 0.0 ==> rsi == 100.0 * meanGain / (meanGain + meanLoss)
    ensures rsi == 0.0 <==> meanGain == 0.0 || meanLoss == 0.0
  {
    var rs := RelativeStrength(meanGain, meanLoss);
    assert meanLoss > 0.0 ==> 100.0 / (1.0 + rs) == 100.0 * meanLoss / (meanGain + meanLoss);
    100.0 - 100.0 / (1.0 + rs)
  }

  /** `calculate_rsi(closes)` with its default window: 50 for an empty series,
      NaN while fewer than 14 column entries exist, otherwise a number in [0, 100). */
  function CalculateRsi(closes: seq<real>): (r: RsiResult)
    ensures |closes| == 0 ==> r == Defined(50.0)
    ensures 0 < |closes| < Period ==> r == Nan
    ensures |closes| >= Period ==> r.Defined? && 0.0 <= r.value < 100.0
  {
    if |closes| == 0 then Defined(50.0)
    else if |closes| < Period then Nan
    else
      MeansNonNegative(closes);
      Defined(RsiFromMeans(MeanGain(closes), MeanLoss(closes)))
  }

  /** On a series long enough for the row builder, the RSI is the closed form
      over the two trailing means, and it is 0 exactly when one of them is 0. */
  lemma CalculateRsiByMeans(closes: seq<real>)
    requires |closes| > Period
    ensures MeanGain(closes) >= 0.0 && MeanLoss(closes) >= 0.0
    ensures MeanLoss(closes) == 0.0 ==> CalculateRsi(closes) == Defined(0.0)
    ensures MeanLoss(closes) > 0.0 ==>
      CalculateRsi(closes) == Defined(100.0 - 100.0 / (1.0 + MeanGain(closes) / MeanLoss(closes)))
    ensures CalculateRsi(closes).value == 0.0 <==> MeanGain(closes) == 0.0 || MeanLoss(closes) == 0.0
  {
    MeansNonNegative(closes);
    assert CalculateRsi(closes) == Defined(RsiFromMeans(MeanGain(closes), MeanLoss(closes)));
  }

  /** The trailing window of `Period` entries of the gain column depends only on
      the last `Period + 1` closes (the padded position 0 lies outside it). */
  lemma GainWindowFromSuffix(closes: seq<real>)
    requires |closes| > Period
    ensures Gains(closes)[|closes| - Period..] == Gains(closes[|closes| - Period - 1..])[1..]
    ensures Losses(closes)[|closes| - Period..] == Losses(closes[|closes| - Period - 1..])[1..]
  {
    var n := |closes|;
    var tail := closes[n - Period - 1..];
    forall i | 0 <= i < Period
      ensures Gains(closes)[n - Period..][i] == Gains(tail)[1..][i]
      ensures Losses(closes)[n - Period..][i] == Losses(tail)[1..][i]
    {
      assert tail[i + 1] == closes[n - Period + i];
      assert tail[i] == closes[n - Period + i - 1];
    }
  }

  /** The RSI of a series with more than 14 closes depends only on its last 15
      closes, that is, on its last 14 close-to-close moves. */
  lemma RsiDependsOnLastFifteen(a: seq<real>, b: seq<real>)
    requires |a| > Period && |b| > Period
    requires a[|a| - Period - 1..] == b[|b| - Period - 1..]
    ensures CalculateRsi(a) == CalculateRsi(b)
  {
    GainWindowFromSuffix(a);
    GainWindowFromSuffix(b);
    SameWindowsSameRsi(a, b);
  }

  /** Two series whose trailing gain windows and trailing loss windows agree
      have the same RSI. */
  lemma SameWindowsSameRsi(a: seq<real>, b: seq<real>)
    requires |a| > Period && |b| > Period
    requires Gains(a)[|a| - Period..] == Gains(b)[|b| - Period..]
    requires Losses(a)[|a| - Period..] == Losses(b)[|b| - Period..]
    ensures CalculateRsi(a) == CalculateRsi(b)
  {
    SameWindowSameMean(Gains(a), Gains(b));
    SameWindowSameMean(Losses(a), Losses(b));
  }

  /** The trailing mean reads only the last `Period` entries of its column. */
  lemma SameWindowSameMean(x: seq<real>, y: seq<real>)
    requires |x| >= Period && |y| >= Period
    requires x[|x| - Period..] == y[|y| - Period..]
    ensures TrailingMean(x) == TrailingMean(y)
  {
  }

  /** A window with no down move, among them a rising or a flat one, has a zero
      mean loss, so its RSI is 0. */
  lemma NoDownMoveGivesZero(closes: seq<real>)
    requires |closes| > Period
    requires forall i :: |closes| - Period <= i < |closes| ==> closes[i - 1] <= closes[i]
    ensures MeanLoss(closes) == 0.0
    ensures CalculateRsi(closes) == Defined(0.0)
  {
    var n := |closes|;
    MeansNonNegative(closes);
    var losses := Losses(closes)[n - Period..];
    forall i | 0 <= i < Period ensures losses[i] == 0.0 {
      assert closes[n - Period + i - 1] <= closes[n - Period + i];
    }
    assert AllZero(losses);
  }

  /** A window with no up move has a zero mean gain, so its RSI is 0 too. */
  lemma NoUpMoveGivesZero(closes: seq<real>)
    requires |closes| > Period
    requires forall i :: |closes| - Period <= i < |closes| ==> closes[i - 1] >= closes[i]
    ensures MeanGain(closes) == 0.0
    ensures CalculateRsi(closes) == Defined(0.0)
  {
    var n := |closes|;
    MeansNonNegative(closes);
    var gains := Gains(closes)[n - Period..];
    forall i | 0 <= i < Period ensures gains[i] == 0.0 {
      assert closes[n - Period + i - 1] >= closes[n - Period + i];
    }
    assert AllZero(gains);
  }

  /** A window with at least one up move and at least one down move gives an
      RSI strictly between 0 and 100. */
  lemma MixedWindowIsInterior(closes: seq<real>, up: nat, down: nat)
    requires |closes| > Period
    requires |closes| - Period <= up < |closes| && closes[up - 1] < closes[up]
    requires |closes| - Period <= down < |closes| && closes[down - 1] > closes[down]
    ensures 0.0 < CalculateRsi(closes).value < 100.0
  {
    var n := |closes|;
    MeansNonNegative(closes);
    assert Gains(closes)[n - Period..][up - (n - Period)] > 0.0;
    assert Losses(closes)[n - Period..][down - (n - Period)] > 0.0;
  }
}
