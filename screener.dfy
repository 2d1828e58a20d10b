/**
 * The screener of Mooviz (app.py, the expression assigned to `filtered`):
 * keep the rows inside three inclusive bounds set by the sliders, then order
 * them by daily change, largest first.
 *
 * pandas' `sort_values` uses an unstable sort by default, so nothing here
 * promises an order among rows with the same change.
 */
module Screener {
  import opened Indicator
  import opened Snapshot

  /** The row mask: P/E at most `perMax`, volume (in millions) at least
      `volumeMin`, RSI at most `rsiMax`; the slider values are whole numbers. */
  predicate Passes(row: Row, perMax: int, volumeMin: int, rsiMax: int) {
    row.per <= perMax as real && row.volumeMillions >= volumeMin as real && row.rsi <= rsiMax as real
  }

  /** The rows are in non-increasing order of daily change. */
  predicate SortedByChange(rows: seq<Row>) {
    forall i, j :: 0 <= i < j < |rows| ==> rows[i].changePercent >= rows[j].changePercent
  }

  /** `df[mask]`: every passing row as many times as it occurs, no other row. */
  function Filter(rows: seq<Row>, perMax: int, volumeMin: int, rsiMax: int): (kept: seq<Row>)
    ensures |kept| <= |rows|
    ensures forall x :: multiset(kept)[x] == if Passes(x, perMax, volumeMin, rsiMax) then multiset(rows)[x] else 0
  {
    if rows == [] then []
    else
      assert rows == [rows[0]] + rows[1..];
      (if Passes(rows[0], perMax, volumeMin, rsiMax) then [rows[0]] else [])
        + Filter(rows[1..], perMax, volumeMin, rsiMax)
  }

  /** Puts `x` into rows already ordered by change, keeping that order. */
  function Insert(x: Row, sorted: seq<Row>): (r: seq<Row>)
    requires SortedByChange(sorted)
    ensures SortedByChange(r)
    ensures multiset(r) == multiset(sorted) + multiset{x}
  {
    if sorted == [] || sorted[0].changePercent <= x.changePercent then [x] + sorted
    else
      var top, rest := sorted[0], Insert(x, sorted[1..]);
      assert sorted == [top] + sorted[1..];
      SortedHeadIsLargest(sorted);
      PrependKeepsSorted(top, rest);
      [top] + rest
  }

  lemma SortedHeadIsLargest(sorted: seq<Row>)
    requires sorted != [] && SortedByChange(sorted)
    ensures forall y :: y in multiset(sorted[1..]) ==> sorted[0].changePercent >= y.changePercent
  {
    forall y | y in multiset(sorted[1..]) ensures sorted[0].changePercent >= y.changePercent {
      var k :| 0 <= k < |sorted[1..]| && sorted[1..][k] == y;
      assert sorted[k + 1] == y;
    }
  }

  lemma PrependKeepsSorted(top: Row, rest: seq<Row>)
    requires SortedByChange(rest)
    requires forall y :: y in multiset(rest) ==> top.changePercent >= y.changePercent
    ensures SortedByChange([top] + rest)
  {
    var r := [top] + rest;
    forall i, j | 0 <= i < j < |r| ensures r[i].changePercent >= r[j].changePercent {
      assert r[j] == rest[j - 1] && rest[j - 1] in multiset(rest);
      if i > 0 { assert r[i] == rest[i - 1]; }
    }
  }

  /** `sort_values("Change %", ascending=False)`: the same rows, largest change
      first. */
  function SortByChange(rows: seq<Row>): (r: seq<Row>)
    ensures SortedByChange(r)
    ensures multiset(r) == multiset(rows)
  {
    if rows == [] then []
    else
      assert rows == [rows[0]] + rows[1..];
      Insert(rows[0], SortByChange(rows[1..]))
  }

  /** The screener table: exactly the passing rows, each as often as in the
      input, ordered by daily change, largest first. */
  function Screen(rows: seq<Row>, perMax: int, volumeMin: int, rsiMax: int): (shown: seq<Row>)
    ensures SortedByChange(shown)
    ensures forall x :: multiset(shown)[x] == if Passes(x, perMax, volumeMin, rsiMax) then multiset(rows)[x] else 0
  {
    SortByChange(Filter(rows, perMax, volumeMin, rsiMax))
  }

  /** A row is shown if and only if it is an input row inside all three bounds. */
  lemma ScreenMembership(rows: seq<Row>, perMax: int, volumeMin: int, rsiMax: int, x: Row)
    ensures x in Screen(rows, perMax, volumeMin, rsiMax) <==> x in rows && Passes(x, perMax, volumeMin, rsiMax)
  {
    var shown := Screen(rows, perMax, volumeMin, rsiMax);
    assert x in shown <==> multiset(shown)[x] > 0;
    assert x in rows <==> multiset(rows)[x] > 0;
  }

  /** The screener never shows more rows than it was given. */
  lemma ScreenNoLonger(rows: seq<Row>, perMax: int, volumeMin: int, rsiMax: int)
    ensures |Screen(rows, perMax, volumeMin, rsiMax)| <= |rows|
  {
    var shown := Screen(rows, perMax, volumeMin, rsiMax);
    var kept := Filter(rows, perMax, volumeMin, rsiMax);
    assert |multiset(shown)| == |multiset(kept)|;
  }

  /** Screening the screener's own output with the same bounds shows the same
      rows again, as often each. */
  lemma ScreenIdempotent(rows: seq<Row>, perMax: int, volumeMin: int, rsiMax: int)
    ensures multiset(Screen(Screen(rows, perMax, volumeMin, rsiMax), perMax, volumeMin, rsiMax))
         == multiset(Screen(rows, perMax, volumeMin, rsiMax))
  {
    var once := Screen(rows, perMax, volumeMin, rsiMax);
    var twice := Screen(once, perMax, volumeMin, rsiMax);
    forall x ensures multiset(twice)[x] == multiset(once)[x] {
    }
  }

  /** A ticker whose quote has neither a forward nor a trailing P/E gets P/E 0,
      so it passes the P/E bound at every slider position (the slider starts
      at 0). */
  lemma NoEarningsPassesPerBound(tick: string, info: Info, closes: seq<real>, perMax: int)
    requires ForwardPE !in info && TrailingPE !in info
    requires perMax >= 0
    ensures BuildRow(tick, info, closes).per <= perMax as real
  {
  }

  /** A ticker with 14 closes or fewer reads RSI 50, so the RSI bound keeps it
      exactly when the slider stands at 50 or above. */
  lemma ShortHistoryRsiBound(tick: string, info: Info, closes: seq<real>, rsiMax: int)
    requires |closes| <= Period
    ensures BuildRow(tick, info, closes).rsi <= rsiMax as real <==> rsiMax >= 50
  {
  }

  /** At the slider's top position, 100, the RSI bound excludes nothing. */
  lemma TopRsiBoundKeepsAll(tick: string, info: Info, closes: seq<real>, perMax: int, volumeMin: int, rsiMax: int)
    requires rsiMax >= 100
    ensures Passes(BuildRow(tick, info, closes), perMax, volumeMin, rsiMax) <==>
      BuildRow(tick, info, closes).per <= perMax as real && BuildRow(tick, info, closes).volumeMillions >= volumeMin as real
  {
  }
}
