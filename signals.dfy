/**
 * The backend's signal logic (backend/main.py) once the price history has
 * been downloaded. A download is an input: the rows of the daily price
 * frame, each a date label and a closing price that pandas may report as
 * NaN (here `None`), or the marker that the download raised.
 */
module Signals {
  import opened Wrappers
  import Ranking

  /** The watchlist served by /recommendations. */
  const STOCKS: seq<string> := ["AAPL", "MSFT", "TSLA", "GOOGL", "AMZN"]

  /** The universe scanned by /top5up, in the order it is scanned. */
  const ALL_STOCKS: seq<string> := [
    "AAPL", "MSFT", "GOOGL", "AMZN", "TSLA", "NVDA", "META", "BRK-B", "UNH", "JNJ", "V", "XOM", "PG",
    "MA", "LLY", "HD", "MRK", "AVGO", "CVX", "COST", "ABBV", "ADBE", "PEP", "KO", "WMT", "BAC", "MCD",
    "CRM", "ACN", "TMO", "LIN", "ABT", "DIS", "CSCO", "DHR", "VZ", "NKE", "TXN", "WFC", "BMY", "NEE",
    "PM", "AMGN", "MDT", "UNP", "HON", "ORCL", "IBM", "QCOM", "LOW", "SBUX", "RTX", "INTC", "AMAT",
    "CVS", "GS", "BLK", "GE", "CAT", "AXP", "SPGI", "PLD", "ISRG", "LMT", "TGT", "SYK", "C", "NOW",
    "DE", "AMT", "MO", "ADI", "MDLZ", "MMC", "GILD", "ZTS", "CB", "ADP", "CI", "DUK", "SO", "ELV",
    "PNC", "TFC", "USB", "BDX", "SHW", "CL", "ICE", "NSC", "GM", "FDX", "ITW", "APD", "EW", "AON",
    "FISV", "HUM", "PGR", "PSA", "EMR", "ETN", "AIG"]

  const SHORT_WINDOW: nat := 10
  const LONG_WINDOW: nat := 50
  /** Number of daily changes reported per ticker. */
  const DAYS_SHOWN: nat := 5
  /** Maximum number of entries /top5up returns. */
  const TOP_COUNT: nat := 5

  const LIKELY_UP: string := "likely up"
  const LIKELY_DOWN: string := "likely down"
  const NO_DATA: string := "no data"

  /** The service's date label (`%Y-%m-%d`); its format is not modelled. */
  type DateLabel = string

  /** One row of the downloaded frame. */
  datatype Row = Row(date: DateLabel, close: Option<real>)

  /** What `yf.download` gave for one ticker. */
  datatype Download = Frame(rows: seq<Row>) | Raised

  /** A row whose close is present. */
  datatype PricePoint = PricePoint(date: DateLabel, close: real)

  datatype DailyChange = DailyChange(date: DateLabel, close: real, dollarChange: real, percentChange: real)

  /** The record both endpoints return per ticker; the client renders it as it comes. */
  datatype Recommendation = Recommendation(
    ticker: string,
    signal: string,
    trendPercent: Option<real>,
    dailyChanges: seq<DailyChange>)

  function Min(a: int, b: int): int { if a < b then a else b }

  function Max(a: int, b: int): int { if a < b then b else a }

  /** The last `n` elements of `s` (pandas `tail(n)`, Python `s[-n:]` for n > 0). */
  function Tail<T>(s: seq<T>, n: nat): (r: seq<T>)
    ensures |r| == Min(|s|, n)
    ensures r == s[|s| - |r|..]
  {
    if |s| <= n then s else s[|s| - n..]
  }

  /** The close column, NaN as `None`. */
  function Closes(rows: seq<Row>): (r: seq<Option<real>>)
    ensures |r| == |rows|
    ensures forall i :: 0 <= i < |rows| ==> r[i] == rows[i].close
  {
    seq(|rows|, i requires 0 <= i < |rows| => rows[i].close)
  }

  /** `data['Close'].dropna()`: the rows that have a close, in their order. */
  function Present(rows: seq<Row>): (r: seq<PricePoint>)
    ensures |r| <= |rows|
  {
    if rows == [] then []
    else
      var rest := Present(rows[1..]);
      match rows[0].close
      case None => rest
      case Some(c) => [PricePoint(rows[0].date, c)] + rest
  }

  /** Dropping the NaN closes keeps exactly the rows that have a close. */
  lemma {:induction false} PresentKeepsExactlyTheCloses(rows: seq<Row>, date: DateLabel, c: real)
    ensures PricePoint(date, c) in Present(rows) <==> Row(date, Some(c)) in rows
  {
    if rows != [] {
      PresentKeepsExactlyTheCloses(rows[1..], date, c);
      assert rows == [rows[0]] + rows[1..];
    }
  }

  /** `percent_change`: the move from `prev` to `close` in percent of `prev`, 0 when `prev` is 0. */
  function PercentChange(prev: real, close: real): real {
    if prev != 0.0 then (close - prev) / prev * 100.0 else 0.0
  }

  /** The percentage scaled back by the previous close is the dollar change, times 100. */
  lemma PercentChangeScales(prev: real, close: real)
    ensures prev == 0.0 ==> PercentChange(prev, close) == 0.0
    ensures prev != 0.0 ==> PercentChange(prev, close) * prev == (close - prev) * 100.0
    ensures prev > 0.0 ==> (PercentChange(prev, close) > 0.0 <==> close > prev)
  {
    if prev > 0.0 {
      var pc := PercentChange(prev, close);
      assert pc * prev == (close - prev) * 100.0;
      if pc > 0.0 {
        assert pc * prev > 0.0;
      }
      if close > prev {
        assert pc * prev > 0.0;
      }
    }
  }

  /** The change record for the day of `cur`, measured from the previous close `prev`. */
  function Change(prev: PricePoint, cur: PricePoint): DailyChange {
    DailyChange(cur.date, cur.close, cur.close - prev.close, PercentChange(prev.close, cur.close))
  }

  /** The changes between consecutive points of `w`, oldest first. */
  function Pairs(w: seq<PricePoint>): (r: seq<DailyChange>)
    ensures |r| == Max(0, |w| - 1)
    ensures forall k {:trigger r[k]} :: 0 <= k < |r| ==> r[k] == Change(w[k], w[k + 1])
  {
    if |w| < 2 then []
    else
      assert w[..|w| - 1][|w| - 2] == w[|w| - 2];
      Pairs(w[..|w| - 1]) + [Change(w[|w| - 2], w[|w| - 1])]
  }

  /**
   * `get_last_5_trading_days` as a value: the changes between consecutive
   * closes among the last six present closes, oldest first, and of those
   * the last five.
   */
  function DailyChanges(rows: seq<Row>): seq<DailyChange> {
    Tail(Pairs(Tail(Present(rows), DAYS_SHOWN + 1)), DAYS_SHOWN)
  }

  /** Equal neighbouring points give equal changes. */
  lemma PairAt(w: seq<PricePoint>, p: seq<PricePoint>, k: nat, i: nat)
    requires k + 1 < |w| && i + 1 < |p|
    requires w[k] == p[i] && w[k + 1] == p[i + 1]
    ensures Pairs(w)[k] == Pairs(p)[i]
  {
  }

  /** Change `k` of the last `n + 1` points is change `k` of the last `n` changes. */
  lemma PairOfTailAt(p: seq<PricePoint>, n: nat, k: nat)
    requires k < |Pairs(Tail(p, n + 1))|
    ensures k < |Tail(Pairs(p), n)| && Pairs(Tail(p, n + 1))[k] == Tail(Pairs(p), n)[k]
  {
    var w := Tail(p, n + 1);
    var b := Tail(Pairs(p), n);
    var i := |p| - |w| + k;
    assert w[k] == p[i] && w[k + 1] == p[i + 1] by {
      assert w == p[|p| - |w|..];
    }
    PairAt(w, p, k, i);
    assert b[k] == Pairs(p)[i] by {
      assert b == Pairs(p)[|Pairs(p)| - |b|..];
    }
  }

  /** Pairing the last `n + 1` points gives the last `n` changes of the whole series. */
  lemma PairsOfTail(p: seq<PricePoint>, n: nat)
    ensures Pairs(Tail(p, n + 1)) == Tail(Pairs(p), n)
  {
    var a, b := Pairs(Tail(p, n + 1)), Tail(Pairs(p), n);
    assert |a| == |b|;
    forall k | 0 <= k < |a|
      ensures a[k] == b[k]
    {
      PairOfTailAt(p, n, k);
    }
  }

  /** Taking the last `n` of the last `n` changes nothing. */
  lemma TailTail<T>(s: seq<T>, n: nat)
    ensures Tail(Tail(s, n), n) == Tail(s, n)
  {
  }

  /**
   * The changes reported are the last five day-to-day changes of the whole
   * series of present closes, oldest first: for `n` present closes there are
   * `min(5, max(0, n - 1))` of them.
   */
  lemma DailyChangesAreLastChanges(rows: seq<Row>)
    ensures DailyChanges(rows) == Tail(Pairs(Present(rows)), DAYS_SHOWN)
    ensures |DailyChanges(rows)| == Min(DAYS_SHOWN, Max(0, |Present(rows)| - 1))
  {
    PairsOfTail(Present(rows), DAYS_SHOWN);
    TailTail(Pairs(Present(rows)), DAYS_SHOWN);
  }

  /** `get_last_5_trading_days`, with the loop that carries `prev_close`. */
  method GetLast5TradingDays(rows: seq<Row>) returns (days: seq<DailyChange>)
    ensures days == DailyChanges(rows)
  {
    var closes := Present(rows);
    var last6 := Tail(closes, DAYS_SHOWN + 1);
    days := [];
    var prevClose: Option<PricePoint> := None;
    for i := 0 to |last6|
      invariant prevClose == if i == 0 then None else Some(last6[i - 1])
      invariant days == Pairs(last6[..i])
    {
      var close := last6[i];
      if prevClose.Some? {
        var prev := prevClose.value;
        var dollarChange := close.close - prev.close;
        var percentChange := PercentChange(prev.close, close.close);
        days := days + [DailyChange(close.date, close.close, dollarChange, percentChange)];
      }
      assert last6[..i + 1][..i] == last6[..i];
      prevClose := Some(close);
    }
    assert last6[..|last6|] == last6;
    days := Tail(days, DAYS_SHOWN);
  }

  predicate AllPresent(s: seq<Option<real>>) {
    forall i :: 0 <= i < |s| ==> s[i].Some?
  }

  function Sum(s: seq<Option<real>>): real
    requires AllPresent(s)
  {
    if s == [] then 0.0 else s[0].value + Sum(s[1..])
  }

  /**
   * `rolling(window).mean().iloc[-1]`: the mean of the last `window` closes,
   * NaN (here `None`) when there are fewer rows or one of them is NaN.
   */
  function Sma(closes: seq<Option<real>>, window: nat): (r: Option<real>)
    requires 0 < window
    ensures r.Some? <==> window <= |closes| && AllPresent(closes[|closes| - window..])
    ensures r.Some? ==> r.value * (window as real) == Sum(closes[|closes| - window..])
  {
    if |closes| < window then None
    else
      var last := closes[|closes| - window..];
      if AllPresent(last) then Some(Sum(last) / window as real) else None
  }

  lemma SignalLabelsDistinct()
    ensures NO_DATA != LIKELY_UP && NO_DATA != LIKELY_DOWN && LIKELY_UP != LIKELY_DOWN
  {
    assert |NO_DATA| == 7 && |LIKELY_UP| == 9 && |LIKELY_DOWN| == 11;
  }

  lemma {:induction false} SumPositive(s: seq<Option<real>>)
    requires AllPresent(s) && s != []
    requires forall i :: 0 <= i < |s| ==> s[i].value > 0.0
    ensures Sum(s) > 0.0
  {
    if |s| > 1 {
      SumPositive(s[1..]);
    }
  }

  /** The cases in which `get_signal` answers "no data". */
  predicate Degenerate(rows: seq<Row>, shortWindow: nat, longWindow: nat)
    requires 0 < shortWindow && 0 < longWindow
  {
    var s := Sma(Closes(rows), shortWindow);
    var l := Sma(Closes(rows), longWindow);
    |rows| == 0 || |rows| < longWindow || s.None? || l.None? || l.value == 0.0
  }

  /** The percentage by which the short average exceeds the long one. */
  function Trend(short: real, long: real): real
    requires long != 0.0
  {
    (short - long) / long * 100.0
  }

  /** `get_signal` after the download. */
  function GetSignal(ticker: string, rows: seq<Row>, shortWindow: nat, longWindow: nat): (r: Recommendation)
    requires 0 < shortWindow && 0 < longWindow
    ensures r.ticker == ticker
    ensures r.signal == NO_DATA <==> Degenerate(rows, shortWindow, longWindow)
    ensures r.signal == NO_DATA ==> r.trendPercent == None && r.dailyChanges == []
    ensures r.signal != NO_DATA ==>
      var s := Sma(Closes(rows), shortWindow).value;
      var l := Sma(Closes(rows), longWindow).value;
      && l != 0.0 && r.trendPercent == Some(Trend(s, l))
      && r.dailyChanges == DailyChanges(rows)
      && (r.signal == LIKELY_UP <==> s > l)
      && (r.signal == LIKELY_DOWN <==> s <= l)
  {
    SignalLabelsDistinct();
    if |rows| == 0 || |rows| < longWindow then
      Recommendation(ticker, NO_DATA, None, [])
    else
      var smaShort := Sma(Closes(rows), shortWindow);
      var smaLong := Sma(Closes(rows), longWindow);
      if smaShort.None? || smaLong.None? || smaLong.value == 0.0 then
        Recommendation(ticker, NO_DATA, None, [])
      else
        var trend := Trend(smaShort.value, smaLong.value);
        var signal := if smaShort.value > smaLong.value then LIKELY_UP else LIKELY_DOWN;
        Recommendation(ticker, signal, Some(trend), DailyChanges(rows))
  }

  /** The mean of positive closes is positive. */
  lemma SmaPositive(closes: seq<Option<real>>, window: nat)
    requires 0 < window
    requires forall i :: 0 <= i < |closes| && closes[i].Some? ==> closes[i].value > 0.0
    ensures Sma(closes, window).Some? ==> Sma(closes, window).value > 0.0
  {
    if Sma(closes, window).Some? {
      var last := closes[|closes| - window..];
      assert forall i :: 0 <= i < |last| ==> last[i].value > 0.0 by {
        forall i | 0 <= i < |last| ensures last[i].value > 0.0 {
          assert last[i] == closes[|closes| - window + i];
        }
      }
      SumPositive(last);
    }
  }

  /** Against a positive base the trend is positive exactly when the short average is above the long one. */
  lemma TrendSign(short: real, long: real)
    requires long > 0.0
    ensures Trend(short, long) > 0.0 <==> short > long
  {
    var t := Trend(short, long);
    assert t * long == (short - long) * 100.0;
    if t > 0.0 {
      assert t * long > 0.0;
    }
    if short > long {
      assert t * long > 0.0;
    }
  }

  /**
   * With positive prices the long average is positive, so the signal and the
   * sign of the trend agree: likely up exactly when the trend is positive.
   */
  lemma SignalAgreesWithTrendSign(ticker: string, rows: seq<Row>, shortWindow: nat, longWindow: nat)
    requires 0 < shortWindow && 0 < longWindow
    requires forall i :: 0 <= i < |rows| && rows[i].close.Some? ==> rows[i].close.value > 0.0
    ensures var r := GetSignal(ticker, rows, shortWindow, longWindow);
      r.signal != NO_DATA ==>
        && r.trendPercent.Some?
        && (r.signal == LIKELY_UP <==> r.trendPercent.value > 0.0)
        && (r.signal == LIKELY_DOWN <==> r.trendPercent.value <= 0.0)
  {
    var r := GetSignal(ticker, rows, shortWindow, longWindow);
    if r.signal != NO_DATA {
      var closes := Closes(rows);
      SmaPositive(closes, longWindow);
      TrendSign(Sma(closes, shortWindow).value, Sma(closes, longWindow).value);
    }
  }

  /**
   * The list comprehension of /recommendations over `tickers`; a download
   * that raises is not caught there, so the whole request fails (`None`).
   */
  function SignalsFor(tickers: seq<string>, fetch: string -> Download): (r: Option<seq<Recommendation>>)
    ensures r.None? <==> exists i :: 0 <= i < |tickers| && fetch(tickers[i]).Raised?
    ensures r.Some? ==> |r.value| == |tickers| && forall i :: 0 <= i < |tickers| ==>
      r.value[i] == GetSignal(tickers[i], fetch(tickers[i]).rows, SHORT_WINDOW, LONG_WINDOW)
  {
    if tickers == [] then Some([])
    else
      match fetch(tickers[0])
      case Raised => None
      case Frame(rows) =>
        match SignalsFor(tickers[1..], fetch)
        case None => None
        case Some(rest) => Some([GetSignal(tickers[0], rows, SHORT_WINDOW, LONG_WINDOW)] + rest)
  }

  /** /recommendations: one result per watchlist ticker, in watchlist order. */
  function Recommendations(fetch: string -> Download): (r: Option<seq<Recommendation>>)
    ensures r.None? <==> exists i :: 0 <= i < |STOCKS| && fetch(STOCKS[i]).Raised?
    ensures r.Some? ==> |r.value| == |STOCKS| && forall i :: 0 <= i < |STOCKS| ==>
      r.value[i].ticker == STOCKS[i] &&
      r.value[i] == GetSignal(STOCKS[i], fetch(STOCKS[i]).rows, SHORT_WINDOW, LONG_WINDOW)
  {
    SignalsFor(STOCKS, fetch)
  }

  /** The body of the /top5up loop for one ticker: the entry it appends, if any. */
  function UpCandidate(ticker: string, d: Download): (r: Option<Recommendation>)
    ensures r.Some? <==> (d.Frame? && !Degenerate(d.rows, SHORT_WINDOW, LONG_WINDOW) &&
      Sma(Closes(d.rows), SHORT_WINDOW).value > Sma(Closes(d.rows), LONG_WINDOW).value)
    ensures r.Some? ==> r.value.ticker == ticker && r.value.signal == LIKELY_UP && r.value.trendPercent.Some?
  {
    match d
    case Raised => None
    case Frame(rows) =>
      if |rows| == 0 || |rows| < 50 then None
      else
        var smaShort := Sma(Closes(rows), 10);
        var smaLong := Sma(Closes(rows), 50);
        if smaShort.None? || smaLong.None? || smaLong.value == 0.0 then None
        else if smaShort.value > smaLong.value then
          Some(Recommendation(ticker, LIKELY_UP, Some(Trend(smaShort.value, smaLong.value)), DailyChanges(rows)))
        else None
  }

  /** /top5up's loop and /recommendations agree: a ticker is collected exactly when get_signal calls it likely up. */
  lemma UpCandidateAgreesWithGetSignal(ticker: string, rows: seq<Row>)
    ensures var g := GetSignal(ticker, rows, SHORT_WINDOW, LONG_WINDOW);
      UpCandidate(ticker, Frame(rows)) == if g.signal == LIKELY_UP then Some(g) else None
  {
  }

  /** The `signals` list /top5up collects from `tickers`, in scan order. */
  function Candidates(tickers: seq<string>, fetch: string -> Download): (r: seq<Recommendation>)
    ensures |r| <= |tickers|
    ensures forall k :: 0 <= k < |r| ==>
      r[k].signal == LIKELY_UP && r[k].trendPercent.Some? && r[k].ticker in tickers &&
      UpCandidate(r[k].ticker, fetch(r[k].ticker)) == Some(r[k])
  {
    if tickers == [] then []
    else
      var last := tickers[|tickers| - 1];
      Candidates(tickers[..|tickers| - 1], fetch) +
        match UpCandidate(last, fetch(last))
        case None => []
        case Some(c) => [c]
  }

  /** No eligible ticker is skipped: every ticker whose loop body appends an entry contributes it. */
  lemma {:induction false} CandidatesComplete(tickers: seq<string>, fetch: string -> Download, i: nat)
    requires i < |tickers| && UpCandidate(tickers[i], fetch(tickers[i])).Some?
    ensures UpCandidate(tickers[i], fetch(tickers[i])).value in Candidates(tickers, fetch)
  {
    if i < |tickers| - 1 {
      CandidatesComplete(tickers[..|tickers| - 1], fetch, i);
    }
  }

  /** The sort key: every collected entry has a trend, so the fallback is never read. */
  function TrendOf(r: Recommendation): real {
    match r.trendPercent
    case Some(t) => t
    case None => 0.0
  }

  /** The /top5up response as a value, for the scan list `tickers`. */
  function Top5(tickers: seq<string>, fetch: string -> Download): seq<Recommendation> {
    Ranking.Take(Ranking.SortDesc(Candidates(tickers, fetch), TrendOf), TOP_COUNT)
  }

  /** The prefix of the scan one ticker further on. */
  lemma CandidatesStep(tickers: seq<string>, fetch: string -> Download, i: nat)
    requires i < |tickers|
    ensures Candidates(tickers[..i + 1], fetch) == Candidates(tickers[..i], fetch) +
      match UpCandidate(tickers[i], fetch(tickers[i]))
      case None => []
      case Some(c) => [c]
  {
    assert tickers[..i + 1][..i] == tickers[..i];
  }

  /** An entry of the scan is what the loop body built for its ticker. */
  lemma CandidateCollected(tickers: seq<string>, fetch: string -> Download, c: Recommendation)
    requires c in Candidates(tickers, fetch)
    ensures c.signal == LIKELY_UP && c.ticker in tickers
    ensures UpCandidate(c.ticker, fetch(c.ticker)) == Some(c)
  {
    var cands := Candidates(tickers, fetch);
    var j :| 0 <= j < |cands| && cands[j] == c;
  }

  /** Every entry of the ranking is an entry the scan collected. */
  lemma Top5Collected(tickers: seq<string>, fetch: string -> Download)
    ensures var top := Top5(tickers, fetch);
      forall k :: 0 <= k < |top| ==>
        top[k].signal == LIKELY_UP && top[k].ticker in tickers &&
        UpCandidate(top[k].ticker, fetch(top[k].ticker)) == Some(top[k])
  {
    var top := Top5(tickers, fetch);
    forall k | 0 <= k < |top|
      ensures top[k].signal == LIKELY_UP && top[k].ticker in tickers
      ensures UpCandidate(top[k].ticker, fetch(top[k].ticker)) == Some(top[k])
    {
      Ranking.TopIsFrom(Candidates(tickers, fetch), TrendOf, TOP_COUNT, top[k]);
      CandidateCollected(tickers, fetch, top[k]);
    }
  }

  /** Entries with equal trends come out in scan order. */
  lemma Top5KeepsScanOrderOfTies(tickers: seq<string>, fetch: string -> Download, v: real)
    ensures Ranking.WithKey(Top5(tickers, fetch), TrendOf, v) <= Ranking.WithKey(Candidates(tickers, fetch), TrendOf, v)
  {
    Ranking.TopKeepsOrderOfTies(Candidates(tickers, fetch), TrendOf, TOP_COUNT, v);
  }

  /**
   * The ranking keeps `min(5, n)` of the `n` collected entries, largest trend
   * first, and no collected entry left out has a larger trend than one kept.
   */
  lemma Top5Ranked(tickers: seq<string>, fetch: string -> Download)
    ensures var cands, top := Candidates(tickers, fetch), Top5(tickers, fetch);
      && |top| == Min(TOP_COUNT, |cands|)
      && Ranking.NonIncreasing(top, TrendOf)
      && multiset(top) <= multiset(cands)
      && forall x, y :: x in multiset(cands) - multiset(top) && y in top ==> TrendOf(x) <= TrendOf(y)
  {
    Ranking.TopOfSorted(Candidates(tickers, fetch), TrendOf, TOP_COUNT);
  }

  /**
   * The body of the /top5up loop (its `try` block) for one ticker: the entry
   * it appends, or `None` where the loop continues without appending.
   */
  method ScanTicker(ticker: string, data: Download) returns (entry: Option<Recommendation>)
    ensures entry == UpCandidate(ticker, data)
  {
    if data.Raised? {
      return None;
    }
    var rows := data.rows;
    if |rows| == 0 || |rows| < 50 {
      return None;
    }
    var smaShort := Sma(Closes(rows), 10);
    var smaLong := Sma(Closes(rows), 50);
    if smaShort.None? || smaLong.None? || smaLong.value == 0.0 {
      return None;
    }
    var trendPercent := Trend(smaShort.value, smaLong.value);
    if smaShort.value > smaLong.value {
      var dailyChanges := GetLast5TradingDays(rows);
      return Some(Recommendation(ticker, LIKELY_UP, Some(trendPercent), dailyChanges));
    }
    return None;
  }

  /** /top5up: scan, skip what cannot be ranked, sort by trend descending, keep five. */
  method Top5Up(fetch: string -> Download) returns (top5: seq<Recommendation>)
    ensures top5 == Top5(ALL_STOCKS, fetch)
  {
    var signals: seq<Recommendation> := [];
    for i := 0 to |ALL_STOCKS|
      invariant signals == Candidates(ALL_STOCKS[..i], fetch)
    {
      var ticker := ALL_STOCKS[i];
      CandidatesStep(ALL_STOCKS, fetch, i);
      var entry := ScanTicker(ticker, fetch(ticker));
      if entry.None? {
        continue;
      }
      signals := signals + [entry.value];
    }
    assert ALL_STOCKS[..|ALL_STOCKS|] == ALL_STOCKS;
    top5 := Ranking.Take(Ranking.SortDesc(signals, TrendOf), TOP_COUNT);
  }
}
