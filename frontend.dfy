/**
 * The client (frontend/src/App.jsx): the colour and sign-prefix rules, what
 * a card shows, and the page state that the mount effect, the settle
 * callbacks and the search form update. Each request's settle callback is
 * an event of its own, so the events can come in any order.
 */
module Frontend {
  import opened Wrappers
  import opened Signals

  const API: string := "http://127.0.0.1:8000"

  const UP_COLOR: string := "#00ff99"
  const DOWN_COLOR: string := "#ff3b3b"
  const NEUTRAL_COLOR: string := "#bafffa"
  /** The colour of error text, in the search card and in the error line. */
  const ERROR_TEXT_COLOR: string := "red"

  const RECOMMENDATIONS_ERROR: string := "Failed to load recommendations"
  const TOP5_ERROR: string := "Failed to load top 5"
  const SEARCH_ERROR: string := "Not found or error"

  lemma ColorsDistinct()
    ensures UP_COLOR != DOWN_COLOR && UP_COLOR != NEUTRAL_COLOR && DOWN_COLOR != NEUTRAL_COLOR
  {
    assert UP_COLOR[1] == '0' && DOWN_COLOR[1] == 'f' && NEUTRAL_COLOR[1] == 'b';
  }

  /** `getSignalColor`: an exact match on the two signal labels, neutral for anything else. */
  function SignalColor(signal: string): (c: string)
    ensures c == UP_COLOR <==> signal == LIKELY_UP
    ensures c == DOWN_COLOR <==> signal == LIKELY_DOWN
    ensures c == NEUTRAL_COLOR <==> (signal != LIKELY_UP && signal != LIKELY_DOWN)
  {
    ColorsDistinct();
    SignalLabelsDistinct();
    if signal == LIKELY_UP then UP_COLOR
    else if signal == LIKELY_DOWN then DOWN_COLOR
    else NEUTRAL_COLOR
  }

  /** The match is case-sensitive: an upper-case label is not recognised. */
  lemma UpperCaseLabelIsNeutral()
    ensures SignalColor("LIKELY UP") == NEUTRAL_COLOR
    ensures SignalColor("LIKELY DOWN") == NEUTRAL_COLOR
  {
    assert "LIKELY UP"[0] != LIKELY_UP[0];
    assert "LIKELY DOWN"[0] != LIKELY_DOWN[0];
  }

  /** `getPercentColor`: up for a positive value, down for a negative one, neutral for zero. */
  function PercentColor(x: real): (c: string)
    ensures c == UP_COLOR <==> x > 0.0
    ensures c == DOWN_COLOR <==> x < 0.0
    ensures c == NEUTRAL_COLOR <==> x == 0.0
  {
    ColorsDistinct();
    if x > 0.0 then UP_COLOR else if x < 0.0 then DOWN_COLOR else NEUTRAL_COLOR
  }

  /** The text put before a number: "+" for a positive value, nothing otherwise. */
  function SignPrefix(x: real): (p: string)
    ensures p == "+" <==> x > 0.0
    ensures p == "" <==> x <= 0.0
  {
    if x > 0.0 then "+" else ""
  }

  /** A number is shown with a "+" exactly when it is shown in the up colour. */
  lemma PrefixMatchesColor(x: real)
    ensures SignPrefix(x) == "+" <==> PercentColor(x) == UP_COLOR
    ensures SignPrefix(x) == "" <==> PercentColor(x) != UP_COLOR
  {
  }

  /** `toUpperCase` on the search input, for ASCII letters. */
  function UpperChar(c: char): char {
    if 'a' <= c <= 'z' then (c as int - 32) as char else c
  }

  function ToUpper(s: string): (r: string)
    ensures |r| == |s|
    ensures forall i :: 0 <= i < |r| ==> !('a' <= r[i] <= 'z')
    ensures forall i :: 0 <= i < |r| ==> ('a' <= s[i] <= 'z' || r[i] == s[i])
    ensures forall i :: 0 <= i < |s| && 'a' <= s[i] <= 'z' ==>
      'A' <= r[i] <= 'Z' && r[i] as int - 'A' as int == s[i] as int - 'a' as int
  {
    seq(|s|, i requires 0 <= i < |s| => UpperChar(s[i]))
  }

  /** Typing into the field again leaves the text as it is. */
  lemma ToUpperIdempotent(s: string)
    ensures ToUpper(ToUpper(s)) == ToUpper(s)
  {
    var u := ToUpper(s);
    assert forall i :: 0 <= i < |u| ==> ToUpper(u)[i] == u[i];
  }

  /** One line of the daily-changes table. */
  datatype ChangeRow = ChangeRow(
    date: DateLabel,
    dollarColor: string, dollarPrefix: string, dollar: real,
    percentColor: string, percentPrefix: string, percent: real)

  /** The "Est. Move Today" line. */
  datatype TrendLine = TrendLine(color: string, prefix: string, percent: real)

  /** A ticker card: border, ticker and signal share the signal's colour. */
  datatype Card = Card(
    color: string,
    ticker: string,
    signal: string,
    table: Option<seq<ChangeRow>>,
    trend: Option<TrendLine>)

  function RenderRow(d: DailyChange): (row: ChangeRow)
    ensures row.date == d.date && row.dollar == d.dollarChange && row.percent == d.percentChange
    ensures row.dollarColor == PercentColor(d.dollarChange) && row.dollarPrefix == SignPrefix(d.dollarChange)
    ensures row.percentColor == PercentColor(d.percentChange) && row.percentPrefix == SignPrefix(d.percentChange)
  {
    ChangeRow(d.date,
      PercentColor(d.dollarChange), SignPrefix(d.dollarChange), d.dollarChange,
      PercentColor(d.percentChange), SignPrefix(d.percentChange), d.percentChange)
  }

  /**
   * A card for one record: the table only when there are daily changes, the
   * trend line only when the trend is not null.
   */
  function RenderCard(rec: Recommendation): (c: Card)
    ensures c.color == SignalColor(rec.signal) && c.ticker == rec.ticker && c.signal == rec.signal
    ensures c.table.Some? <==> |rec.dailyChanges| > 0
    ensures c.table.Some? ==>
      && |c.table.value| == |rec.dailyChanges|
      && forall i :: 0 <= i < |rec.dailyChanges| ==> c.table.value[i] == RenderRow(rec.dailyChanges[i])
    ensures c.trend.Some? <==> rec.trendPercent.Some?
    ensures c.trend.Some? ==>
      && c.trend.value.percent == rec.trendPercent.value
      && c.trend.value.color == PercentColor(rec.trendPercent.value)
      && c.trend.value.prefix == SignPrefix(rec.trendPercent.value)
  {
    var ds := rec.dailyChanges;
    var table := if |ds| > 0 then Some(seq(|ds|, i requires 0 <= i < |ds| => RenderRow(ds[i]))) else None;
    var trend := match rec.trendPercent
      case None => None
      case Some(t) => Some(TrendLine(PercentColor(t), SignPrefix(t), t));
    Card(SignalColor(rec.signal), rec.ticker, rec.signal, table, trend)
  }

  function RenderCards(recs: seq<Recommendation>): (cards: seq<Card>)
    ensures |cards| == |recs|
    ensures forall i :: 0 <= i < |recs| ==> cards[i] == RenderCard(recs[i])
  {
    seq(|recs|, i requires 0 <= i < |recs| => RenderCard(recs[i]))
  }

  /**
   * For a backend change with a positive previous close, the dollar and the
   * percent cells of its row carry the same colour and the same prefix.
   */
  lemma ChangeRowSignsAgree(prev: PricePoint, cur: PricePoint)
    requires prev.close > 0.0
    ensures var row := RenderRow(Change(prev, cur));
      row.dollarColor == row.percentColor && row.dollarPrefix == row.percentPrefix
  {
    PercentChangeScales(prev.close, cur.close);
    var pc := PercentChange(prev.close, cur.close);
    if cur.close < prev.close {
      assert pc * prev.close < 0.0;
    }
    if pc < 0.0 {
      assert pc * prev.close < 0.0;
    }
  }

  /**
   * With positive prices a backend record's card is coherent: a "likely up"
   * card shows its trend in the up colour with a "+", a "likely down" card
   * shows it without "+" (neutral when the averages are equal), and a
   * "no data" card is neutral with neither table nor trend.
   */
  lemma SignalCardCoherent(ticker: string, rows: seq<Row>)
    requires forall i :: 0 <= i < |rows| && rows[i].close.Some? ==> rows[i].close.value > 0.0
    ensures var c := RenderCard(GetSignal(ticker, rows, SHORT_WINDOW, LONG_WINDOW));
      && (c.signal == NO_DATA ==> c.color == NEUTRAL_COLOR && c.table.None? && c.trend.None?)
      && (c.signal != NO_DATA ==> c.trend.Some?)
      && (c.signal == LIKELY_UP ==> c.trend.value.color == UP_COLOR && c.trend.value.prefix == "+")
      && (c.signal == LIKELY_DOWN ==> c.trend.value.color != UP_COLOR && c.trend.value.prefix == "")
  {
    SignalLabelsDistinct();
    SignalAgreesWithTrendSign(ticker, rows, SHORT_WINDOW, LONG_WINDOW);
  }

  /** What the search card shows: the error text, or a card for the payload. */
  datatype SearchResult = Payload(rec: Recommendation) | ErrorRecord(error: string)

  datatype SearchPanel =
    | ErrorPanel(border: string, textColor: string, message: string)
    | ResultCard(card: Card)

  /**
   * The error record has no signal, so its border takes the neutral colour;
   * its text is red.
   */
  function RenderSearchResult(s: SearchResult): (p: SearchPanel)
    ensures p.ErrorPanel? <==> s.ErrorRecord?
    ensures s.ErrorRecord? ==> p == ErrorPanel(NEUTRAL_COLOR, ERROR_TEXT_COLOR, s.error)
    ensures s.Payload? ==> p == ResultCard(RenderCard(s.rec))
  {
    match s
    case ErrorRecord(e) => ErrorPanel(SignalColor(""), ERROR_TEXT_COLOR, e)
    case Payload(rec) => ResultCard(RenderCard(rec))
  }

  /** The "Top 5 Likely Up Stocks" section. */
  datatype TopPanel = Loading | NoUptrends | TopCards(cards: seq<Card>)

  function RenderTop(loading: bool, top5: seq<Recommendation>): (p: TopPanel)
    ensures p.Loading? <==> loading
    ensures p.NoUptrends? <==> !loading && top5 == []
    ensures p.TopCards? ==> p.cards == RenderCards(top5) && |p.cards| > 0
  {
    if loading then Loading
    else if |top5| == 0 then NoUptrends
    else TopCards(RenderCards(top5))
  }

  /** The whole page, top to bottom. */
  datatype Screen = Screen(
    searching: bool,
    searchPanel: Option<SearchPanel>,
    top: TopPanel,
    watchlist: seq<Card>,
    errorLine: Option<string>)

  /** How a request's promise chain settled: with the parsed body, or in the catch handler. */
  datatype Settled<T> = Resolved(body: T) | Rejected

  /**
   * The page state: the seven `useState` slots, and, as ghost state, whether
   * the mount effect has run and which requests are still unsettled.
   */
  class App {
    var recommendations: seq<Recommendation>
    var top5: seq<Recommendation>
    var search: string
    var searchResult: Option<SearchResult>
    var loading: bool
    var searchLoading: bool
    var error: Option<string>

    ghost var mounted: bool
    ghost var recommendationsPending: bool
    ghost var top5Pending: bool
    /** The tickers of the searches sent and not yet settled. */
    ghost var searchesPending: multiset<string>

    /**
     * `loading` is on until the mount effect's top-5 request settles and off
     * after, whatever the recommendations request does; the startup requests
     * exist only once mounted; "Searching..." is shown only while no result
     * is and some search is unsettled.
     */
    ghost predicate Valid()
      reads this
    {
      && (loading <==> (!mounted || top5Pending))
      && (!mounted ==> !recommendationsPending && !top5Pending)
      && (searchLoading ==> searchResult.None? && |searchesPending| > 0)
    }

    /** The initial values of the `useState` slots. */
    constructor ()
      ensures Valid() && !mounted && searchesPending == multiset{}
      ensures recommendations == [] && top5 == [] && search == "" && searchResult.None?
      ensures loading && !searchLoading && error.None?
    {
      recommendations := [];
      top5 := [];
      search := "";
      searchResult := None;
      loading := true;
      searchLoading := false;
      error := None;
      mounted := false;
      recommendationsPending := false;
      top5Pending := false;
      searchesPending := multiset{};
    }

    /** The mount effect: loading on, and both startup requests sent, in this order. */
    method Mount() returns (urls: seq<string>)
      requires Valid() && !mounted
      modifies this
      ensures Valid() && mounted && recommendationsPending && top5Pending
      ensures urls == [API + "/recommendations", API + "/top5up"]
      ensures loading
      ensures recommendations == old(recommendations) && top5 == old(top5) && search == old(search)
      ensures searchResult == old(searchResult) && searchLoading == old(searchLoading) && error == old(error)
      ensures searchesPending == old(searchesPending)
    {
      loading := true;
      mounted := true;
      recommendationsPending := true;
      top5Pending := true;
      urls := [API + "/recommendations", API + "/top5up"];
    }

    /**
     * The recommendations request settles: the list is stored, or the error
     * message is set; `loading` and the top-5 list are not touched.
     */
    method RecommendationsSettled(outcome: Settled<seq<Recommendation>>)
      requires Valid() && recommendationsPending
      modifies this
      ensures Valid() && !recommendationsPending
      ensures outcome.Resolved? ==> recommendations == outcome.body && error == old(error)
      ensures outcome.Rejected? ==> recommendations == old(recommendations) && error == Some(RECOMMENDATIONS_ERROR)
      ensures loading == old(loading) && top5 == old(top5) && search == old(search)
      ensures searchResult == old(searchResult) && searchLoading == old(searchLoading)
      ensures mounted == old(mounted) && top5Pending == old(top5Pending) && searchesPending == old(searchesPending)
    {
      match outcome {
        case Resolved(body) =>
          recommendations := body;
        case Rejected =>
          error := Some(RECOMMENDATIONS_ERROR);
      }
      recommendationsPending := false;
    }

    /**
     * The top-5 request settles: the list is stored, or the error message is
     * set; then, either way, `loading` goes off.
     */
    method Top5Settled(outcome: Settled<seq<Recommendation>>)
      requires Valid() && top5Pending
      modifies this
      ensures Valid() && !top5Pending
      ensures !loading
      ensures outcome.Resolved? ==> top5 == outcome.body && error == old(error)
      ensures outcome.Rejected? ==> top5 == old(top5) && error == Some(TOP5_ERROR)
      ensures recommendations == old(recommendations) && search == old(search)
      ensures searchResult == old(searchResult) && searchLoading == old(searchLoading)
      ensures mounted == old(mounted) && recommendationsPending == old(recommendationsPending)
      ensures searchesPending == old(searchesPending)
    {
      match outcome {
        case Resolved(body) =>
          top5 := body;
        case Rejected =>
          error := Some(TOP5_ERROR);
      }
      loading := false;
      top5Pending := false;
    }

    /** The input's change handler: the text is stored upper-cased. */
    method SetSearch(text: string)
      requires Valid()
      modifies this
      ensures Valid()
      ensures search == ToUpper(text)
      ensures recommendations == old(recommendations) && top5 == old(top5) && error == old(error)
      ensures searchResult == old(searchResult) && loading == old(loading) && searchLoading == old(searchLoading)
      ensures mounted == old(mounted) && recommendationsPending == old(recommendationsPending)
      ensures top5Pending == old(top5Pending) && searchesPending == old(searchesPending)
    {
      search := ToUpper(text);
    }

    /**
     * `handleSearch`: an empty field changes nothing and sends nothing;
     * otherwise "Searching..." comes on, the previous result is cleared and
     * the request for the field's text is sent.
     */
    method HandleSearch() returns (url: Option<string>)
      requires Valid()
      modifies this
      ensures Valid()
      ensures old(search) == "" ==> url.None? && unchanged(this)
      ensures old(search) != "" ==>
        && url == Some(API + "/recommendation/" + search)
        && searchLoading && searchResult.None?
        && searchesPending == old(searchesPending) + multiset{search}
      ensures recommendations == old(recommendations) && top5 == old(top5) && search == old(search)
      ensures loading == old(loading) && error == old(error)
      ensures mounted == old(mounted) && recommendationsPending == old(recommendationsPending)
      ensures top5Pending == old(top5Pending)
    {
      if search == "" {
        return None;
      }
      searchLoading := true;
      searchResult := None;
      searchesPending := searchesPending + multiset{search};
      url := Some(API + "/recommendation/" + search);
    }

    /**
     * A search request settles: the body is stored as it came, or the error
     * record on failure; then, either way, "Searching..." goes off. A late
     * answer to an earlier search overwrites a newer one's.
     */
    method SearchSettled(ticker: string, outcome: Settled<Recommendation>)
      requires Valid() && ticker in searchesPending
      modifies this
      ensures Valid()
      ensures !searchLoading
      ensures outcome.Resolved? ==> searchResult == Some(Payload(outcome.body))
      ensures outcome.Rejected? ==> searchResult == Some(ErrorRecord(SEARCH_ERROR))
      ensures searchesPending == old(searchesPending) - multiset{ticker}
      ensures recommendations == old(recommendations) && top5 == old(top5) && search == old(search)
      ensures loading == old(loading) && error == old(error)
      ensures mounted == old(mounted) && recommendationsPending == old(recommendationsPending)
      ensures top5Pending == old(top5Pending)
    {
      match outcome {
        case Resolved(body) =>
          searchResult := Some(Payload(body));
        case Rejected =>
          searchResult := Some(ErrorRecord(SEARCH_ERROR));
      }
      searchLoading := false;
      searchesPending := searchesPending - multiset{ticker};
    }

    /**
     * The rendered page. In a valid state "Searching..." and a search card
     * are never on screen together.
     */
    function View(): (s: Screen)
      reads this
      ensures s.searching == searchLoading
      ensures s.searchPanel.Some? <==> searchResult.Some?
      ensures s.searchPanel.Some? ==> s.searchPanel.value == RenderSearchResult(searchResult.value)
      ensures s.top == RenderTop(loading, top5)
      ensures s.watchlist == RenderCards(recommendations)
      ensures s.errorLine == error
      ensures Valid() ==> !(s.searching && s.searchPanel.Some?)
    {
      var panel := match searchResult
        case None => None
        case Some(r) => Some(RenderSearchResult(r));
      Screen(searchLoading, panel, RenderTop(loading, top5), RenderCards(recommendations), error)
    }
  }

  /**
   * Both startup requests fail: the message of whichever failed last is
   * the one on screen, and loading is over.
   */
  method StartupFailuresInOrder(recommendationsFirst: bool) returns (errorLine: Option<string>, loading: bool)
    ensures errorLine == Some(if recommendationsFirst then TOP5_ERROR else RECOMMENDATIONS_ERROR)
    ensures !loading
  {
    var app := new App();
    var _ := app.Mount();
    if recommendationsFirst {
      app.RecommendationsSettled(Rejected);
      app.Top5Settled(Rejected);
    } else {
      app.Top5Settled(Rejected);
      app.RecommendationsSettled(Rejected);
    }
    var screen := app.View();
    errorLine := screen.errorLine;
    loading := screen.top.Loading?;
  }

  /**
   * Startup where the top-5 list arrives first: the section leaves
   * "Loading..." at once, although the watchlist is still empty; the later
   * recommendations answer does not bring "Loading..." back, and a failure
   * of either request leaves the other's list as it was.
   */
  method TopSectionWaitsOnlyForTop5(top: Settled<seq<Recommendation>>, recs: Settled<seq<Recommendation>>)
    returns (before: Screen, after: Screen)
    ensures !before.top.Loading? && before.watchlist == []
    ensures before.top == RenderTop(false, if top.Resolved? then top.body else [])
    ensures !after.top.Loading? && after.top == before.top
    ensures after.watchlist == RenderCards(if recs.Resolved? then recs.body else [])
  {
    var app := new App();
    var _ := app.Mount();
    app.Top5Settled(top);
    before := app.View();
    app.RecommendationsSettled(recs);
    after := app.View();
  }

  /** An empty submission before any search leaves the page as it was and sends nothing. */
  method EmptySearchSendsNothing() returns (url: Option<string>, before: Screen, after: Screen)
    ensures url.None? && after == before
  {
    var app := new App();
    var _ := app.Mount();
    app.SetSearch("");
    before := app.View();
    url := app.HandleSearch();
    after := app.View();
  }

  /**
   * Two searches in flight, answered out of order: the answer to the older
   * search is the one left on screen, and "Searching..." is off.
   */
  method StaleSearchAnswerWins(first: string, second: string, older: Recommendation, newer: Recommendation)
    returns (shown: Screen)
    requires ToUpper(first) != "" && ToUpper(second) != ""
    ensures !shown.searching
    ensures shown.searchPanel == Some(ResultCard(RenderCard(older)))
  {
    var app := new App();
    app.SetSearch(first);
    var sent1 := app.HandleSearch();
    app.SetSearch(second);
    var sent2 := app.HandleSearch();
    app.SearchSettled(ToUpper(second), Resolved(newer));
    app.SearchSettled(ToUpper(first), Resolved(older));
    shown := app.View();
  }

  /** The cards of the ranking are at most five, all in the up colour. */
  lemma TopCardsAreUp(tickers: seq<string>, fetch: string -> Download)
    ensures var cards := RenderCards(Top5(tickers, fetch));
      && |cards| <= TOP_COUNT
      && forall k :: 0 <= k < |cards| ==> cards[k].color == UP_COLOR
  {
    Top5Collected(tickers, fetch);
  }

  /**
   * How the client's promise chain settles on the /recommendations answer.
   * The endpoint does not catch a download that raises; the server then
   * answers with its plain-text error page, which `res.json()` rejects.
   */
  function RecommendationsAnswer(fetch: string -> Download): (s: Settled<seq<Recommendation>>)
    ensures s.Rejected? <==> exists i :: 0 <= i < |STOCKS| && fetch(STOCKS[i]).Raised?
    ensures s.Resolved? ==> Some(s.body) == Recommendations(fetch)
  {
    match Recommendations(fetch)
    case None => Rejected
    case Some(list) => Resolved(list)
  }

  /**
   * A page load in which the recommendations request settles with `recs` and
   * the top-5 request with the list `top`, in either order: the final page
   * does not depend on the order.
   */
  method LoadPage(recs: Settled<seq<Recommendation>>, top: seq<Recommendation>, recommendationsFirst: bool)
    returns (screen: Screen)
    ensures screen.top == RenderTop(false, top)
    ensures screen.watchlist == RenderCards(if recs.Resolved? then recs.body else [])
    ensures screen.errorLine == if recs.Rejected? then Some(RECOMMENDATIONS_ERROR) else None
    ensures !screen.searching && screen.searchPanel.None?
  {
    var app := new App();
    var _ := app.Mount();
    if recommendationsFirst {
      app.RecommendationsSettled(recs);
      app.Top5Settled(Resolved(top));
    } else {
      app.Top5Settled(Resolved(top));
      app.RecommendationsSettled(recs);
    }
    screen := app.View();
  }

  /**
   * A page load against the service, with the two answers arriving in either
   * order: the top section ends with at most five up-coloured cards, or the
   * no-uptrends text when nothing qualified; the watchlist has one card per
   * watchlist ticker, in order, unless a download raised, in which case it is
   * empty and the recommendations error is shown.
   */
  method StartupAgainstService(fetch: string -> Download, recommendationsFirst: bool) returns (screen: Screen)
    ensures !screen.top.Loading?
    ensures screen.top.NoUptrends? <==> Top5(ALL_STOCKS, fetch) == []
    ensures screen.top.TopCards? ==>
      && |screen.top.cards| <= TOP_COUNT
      && forall k :: 0 <= k < |screen.top.cards| ==> screen.top.cards[k].color == UP_COLOR
    ensures screen.errorLine.Some? <==> exists i :: 0 <= i < |STOCKS| && fetch(STOCKS[i]).Raised?
    ensures screen.errorLine.Some? ==> screen.errorLine == Some(RECOMMENDATIONS_ERROR) && screen.watchlist == []
    ensures screen.errorLine.None? ==>
      && |screen.watchlist| == |STOCKS|
      && forall i :: 0 <= i < |STOCKS| ==> screen.watchlist[i].ticker == STOCKS[i]
  {
    var top := Top5Up(fetch);
    TopCardsAreUp(ALL_STOCKS, fetch);
    screen := LoadPage(RecommendationsAnswer(fetch), top, recommendationsFirst);
  }
}
