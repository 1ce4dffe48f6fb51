# TradePilot signal service and dashboard, modelled in Dafny

TradePilot has two parts. The backend (`backend/main.py`) classifies stocks by comparing
a 10-day and a 50-day simple moving average of daily closes. It reports the last five
day-to-day price changes and ranks the strongest uptrends. The dashboard
(`frontend/src/App.jsx`) renders the results. It colours signals and numbers, prefixes
positive numbers with "+", and keeps seven state slots that its mount effect, its request
callbacks and its search form update.

The model has four files:

- `wrappers.dfy` holds `Option`.
- `ranking.dfy` (module `Ranking`) models Python's stable `sorted(..., reverse=True)` followed by `[:5]`. It is generic over the sort key.
- `signals.dfy` (module `Signals`) models the backend after the download. Each ticker's download is an input `fetch: string -> Download`. A download is either the frame's rows (a date label and a close, `None` for NaN) or the marker that the download raised.
  - `get_last_5_trading_days` is a method with its loop (`GetLast5TradingDays`), proved against the function `DailyChanges`.
  - `get_signal` is the function `GetSignal`.
  - `recommendations` is the function `Recommendations`.
  - `top5up` is a method with its loop (`Top5Up`) whose body is `ScanTicker`. It is proved against the function `Top5`.
- `frontend.dfy` (module `Frontend`) holds the dashboard.
  - The colour and prefix rules are functions.
  - What each card, panel and section shows is given by render functions.
  - The page state is the class `App`. Its fields are the seven `useState` slots. Its methods are the events: mount, each request settling (resolved or rejected), typing, and submitting a search. Settle events can be applied in any order.
  - The ghost state records which requests are still unsettled. `App.Valid()` ties `loading` to the top-5 request alone, and ties "Searching..." to an empty result.

Behaviour of the code worth knowing:

- `loading` waits only for the top-5 request, not for both startup requests.
- Searches carry no sequence numbers. A late answer to an older search overwrites a newer one (`StaleSearchAnswerWins`).
- `res.ok` is not checked. A server error body that parses as JSON is stored as the search result like any payload.

## Model

| member | source | states |
|---|---|---|
| Signals.Tail | backend/main.py:27 | `tail(n)`: there are min(\|s\|, n) elements, and they are the suffix of `s` |
| Signals.PresentKeepsExactlyTheCloses | backend/main.py:26 | `dropna()` keeps a point (date, close) exactly when the input has a row with that date and a present close |
| Signals.PercentChangeScales | backend/main.py:33 | the percent change is 0 when the previous close is 0; otherwise it times the previous close equals 100 times the dollar change; with a positive previous close it is positive exactly when the close went up |
| Signals.Pairs | backend/main.py:30-40 | there is one change fewer than points, and change k goes from point k to point k+1: its date and close are the later point's, its dollar change is the difference of the closes, and its percent change is as above |
| Signals.PairsOfTail | backend/main.py:27-41 | pairing the last n+1 points gives exactly the last n changes of the whole series |
| Signals.DailyChangesAreLastChanges | backend/main.py:25-41 | the reported changes are the last five day-to-day changes of all present closes, oldest first; for n present closes there are min(5, max(0, n-1)) of them |
| Signals.GetLast5TradingDays | backend/main.py:25-41 | the loop carrying `prev_close` returns exactly `DailyChanges(rows)` |
| Signals.Sma | backend/main.py:48-51 | the rolling mean's last value is present exactly when there are at least `window` rows and the last `window` closes are all present; it then times `window` equals their sum |
| Signals.SmaPositive | backend/main.py:48-51 | with positive closes, a present moving average is positive |
| Signals.GetSignal | backend/main.py:44-65 | "no data", with no trend and no changes, exactly in the degenerate cases (empty, fewer than `long_window` rows, a missing average, or a zero long average); otherwise the trend is (s-l)/l·100, the changes are `DailyChanges`, and the signal is "likely up" exactly when s > l and "likely down" exactly when s ≤ l |
| Signals.TrendSign | backend/main.py:54-58 | against a positive long average, the trend is positive exactly when the short average is above it |
| Signals.SignalAgreesWithTrendSign | backend/main.py:52-58 | with positive prices, a classified ticker's signal is "likely up" exactly when its trend is positive and "likely down" exactly when it is not |
| Signals.SignalsFor | backend/main.py:67-70 | the comprehension fails (`None`) exactly when some download raised; otherwise it gives one `GetSignal` result per ticker, in order |
| Signals.Recommendations | backend/main.py:67-70 | /recommendations gives one result per watchlist ticker, in watchlist order, with the ticker's own name, and fails exactly when a download raised |
| Signals.UpCandidate | backend/main.py:80-98 | one loop iteration appends an entry exactly when the download succeeded, the data is not degenerate, and the short average is above the long one; the entry carries the ticker, "likely up" and a trend |
| Signals.UpCandidateAgreesWithGetSignal | backend/main.py:44-98 | on a downloaded frame, the loop appends exactly the `GetSignal` result, and does so when that result is "likely up" |
| Signals.Candidates | backend/main.py:78-98 | the collected list is no longer than the scan; every entry is "likely up", has a trend, belongs to a scanned ticker, and is what the loop body built for that ticker |
| Signals.CandidatesComplete | backend/main.py:79-98 | no eligible ticker is skipped: every entry that the loop body builds is collected |
| Signals.CandidatesStep | backend/main.py:79-98 | one more ticker scanned appends exactly that ticker's entry, if any |
| Signals.ScanTicker | backend/main.py:80-98 | the `try` block with its `continue`s yields exactly `UpCandidate` for the ticker |
| Signals.Top5Up | backend/main.py:76-101 | the loop and the sort return exactly `Top5(ALL_STOCKS, fetch)` |
| Signals.Top5Collected | backend/main.py:79-100 | every ranked entry is "likely up", belongs to a scanned ticker, and is that ticker's loop-body entry |
| Signals.Top5Ranked | backend/main.py:99-100 | the result has min(5, #candidates) entries; it is non-increasing in trend and is a sub-multiset of the candidates; no candidate left out has a larger trend than any kept one |
| Signals.Top5KeepsScanOrderOfTies | backend/main.py:100 | entries with equal trends come out in scan order, as a prefix of the scan-order entries with that trend |
| Ranking.Take | backend/main.py:100 | `[:n]` is a prefix of length min(\|s\|, n) |
| Ranking.SortDescPermutes | backend/main.py:100 | the sort is a permutation of its input |
| Ranking.SortDescNonIncreasing | backend/main.py:100 | the sort's output is non-increasing in the key |
| Ranking.SortDescStable | backend/main.py:100 | the sort keeps the input order of elements with equal keys |
| Ranking.TopOfSorted | backend/main.py:100 | the first n of the sort are ordered, come from the input, and are the n largest |
| Ranking.TopKeepsOrderOfTies | backend/main.py:100 | among equal keys, the first n of the sort are the earliest such elements of the input |
| Frontend.SignalColor | frontend/src/App.jsx:39-40 | up colour exactly for "likely up", down colour exactly for "likely down", neutral for every other string |
| Frontend.UpperCaseLabelIsNeutral | frontend/src/App.jsx:39-40 | the match is case-sensitive: "LIKELY UP" and "LIKELY DOWN" get the neutral colour |
| Frontend.PercentColor | frontend/src/App.jsx:42-43 | up colour exactly for positive values, down exactly for negative, neutral exactly for zero |
| Frontend.SignPrefix | frontend/src/App.jsx:81-82 | "+" exactly when the value is positive; nothing for zero and negatives |
| Frontend.ToUpper | frontend/src/App.jsx:54 | the text keeps its length; each lower-case letter becomes its own capital, every other character stays as it is, and no lower-case letter remains |
| Frontend.ToUpperIdempotent | frontend/src/App.jsx:54 | upper-casing twice is upper-casing once |
| Frontend.RenderRow | frontend/src/App.jsx:78-84 | each table cell takes its colour and its "+" from the sign of its own number |
| Frontend.RenderCard | frontend/src/App.jsx:139-168 | border, ticker and signal take the signal's colour; the table appears exactly when there are daily changes, with one row per change; the trend line appears exactly when the trend is not null, coloured and prefixed by its sign |
| Frontend.RenderCards | frontend/src/App.jsx:139 | one card per record, in order |
| Frontend.ChangeRowSignsAgree | frontend/src/App.jsx:81-82 | for a backend change with a positive previous close, the dollar and percent cells share colour and prefix |
| Frontend.SignalCardCoherent | frontend/src/App.jsx:88-91 | with positive prices, a "likely up" card shows its trend in the up colour with "+", a "likely down" card shows it without "+" and not in the up colour, and a "no data" card is neutral with neither table nor trend |
| Frontend.RenderSearchResult | frontend/src/App.jsx:60-96 | an error record shows its message in red inside a neutral border; a payload shows a card for that payload |
| Frontend.RenderTop | frontend/src/App.jsx:98-136 | "Loading..." exactly while loading; the no-uptrends text exactly when loading is over and the list is empty; otherwise one card per entry |
| Frontend.App.constructor | frontend/src/App.jsx:6-12 | the initial slots: empty lists and search text, no result, loading on, searching off, no error |
| Frontend.App.Mount | frontend/src/App.jsx:14-25 | loading goes on, and the /recommendations and /top5up requests are sent in that order; nothing else changes |
| Frontend.App.RecommendationsSettled | frontend/src/App.jsx:16-19 | the list is stored, or the recommendations error is set; `loading` and the top-5 list are untouched |
| Frontend.App.Top5Settled | frontend/src/App.jsx:20-24 | the list is stored, or the top-5 error is set; `loading` is off on both paths; the recommendations list is untouched |
| Frontend.App.SetSearch | frontend/src/App.jsx:54 | the field holds the upper-cased text |
| Frontend.App.HandleSearch | frontend/src/App.jsx:27-32 | an empty field changes no state and sends nothing; otherwise "Searching..." comes on, the result is cleared, and the request for the field's text is sent |
| Frontend.App.SearchSettled | frontend/src/App.jsx:33-36 | the body is stored unchanged, or exactly the error record "Not found or error" on failure; "Searching..." is off on both paths |
| Frontend.App.View | frontend/src/App.jsx:59-171 | the page shows each slot through its render rule; in a valid state "Searching..." and a search card never appear together |
| Frontend.StartupFailuresInOrder | frontend/src/App.jsx:16-24 | when both startup requests fail, the message of the later failure is shown, and loading is over |
| Frontend.TopSectionWaitsOnlyForTop5 | frontend/src/App.jsx:15-24 | the top section leaves "Loading..." once the top-5 request settles, while the watchlist is still empty; the recommendations answer does not bring it back, and a failure leaves the other list as it was |
| Frontend.EmptySearchSendsNothing | frontend/src/App.jsx:29 | submitting an empty field leaves the rendered page identical and sends no request |
| Frontend.StaleSearchAnswerWins | frontend/src/App.jsx:32-36 | with two searches in flight answered out of order, the older search's answer stays on screen |
| Frontend.TopCardsAreUp | frontend/src/App.jsx:104-107 | the ranking renders at most five cards, all in the up colour |
| Frontend.RecommendationsAnswer | frontend/src/App.jsx:16-19 | the client's chain rejects exactly when a watchlist download raised; otherwise it resolves with the /recommendations list |
| Frontend.LoadPage | frontend/src/App.jsx:14-25 | whichever startup request settles first, the final page has the top section for the list, the watchlist from the recommendations answer, and the error line exactly when that request failed |
| Frontend.StartupAgainstService | frontend/src/App.jsx:14-25 | against the service, the page ends with at most five up-coloured cards, or the no-uptrends text exactly when nothing qualified; it shows one watchlist card per watchlist ticker, in order, or else an empty watchlist with the recommendations error exactly when a download raised |

## Left out

- Network I/O is replaced by inputs. This covers `fetch`, `res.json()` and `yf.download`.
  - A download is the parameter `fetch`.
  - A request's settling is an event carrying the parsed body or a rejection.
- `yf.download` arguments (period, interval) and how it reports failures are not modelled. A failure is either an empty frame or the `Raised` marker.
- The server's answer to an uncaught exception is assumed not to be JSON. `RecommendationsAnswer` relies on this: the framework's default error page is plain text.
- Server wiring is not modelled: FastAPI app setup, CORS middleware and route decorators.
- The `/recommendation/{ticker}` endpoint is not modelled. It is `get_signal` on the upper-cased ticker. A search answer is taken as any `Recommendation`.
  - Other JSON bodies the server might send are not modelled, such as an error object without a signal.
  - So `searchResult.error` is present only on the client's own error record.
- Markup and styling are not modelled: the JSX layout, the CSS, and `key` attributes. Only the colour, prefix and visibility rules are kept.
- `round(x, 2)` is not modelled; all numbers are exact reals. The four members below hold for exact values only.
- Signals.SignalAgreesWithTrendSign: holds for the exact trend, not for the rounded `trend_percent` the service returns. With short average 100.003 and long average 100, the signal is "likely up" but the returned trend rounds to 0.0, which is not positive.
- Frontend.ChangeRowSignsAgree: holds for exact changes, not for the rounded cells the page receives. With previous close 500 and close 500.01, the dollar cell shows "+0.01" in the up colour, but the percent change rounds to 0, shown as "0%" in the neutral colour.
- Frontend.SignalCardCoherent: holds for the exact trend only. In the example above, a "likely up" card shows "0%" in the neutral colour with no "+".
- Signals.Top5Up: ranks candidates by their exact trends, while the service sorts on the rounded trend. Two candidates whose trends round to the same value tie in the service and keep scan order, but the model orders them by exact value, which can change which entry comes fifth. Floating-point NaN and infinity are not modelled either. A missing close is `None`.
- Date formatting with `strftime` is not modelled; a date is an uninterpreted label.
- Rows and closes are not the same thing. `len(data)` counts all rows, and missing closes count too, as in pandas.
- True asynchrony is not modelled. Settle events are sequential steps in any order, and the ghost pending-set says which events may still come.
- `Frontend.ToUpper`: only ASCII letters are upper-cased; JavaScript's full Unicode case mapping is not modelled.
- `Signals.TrendOf`: a missing trend would sort as 0.0. This fallback is never used, because every collected entry has a trend (`Signals.Candidates`).
- `Signals.Present`: its contract gives only the length bound. The correspondence with the input rows is stated by `Signals.PresentKeepsExactlyTheCloses` as membership, not as order.
- The render functions produce the values and colours shown. The text formatting of numbers (the "%" suffix, "Est. Move Today:") is not modelled.
