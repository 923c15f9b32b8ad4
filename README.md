# Open-interest dashboard: verified model of its data-sync core

This project models, in Dafny, the two pieces of logic of the options
open-interest dashboard:

* **The server's decision and transform logic** (`main.py`):
  * `is_market_open`. The clock reading is a parameter, and the weekday is
    derived from the date as Python's `date.weekday()` does.
  * the lot-size table with its default;
  * `process_option_chain_data`, whose loop keeps the rows with a strike
    within 1500 of the underlying value and a multiple of 100, and fills five
    index-aligned lists scaled by the lot size;
  * the stub `find_closest_strike`;
  * the guards of the two option-chain routes.
* **The page's data-sync controller** (`src/app/open-interest/page.tsx`):
  * the five `useState` variables and the polling interval;
  * the two `useEffect` rules;
  * the three response handlers and the two selection handlers;
  * the pure derivations the charts draw: the tick-mark filter, the
    reference line and the four bar series.

Modules:

| file | module | what |
|---|---|---|
| wrappers.dfy | Wrappers | `Option`, `Result` |
| market_hours.dfy | MarketHours | calendar, `IsMarketOpen` and its properties |
| option_chain.dfy | OptionChain | `LotSize`, the row filter `Kept`, the method `ProcessOptionChainData` and the routes |
| chart_view.dfy | ChartView | the page's `OpenInterestData`, `TickVals`, `ReferenceLine`, `BuildView` |
| wire.dfy | Wire | how a server payload reaches the page, and what the page then draws |
| page_controller.dfy | PageController | the controller as a pure state machine (`Page`, `Step`) and as the class `OpenInterestPage` |

The controller is specified by a pure transition function `Step(page, event)`.
The class `OpenInterestPage` keeps the same state in mutable fields. Each of
its event methods (`Tick`, the six response handlers, `SelectSymbol`,
`SelectExpiry`, `Unmount`) is proved to perform exactly that step (`Model() ==
Step(old(Model()), e)`) and to keep the invariant `Valid()`. The constructor
`Mount` ends in `Mounted()`. The three sub-steps of a commit, `RunPollingEffect`,
`RunExpiryEffect` and `RunEffects`, are proved to compute `PollingEffect`,
`ExpiryEffect` and `Commit` of the state before them; they do not promise
`Valid()` on their own, since an effect runs in the middle of an event. The
properties are proved as lemmas about `Step`.

How the page works, in the terms of this model:
* Every outgoing HTTP call is appended to `requests`.
* Every response is an event.
* The browser's interval table is `timers`. An interval records the symbol
  and market status its callback captured.
* After every state update React runs the effects whose dependencies changed.
  The model keeps the dependencies each effect last ran with.

Behaviour of the page as the code has it, which the model follows:
* **No request-ordering guard.** The page applies every successful response
  as it arrives. There is no sequence number, so a late response for an old
  selection replaces newer data (`ChainOkEffect`, `ExpiryChainOkEffect`).
* **No stale closure.** The interval's callback uses the symbol and status it
  captured. The polling effect depends on both, so the captured values always
  equal the current ones (`Inv`, `TickRequests`).
* **A tick always fetches the symbol's default chain.** When the market is
  open, a tick calls `fetchData(symbol)`, never the expiry-specific fetch. Its
  response resets `selectedExpiry` to the server's default and, if that
  differs, fetches that expiry (`ChainOkEffect`). A user's expiry choice
  therefore lasts only until the next successful refetch.
* **A symbol change keeps the old expiry.** Changing the symbol keeps the old
  `selectedExpiry`. The expiry effect then fetches that old expiry for the new
  symbol, in addition to the polling effect's status check and chain fetch
  (`SelectSymbolEffect`).

## Model

| member | source | states |
|---|---|---|
| MarketHours.IsMarketOpen | main.py:25-41 | Open iff the date's weekday is Monday–Friday, the date is not a listed holiday, and the time is from 09:15:00.000000 to 15:30:00.000000 inclusive, in microseconds since midnight |
| MarketHours.WeekendClosed | main.py:31-32 | On Saturday and Sunday (weekday 5 or 6) the market is closed |
| MarketHours.HolidayClosed | main.py:35-36 | On any date of the holiday list the market is closed |
| MarketHours.HolidaysFallOnWeekdays | main.py:18-23 | Every listed holiday is a valid 2024 date on Monday–Friday, so the holiday rule is not covered by the weekend rule |
| MarketHours.TradingDaySession | main.py:38-41 | On other days the market is open exactly from 09:15:00.000000 to 15:30:00.000000 inclusive, measured in microseconds since midnight |
| MarketHours.TimeLeIsMicrosOrder | main.py:41 | Python's lexicographic `time` comparison agrees with comparing microseconds since midnight |
| MarketHours.RepublicDayWeek | main.py:25-41 | Concrete dates: 2024-01-25 (Thursday) is open at 10:00 and at 15:30:00 but not one microsecond later. The holiday 2024-01-26 and Saturday 2024-01-27 are closed |
| OptionChain.LotSize | main.py:48 | The lot size is positive, and it is the default 50 exactly for symbols other than BANKNIFTY, FINNIFTY and MIDCPNIFTY |
| OptionChain.LotSizes | main.py:11-16 | NIFTY 50, BANKNIFTY 15, FINNIFTY 40, MIDCPNIFTY 75, any other symbol 50 |
| OptionChain.Scale | main.py:64-67 | A scaled figure times 1000 equals the raw figure times the lot size |
| OptionChain.FindClosestStrike | main.py:43-45 | The stub always returns None |
| OptionChain.KeptSnoc | main.py:61-63 | One more input row adds itself to the kept rows exactly when it qualifies |
| OptionChain.KeptAppend | main.py:61-63 | The filter distributes over concatenation, so kept rows stay in input order |
| OptionChain.KeptCounts | main.py:61-62 | Each qualifying row is kept as many times as it occurs, and a non-qualifying row is never kept |
| OptionChain.KeptMembership | main.py:61-62 | A row is kept iff it is in the input and its strike is within 1500 of the underlying and a multiple of 100 |
| OptionChain.Qualifies | main.py:55-62 | A row qualifies iff its strike is a multiple of 100 and at distance at most 1500 from the underlying value |
| OptionChain.Kept | main.py:58-63 | The kept rows are no more than the input rows, and every kept row qualifies (window and multiple of 100) |
| OptionChain.ServedByLoop | main.py:58-80 | A payload holding the kept rows' strikes and scaled figures has every strike a multiple of 100 within 1500 of the underlying, so it is a served answer |
| OptionChain.ProcessOptionChainData | main.py:47-80 | Fails (IndexError → 500) iff no expiry is given and the expiry list is empty. Otherwise the answer is `Served` for the given expiry or the first listed one. That means: the expiry list is returned unmodified; the five lists are aligned and equal to the kept rows' strikes and their four figures × lot / 1000; every strike is a multiple of 100 within 1500 of the underlying; `closest_strike` and `underlying_value` are the chain's last price |
| OptionChain.GetNiftyOptions | main.py:92-97 | An empty symbol gives the 500 "Failed to retrieve data". Otherwise the answer fails (500 Internal Server Error) only for an empty expiry list, and a success is `Served` for the first listed expiry |
| OptionChain.GetNiftyOptionsForExpiry | main.py:99-104 | An empty symbol or expiry gives the 500 "Failed to retrieve data". Otherwise the answer succeeds and is `Served` for that expiry |
| ChartView.TickVals | src/app/open-interest/page.tsx:102 | Tick marks are no more than the strikes, and every tick is a multiple of 100 |
| ChartView.TickValsAppend | src/app/open-interest/page.tsx:102 | The tick filter distributes over concatenation, so ticks keep input order |
| ChartView.TickValsCounts | src/app/open-interest/page.tsx:102 | Each multiple of 100 appears among the ticks as often as among the strikes; nothing else appears |
| ChartView.TickValsMembership | src/app/open-interest/page.tsx:102 | A value is a tick iff it is a strike and a multiple of 100 (no false positives, no false negatives) |
| ChartView.TickValsKeepsAll | src/app/open-interest/page.tsx:102 | If all strikes are multiples of 100, the tick marks are exactly the strikes |
| ChartView.ReferenceLine | src/app/open-interest/page.tsx:117-130 | The marker is vertical at the underlying value (x0 = x1 = u, data units) and spans y from 0 to 1 in paper units |
| ChartView.BuildView | src/app/open-interest/page.tsx:199-243 | Two change and two overall series, all over the strikes, carrying the CE/PE change and overall lists. Series lengths match when the data is aligned. The ticks are exactly `TickVals` of the strikes. The reference line is at the underlying |
| Wire.ToClientData | src/app/open-interest/page.tsx:15-24 | The page sees the server's strikes and underlying, the expiry list and selected expiry as present, and aligned lists stay aligned |
| Wire.ServedPayloadRenders | src/app/open-interest/page.tsx:98-139 | For a payload shaped as the server guarantees, the page ticks every strike, draws bars of matching length, and draws the reference line at the underlying |
| Wire.RouteAnswerRenders | main.py:92-104 | Whatever either chain route serves renders with a tick at every strike, bars of matching length and the reference line at the underlying |
| PageController.InitialRender | src/app/open-interest/page.tsx:27-31 | The first render: no data, symbol NIFTY, no expiries, expiry "", market closed, no request, no interval; the invariant holds |
| PageController.PollingEffect | src/app/open-interest/page.tsx:33-43 | Never changes the five state variables. Afterwards its dependencies are up to date. Either nothing was sent, or exactly a status check and a chain fetch for the current symbol; in that case the previous interval is gone and the last interval is a new one capturing the current symbol and status |
| PageController.ExpiryEffect | src/app/open-interest/page.tsx:45-49 | Never changes the state variables or the interval. Afterwards its dependencies are up to date. It sends nothing, or one fetch for the current (symbol, expiry) when the expiry is non-empty |
| PageController.Commit | src/app/open-interest/page.tsx:33-49 | The effects never change the five state variables; afterwards both effects are up to date and the page is live; requests are only appended |
| PageController.Step | src/app/open-interest/page.tsx:36-86 | Requests are only appended. Only a symbol selection changes the symbol, only a status response the status, only a chain response the expiry list, only a chain response or an expiry selection the selected expiry, only a chain or expiry-chain response the data (to its payload). A failure changes nothing |
| PageController.ClearInterval | src/app/open-interest/page.tsx:42 | Clearing an interval removes exactly the registrations with that id |
| PageController.MountedState | src/app/open-interest/page.tsx:27-49 | After mounting: no data, symbol NIFTY, no expiries, expiry "", market closed; requests so far are one status check and one NIFTY fetch; one interval is live; the invariant holds |
| PageController.CommitRestoresInv | src/app/open-interest/page.tsx:33-49 | Running the effects after a state update (or the first render) re-establishes the controller invariant |
| PageController.StepPreservesInv | src/app/open-interest/page.tsx:33-86 | Every event keeps the controller invariant: effects up to date, exactly one live interval capturing the current symbol and status, none once unmounted |
| PageController.RunPreservesInv | src/app/open-interest/page.tsx:33-86 | The invariant holds after any sequence of events |
| PageController.AtMostOneInterval | src/app/open-interest/page.tsx:36-42 | After any sequence of events from mount, at most one interval is live |
| PageController.FailuresChangeNothing | src/app/open-interest/page.tsx:51-78 | A failed status check, chain fetch or expiry fetch leaves the whole page unchanged |
| PageController.TickRequests | src/app/open-interest/page.tsx:36-41 | A tick sends one status check, and a chain fetch for the selected symbol only if the status known before the tick is open; nothing else changes |
| PageController.StatusOkEffect | src/app/open-interest/page.tsx:51-58 | An unchanged status changes nothing. A changed status sets only the status, replaces the old interval by one new interval, and sends one status check and one chain fetch |
| PageController.ChainOkEffect | src/app/open-interest/page.tsx:60-69 | A chain response replaces the data and sets the expiry list and selected expiry from the payload (or [] and ""). Symbol, status and interval are kept. One expiry fetch is sent exactly when the selected expiry changed to a non-empty value |
| PageController.ExpiryChainOkEffect | src/app/open-interest/page.tsx:71-78 | An expiry response replaces only the data and sends nothing |
| PageController.SelectSymbolEffect | src/app/open-interest/page.tsx:84-86 | Selecting the current symbol changes nothing. Another symbol sets only the symbol and replaces the interval by one new one. It sends a status check, a chain fetch and, if an expiry is selected, that expiry's fetch for the new symbol |
| PageController.SelectExpiryEffect | src/app/open-interest/page.tsx:80-82 | Selecting the current expiry changes nothing. Another expiry sets only the expiry, keeps the interval, and sends one expiry fetch if it is non-empty |
| PageController.QuietAfterUnmount | src/app/open-interest/page.tsx:42 | Unmounting clears the interval; afterwards no event changes the page or sends a request |
| PageController.ServerDefaultExpiryFetched | src/app/open-interest/page.tsx:45-65 | After mount, a NIFTY response naming expiry x makes x the selected expiry and sends exactly one fetch for (NIFTY, x) |
| PageController.OpenInterestPage.Mount | src/app/open-interest/page.tsx:27-49 | The constructor renders with the initial state and runs both effects: the state is the initial state, with one status check, one NIFTY fetch and one live interval |
| PageController.OpenInterestPage.RunPollingEffect | src/app/open-interest/page.tsx:33-43 | The polling effect: when symbol or status changed, clear the previous interval, send status check and chain fetch, register one new interval |
| PageController.OpenInterestPage.RunExpiryEffect | src/app/open-interest/page.tsx:45-49 | The expiry effect: when expiry or symbol changed, send one expiry fetch if an expiry is selected |
| PageController.OpenInterestPage.RunEffects | src/app/open-interest/page.tsx:33-49 | The commit after a render runs both effects in declaration order |
| PageController.OpenInterestPage.Tick | src/app/open-interest/page.tsx:36-41 | The interval's callback; it sends a status check, and a chain fetch for the selected symbol only when the current status is open |
| PageController.OpenInterestPage.StatusSucceeded | src/app/open-interest/page.tsx:51-54 | Performs the status-response step and keeps the invariant |
| PageController.OpenInterestPage.StatusFailed | src/app/open-interest/page.tsx:55-57 | A failed status check changes nothing |
| PageController.OpenInterestPage.ChainSucceeded | src/app/open-interest/page.tsx:60-65 | Performs the chain-response step: data replaced, status kept |
| PageController.OpenInterestPage.ChainFailed | src/app/open-interest/page.tsx:66-68 | A failed chain fetch changes nothing |
| PageController.OpenInterestPage.ExpiryChainSucceeded | src/app/open-interest/page.tsx:71-74 | Performs the expiry-response step |
| PageController.OpenInterestPage.ExpiryChainFailed | src/app/open-interest/page.tsx:75-77 | A failed expiry fetch changes nothing |
| PageController.OpenInterestPage.SelectSymbol | src/app/open-interest/page.tsx:84-86 | Performs the symbol-selection step |
| PageController.OpenInterestPage.SelectExpiry | src/app/open-interest/page.tsx:80-82 | Performs the expiry-selection step |
| PageController.OpenInterestPage.Unmount | src/app/open-interest/page.tsx:42 | The effect's cleanup on unmount: no interval stays live |

## Left out

- HTTP: the axios calls, the hard-coded URLs and JSON (de)serialisation. Requests are recorded and responses are events.
- Responses are not tied to the requests they answer. The page keeps no such link either, so any response may arrive at any time.
- Timing: real timers, the 180000 ms period and async interleaving. A tick and each response are separate events. The status check a tick sends is not awaited.
- React StrictMode's double invocation of effects in development is not modelled.
- Markup: the JSX, CSS, Plotly styling and configuration, the loading spinner, the `key` props and the dropdown menus. The dropdowns only call the two selection handlers.
- The server framework: the FastAPI app, CORS middleware, uvicorn and `nest_asyncio`. The `GET /api/market-status` route has no guard and only returns `is_market_open()`; it is not a separate member.
- Foreign calls: `expiry_list` and `oi_chain_builder` (with pandas `iterrows`) are parameters of the transform. The chain builder's timestamp is ignored.
- OptionChain.GetNiftyOptionsForExpiry: its "otherwise the answer succeeds" holds only because the two foreign calls always return a value here. Their failures (a network error, an unknown symbol) are not modelled; in the code they raise uncaught and FastAPI answers 500. The same applies to OptionChain.GetNiftyOptions and OptionChain.ProcessOptionChainData.
- The clock: `datetime.now` in the Asia/Kolkata zone (`pytz`) is a parameter, the `Instant` read.
- Numbers: floating point. Strike prices and the four raw per-row figures are integers. The underlying value and the scaled open-interest figures are exact reals, so no rounding behaviour of `/ 1e3` is captured.
- OptionChain.ProcessOptionChainData: a selected expiry of None and of "" are the same input (both falsy in Python).
- ChartView.TickVals: JavaScript's `%` on non-integer strikes is not modelled, since strikes are integers.
- PageController.Step: a payload's `expiry_dates`/`selected_expiry` are either present or absent. Other falsy values that `||` would also replace are not modelled.
