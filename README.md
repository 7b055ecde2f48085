# Crypto trading dashboard: verified decision core

This project models, in Dafny, the logic inside the dashboard's `CryptoApp`
class (`exe.py`) that does not depend on the GUI, the network or threads. It
is one module, `CryptoApp`, in `crypto_app.dfy`, with three parts:

- **Profit/loss engine.** `CalculateProfit` and `ProfitStatus` together give
  the signed profit and the status tag (Unset, Profit, StopLossTriggered,
  Loss) for a current price, an investment, a purchase price and a stop
  price. Prices are exact `real`s, so the model covers the decision rule and
  not the rounding of Python floats. The status branches are tried in the
  source's order and the first match wins.
- **Retry/backoff policy of `make_request`.** The network becomes a sequence
  of responses, one per attempt. A response is either a reply (a status code
  plus the JSON body, absent when the body does not parse) or a transport
  failure. `MakeRequest` runs the source's loop of at most three attempts.
  A 429 reply sleeps the current wait and doubles it. Any other outcome ends
  the call. The method returns the payload, the sleeps taken and the number
  of requests issued, and is proved equal to the specification `Fetch`.
- **Selection and publish state.** The class `Dashboard` holds the selected
  coin, language and currency, the position the user entered, and the four
  data slots: market stats, price history, news and commentary. Its methods
  cover the menu handlers and the rules for which slots a poll cycle
  replaces. Its invariant `Valid()` says that the selected coin and language
  come from the tables, and that stats and history are both present or both
  absent.

`Fetch` and `MakeRequest` require at least three responses, one for each
attempt the loop may make; the ones after the deciding attempt are never
read. The user's entries (investment, purchase price, stop price) are held
as numbers that are already parsed; an entry that does not parse is 0.

Behaviour worth noting:

- A news or commentary fetch that fails without raising returns an empty
  list, and the cycle publishes it, so that slot becomes empty
  (exe.py:592-629, exe.py:556-558).
- A fetch helper that raises (an article without a title, a price-history
  reply that is a non-empty JSON array, or another truthy value that is not
  an object; an empty or falsy reply gives an empty history instead) ends
  the worker thread, so nothing after
  it in the cycle is published (exe.py:549, exe.py:551-558, exe.py:608,
  exe.py:627).
- Only status codes 400-599 raise an HTTP error. Any other non-429 reply is
  parsed as JSON, and a body that does not parse ends the call with nothing
  through the generic exception handler (exe.py:642-649).
- Every failure of the HTTP helper returns None, whatever its cause
  (exe.py:644-651).
- A market figure that is present but null or not a number makes the
  refresh raise while the label texts are built, so nothing is shown and
  the status is not updated (exe.py:658-712).

## Model

| member | source | states |
|---|---|---|
| `CryptoApp.CalculateProfit` | exe.py:714-722 | profit is 0 when the purchase price is 0; otherwise profit × purchase = investment × (current − purchase), i.e. (investment / purchase) × current − investment |
| `CryptoApp.ProfitStatus` | exe.py:755-767 | the status is Unset exactly when the purchase price is 0 |
| `CryptoApp.Evaluate` | exe.py:698-712 | profit and status for one price, as update_market_data shows them; an Unset status comes with a profit of 0 |
| `CryptoApp.UnsetWithoutPurchase` | exe.py:755-757 | with purchase price 0 the result is profit 0 and status Unset for every current price, investment and stop price |
| `CryptoApp.BreakEvenAtPurchasePrice` | exe.py:717-722 | valuing the position at its purchase price gives a profit of exactly 0 |
| `CryptoApp.ProfitTakesPrecedence` | exe.py:759-761 | with a purchase price set and current ≥ purchase the status is Profit whatever the stop price, even a stop above the purchase price |
| `CryptoApp.StopLossExactly` | exe.py:762-767 | below the purchase price the status is StopLossTriggered if and only if stop > 0 and current ≤ stop, and Loss if and only if not |
| `CryptoApp.NonPositiveStopNeverTriggers` | exe.py:762 | a stop price of 0 or less never yields StopLossTriggered |
| `CryptoApp.StatusAgreesWithProfitSign` | exe.py:714-767 | for positive investment and purchase price, the status is Profit if and only if the profit is ≥ 0, and Loss or StopLossTriggered if and only if it is < 0 |
| `CryptoApp.ProfitMonotoneInPrice` | exe.py:719-722 | for positive investment and purchase price, a higher current price never gives a lower profit |
| `CryptoApp.ScenarioProfit` | exe.py:714-761 | 1000 invested at 20000, price 25000: profit +250, status Profit |
| `CryptoApp.ScenarioStopLoss` | exe.py:714-764 | 1000 invested at 20000, stop 18000, price 17000: profit −150, status StopLossTriggered |
| `CryptoApp.Deliver` | exe.py:642-649 | a response that is not a 429 yields a payload exactly when it is a reply with a status below 400 or from 600 up and a body that parses, and the payload is that body |
| `CryptoApp.Backoff` | exe.py:633-640 | the k-th sleep (from 0) is 5 × 2^k: the wait starts at 5 and doubles after each sleep |
| `CryptoApp.DecisiveAttempt` | exe.py:634-641 | the attempt that ends the call: every earlier attempt got a 429, and the attempt itself did not, unless all three did |
| `CryptoApp.Fetch` | exe.py:631-651 | 1 to 3 requests; the sleeps follow the backoff schedule, one sleep per 429 answer, including a 429 on the third request; a payload is only ever the body of the last response |
| `CryptoApp.MakeRequest` | exe.py:631-651 | the loop returns exactly the payload, the sleeps and the request count that `Fetch` specifies |
| `CryptoApp.BackoffSchedule` | exe.py:632-640 | the sleeps of any call are a prefix of 5, 10, 20 |
| `CryptoApp.RateLimitExhausted` | exe.py:634-651 | three 429s in a row: three requests, sleeps 5, 10, 20, and no payload |
| `CryptoApp.FailsFast` | exe.py:642-649 | a transport failure, a non-429 HTTP error, or a good reply whose body does not parse on attempt k ends the call on that attempt: no payload, k + 1 requests, no more sleeps |
| `CryptoApp.ReturnsPayload` | exe.py:642-643 | a successful reply whose body parses returns that payload on the same attempt |
| `CryptoApp.ScenarioRetryThenSuccess` | exe.py:634-643 | 429, 429, then 200: the payload is returned after sleeping 5 and 10, 15 in all |
| `CryptoApp.TotalWaitBounded` | exe.py:632-641 | no call sleeps more than 5 + 10 + 20 = 35 in all |
| `CryptoApp.LanguageCode` | exe.py:26-33 | a display name has a code exactly when it is a menu entry, and the pair is in the language table |
| `CryptoApp.FirstMatch` | exe.py:221-222 | the index where a first-match search stops: no earlier element matches, and the element there does (or the search ran out) |
| `CryptoApp.DefaultCurrencyIn` | exe.py:219-226 | the first currency in table order whose language list holds the code; USD when no list does |
| `CryptoApp.FindDefaultCurrency` | exe.py:221-226 | the for/else search loop returns exactly `DefaultCurrencyIn` of the table and the code |
| `CryptoApp.CurrencyListsDisjoint` | exe.py:35-40 | no language code is listed under two currencies |
| `CryptoApp.DefaultCurrencyIsTheListingOne` | exe.py:219-226 | with the shown tables, a code's default currency is the currency that lists it |
| `CryptoApp.EveryLanguageHasACurrency` | exe.py:26-40 | every menu language is listed under some currency, so none falls back to USD |
| `CryptoApp.DefaultCurrencies` | exe.py:35-40 | en and es give USD, tr gives TRY, fr and de give EUR, ru gives RUB |
| `CryptoApp.SymbolsUnique` | exe.py:18-24 | no two coins share a ticker, so a ticker selects one coin |
| `CryptoApp.Dashboard.constructor` | exe.py:51-65 | start-up state: bitcoin/BTC, English, USD, investment 1000, purchase and stop 0, all slots empty, no status |
| `CryptoApp.Dashboard.SetDefaultCurrency` | exe.py:219-226 | the currency becomes the default (`DefaultCurrencyIn` over the currency table) for the selected language's code, and nothing else changes |
| `CryptoApp.Dashboard.OnLanguageChange` | exe.py:213-217 | the language becomes the chosen entry and the currency its default |
| `CryptoApp.Dashboard.OnCurrencyChange` | exe.py:228-230 | the currency becomes the chosen one; the invariant is kept |
| `CryptoApp.Dashboard.OnCryptoChange` | exe.py:506-518 | a known ticker selects its coin, an unknown one keeps the selection, and all four data slots are emptied |
| `CryptoApp.Dashboard.UpdateCryptoData` | exe.py:554-563 | called only with non-empty stats and history, it replaces both together and keeps the invariant |
| `CryptoApp.Dashboard.UpdateNewsComments` | exe.py:565-569 | news and commentary are replaced together; the invariant is kept |
| `CryptoApp.Dashboard.PublishCycle` | exe.py:551-558 | stats and history replace their slots together, and only when both are non-empty; otherwise neither changes. A helper that raises stops the cycle there: a raising price-history fetch publishes nothing, a raising news or commentary fetch publishes no news or commentary. Otherwise news and commentary are replaced, possibly by empty lists; the invariant is kept |
| `CryptoApp.FigureOr0` | exe.py:658-660 | a missing figure reads as 0, a number as itself, and a null or non-numeric value gives nothing that can be formatted |
| `CryptoApp.Dashboard.UpdateMarketData` | exe.py:653-712 | with no stats it shows nothing and keeps the status; if a figure is null or not a number it raises and keeps the status; otherwise it shows price, 24h change, market cap and volume (0 when missing) with the profit, and records the status of `Evaluate` |

## Left out

- The GUI, label texts, translation tables, chart drawing and the news and comment lists (exe.py:84-202, exe.py:232-505, exe.py:772-894): presentation only.
- The WebSocket feed (exe.py:519-540): thread and network plumbing. The price it streams is the `price` argument of `UpdateMarketData`. The client does not reconnect after an error or a close; it is only restarted when the coin changes.
- Real HTTP, `time.sleep`, the worker thread and the `root.after` scheduling (exe.py:551-575): the model keeps the response sequence and the list of sleeps. The 30-minute re-poll and the calls that start a new poll after a menu change are not modelled.
- Concurrency: a poll started for the previous coin can still publish after `on_crypto_change` has emptied the slots. The model applies whole cycles one at a time and cannot show this.
- The fetch helpers' JSON extraction (exe.py:541-549, exe.py:577-629): `PublishCycle` takes what they return, with `None` for a helper that raised. A missing stats record (None) and an empty one ({}) are both the empty map; a first list element that is not an object is not modelled.
- Non-numeric market fields are kept only as "not a number": their text (name, image) is used by the chart title alone. A JSON boolean counts as a number, as Python formats it like 1 or 0.
- Requests that never return: `requests.get` is called without a timeout (exe.py:636), so an attempt can block forever. The model assumes every attempt gets a response or a transport failure.
- Non-finite entries: `get_float_value` (exe.py:204-211) turns "nan" and "inf" into floats that a `real` cannot hold. The model assumes finite entries.
- `get_float_value` (exe.py:204-211): it relies on Python `float()`. The position fields hold its result, with 0 for an entry that does not parse.
- Floating-point rounding and number formatting: profit is computed over exact reals.
- Diagnostic printing (exe.py:538-540, exe.py:638, exe.py:645, exe.py:648, exe.py:650): console messages only, not modelled.
- Loading API keys and the `exit()` calls (exe.py:73-82): file I/O.
- Host resource sampling (exe.py:896-1031): foreign calls and display.
