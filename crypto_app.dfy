/** The decision logic of the crypto trading dashboard's `CryptoApp`: the
    profit/loss engine, the rate-limit-aware retry policy of its HTTP helper,
    the language-to-currency default, the instrument selection and the rules
    that decide which data slots a poll cycle overwrites. Rendering, threads,
    sockets and real HTTP are outside the model. */
module CryptoApp {

  datatype Option<+T> = None | Some(value: T)

  // ---------------------------------------------------------------------------
  // Profit / loss engine
  // ---------------------------------------------------------------------------

  /** The status label shown next to the profit: the empty label when no
      purchase price is set, otherwise one of the three outcomes. */
  datatype Status = Unset | Profit | StopLossTriggered | Loss

  /** What the dashboard derives from a price: the signed profit and the status. */
  datatype Assessment = Assessment(profit: real, status: Status)

  /** Profit of `investment` spent at `purchase` per coin, valued at `current`.
      No purchase price (0) means no position and no profit. */
  function CalculateProfit(current: real, investment: real, purchase: real): (profit: real)
    ensures purchase == 0.0 ==> profit == 0.0
    ensures purchase != 0.0 ==> profit * purchase == investment * (current - purchase)
  {
    if purchase == 0.0 then 0.0
    else
      var cryptoAmount := investment / purchase;
      var currentValue := cryptoAmount * current;
      assert cryptoAmount * purchase == investment;
      currentValue - investment
  }

  /** The status decision: the first matching branch wins, so a price at or
      above the purchase price is a Profit even when it is also at or below
      the stop price. */
  function ProfitStatus(current: real, purchase: real, stop: real): (s: Status)
    ensures s == Unset <==> purchase == 0.0
  {
    if purchase == 0.0 then Unset
    else if current >= purchase then Profit
    else if current <= stop && stop > 0.0 then StopLossTriggered
    else Loss
  }

  /** Profit and status for one price, as the dashboard shows them together. */
  function Evaluate(current: real, investment: real, purchase: real, stop: real): (a: Assessment)
    ensures a.status == Unset ==> a.profit == 0.0
  {
    Assessment(CalculateProfit(current, investment, purchase), ProfitStatus(current, purchase, stop))
  }

  /** With no purchase price nothing is shown, whatever the other inputs. */
  lemma UnsetWithoutPurchase(current: real, investment: real, stop: real)
    ensures Evaluate(current, investment, 0.0, stop) == Assessment(0.0, Unset)
  {
  }

  /** Selling at the purchase price breaks even. */
  lemma BreakEvenAtPurchasePrice(investment: real, purchase: real)
    ensures CalculateProfit(purchase, investment, purchase) == 0.0
  {
    if purchase != 0.0 {
      var p := CalculateProfit(purchase, investment, purchase);
      assert p * purchase == 0.0;
    }
  }

  /** The Profit branch is tested before the stop-loss branch: at or above the
      purchase price the status is Profit for every stop price, including a
      stop price set above the purchase price. */
  lemma ProfitTakesPrecedence(current: real, purchase: real, stop: real)
    requires purchase != 0.0 && current >= purchase
    ensures ProfitStatus(current, purchase, stop) == Profit
  {
  }

  /** Below the purchase price the stop-loss fires exactly when a positive stop
      price has been reached, and the status is Loss otherwise. */
  lemma StopLossExactly(current: real, purchase: real, stop: real)
    requires purchase != 0.0 && current < purchase
    ensures ProfitStatus(current, purchase, stop) == StopLossTriggered <==> (stop > 0.0 && current <= stop)
    ensures ProfitStatus(current, purchase, stop) == Loss <==> !(stop > 0.0 && current <= stop)
  {
  }

  /** A stop price of 0 (the default) or below never triggers. */
  lemma NonPositiveStopNeverTriggers(current: real, purchase: real, stop: real)
    requires stop <= 0.0
    ensures ProfitStatus(current, purchase, stop) != StopLossTriggered
  {
  }

  /** For a real position (positive investment and purchase price) the status
      agrees with the sign of the profit: Profit exactly when the profit is not
      negative, and a loss of money under both Loss and StopLossTriggered. */
  lemma StatusAgreesWithProfitSign(current: real, investment: real, purchase: real, stop: real)
    requires investment > 0.0 && purchase > 0.0
    ensures var a := Evaluate(current, investment, purchase, stop);
      (a.status == Profit <==> a.profit >= 0.0) &&
      (a.status in {Loss, StopLossTriggered} <==> a.profit < 0.0)
  {
    var p := CalculateProfit(current, investment, purchase);
    assert p * purchase == (current - purchase) * investment;
    SignOfProduct(p, purchase);
    SignOfProduct(current - purchase, investment);
  }

  /** For a real position the profit never falls when the price rises. */
  lemma ProfitMonotoneInPrice(c1: real, c2: real, investment: real, purchase: real)
    requires investment > 0.0 && purchase > 0.0 && c1 <= c2
    ensures CalculateProfit(c1, investment, purchase) <= CalculateProfit(c2, investment, purchase)
  {
    var p1 := CalculateProfit(c1, investment, purchase);
    var p2 := CalculateProfit(c2, investment, purchase);
    assert (p2 - p1) * purchase == (c2 - c1) * investment;
    SignOfProduct(p2 - p1, purchase);
    SignOfProduct(c2 - c1, investment);
  }

  /** Multiplying by a positive factor keeps the sign. */
  lemma SignOfProduct(x: real, y: real)
    requires y > 0.0
    ensures x * y >= 0.0 <==> x >= 0.0
  {
  }

  /** 1000 invested at 20000, now 25000: a profit of 250. */
  lemma ScenarioProfit()
    ensures Evaluate(25000.0, 1000.0, 20000.0, 0.0) == Assessment(250.0, Profit)
  {
  }

  /** 1000 invested at 20000 with a stop at 18000, now 17000: a loss of 150
      and the stop-loss has fired. */
  lemma ScenarioStopLoss()
    ensures Evaluate(17000.0, 1000.0, 20000.0, 18000.0) == Assessment(-150.0, StopLossTriggered)
  {
  }

  // ---------------------------------------------------------------------------
  // Retry / backoff policy of the HTTP helper
  // ---------------------------------------------------------------------------

  const MaxRetries: nat := 3
  const InitialWait: nat := 5
  const TooManyRequests: int := 429

  /** What one request produces: a reply with a status code and, when the
      body parses as JSON, its payload; or a failure before any reply
      (timeout, DNS, refused connection). */
  datatype Response<P> = Reply(code: int, json: Option<P>) | TransportFail

  /** Status codes for which raising for status throws an HTTP error. */
  predicate RaisesHttpError(code: int) {
    400 <= code < 600
  }

  predicate RateLimited<P>(r: Response<P>) {
    r.Reply? && r.code == TooManyRequests
  }

  /** What a request that is not rate-limited returns: nothing after a
      transport failure, an HTTP error status or a body that is not JSON, and
      the parsed body otherwise. */
  function Deliver<P>(r: Response<P>): (result: Option<P>)
    ensures result.Some? <==> r.Reply? && !RaisesHttpError(r.code) && r.json.Some?
    ensures result.Some? ==> result == r.json
  {
    match r
    case TransportFail => None
    case Reply(code, json) => if RaisesHttpError(code) then None else json
  }

  function Pow2(n: nat): nat {
    if n == 0 then 1 else 2 * Pow2(n - 1)
  }

  /** The waits taken by the first `n` rate-limited attempts: the wait starts
      at 5 and doubles after each sleep. */
  function Backoff(n: nat): (waits: seq<nat>)
    ensures |waits| == n
    ensures forall i :: 0 <= i < n ==> waits[i] == InitialWait * Pow2(i)
  {
    if n == 0 then [] else Backoff(n - 1) + [InitialWait * Pow2(n - 1)]
  }

  /** The first index at or after `from` whose element satisfies `p`, or |s|. */
  function FirstMatch<T>(s: seq<T>, p: T -> bool, from: nat): (k: nat)
    requires from <= |s|
    ensures from <= k <= |s|
    ensures forall j :: from <= j < k ==> !p(s[j])
    ensures k < |s| ==> p(s[k])
    decreases |s| - from
  {
    if from == |s| then from
    else if p(s[from]) then from
    else FirstMatch(s, p, from + 1)
  }

  /** The outcome of one call of the helper: the payload returned (if any),
      the waits it slept and how many requests it issued. */
  datatype FetchResult<P> = FetchResult(result: Option<P>, sleeps: seq<nat>, requests: nat)

  /** The attempt that ends the call: the first of the allowed attempts that
      is not rate-limited, or MaxRetries when all of them were. */
  function DecisiveAttempt<P>(rs: seq<Response<P>>): (k: nat)
    requires |rs| >= MaxRetries
    ensures k <= MaxRetries
    ensures forall j :: 0 <= j < k ==> RateLimited(rs[j])
    ensures k < MaxRetries ==> !RateLimited(rs[k])
  {
    FirstMatch(rs[..MaxRetries], (r: Response<P>) => !RateLimited(r), 0)
  }

  /** Specification of the helper over the responses the server would give to
      successive attempts. */
  function Fetch<P>(rs: seq<Response<P>>): (f: FetchResult<P>)
    requires |rs| >= MaxRetries
    ensures 1 <= f.requests <= MaxRetries
    ensures f.sleeps == Backoff(|f.sleeps|)
    ensures |f.sleeps| == f.requests || |f.sleeps| == f.requests - 1
    ensures forall j :: 0 <= j < |f.sleeps| ==> RateLimited(rs[j])
    ensures f.result.Some? ==> f.result == Deliver(rs[f.requests - 1])
  {
    var k := DecisiveAttempt(rs);
    if k == MaxRetries then FetchResult(None, Backoff(MaxRetries), MaxRetries)
    else FetchResult(Deliver(rs[k]), Backoff(k), k + 1)
  }

  /** The helper: up to three attempts; a 429 sleeps the current wait, doubles
      it and tries again; any other outcome ends the call at once. `rs[i]` is
      what the server answers to attempt `i`. */
  method MakeRequest<P>(rs: seq<Response<P>>) returns (result: Option<P>, sleeps: seq<nat>, requests: nat)
    requires |rs| >= MaxRetries
    ensures FetchResult(result, sleeps, requests) == Fetch(rs)
  {
    var waitTime: nat := InitialWait;
    sleeps, requests := [], 0;
    var attempt: nat := 0;
    while attempt < MaxRetries
      invariant attempt <= MaxRetries
      invariant requests == attempt
      invariant waitTime == InitialWait * Pow2(attempt)
      invariant sleeps == Backoff(attempt)
      invariant forall j :: 0 <= j < attempt ==> RateLimited(rs[j])
    {
      var response := rs[attempt];
      requests := requests + 1;
      match response {
        case TransportFail =>
          return None, sleeps, requests;
        case Reply(code, json) =>
          if code == TooManyRequests {
            sleeps := sleeps + [waitTime];
            waitTime := waitTime * 2;
            attempt := attempt + 1;
            continue;
          }
          if RaisesHttpError(code) {
            return None, sleeps, requests;
          }
          return json, sleeps, requests;
      }
    }
    return None, sleeps, requests;
  }

  /** The waits are 5, 10 and 20: every call's sleeps are a prefix of these. */
  lemma BackoffSchedule(n: nat)
    requires n <= MaxRetries
    ensures Backoff(n) <= [5, 10, 20]
  {
    assert Backoff(3) == [5, 10, 20] by {
      assert Pow2(1) == 2 && Pow2(2) == 4;
    }
    if n < 3 {
      assert Backoff(3)[..n] == Backoff(n);
    }
  }

  /** Three 429s in a row: three requests, sleeps of 5, 10 and 20, no payload. */
  lemma RateLimitExhausted<P>(rs: seq<Response<P>>)
    requires |rs| >= MaxRetries
    requires forall j :: 0 <= j < MaxRetries ==> RateLimited(rs[j])
    ensures Fetch(rs) == FetchResult(None, [5, 10, 20], MaxRetries)
  {
    BackoffSchedule(MaxRetries);
  }

  /** A transport failure, an HTTP error other than 429, or a good reply
      whose body does not parse ends the call on that attempt with no payload
      and no further request. */
  lemma FailsFast<P>(rs: seq<Response<P>>, k: nat)
    requires |rs| >= MaxRetries && k < MaxRetries
    requires forall j :: 0 <= j < k ==> RateLimited(rs[j])
    requires rs[k].TransportFail? ||
      (rs[k].code != TooManyRequests && (RaisesHttpError(rs[k].code) || rs[k].json.None?))
    ensures Fetch(rs) == FetchResult(None, Backoff(k), k + 1)
  {
  }

  /** A successful reply returns its parsed payload on that attempt. */
  lemma ReturnsPayload<P>(rs: seq<Response<P>>, k: nat, code: int, payload: P)
    requires |rs| >= MaxRetries && k < MaxRetries
    requires forall j :: 0 <= j < k ==> RateLimited(rs[j])
    requires rs[k] == Reply(code, Some(payload)) && !RaisesHttpError(code)
    ensures Fetch(rs) == FetchResult(Some(payload), Backoff(k), k + 1)
  {
  }

  function TotalWait(sleeps: seq<nat>): nat {
    if sleeps == [] then 0 else sleeps[0] + TotalWait(sleeps[1..])
  }

  /** Two 429s and then a good reply: the payload arrives after waiting 5 and
      10, 15 time units in all. */
  lemma ScenarioRetryThenSuccess<P>(payload: P, rest: seq<Response<P>>)
    ensures var f := Fetch([Reply(429, None), Reply(429, None), Reply(200, Some(payload))] + rest);
      f.result == Some(payload) && f.sleeps == [5, 10] && TotalWait(f.sleeps) == 15
  {
    var rs := [Reply(429, None), Reply(429, None), Reply(200, Some(payload))] + rest;
    ReturnsPayload(rs, 2, 200, payload);
    assert Backoff(2) == [5, 10] by {
      assert Pow2(1) == 2;
    }
    assert TotalWait([5, 10]) == 15 by {
      assert [5, 10][1..] == [10];
      assert [10][1..] == [];
    }
  }

  /** No call of the helper sleeps longer than 5 + 10 + 20 in all. */
  lemma TotalWaitBounded<P>(rs: seq<Response<P>>)
    requires |rs| >= MaxRetries
    ensures TotalWait(Fetch(rs).sleeps) <= 35
  {
    var s := Fetch(rs).sleeps;
    BackoffSchedule(|s|);
    assert s == [5, 10, 20][..|s|];
    assert [5, 10, 20][1..] == [10, 20] && [10, 20][1..] == [20] && [20][1..] == [];
    if |s| == 3 {
      assert s == [5, 10, 20];
      assert TotalWait(s) == 5 + TotalWait([10, 20]) == 15 + TotalWait([20]);
    } else if |s| == 2 {
      assert s == [5, 10] && s[1..] == [10];
      assert TotalWait(s) == 5 + TotalWait([10]);
    } else if |s| == 1 {
      assert s == [5];
    }
  }

  // ---------------------------------------------------------------------------
  // Selection tables
  // ---------------------------------------------------------------------------

  /** A tracked coin: the market-data id and the ticker symbol. */
  datatype Instrument = Instrument(id: string, symbol: string)

  const Cryptocurrencies: seq<Instrument> := [
    Instrument("bitcoin", "BTC"),
    Instrument("ethereum", "ETH"),
    Instrument("solana", "SOL"),
    Instrument("cardano", "ADA"),
    Instrument("ripple", "XRP")
  ]

  /** Display name of each language and its code, in menu order. */
  const Languages: seq<(string, string)> := [
    ("\U{1F1EC}\U{1F1E7} English", "en"),
    ("\U{1F1F9}\U{1F1F7} Türkçe", "tr"),
    ("\U{1F1EB}\U{1F1F7} Français", "fr"),
    ("\U{1F1E9}\U{1F1EA} Deutsch", "de"),
    ("\U{1F1EA}\U{1F1F8} Español", "es"),
    ("\U{1F1F7}\U{1F1FA} Русский", "ru")
  ]

  /** Each quote currency and the language codes it is the default for, in
      table order. */
  const Currencies: seq<(string, seq<string>)> := [
    ("USD", ["en", "es"]),
    ("TRY", ["tr"]),
    ("EUR", ["fr", "de"]),
    ("RUB", ["ru"])
  ]

  const FallbackCurrency: string := "USD"

  /** The name is one of the language menu's entries. */
  predicate KnownLanguage(name: string) {
    exists i :: 0 <= i < |Languages| && Languages[i].0 == name
  }

  /** The code of a language's display name, if the name is in the table. */
  function LanguageCode(name: string): (code: Option<string>)
    ensures code.Some? <==> KnownLanguage(name)
    ensures code.Some? ==> (name, code.value) in Languages
  {
    var k := FirstMatch(Languages, (l: (string, string)) => l.0 == name, 0);
    if k < |Languages| then Some(Languages[k].1) else None
  }

  /** The default currency for a language code: the first currency in
      `table` order whose language list holds the code, or USD when none does. */
  function DefaultCurrencyIn(table: seq<(string, seq<string>)>, code: string): (c: string)
    ensures (forall i :: 0 <= i < |table| ==> code !in table[i].1) ==> c == FallbackCurrency
    ensures forall i :: 0 <= i < |table| && code in table[i].1 ==>
      exists j :: 0 <= j <= i && c == table[j].0 && code in table[j].1
  {
    var k := FirstMatch(table, (e: (string, seq<string>)) => code in e.1, 0);
    if k < |table| then table[k].0 else FallbackCurrency
  }

  /** The search the dashboard runs: the table in order, stopping at the
      first list that holds the code, USD when the search runs out. */
  method FindDefaultCurrency(table: seq<(string, seq<string>)>, code: string) returns (currency: string)
    ensures currency == DefaultCurrencyIn(table, code)
  {
    ghost var k := FirstMatch(table, (e: (string, seq<string>)) => code in e.1, 0);
    var i := 0;
    while i < |table|
      invariant i <= k
      invariant forall j :: 0 <= j < i ==> code !in table[j].1
    {
      if code in table[i].1 {
        assert k == i;
        return table[i].0;
      }
      i := i + 1;
    }
    assert k == |table|;
    return FallbackCurrency;
  }

  /** No language code is listed under two currencies. */
  lemma CurrencyListsDisjoint(i: nat, j: nat, code: string)
    requires i < |Currencies| && j < |Currencies|
    requires code in Currencies[i].1 && code in Currencies[j].1
    ensures i == j
  {
  }

  /** With the shown tables a language code's default currency is the one
      currency that lists it. */
  lemma DefaultCurrencyIsTheListingOne(i: nat, code: string)
    requires i < |Currencies| && code in Currencies[i].1
    ensures DefaultCurrencyIn(Currencies, code) == Currencies[i].0
  {
    var j :| 0 <= j <= i && DefaultCurrencyIn(Currencies, code) == Currencies[j].0 && code in Currencies[j].1;
    CurrencyListsDisjoint(i, j, code);
  }

  /** Every language of the menu is listed under exactly one currency, so
      no selectable language falls back to USD by default. */
  lemma EveryLanguageHasACurrency(name: string, code: string)
    requires (name, code) in Languages
    ensures exists i :: 0 <= i < |Currencies| && code in Currencies[i].1
  {
    if code == "en" || code == "es" {
      assert code in Currencies[0].1;
    } else if code == "tr" {
      assert code in Currencies[1].1;
    } else if code == "fr" || code == "de" {
      assert code in Currencies[2].1;
    } else {
      assert code in Currencies[3].1;
    }
  }

  /** The defaults for the six menu languages. */
  lemma DefaultCurrencies()
    ensures DefaultCurrencyIn(Currencies, "en") == "USD" && DefaultCurrencyIn(Currencies, "es") == "USD"
    ensures DefaultCurrencyIn(Currencies, "tr") == "TRY"
    ensures DefaultCurrencyIn(Currencies, "fr") == "EUR" && DefaultCurrencyIn(Currencies, "de") == "EUR"
    ensures DefaultCurrencyIn(Currencies, "ru") == "RUB"
  {
    DefaultCurrencyIsTheListingOne(0, "en");
    DefaultCurrencyIsTheListingOne(0, "es");
    DefaultCurrencyIsTheListingOne(1, "tr");
    DefaultCurrencyIsTheListingOne(2, "fr");
    DefaultCurrencyIsTheListingOne(2, "de");
    DefaultCurrencyIsTheListingOne(3, "ru");
  }

  /** Tickers are unique in the table, so a ticker selects exactly one coin. */
  lemma SymbolsUnique(i: nat, j: nat)
    requires i < |Cryptocurrencies| && j < |Cryptocurrencies|
    requires Cryptocurrencies[i].symbol == Cryptocurrencies[j].symbol
    ensures i == j
  {
  }

  // ---------------------------------------------------------------------------
  // Dashboard state: selection and the published data slots
  // ---------------------------------------------------------------------------

  /** One point of the price history: a timestamp and a price. */
  datatype Sample = Sample(timestamp: int, price: real)

  /** The market figures shown for the selected coin. */
  datatype MarketView = MarketView(price: real, change24h: real, marketCap: real, volume: real, profit: real)

  /** A value of the market record as the JSON reply gives it: a number,
      null, or anything else (text, a list, an object). */
  datatype Field = Num(value: real) | Null | NonNumeric

  /** A figure of the market record for display: 0 when the key is missing,
      the number when it is one, and nothing when the value is present but
      cannot be formatted as a number (null or non-numeric). */
  function FigureOr0(record: map<string, Field>, key: string): (v: Option<real>)
    ensures key !in record ==> v == Some(0.0)
    ensures key in record ==> (v.Some? <==> record[key].Num?)
    ensures key in record && record[key].Num? ==> v == Some(record[key].value)
  {
    if key !in record then Some(0.0)
    else match record[key]
      case Num(r) => Some(r)
      case _ => None
  }

  /** What a market-data refresh does: nothing while no stats exist, the
      figures when they can all be formatted, and a formatting error (which
      aborts the refresh) otherwise. */
  datatype MarketUpdate = NoStats | Shown(view: MarketView) | FormatError

  class Dashboard {
    var selectedId: string
    var selectedSymbol: string
    var selectedLanguage: string
    var selectedCurrency: string
    /** The position the user entered, as numbers (0 where the entry does not parse). */
    var investment: real
    var purchasePrice: real
    var stopPrice: real
    /** The latest market record; empty until fetched. */
    var cryptoData: map<string, Field>
    var priceHistory: seq<Sample>
    var newsItems: seq<string>
    var commentsItems: seq<string>
    var profitStatus: Status

    /** The selection comes from the menus, and market stats and price
        history are present together or absent together. */
    ghost predicate Valid()
      reads this
    {
      Instrument(selectedId, selectedSymbol) in Cryptocurrencies &&
      KnownLanguage(selectedLanguage) &&
      (|cryptoData| == 0 <==> |priceHistory| == 0)
    }

    /** Start-up state: Bitcoin, English, USD, 1000 invested, no purchase or
        stop price, nothing fetched yet. */
    constructor ()
      ensures Valid()
      ensures selectedId == "bitcoin" && selectedSymbol == "BTC"
      ensures selectedLanguage == Languages[0].0 && selectedCurrency == "USD"
      ensures investment == 1000.0 && purchasePrice == 0.0 && stopPrice == 0.0
      ensures cryptoData == map[] && priceHistory == [] && newsItems == [] && commentsItems == []
      ensures profitStatus == Unset
    {
      selectedId, selectedSymbol := Cryptocurrencies[0].id, Cryptocurrencies[0].symbol;
      selectedLanguage, selectedCurrency := Languages[0].0, "USD";
      investment, purchasePrice, stopPrice := 1000.0, 0.0, 0.0;
      cryptoData, priceHistory, newsItems, commentsItems := map[], [], [], [];
      profitStatus := Unset;
      new;
      assert LanguageCode(selectedLanguage) == Some("en");
    }

    /** Sets the currency to the default of the selected language. */
    method SetDefaultCurrency()
      requires Valid()
      modifies this`selectedCurrency
      ensures Valid()
      ensures selectedCurrency == DefaultCurrencyIn(Currencies, LanguageCode(selectedLanguage).value)
    {
      var langCode := LanguageCode(selectedLanguage).value;
      selectedCurrency := FindDefaultCurrency(Currencies, langCode);
    }

    /** A new language from the menu; the currency follows it. */
    method OnLanguageChange(name: string)
      requires Valid()
      requires KnownLanguage(name)
      modifies this`selectedLanguage, this`selectedCurrency
      ensures Valid()
      ensures selectedLanguage == name
      ensures selectedCurrency == DefaultCurrencyIn(Currencies, LanguageCode(name).value)
    {
      selectedLanguage := name;
      SetDefaultCurrency();
    }

    /** A new quote currency from the menu. */
    method OnCurrencyChange(currency: string)
      requires Valid()
      modifies this`selectedCurrency
      ensures Valid()
      ensures selectedCurrency == currency
    {
      selectedCurrency := currency;
    }

    /** A new ticker from the menu: select the coin with that ticker (an
        unknown ticker keeps the old selection) and empty every data slot. */
    method OnCryptoChange(symbol: string)
      requires Valid()
      modifies this`selectedId, this`selectedSymbol, this`cryptoData, this`priceHistory,
        this`newsItems, this`commentsItems
      ensures Valid()
      ensures (exists i :: 0 <= i < |Cryptocurrencies| && Cryptocurrencies[i].symbol == symbol) ==>
        selectedSymbol == symbol
      ensures (forall i :: 0 <= i < |Cryptocurrencies| ==> Cryptocurrencies[i].symbol != symbol) ==>
        selectedId == old(selectedId) && selectedSymbol == old(selectedSymbol)
      ensures cryptoData == map[] && priceHistory == [] && newsItems == [] && commentsItems == []
    {
      var i := 0;
      while i < |Cryptocurrencies|
        invariant i <= |Cryptocurrencies|
        invariant Valid()
        invariant forall j :: 0 <= j < i ==> Cryptocurrencies[j].symbol != symbol
        invariant selectedId == old(selectedId) && selectedSymbol == old(selectedSymbol)
      {
        if Cryptocurrencies[i].symbol == symbol {
          selectedId := Cryptocurrencies[i].id;
          selectedSymbol := Cryptocurrencies[i].symbol;
          assert Cryptocurrencies[i] == Instrument(selectedId, selectedSymbol);
          break;
        }
        i := i + 1;
      }
      cryptoData := map[];
      priceHistory := [];
      newsItems := [];
      commentsItems := [];
    }

    /** Publishes market stats and price history, as one unit; it is only
        scheduled when both are non-empty. */
    method UpdateCryptoData(stats: map<string, Field>, history: seq<Sample>)
      requires Valid() && |stats| > 0 && |history| > 0
      modifies this`cryptoData, this`priceHistory
      ensures Valid()
      ensures cryptoData == stats && priceHistory == history
    {
      cryptoData := stats;
      priceHistory := history;
    }

    /** Publishes the news headlines and the commentary titles. */
    method UpdateNewsComments(news: seq<string>, comments: seq<string>)
      requires Valid()
      modifies this`newsItems, this`commentsItems
      ensures Valid()
      ensures newsItems == news && commentsItems == comments
    {
      newsItems := news;
      commentsItems := comments;
    }

    /** One poll cycle, given what the fetch helpers returned in order: the
        market record (empty when the fetch failed), then price history, news
        and commentary, each `None` when its helper raised, which ends the
        worker at that point. A failed fetch that does not raise gives an
        empty list. Stats and history replace their slots only when both are
        non-empty, and then together; news and comments replace theirs
        whenever the cycle gets that far. */
    method PublishCycle(stats: map<string, Field>, history: Option<seq<Sample>>,
                        news: Option<seq<string>>, comments: Option<seq<string>>)
      requires Valid()
      modifies this`cryptoData, this`priceHistory, this`newsItems, this`commentsItems
      ensures Valid()
      ensures if history.Some? && |stats| > 0 && |history.value| > 0
        then cryptoData == stats && priceHistory == history.value
        else cryptoData == old(cryptoData) && priceHistory == old(priceHistory)
      ensures if history.Some? && news.Some? && comments.Some?
        then newsItems == news.value && commentsItems == comments.value
        else newsItems == old(newsItems) && commentsItems == old(commentsItems)
    {
      if history.None? {
        return;
      }
      if |stats| > 0 && |history.value| > 0 {
        UpdateCryptoData(stats, history.value);
      }
      if news.None? || comments.None? {
        return;
      }
      UpdateNewsComments(news.value, comments.value);
    }

    /** Refreshes the figures for the latest streamed price. Until market
        stats exist it does nothing. Otherwise it shows the three figures (0
        for a missing one) with the profit and records the status, unless a
        figure is null or not a number: formatting it then raises, before
        anything is shown and before the status is set. */
    method UpdateMarketData(price: real) returns (update: MarketUpdate)
      requires Valid()
      modifies this`profitStatus
      ensures Valid()
      ensures |cryptoData| == 0 ==> update == NoStats && profitStatus == old(profitStatus)
      ensures |cryptoData| > 0 ==>
        var change := FigureOr0(cryptoData, "price_change_percentage_24h");
        var marketCap := FigureOr0(cryptoData, "market_cap");
        var volume := FigureOr0(cryptoData, "total_volume");
        if change.Some? && marketCap.Some? && volume.Some? then
          update == Shown(MarketView(price, change.value, marketCap.value, volume.value,
                                     Evaluate(price, investment, purchasePrice, stopPrice).profit)) &&
          profitStatus == Evaluate(price, investment, purchasePrice, stopPrice).status
        else
          update == FormatError && profitStatus == old(profitStatus)
      ensures |cryptoData| > 0 ==> |priceHistory| > 0
    {
      if |cryptoData| == 0 {
        return NoStats;
      }
      var change := FigureOr0(cryptoData, "price_change_percentage_24h");
      var marketCap := FigureOr0(cryptoData, "market_cap");
      var volume := FigureOr0(cryptoData, "total_volume");
      if change.None? || marketCap.None? || volume.None? {
        return FormatError;
      }
      var profit := CalculateProfit(price, investment, purchasePrice);
      update := Shown(MarketView(price, change.value, marketCap.value, volume.value, profit));
      profitStatus := ProfitStatus(price, purchasePrice, stopPrice);
    }
  }
}
