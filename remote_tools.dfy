/** The tools of project/src/utils/tools.ts that call a data provider:
    `cryptoPriceTool`, `newsTool` and `currencyConversionTool`. The HTTP traffic
    itself is the parameter `net`; configuration keys are `Option<string>` inputs. */
module RemoteTools {
  import opened Types
  import opened Js

  /** The requests the tools send, one variant per provider endpoint. */
  datatype Request =
    | CoinMarkets(ids: string)
    | NewsApi(url: string, params: seq<(string, string)>)
    | AlphaVantage(series: string, symbol: string, apiKey: string)
    | ExchangePair(apiKey: string, from: string, to: string, amount: real)

  /** What `await axios.get(...)` yields: the parsed body, or a rejection. */
  datatype Reply = Response(data: Value) | NetworkError

  type Network = Request -> Reply

  /** The single messages each tool rethrows, whatever went wrong inside it. */
  const CryptoFailure := "Failed to fetch cryptocurrency data"
  const NewsFailure := "Failed to fetch news data"
  const CurrencyFailure := "Failed to convert currency"

  // ---------------------------------------------------------- cryptoPriceTool

  /** `data && data.length > 0`: a non-empty array or string, or an object whose own
      `length` field is a positive number. */
  predicate NonEmptyIndexable(v: Value) {
    || (v.Arr? && |v.items| > 0)
    || (v.Str? && |v.s| > 0)
    || (v.Obj? && "length" in v.fields && v.fields["length"].Num? && v.fields["length"].n > 0.0)
  }

  /** `data[0]` on a value `NonEmptyIndexable` admits. */
  function FirstEntry(v: Value): Value
    requires NonEmptyIndexable(v)
  {
    match v
    case Arr(items) => items[0]
    case Str(s) => Str([s[0]])
    case Obj(_) => Member(v, "0").value
  }

  /** `cryptoPriceTool({coin})`: asks for the lower-cased coin id; a rejected request
      is rethrown as the one crypto message; otherwise the first entry of a non-empty
      reply, or `null` when the provider sent nothing. */
  function CryptoPriceTool(coin: string, net: Network): (r: Outcome<Value>)
    ensures r.Failed? <==> net(CoinMarkets(Lower(coin))).NetworkError?
    ensures r.Failed? ==> r.thrown == ErrorObj(CryptoFailure)
    ensures r.Done? && net(CoinMarkets(Lower(coin))).data.Arr? && |net(CoinMarkets(Lower(coin))).data.items| > 0 ==>
      r.value == net(CoinMarkets(Lower(coin))).data.items[0]
    ensures r.Done? && net(CoinMarkets(Lower(coin))).data.Obj? && NonEmptyIndexable(net(CoinMarkets(Lower(coin))).data) ==>
      r.value == Member(net(CoinMarkets(Lower(coin))).data, "0").value
    ensures r.Done? && !NonEmptyIndexable(net(CoinMarkets(Lower(coin))).data) ==> r.value == Null
  {
    match net(CoinMarkets(Lower(coin)))
    case NetworkError => Failed(ErrorObj(CryptoFailure))
    case Response(data) =>
      if NonEmptyIndexable(data) then
        Done(FirstEntry(data))
      else
        Done(Null)
  }

  /** An array-like object reply: `{"length": 1, "0": "x"}` yields its entry "x". */
  lemma CryptoArrayLikeReply(coin: string, net: Network)
    requires net(CoinMarkets(Lower(coin))) == Response(Obj(map["length" := Num(1.0), "0" := Str("x")]))
    ensures CryptoPriceTool(coin, net) == Done(Str("x"))
  {
  }

  /** Coin ids that differ only in ASCII case give the same answer. */
  lemma CryptoIgnoresCase(a: string, b: string, net: Network)
    requires Lower(a) == Lower(b)
    ensures CryptoPriceTool(a, net) == CryptoPriceTool(b, net)
  {
  }

  // ---------------------------------------------------------------- newsTool

  const NewsBase := "https://newsapi.org/v2/"

  /** `URLSearchParams.get(key)`: the first value stored under `key`. */
  function SearchParam(params: seq<(string, string)>, key: string): Option<string> {
    if params == [] then None
    else if params[0].0 == key then Some(params[0].1)
    else SearchParam(params[1..], key)
  }

  lemma {:induction false} SearchParamAbsent(params: seq<(string, string)>, key: string)
    requires forall i :: 0 <= i < |params| ==> params[i].0 != key
    ensures SearchParam(params, key) == None
  {
    if params != [] {
      SearchParamAbsent(params[1..], key);
    }
  }

  /** Looking a key up in appended parameters finds the earlier list's value first. */
  lemma {:induction false} SearchParamAppend(a: seq<(string, string)>, b: seq<(string, string)>, key: string)
    ensures SearchParam(a + b, key) == if SearchParam(a, key).Some? then SearchParam(a, key) else SearchParam(b, key)
  {
    if a != [] {
      assert (a + b)[1..] == a[1..] + b;
      SearchParamAppend(a[1..], b, key);
    } else {
      assert a + b == b;
    }
  }

  /** The request `newsTool` sends: a non-empty query always selects `everything`
      with `q`, even when a category is given; otherwise a non-empty category selects
      `top-headlines` with that category for the US; otherwise plain US
      `top-headlines`. The key, `pageSize=5` and `language=en` always come first. */
  predicate NewsRequestFor(req: Request, apiKey: string, query: Option<string>, category: Option<string>) {
    && req.NewsApi?
    && req.url == NewsBase + (if Present(query) then "everything" else "top-headlines")
    && |req.params| >= 3
    && req.params[..3] == [("apiKey", apiKey), ("pageSize", "5"), ("language", "en")]
    && SearchParam(req.params, "pageSize") == Some("5")
    && SearchParam(req.params, "q") == (if Present(query) then query else None)
    && SearchParam(req.params, "category") == (if !Present(query) && Present(category) then category else None)
    && SearchParam(req.params, "country") == (if Present(query) then None else Some("us"))
    && |req.params| == (if !Present(query) && Present(category) then 5 else 4)
  }

  /** The request-shaping part of `newsTool`: `url` is extended and parameters are
      appended as the branches on `query` and `category` decide. */
  method BuildNewsRequest(apiKey: string, query: Option<string>, category: Option<string>)
    returns (req: Request)
    ensures NewsRequestFor(req, apiKey, query, category)
  {
    var url := NewsBase;
    var params := [("apiKey", apiKey), ("pageSize", "5"), ("language", "en")];
    ghost var base := params;
    if Present(query) {
      url := url + "everything";
      params := params + [("q", query.value)];
    } else if Present(category) {
      url := url + "top-headlines";
      params := params + [("category", category.value)];
      params := params + [("country", "us")];
    } else {
      url := url + "top-headlines";
      params := params + [("country", "us")];
    }
    req := NewsApi(url, params);
    assert params == base + params[3..];
    assert base[1..][0] == ("pageSize", "5");
    assert SearchParam(base, "pageSize") == SearchParam(base[1..], "pageSize") == Some("5");
    SearchParamAppend(base, params[3..], "pageSize");
    SearchParamAbsent(base, "q");
    SearchParamAppend(base, params[3..], "q");
    SearchParamAbsent(base, "category");
    SearchParamAppend(base, params[3..], "category");
    SearchParamAbsent(base, "country");
    SearchParamAppend(base, params[3..], "country");
    if !Present(query) {
      SearchParamAbsent(params[3..], "q");
    }
  }

  /** `newsTool({query, category})`. `sent` is the request handed to the network, if
      any: a missing key fails before anything is sent, and every failure is rethrown
      as the one news message. */
  method NewsTool(apiKey: Option<string>, query: Option<string>, category: Option<string>, net: Network)
    returns (r: Outcome<Value>, sent: Option<Request>)
    ensures !Present(apiKey) ==> sent == None && r == Failed(ErrorObj(NewsFailure))
    ensures Present(apiKey) ==> sent.Some? && NewsRequestFor(sent.value, apiKey.value, query, category)
    ensures r.Failed? ==> r.thrown == ErrorObj(NewsFailure)
    ensures sent.Some? ==>
      (r.Done? <==> net(sent.value).Response? && Member(net(sent.value).data, "articles").Some?)
    ensures r.Done? ==>
      && sent.Some?
      && var articles := Member(net(sent.value).data, "articles").value;
         r.value == (if Truthy(articles) then articles else Arr([]))
  {
    if !Present(apiKey) {
      return Failed(ErrorObj(NewsFailure)), None;
    }
    var req := BuildNewsRequest(apiKey.value, query, category);
    sent := Some(req);
    match net(req) {
      case NetworkError =>
        r := Failed(ErrorObj(NewsFailure));
      case Response(data) =>
        match Member(data, "articles") {
          case None =>
            r := Failed(ErrorObj(NewsFailure));
          case Some(articles) =>
            r := Done(if Truthy(articles) then articles else Arr([]));
        }
    }
  }

  // --------------------------------------------------- currencyConversionTool

  datatype CurrencyData = CurrencyData(
    amount: real, from: string, to: string, rate: Value, convertedAmount: Value, timestamp: Value)

  function PairRequest(apiKey: string, amount: real, from: string, to: string): Request {
    ExchangePair(apiKey, Upper(from), Upper(to), amount)
  }

  /** `currencyConversionTool({amount, from, to})`: the result repeats `amount`
      unchanged and the two codes upper-cased; the rate, converted amount and time
      are read from the reply; every failure is rethrown as the one currency message. */
  function CurrencyConversionTool(apiKey: Option<string>, amount: real, from: string, to: string, net: Network)
    : (r: Outcome<CurrencyData>)
    ensures !Present(apiKey) ==> r == Failed(ErrorObj(CurrencyFailure))
    ensures r.Failed? ==> r.thrown == ErrorObj(CurrencyFailure)
    ensures r.Done? ==> r.value.amount == amount && r.value.from == Upper(from) && r.value.to == Upper(to)
    ensures Present(apiKey) ==>
      var reply := net(PairRequest(apiKey.value, amount, from, to));
      (r.Done? <==> reply.Response? && !reply.data.Undefined? && !reply.data.Null?)
    ensures r.Done? ==>
      var data := net(PairRequest(apiKey.value, amount, from, to)).data;
      && Member(data, "conversion_rate") == Some(r.value.rate)
      && Member(data, "conversion_result") == Some(r.value.convertedAmount)
      && Member(data, "time_last_update_utc") == Some(r.value.timestamp)
  {
    if !Present(apiKey) then Failed(ErrorObj(CurrencyFailure))
    else
      match net(PairRequest(apiKey.value, amount, from, to))
      case NetworkError => Failed(ErrorObj(CurrencyFailure))
      case Response(data) =>
        if data.Undefined? || data.Null? then Failed(ErrorObj(CurrencyFailure))
        else Done(CurrencyData(amount, Upper(from), Upper(to),
                    Member(data, "conversion_rate").value,
                    Member(data, "conversion_result").value,
                    Member(data, "time_last_update_utc").value))
  }

  /** Passing codes that are already upper-cased changes neither the request nor
      the result: the conversion normalises its codes once and for all. */
  lemma CurrencyCodesNormalised(apiKey: Option<string>, amount: real, from: string, to: string, net: Network)
    ensures CurrencyConversionTool(apiKey, amount, Upper(from), Upper(to), net)
         == CurrencyConversionTool(apiKey, amount, from, to, net)
  {
    UpperIdempotent(from);
    UpperIdempotent(to);
  }
}
