/** `dcfValuationTool` of project/src/utils/tools.ts over exact reals: the five-year
    projection, the terminal value, the intrinsic value per share, the two buy
    prices and the recommendation cascade. */
module Dcf {
  import opened Types
  import opened Js
  import opened RemoteTools

  const DcfFailure := "Failed to calculate DCF valuation"

  const GrowthRate: real := 0.05
  const DiscountRate: real := 0.10
  const TerminalGrowth: real := 0.03
  const Years: nat := 5

  /** `Math.pow(x, n)` for a whole exponent. */
  function Pow(x: real, n: nat): (r: real)
    ensures x > 0.0 ==> r > 0.0
  {
    if n == 0 then 1.0 else x * Pow(x, n - 1)
  }

  lemma MulRearrange(a: real, b: real, c: real)
    ensures a * b * c == a * (c * b)
  {
  }

  lemma MulDivRearrange(a: real, b: real, c: real)
    requires c != 0.0
    ensures a * b / c == a * (b / c)
  {
  }

  lemma MulStrict(a: real, b: real, c: real)
    requires a < b && c > 0.0
    ensures a * c < b * c
  {
  }

  lemma MulWeak(a: real, b: real, c: real)
    requires a <= b && c > 0.0
    ensures a * c <= b * c
  {
  }

  /** Dividing by a positive number keeps a lower bound exactly when the bound,
      scaled back up, holds for the dividend. */
  lemma QuotientAtLeast(a: real, b: real, c: real)
    requires b > 0.0
    ensures a / b >= c <==> a >= c * b
  {
    var q := a / b;
    assert q * b == a;
    if q >= c {
      MulWeak(c, q, b);
    } else {
      MulStrict(q, c, b);
    }
  }

  lemma QuotientNonZero(a: real, b: real)
    requires a != 0.0 && b != 0.0
    ensures a / b != 0.0
  {
    assert a / b * b == a;
  }

  /** The flow after `n` years of 5% growth from `fcf`. */
  function Grown(fcf: real, n: nat): real {
    if n == 0 then fcf else Grown(fcf, n - 1) * (1.0 + GrowthRate)
  }

  /** Growing year by year is growing by the power of the growth factor. */
  lemma {:induction false} GrownIsPower(fcf: real, n: nat)
    ensures Grown(fcf, n) == fcf * Pow(1.0 + GrowthRate, n)
  {
    if n > 0 {
      GrownIsPower(fcf, n - 1);
      MulRearrange(fcf, Pow(1.0 + GrowthRate, n - 1), 1.0 + GrowthRate);
    }
  }

  /** The grown flow scales with the starting flow, by a positive factor. */
  lemma {:induction false} GrownScale(fcf: real, n: nat)
    ensures Grown(fcf, n) == fcf * Grown(1.0, n) && Grown(1.0, n) > 0.0
  {
    if n > 0 {
      GrownScale(fcf, n - 1);
      MulRearrange(fcf, Grown(1.0, n - 1), 1.0 + GrowthRate);
    }
  }

  /** The present value of years 1 to `n`: each year's grown flow, discounted at 10%
      a year. */
  function DiscountedFlows(fcf: real, n: nat): real {
    if n == 0 then 0.0
    else DiscountedFlows(fcf, n - 1) + Grown(fcf, n) / Pow(1.0 + DiscountRate, n)
  }

  /** The loop at the heart of the tool: for each year of the horizon (five in the
      tool), grow the flow and add its discounted value. */
  method ProjectCashFlows(fcf: real, years: nat) returns (projectedFcf: real, totalPV: real)
    ensures projectedFcf == Grown(fcf, years) == fcf * Pow(1.0 + GrowthRate, years)
    ensures totalPV == DiscountedFlows(fcf, years)
  {
    projectedFcf := fcf;
    totalPV := 0.0;
    for year := 1 to years + 1
      invariant projectedFcf == Grown(fcf, year - 1)
      invariant totalPV == DiscountedFlows(fcf, year - 1)
    {
      projectedFcf := projectedFcf * (1.0 + GrowthRate);
      totalPV := totalPV + projectedFcf / Pow(1.0 + DiscountRate, year);
    }
    GrownIsPower(fcf, years);
  }

  /** Gordon growth at 3% on the year-five flow, before discounting. */
  function TerminalValue(fcf: real): real {
    Grown(fcf, Years) * (1.0 + TerminalGrowth) / (DiscountRate - TerminalGrowth)
  }

  function EnterpriseValue(fcf: real): real {
    DiscountedFlows(fcf, Years) + TerminalValue(fcf) / Pow(1.0 + DiscountRate, Years)
  }

  lemma {:induction false} DiscountedFlowsScale(fcf: real, n: nat)
    ensures DiscountedFlows(fcf, n) == fcf * DiscountedFlows(1.0, n)
    ensures DiscountedFlows(1.0, n) >= 0.0
  {
    if n > 0 {
      DiscountedFlowsScale(fcf, n - 1);
      GrownScale(fcf, n);
      var g, d := Grown(1.0, n), Pow(1.0 + DiscountRate, n);
      MulDivRearrange(fcf, g, d);
      assert g / d > 0.0;
      var a, b := DiscountedFlows(1.0, n - 1), g / d;
      assert DiscountedFlows(1.0, n) == a + b;
      assert DiscountedFlows(fcf, n) == fcf * a + fcf * b;
      assert fcf * a + fcf * b == fcf * (a + b);
    }
  }

  /** The enterprise value is proportional to the free cash flow, with a positive
      factor: it has the sign of the free cash flow and is zero exactly when it is. */
  lemma EnterpriseValueSign(fcf: real)
    ensures EnterpriseValue(fcf) == fcf * EnterpriseValue(1.0)
    ensures EnterpriseValue(1.0) > 0.0
    ensures (EnterpriseValue(fcf) > 0.0 <==> fcf > 0.0) && (EnterpriseValue(fcf) == 0.0 <==> fcf == 0.0)
  {
    DiscountedFlowsScale(fcf, Years);
    DiscountedFlowsScale(1.0, Years);
    GrownScale(fcf, Years);
    var g, d := Grown(1.0, Years), Pow(1.0 + DiscountRate, Years);
    var k := g * (1.0 + TerminalGrowth) / (DiscountRate - TerminalGrowth) / d;
    assert TerminalValue(fcf) / d == fcf * k;
    assert TerminalValue(1.0) / d == k;
    assert k > 0.0;
    var e := EnterpriseValue(1.0);
    assert EnterpriseValue(fcf) == fcf * e;
    assert e > 0.0;
  }

  // ------------------------------------------------------ recommendation

  datatype Recommendation = StrongBuy | Buy | Sell | Hold

  /** The text the tool reports. */
  function Label(r: Recommendation): string {
    match r
    case StrongBuy => "STRONG BUY (Buffett Criteria)"
    case Buy => "BUY (Lynch Criteria)"
    case Sell => "SELL"
    case Hold => "HOLD"
  }

  /** How strongly a recommendation favours buying. */
  function Rank(r: Recommendation): nat {
    match r
    case StrongBuy => 3
    case Buy => 2
    case Hold => 1
    case Sell => 0
  }

  function SafetyMargin(price: real, intrinsic: real): real
    requires intrinsic != 0.0
  {
    (intrinsic - price) / intrinsic * 100.0
  }

  /** A 30% margin of safety. */
  function BuffettBuyPrice(intrinsic: real): real {
    intrinsic * 0.7
  }

  /** A 20% margin of safety. */
  function LynchBuyPrice(intrinsic: real): real {
    intrinsic * 0.8
  }

  /** The first of the three criteria that holds decides; HOLD when none does. */
  function RecommendationFor(price: real, intrinsic: real, margin: real, peg: real): Recommendation {
    if price <= BuffettBuyPrice(intrinsic) && margin >= 30.0 then StrongBuy
    else if price <= LynchBuyPrice(intrinsic) && peg < 1.0 then Buy
    else if price > intrinsic * 1.2 then Sell
    else Hold
  }

  /** `let recommendation = 'HOLD'`, then reassigned by the first branch that fires. */
  method Recommend(price: real, intrinsic: real, margin: real, peg: real) returns (recommendation: Recommendation)
    ensures recommendation == RecommendationFor(price, intrinsic, margin, peg)
  {
    recommendation := Hold;
    if price <= BuffettBuyPrice(intrinsic) && margin >= 30.0 {
      recommendation := StrongBuy;
    } else if price <= LynchBuyPrice(intrinsic) && peg < 1.0 {
      recommendation := Buy;
    } else if price > intrinsic * 1.2 {
      recommendation := Sell;
    }
  }

  /** Each recommendation, characterised on its own. */
  lemma RecommendationCases(price: real, intrinsic: real, margin: real, peg: real)
    ensures var r := RecommendationFor(price, intrinsic, margin, peg);
      && (r == StrongBuy <==> price <= intrinsic * 0.7 && margin >= 30.0)
      && (r == Buy <==> !(price <= intrinsic * 0.7 && margin >= 30.0) && price <= intrinsic * 0.8 && peg < 1.0)
      && (r == Sell <==> !(price <= intrinsic * 0.7 && margin >= 30.0) && !(price <= intrinsic * 0.8 && peg < 1.0)
                         && price > intrinsic * 1.2)
      && (r == Hold <==> !(price <= intrinsic * 0.7 && margin >= 30.0) && !(price <= intrinsic * 0.8 && peg < 1.0)
                         && price <= intrinsic * 1.2)
  {
  }

  /** For a positive intrinsic value the Buffett price lies below the Lynch price, and
      the price is at most the Buffett price exactly when the margin reaches 30%. */
  lemma BuffettPriceMeansMargin(price: real, intrinsic: real)
    requires intrinsic > 0.0
    ensures BuffettBuyPrice(intrinsic) <= LynchBuyPrice(intrinsic)
    ensures price <= BuffettBuyPrice(intrinsic) <==> SafetyMargin(price, intrinsic) >= 30.0
  {
    QuotientAtLeast(intrinsic - price, intrinsic, 0.3);
  }

  /** For a positive intrinsic value a lower price never gets a weaker recommendation. */
  lemma RecommendationMonotone(p1: real, p2: real, intrinsic: real, peg: real)
    requires intrinsic > 0.0 && p1 <= p2
    ensures Rank(RecommendationFor(p1, intrinsic, SafetyMargin(p1, intrinsic), peg))
         >= Rank(RecommendationFor(p2, intrinsic, SafetyMargin(p2, intrinsic), peg))
  {
    BuffettPriceMeansMargin(p1, intrinsic);
    BuffettPriceMeansMargin(p2, intrinsic);
    RecommendationCases(p1, intrinsic, SafetyMargin(p1, intrinsic), peg);
    RecommendationCases(p2, intrinsic, SafetyMargin(p2, intrinsic), peg);
  }

  /** A price 25% above a positive intrinsic value is a SELL. */
  lemma OverpricedIsSell(intrinsic: real, peg: real)
    requires intrinsic > 0.0
    ensures RecommendationFor(1.25 * intrinsic, intrinsic, SafetyMargin(1.25 * intrinsic, intrinsic), peg) == Sell
  {
    BuffettPriceMeansMargin(1.25 * intrinsic, intrinsic);
    RecommendationCases(1.25 * intrinsic, intrinsic, SafetyMargin(1.25 * intrinsic, intrinsic), peg);
  }

  // ------------------------------------------------------------- the tool

  /** The figures the tool parses out of the three payloads (parseFloat with its
      `|| 0` defaults); fcf is operating cash flow less capital expenditure. */
  datatype Figures = Figures(currentPrice: real, pe: real, marketCap: real, fcf: real)

  datatype DcfResult = DcfResult(
    ticker: string,
    intrinsicValue: real,
    currentPrice: real,
    recommendation: string,
    safetyMargin: real,
    buffett: real,
    lynch: real,
    pe: real,
    peg: real,
    fcf: real,
    growth: real)

  /** The report for these figures; None where the source divides by zero (a zero
      price, market capitalisation or enterprise value) and reports IEEE infinities
      or NaN instead. */
  predicate IsValuation(ticker: string, f: Figures, r: Option<DcfResult>) {
    if f.currentPrice == 0.0 || f.marketCap == 0.0 || EnterpriseValue(f.fcf) == 0.0 then r == None
    else
      var intrinsic := EnterpriseValue(f.fcf) / (f.marketCap / f.currentPrice);
      intrinsic != 0.0 &&
      var margin := SafetyMargin(f.currentPrice, intrinsic);
      var peg := f.pe / 5.0;
      r == Some(DcfResult(
        ticker, intrinsic, f.currentPrice, Label(RecommendationFor(f.currentPrice, intrinsic, margin, peg)),
        margin, BuffettBuyPrice(intrinsic), LynchBuyPrice(intrinsic), f.pe, peg, f.fcf, 5.0))
  }

  /** The valuation arithmetic, step by step as the source computes it. */
  method Valuate(ticker: string, f: Figures) returns (r: Option<DcfResult>)
    ensures IsValuation(ticker, f, r)
  {
    if f.currentPrice == 0.0 || f.marketCap == 0.0 {
      return None;
    }
    var sharesOutstanding := f.marketCap / f.currentPrice;
    var projectedFcf, totalPV := ProjectCashFlows(f.fcf, Years);
    var terminalFcf := projectedFcf * (1.0 + TerminalGrowth);
    var terminalValue := terminalFcf / (DiscountRate - TerminalGrowth);
    var terminalPV := terminalValue / Pow(1.0 + DiscountRate, Years);
    var enterpriseValue := totalPV + terminalPV;
    assert enterpriseValue == EnterpriseValue(f.fcf);
    if enterpriseValue == 0.0 {
      return None;
    }
    var intrinsicValue := enterpriseValue / sharesOutstanding;
    QuotientNonZero(f.marketCap, f.currentPrice);
    QuotientNonZero(enterpriseValue, sharesOutstanding);
    var estimatedGrowth := GrowthRate * 100.0;
    var peg := f.pe / estimatedGrowth;
    var safetyMargin := (intrinsicValue - f.currentPrice) / intrinsicValue * 100.0;
    var buffettBuyPrice := intrinsicValue * 0.7;
    var lynchBuyPrice := intrinsicValue * 0.8;
    var recommendation := Recommend(f.currentPrice, intrinsicValue, safetyMargin, peg);
    r := Some(DcfResult(
      ticker, intrinsicValue, f.currentPrice, Label(recommendation), safetyMargin,
      buffettBuyPrice, lynchBuyPrice, f.pe, peg, f.fcf, estimatedGrowth));
  }

  function OverviewRequest(apiKey: string, ticker: string): Request {
    AlphaVantage("OVERVIEW", ticker, apiKey)
  }

  function CashFlowRequest(apiKey: string, ticker: string): Request {
    AlphaVantage("CASH_FLOW", ticker, apiKey)
  }

  function QuoteRequest(apiKey: string, ticker: string): Request {
    AlphaVantage("GLOBAL_QUOTE", ticker, apiKey)
  }

  /** All three requests answered, the quote readable, and no payload falsy. */
  predicate DataAvailable(apiKey: string, ticker: string, net: Network) {
    && net(OverviewRequest(apiKey, ticker)).Response?
    && net(CashFlowRequest(apiKey, ticker)).Response?
    && net(QuoteRequest(apiKey, ticker)).Response?
    && Member(net(QuoteRequest(apiKey, ticker)).data, "Global Quote").Some?
    && Truthy(net(OverviewRequest(apiKey, ticker)).data)
    && Truthy(net(CashFlowRequest(apiKey, ticker)).data)
    && Truthy(Member(net(QuoteRequest(apiKey, ticker)).data, "Global Quote").value)
  }

  /** `dcfValuationTool({ticker})`: a missing key, a rejected request, an unreadable
      quote or a falsy payload all end in the one DCF message; otherwise the
      valuation of the figures read from the three payloads. */
  method DcfValuationTool(apiKey: Option<string>, ticker: string, net: Network, read: (Value, Value, Value) -> Figures)
    returns (r: Outcome<Option<DcfResult>>)
    ensures !Present(apiKey) ==> r == Failed(ErrorObj(DcfFailure))
    ensures r.Failed? ==> r.thrown == ErrorObj(DcfFailure)
    ensures Present(apiKey) ==> (r.Done? <==> DataAvailable(apiKey.value, ticker, net))
    ensures r.Done? ==>
      && Present(apiKey)
      && DataAvailable(apiKey.value, ticker, net)
      && IsValuation(ticker,
           read(net(OverviewRequest(apiKey.value, ticker)).data,
                net(CashFlowRequest(apiKey.value, ticker)).data,
                Member(net(QuoteRequest(apiKey.value, ticker)).data, "Global Quote").value),
           r.value)
  {
    if !Present(apiKey) {
      return Failed(ErrorObj(DcfFailure));
    }
    var key := apiKey.value;
    var overviewResponse := net(OverviewRequest(key, ticker));
    if overviewResponse.NetworkError? {
      return Failed(ErrorObj(DcfFailure));
    }
    var cashFlowResponse := net(CashFlowRequest(key, ticker));
    if cashFlowResponse.NetworkError? {
      return Failed(ErrorObj(DcfFailure));
    }
    var priceResponse := net(QuoteRequest(key, ticker));
    if priceResponse.NetworkError? {
      return Failed(ErrorObj(DcfFailure));
    }
    var quote := Member(priceResponse.data, "Global Quote");
    if quote.None? {
      return Failed(ErrorObj(DcfFailure));
    }
    if !Truthy(overviewResponse.data) || !Truthy(cashFlowResponse.data) || !Truthy(quote.value) {
      return Failed(ErrorObj(DcfFailure));
    }
    var figures := read(overviewResponse.data, cashFlowResponse.data, quote.value);
    var valuation := Valuate(ticker, figures);
    r := Done(valuation);
  }
}
