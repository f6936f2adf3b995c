/**
  The deterministic part of the trade-recommendations handler. The handler
  picks one of three canned scenarios at random and draws a percentage at
  random; here the chosen action and the drawn percentage are inputs, and
  everything the handler derives from them is modelled.
*/
module Recommendations {
  import opened Wrappers
  import opened Series
  import Symbols
  import opened Signals
  import opened ApiErrors

  datatype Action = Buy | Sell | Hold

  datatype Urgency = High | Medium | Low

  /** The scenario's fixed urgency. */
  function UrgencyOf(a: Action): (u: Urgency)
    ensures u == High <==> a == Buy
    ensures u == Medium <==> a == Sell
    ensures u == Low <==> a == Hold
  {
    match a
    case Buy => High
    case Sell => Medium
    case Hold => Low
  }

  /** The scenario's fixed reasoning. */
  function ReasoningOf(a: Action): string
  {
    match a
    case Buy => "Strong technical breakout pattern detected with high volume confirmation"
    case Sell => "Resistance level reached, profit-taking opportunity identified"
    case Hold => "Consolidation phase, waiting for clearer directional signals"
  }

  /** The trade's colour: green for BUY, red for SELL, yellow otherwise. */
  function TradeColor(a: Action): (c: Color)
    ensures c == Green <==> a == Buy
    ensures c == Red <==> a == Sell
    ensures c == Yellow <==> a == Hold
  {
    match a
    case Buy => Green
    case Sell => Red
    case Hold => Yellow
  }

  /** The position size: the drawn percentage, except that HOLD has none (`None`). */
  function Percentage(a: Action, drawn: real): (p: Option<real>)
    ensures p.None? <==> a == Hold
    ensures p.Some? ==> p.value == drawn
  {
    if a != Hold then Some(drawn) else None
  }

  /** The stop-loss: 5% below the price for a BUY, 5% above it otherwise. */
  function StopLoss(a: Action, price: real): (s: real)
    ensures a == Buy ==> s == price - 0.05 * price
    ensures a != Buy ==> s == price + 0.05 * price
    ensures Abs(s - price) == 0.05 * Abs(price)
  {
    if a == Buy then price * 0.95 else price * 1.05
  }

  /** The take-profit: 10% above the price for a BUY, 10% below it otherwise. */
  function TakeProfit(a: Action, price: real): (t: real)
    ensures a == Buy ==> t == price + 0.10 * price
    ensures a != Buy ==> t == price - 0.10 * price
    ensures Abs(t - price) == 0.10 * Abs(price)
  {
    if a == Buy then price * 1.10 else price * 0.90
  }

  /** The three scenarios are told apart by their reasoning and by their urgency. */
  lemma ScenariosDistinct(a: Action, b: Action)
    ensures ReasoningOf(a) == ReasoningOf(b) <==> a == b
    ensures UrgencyOf(a) == UrgencyOf(b) <==> a == b
  {
    assert |ReasoningOf(Buy)| == 72 && |ReasoningOf(Sell)| == 62 && |ReasoningOf(Hold)| == 60;
  }

  /** For a positive price, a BUY sits between its stop below and its target above; SELL and HOLD the other way round. */
  lemma BracketOrder(a: Action, price: real)
    requires price > 0.0
    ensures a == Buy ==> StopLoss(a, price) < price < TakeProfit(a, price)
    ensures a != Buy ==> TakeProfit(a, price) < price < StopLoss(a, price)
  {
  }

  /** The target is twice as far from the price as the stop, whatever the action: the advertised "1:2.0". */
  lemma RewardIsTwiceRisk(a: Action, price: real)
    ensures Abs(TakeProfit(a, price) - price) == 2.0 * Abs(StopLoss(a, price) - price)
  {
  }

  datatype Trade = Trade(
    action: Action,
    symbol: string,
    percentage: Option<real>,
    price: real,
    reasoning: string,
    urgency: Urgency,
    color: Color)

  datatype RiskManagement = RiskManagement(stopLoss: real, takeProfit: real, positionSize: string, riskReward: string)

  datatype TradeReport = TradeReport(trades: seq<Trade>, riskManagement: RiskManagement)

  /**
    `get_trade_recommendations_data` on the provider's series, for the action
    of the scenario drawn and the percentage drawn. The 404 for an empty series
    is raised inside the handler's `try` and so reaches the caller re-wrapped
    as a 500.
  */
  function TradeRecommendations(symbol: string, rows: seq<PricePoint>, action: Action, drawn: real)
    : (r: Result<TradeReport, HttpError>)
    ensures r.Failure? <==> |rows| == 0
    ensures r.Failure? ==> r.error == EmptySeriesError(RecommendationsContext, symbol)
    ensures r.Success? ==>
      && |r.value.trades| == 1
      && r.value.trades[0].action == action
      && r.value.trades[0].symbol == Symbols.Upper(symbol)
      && r.value.trades[0].price == LastClose(rows)
      && (r.value.trades[0].percentage.None? <==> action == Hold)
      && (r.value.trades[0].percentage.Some? ==> r.value.trades[0].percentage.value == drawn)
      && r.value.trades[0].reasoning == ReasoningOf(action)
      && r.value.trades[0].urgency == UrgencyOf(action)
      && r.value.trades[0].color == TradeColor(action)
      && r.value.riskManagement.stopLoss == StopLoss(action, LastClose(rows))
      && r.value.riskManagement.takeProfit == TakeProfit(action, LastClose(rows))
      && r.value.riskManagement.positionSize == "2-3% of portfolio"
      && r.value.riskManagement.riskReward == "1:2.0"
      && Abs(r.value.riskManagement.takeProfit - LastClose(rows))
         == 2.0 * Abs(r.value.riskManagement.stopLoss - LastClose(rows))
  {
    if |rows| == 0 then
      Failure(EmptySeriesError(RecommendationsContext, symbol))
    else
      var price := LastClose(rows);
      RewardIsTwiceRisk(action, price);
      var trade := Trade(action, Symbols.Upper(symbol), Percentage(action, drawn), price,
                         ReasoningOf(action), UrgencyOf(action), TradeColor(action));
      Success(TradeReport([trade],
        RiskManagement(StopLoss(action, price), TakeProfit(action, price), "2-3% of portfolio", "1:2.0")))
  }
}
