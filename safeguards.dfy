// Pre-trade validators (mt5-ai-bot/src/execution/safeguards.py): whether a
// symbol may be traded, whether the spread is above the ceiling, and whether
// the stop-loss and take-profit keep the broker's minimum distance.

module Safeguards {
  import opened Common
  import opened Mt5Types

  /** MetaTrader 5's SYMBOL_TRADE_MODE numbering: 0 is trading disabled, 4 is full access. */
  const TradeModeDisabled := 0
  const TradeModeFull := 4

  /**
   * is_symbol_tradable, as written: info present, visible and trade mode 0.
   * In MetaTrader 5's numbering mode 0 means trading is disabled.
   */
  function IsSymbolTradable(info: Option<SymbolInfo>): (ok: bool)
    ensures ok ==> info.Some? && info.value.visible
    ensures ok ==> info.value.tradeMode == TradeModeDisabled
  {
    info.Some? && info.value.visible && info.value.tradeMode == 0
  }

  /**
   * Which symbols the check refuses: a missing one, a hidden one, and a
   * visible one in any trade mode but 0, full access included; a visible
   * symbol in mode 0 passes.
   */
  lemma RefusedSymbols(info: SymbolInfo)
    ensures !IsSymbolTradable(None)
    ensures !info.visible ==> !IsSymbolTradable(Some(info))
    ensures info.tradeMode != TradeModeDisabled ==> !IsSymbolTradable(Some(info))
    ensures info.tradeMode == TradeModeFull ==> !IsSymbolTradable(Some(info))
    ensures info.visible && info.tradeMode == TradeModeDisabled ==> IsSymbolTradable(Some(info))
  {
  }

  /** spread_too_high: no quote counts as too high; otherwise the spread in points against the ceiling. */
  function SpreadTooHigh(tick: Option<Tick>, maxSpreadPoints: int, point: real): (tooHigh: bool)
    requires tick.Some? ==> point != 0.0
    ensures tick.None? ==> tooHigh
    ensures tick.Some? ==> (tooHigh <==> (tick.value.ask - tick.value.bid) / point > maxSpreadPoints as real)
  {
    if tick.None? then true
    else (tick.value.ask - tick.value.bid) / point > maxSpreadPoints as real
  }

  /**
   * With a positive point size the test is the same as comparing the price
   * spread with the ceiling converted to price units; a spread exactly at
   * the ceiling passes.
   */
  lemma SpreadInPriceUnits(tick: Tick, maxSpreadPoints: int, point: real)
    requires point > 0.0
    ensures SpreadTooHigh(Some(tick), maxSpreadPoints, point)
            <==> tick.ask - tick.bid > (maxSpreadPoints as real) * point
  {
    var spread := tick.ask - tick.bid;
    var limit := maxSpreadPoints as real;
    assert spread / point * point == spread;
    if spread / point > limit {
      assert (spread / point - limit) * point > 0.0;
    } else {
      assert (limit - spread / point) * point >= 0.0;
    }
  }

  /** The minimum stop distance in price units: stops_level points plus 20%. */
  function MinStopDistance(info: SymbolInfo): real
  {
    (info.stopsLevel as real) * info.point * 1.2
  }

  /** A price level is far enough from the entry price (an absent level is not checked). */
  predicate FarEnough(level: Option<real>, price: real, minDistance: real)
  {
    level.None? || Abs(price - level.value) >= minDistance
  }

  /** stops_level_ok: the verdict and the minimum distance it used. */
  function StopsLevelOk(info: Option<SymbolInfo>, sl: Option<real>, tp: Option<real>, price: real): (r: (bool, real))
    ensures info.None? ==> r == (false, 0.0)
    ensures info.Some? ==> r.1 == MinStopDistance(info.value)
    ensures info.Some? ==> (r.0 <==> FarEnough(sl, price, r.1) && FarEnough(tp, price, r.1))
  {
    if info.None? then (false, 0.0)
    else
      var minDistance := MinStopDistance(info.value);
      if sl.Some? && Abs(price - sl.value) < minDistance then (false, minDistance)
      else if tp.Some? && Abs(price - tp.value) < minDistance then (false, minDistance)
      else (true, minDistance)
  }

  /** A broker without a stops level accepts any stops. */
  lemma NoStopsLevelAlwaysOk(info: SymbolInfo, sl: Option<real>, tp: Option<real>, price: real)
    requires info.stopsLevel == 0
    ensures StopsLevelOk(Some(info), sl, tp, price) == (true, 0.0)
  {
  }

  /**
   * A stop placed at least the minimum distance from the price on the
   * correct side always passes, whichever side the trade is on.
   */
  lemma StopsAtDistanceOk(info: SymbolInfo, price: real, d: real, rr: real, buy: bool)
    requires d >= 0.0 && d >= MinStopDistance(info) && rr >= 1.0
    ensures var sl := if buy then price - d else price + d;
            var tp := if buy then price + rr * d else price - rr * d;
            StopsLevelOk(Some(info), Some(sl), Some(tp), price).0
  {
    var extra := rr - 1.0;
    assert extra >= 0.0 && extra * d >= 0.0;
    assert rr * d == extra * d + d;
  }
}
