// The MetaTrader 5 records the execution code reads: symbol properties,
// the current quote, trade return codes and trade results, and the order
// request dictionaries. Numeric values of the platform's constants are not
// modelled except the filling-mode bits, which the caller passes in.

module Mt5Types {
  import opened Common

  /** The properties of a symbol that the bot reads (mt5.symbol_info). */
  datatype SymbolInfo = SymbolInfo(
    name: string,
    visible: bool,
    tradeMode: int,
    point: real,
    stopsLevel: int,
    tradeTickValue: real,
    volumeStep: real,
    volumeMin: real,
    volumeMax: real,
    fillingMode: nat,
    fillingModes: nat)

  /** The best bid and ask (mt5.symbol_info_tick). */
  datatype Tick = Tick(bid: real, ask: real)

  /**
   * Trade server return codes: the ones the bot names, and any other code.
   * OtherCode stands for a code distinct from all the named ones.
   */
  datatype RetCode =
    | Requote | Reject | Cancel | Placed | Done | DonePartial | Error | Timeout
    | Invalid | InvalidVolume | InvalidPrice | InvalidStops | TradeDisabled
    | MarketClosed | NoMoney | PriceChanged | PriceOff | InvalidExpiration
    | OrderChanged | TooManyRequests | NoChanges | ServerDisablesAt
    | ClientDisablesAt | Locked | Frozen | InvalidFill | TradeContextBusy
    | OtherCode(code: int)

  /** The part of an order_check or order_send answer that the bot reads. */
  datatype TradeResult = TradeResult(retcode: RetCode, order: int, comment: string)

  datatype OrderSide = Buy | Sell

  datatype TimeKind = Gtc

  /**
   * A trade request dictionary. A deal request carries action DEAL and the
   * "sl" and "tp" keys only when they are Some; a modification request
   * carries action SLTP.
   */
  datatype Request =
    | DealRequest(symbol: string, volume: real, side: OrderSide, price: real, deviation: int,
                  magic: int, comment: string, typeTime: TimeKind, typeFilling: nat,
                  sl: Option<real>, tp: Option<real>)
    | SlTpRequest(position: int, symbol: string, stopLoss: real, takeProfit: real)

  /** The three filling-mode constants (FOK, IOC, RETURN), as bit values. */
  datatype FillModes = FillModes(fok: nat, ioc: nat, ret: nat)
}
