// Order construction (mt5-ai-bot/src/execution/order_builder.py): the
// filling modes a symbol allows, read from its bitmask, the market-order
// request dictionary, and the stop-loss/take-profit modification request.

module OrderBuilder {
  import opened Common
  import opened Mt5Types

  /** Bitwise AND of two naturals, bit by bit from the lowest. */
  function BitAnd(a: nat, b: nat): (r: nat)
    ensures r <= a && r <= b
    ensures a == 0 || b == 0 ==> r == 0
  {
    if a == 0 || b == 0 then 0
    else 2 * BitAnd(a / 2, b / 2) + (if a % 2 == 1 && b % 2 == 1 then 1 else 0)
  }

  /** A number with a set bit shares it with itself. */
  lemma {:induction false} BitAndSelf(a: nat)
    ensures BitAnd(a, a) == a
  {
    if a > 0 {
      BitAndSelf(a / 2);
    }
  }

  /** The index of the first occurrence of x in s. */
  function FirstIndex(s: seq<nat>, x: nat): (k: nat)
    requires x in s
    ensures k < |s| && s[k] == x
    ensures forall j :: 0 <= j < k ==> s[j] != x
  {
    if s[0] == x then 0 else 1 + FirstIndex(s[1..], x)
  }

  /** Dropping the last element keeps the first occurrence of any value still present. */
  lemma FirstIndexOfFront(s: seq<nat>, x: nat)
    requires |s| > 0 && x in s[..|s| - 1]
    ensures FirstIndex(s[..|s| - 1], x) == FirstIndex(s, x)
  {
    var front := s[..|s| - 1];
    var k := FirstIndex(front, x);
    var k2 := FirstIndex(s, x);
    assert s[k] == x;
    assert k2 <= k;
    assert front[k2] == x;
  }

  /** Python's dict.fromkeys: the first occurrence of each value, in order. */
  function Dedup(s: seq<nat>): (r: seq<nat>)
    ensures forall x :: x in r <==> x in s
    ensures forall i, j :: 0 <= i < j < |r| ==> r[i] != r[j]
    ensures |s| > 0 ==> |r| > 0 && r[0] == s[0]
  {
    if |s| == 0 then []
    else
      var init := Dedup(s[..|s| - 1]);
      assert forall x :: x in s <==> x in s[..|s| - 1] || x == s[|s| - 1];
      assert |s| > 1 ==> s[..|s| - 1][0] == s[0];
      if s[|s| - 1] in init then init else init + [s[|s| - 1]]
  }

  /** Dedup lists the values in the order of their first occurrences. */
  lemma {:induction false} DedupOrder(s: seq<nat>)
    ensures forall i, j :: 0 <= i < j < |Dedup(s)| ==> FirstIndex(s, Dedup(s)[i]) < FirstIndex(s, Dedup(s)[j])
  {
    if |s| > 0 {
      var front := s[..|s| - 1];
      var last := s[|s| - 1];
      var init := Dedup(front);
      DedupOrder(front);
      forall i | 0 <= i < |init|
        ensures init[i] in front && init[i] in s
        ensures FirstIndex(front, init[i]) == FirstIndex(s, init[i])
      {
        assert init[i] in init;
        FirstIndexOfFront(s, init[i]);
      }
      forall i, j | 0 <= i < j < |init|
        ensures FirstIndex(s, init[i]) < FirstIndex(s, init[j])
      {
        assert FirstIndex(front, init[i]) < FirstIndex(front, init[j]);
      }
      if last in init {
        assert Dedup(s) == init;
      } else {
        var r := init + [last];
        assert Dedup(s) == r;
        assert last !in front;
        assert FirstIndex(s, last) == |s| - 1;
        forall i, j | 0 <= i < j < |r|
          ensures FirstIndex(s, r[i]) < FirstIndex(s, r[j])
        {
          assert r[i] == init[i];
          if j < |init| {
            assert r[j] == init[j];
          } else {
            assert r[j] == last;
            assert FirstIndex(s, init[i]) == FirstIndex(front, init[i]) < |front|;
          }
        }
      }
    }
  }

  /** A sequence without repeats is its own Dedup. */
  lemma {:induction false} DedupDistinct(s: seq<nat>)
    ensures (forall i, j :: 0 <= i < j < |s| ==> s[i] != s[j]) ==> Dedup(s) == s
  {
    if |s| > 0 && forall i, j :: 0 <= i < j < |s| ==> s[i] != s[j] {
      var front := s[..|s| - 1];
      DedupDistinct(front);
      assert s[|s| - 1] !in front;
      assert front + [s[|s| - 1]] == s;
    }
  }

  /** The candidates FOK, IOC, RETURN, in that order, whose bit is set in the mask. */
  function MaskedModes(mask: nat, modes: FillModes): (r: seq<nat>)
    ensures |r| <= 3
  {
    (if BitAnd(mask, modes.fok) != 0 then [modes.fok] else [])
    + (if BitAnd(mask, modes.ioc) != 0 then [modes.ioc] else [])
    + (if BitAnd(mask, modes.ret) != 0 then [modes.ret] else [])
  }

  /**
   * allowed_fillings: the symbol's default filling mode when its bitmask is
   * 0 or selects no candidate; otherwise the selected candidates without
   * repeats.
   */
  function AllowedFillings(info: SymbolInfo, modes: FillModes): (r: seq<nat>)
    ensures |r| > 0
    ensures info.fillingModes == 0 ==> r == [info.fillingMode]
    ensures MaskedModes(info.fillingModes, modes) == [] ==> r == [info.fillingMode]
  {
    if info.fillingModes == 0 then [info.fillingMode]
    else
      var selected := MaskedModes(info.fillingModes, modes);
      if selected == [] then [info.fillingMode]
      else Dedup(selected)
  }

  /**
   * With three distinct candidate constants and a mask selecting some of
   * them, the allowed modes are the selected candidates in the order FOK,
   * IOC, RETURN, the order in which they are then tried.
   */
  lemma AllowedFillingsInOrder(info: SymbolInfo, modes: FillModes)
    requires modes.fok != modes.ioc && modes.ioc != modes.ret && modes.fok != modes.ret
    requires info.fillingModes != 0 && MaskedModes(info.fillingModes, modes) != []
    ensures AllowedFillings(info, modes) == MaskedModes(info.fillingModes, modes)
  {
    DedupDistinct(MaskedModes(info.fillingModes, modes));
  }

  /** No filling mode is offered twice. */
  lemma AllowedFillingsDistinct(info: SymbolInfo, modes: FillModes)
    ensures var r := AllowedFillings(info, modes);
            forall i, j :: 0 <= i < j < |r| ==> r[i] != r[j]
  {
  }

  /**
   * When the mask selects some candidate, the allowed modes are exactly the
   * candidates whose bit is set in the mask.
   */
  lemma AllowedFillingsSelected(info: SymbolInfo, modes: FillModes, m: nat)
    requires info.fillingModes != 0 && MaskedModes(info.fillingModes, modes) != []
    ensures m in AllowedFillings(info, modes) <==>
              (m == modes.fok || m == modes.ioc || m == modes.ret) && BitAnd(info.fillingModes, m) != 0
  {
    var mask := info.fillingModes;
    assert m in MaskedModes(mask, modes) <==>
             (m == modes.fok || m == modes.ioc || m == modes.ret) && BitAnd(mask, m) != 0;
  }

  /** A filling-mode constant equal to 0 is never picked from a nonzero mask. */
  lemma ZeroModeNeverSelected(info: SymbolInfo, modes: FillModes)
    requires info.fillingModes != 0
    ensures 0 in AllowedFillings(info, modes) ==> info.fillingMode == 0 && MaskedModes(info.fillingModes, modes) == []
  {
    if MaskedModes(info.fillingModes, modes) != [] {
      AllowedFillingsSelected(info, modes, 0);
    }
  }

  /** With the FOK and IOC bits both set in the mask, both modes are allowed. */
  lemma FokAndIocAllowed(info: SymbolInfo, modes: FillModes)
    requires modes.fok != 0 && modes.ioc != 0
    requires BitAnd(info.fillingModes, modes.fok) == modes.fok
    requires BitAnd(info.fillingModes, modes.ioc) == modes.ioc
    ensures modes.fok in AllowedFillings(info, modes) && modes.ioc in AllowedFillings(info, modes)
  {
    assert info.fillingModes != 0;
    assert modes.fok in MaskedModes(info.fillingModes, modes);
    AllowedFillingsSelected(info, modes, modes.fok);
    AllowedFillingsSelected(info, modes, modes.ioc);
  }

  /** The request and the filling mode it was built with. */
  datatype OrderRequest = OrderRequest(request: Request, fillingMode: nat)

  const DefaultMagic := 123456
  const DefaultComment := "ATRBreakout"

  /**
   * build_market_order_request: a deal at the given price, good till
   * cancelled, filled with the first allowed filling mode, which is also
   * recorded beside the request; "sl" and "tp" only when given.
   */
  function BuildMarketOrderRequest(symbol: string, side: OrderSide, volume: real, price: real, deviation: int,
                                   sl: Option<real>, tp: Option<real>, info: SymbolInfo, modes: FillModes,
                                   magic: int, comment: string): (o: OrderRequest)
    ensures o.request.DealRequest?
    ensures o.fillingMode == AllowedFillings(info, modes)[0] && o.request.typeFilling == o.fillingMode
    ensures o.request.symbol == symbol && o.request.side == side && o.request.volume == volume
    ensures o.request.price == price && o.request.deviation == deviation
    ensures o.request.magic == magic && o.request.comment == comment && o.request.typeTime == Gtc
    ensures o.request.sl == sl && o.request.tp == tp
  {
    var fillingMode := AllowedFillings(info, modes)[0];
    OrderRequest(DealRequest(symbol, volume, side, price, deviation, magic, comment, Gtc, fillingMode, sl, tp), fillingMode)
  }

  /**
   * A request built without stops differs from the one built with them only
   * in its stops: the invalid-stops fallback resends the same order.
   */
  lemma WithoutStopsDropsOnlyStops(symbol: string, side: OrderSide, volume: real, price: real, deviation: int,
                                   sl: Option<real>, tp: Option<real>, info: SymbolInfo, modes: FillModes,
                                   magic: int, comment: string)
    ensures var full := BuildMarketOrderRequest(symbol, side, volume, price, deviation, sl, tp, info, modes, magic, comment);
            var bare := BuildMarketOrderRequest(symbol, side, volume, price, deviation, None, None, info, modes, magic, comment);
            bare == full.(request := full.request.(sl := None, tp := None))
  {
  }

  /**
   * With only the FOK bit set, the EURUSD buy request keeps its symbol and
   * fills FOK.
   */
  lemma EurUsdRequestExample(info: SymbolInfo, modes: FillModes)
    requires modes.fok != 0 && modes.fok != modes.ioc && modes.fok != modes.ret
    requires info.fillingMode == modes.fok && info.fillingModes == modes.fok
    requires BitAnd(modes.fok, modes.ioc) == 0 && BitAnd(modes.fok, modes.ret) == 0
    ensures var o := BuildMarketOrderRequest("EURUSD", Buy, 0.1, 1.2345, 10, Some(1.2300), Some(1.2400),
                                             info, modes, DefaultMagic, DefaultComment);
            o.request.symbol == "EURUSD" && o.request.typeFilling == modes.fok
  {
    BitAndSelf(modes.fok);
    assert MaskedModes(info.fillingModes, modes) == [modes.fok];
  }

  /** build_sl_tp_request: a stop-loss/take-profit change for one position. */
  function BuildSlTpRequest(positionTicket: int, symbol: string, sl: real, tp: real): (r: Request)
    ensures r.SlTpRequest?
    ensures r.position == positionTicket && r.symbol == symbol && r.stopLoss == sl && r.takeProfit == tp
  {
    SlTpRequest(positionTicket, symbol, sl, tp)
  }
}
