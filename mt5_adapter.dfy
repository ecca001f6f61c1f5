// The broker adapter (mt5-ai-bot/src/execution/mt5_adapter.py): the
// return-code message table, the pre-checked send with a bounded retry on
// transient codes, and the stop-loss/take-profit modification.
//
// The MetaTrader 5 terminal is an oracle: a queue of canned answers that
// order_check and order_send consume in call order (None for a failed
// call, which is also what an exhausted queue answers), and a log of the
// calls made.

module Mt5Adapter {
  import opened Common
  import opened Mt5Types

  /** The adapter's answer: the request it was given and the terminal's result. */
  datatype Mt5Response = Mt5Response(request: Request, result: Option<TradeResult>)

  datatype GatewayCall = OrderCheckCall(checked: Request) | OrderSendCall(sent: Request)

  /** The next answer of the queue (None once it is exhausted). */
  function Next(q: seq<Option<TradeResult>>): Option<TradeResult>
  {
    if |q| == 0 then None else q[0]
  }

  function Rest(q: seq<Option<TradeResult>>): (r: seq<Option<TradeResult>>)
    ensures |q| > 0 ==> |r| == |q| - 1
  {
    if |q| == 0 then [] else q[1..]
  }

  /** The terminal, seen through the answers it will give. */
  class Gateway {
    var replies: seq<Option<TradeResult>>
    var calls: seq<GatewayCall>

    constructor (replies: seq<Option<TradeResult>>)
      ensures this.replies == replies && calls == []
    {
      this.replies := replies;
      calls := [];
    }

    method OrderCheck(request: Request) returns (r: Option<TradeResult>)
      modifies this
      ensures r == Next(old(replies)) && replies == Rest(old(replies))
      ensures calls == old(calls) + [OrderCheckCall(request)]
    {
      r := Next(replies);
      replies := Rest(replies);
      calls := calls + [OrderCheckCall(request)];
    }

    method OrderSend(request: Request) returns (r: Option<TradeResult>)
      modifies this
      ensures r == Next(old(replies)) && replies == Rest(old(replies))
      ensures calls == old(calls) + [OrderSendCall(request)]
    {
      r := Next(replies);
      replies := Rest(replies);
      calls := calls + [OrderSendCall(request)];
    }
  }

  /** The codes worth another attempt. */
  predicate IsTransient(code: RetCode)
  {
    code.Requote? || code.PriceChanged? || code.PriceOff? || code.TradeContextBusy?
  }

  /**
   * What place_market_order does with `attempts` attempts left, given the
   * terminal's answers: the result, the answers left over and the calls made.
   */
  datatype Placement = Placement(result: Option<TradeResult>, rest: seq<Option<TradeResult>>, calls: seq<GatewayCall>)

  function Place(attempts: int, request: Request, q: seq<Option<TradeResult>>): (p: Placement)
    decreases if attempts > 0 then attempts else 0
  {
    if attempts <= 0 then Placement(None, q, [])
    else
      var check := Next(q);
      var q1 := Rest(q);
      if check.None? || !check.value.retcode.Done? then Placement(check, q1, [OrderCheckCall(request)])
      else
        var sent := Next(q1);
        var q2 := Rest(q1);
        var pair := [OrderCheckCall(request), OrderSendCall(request)];
        if sent.None? then Placement(None, q2, pair)
        else if sent.value.retcode.Done? || sent.value.retcode.Placed? then Placement(sent, q2, pair)
        else if IsTransient(sent.value.retcode) then
          var later := Place(attempts - 1, request, q2);
          Placement(later.result, later.rest, pair + later.calls)
        else Placement(sent, q2, pair)
  }

  function Sends(calls: seq<GatewayCall>): (n: nat)
  {
    if |calls| == 0 then 0
    else (if calls[0].OrderSendCall? then 1 else 0) + Sends(calls[1..])
  }

  lemma {:induction false} SendsAppend(a: seq<GatewayCall>, b: seq<GatewayCall>)
    ensures Sends(a + b) == Sends(a) + Sends(b)
    decreases |a|
  {
    if |a| == 0 {
      assert a + b == b;
    } else {
      assert (a + b)[1..] == a[1..] + b;
      SendsAppend(a[1..], b);
    }
  }

  /**
   * The retry loop is bounded: at most `attempts` sends; no attempts means
   * no call and no result.
   */
  lemma {:induction false} PlaceBounded(attempts: int, request: Request, q: seq<Option<TradeResult>>)
    ensures var p := Place(attempts, request, q);
      && Sends(p.calls) <= (if attempts > 0 then attempts else 0)
      && (attempts <= 0 ==> p == Placement(None, q, []))
    decreases if attempts > 0 then attempts else 0
  {
    SendsOfAttempt(request);
    if attempts > 0 && Next(q).Some? && Next(q).value.retcode.Done?
       && Next(Rest(q)).Some? && IsTransient(Next(Rest(q)).value.retcode) {
      var pair := [OrderCheckCall(request), OrderSendCall(request)];
      var later := Place(attempts - 1, request, Rest(Rest(q)));
      PlaceTransient(attempts, request, q);
      PlaceBounded(attempts - 1, request, Rest(Rest(q)));
      SendsAppend(pair, later.calls);
    }
  }

  /** Each attempt makes at most two calls, a check and a send. */
  lemma {:induction false} PlaceCallCount(attempts: int, request: Request, q: seq<Option<TradeResult>>)
    ensures |Place(attempts, request, q).calls| <= 2 * (if attempts > 0 then attempts else 0)
    decreases if attempts > 0 then attempts else 0
  {
    if attempts > 0 && Next(q).Some? && Next(q).value.retcode.Done?
       && Next(Rest(q)).Some? && IsTransient(Next(Rest(q)).value.retcode) {
      PlaceTransient(attempts, request, q);
      PlaceCallCount(attempts - 1, request, Rest(Rest(q)));
    }
  }

  /** A failed check makes no send; a check and a send make one. */
  lemma SendsOfAttempt(request: Request)
    ensures Sends([OrderCheckCall(request)]) == 0
    ensures Sends([OrderCheckCall(request), OrderSendCall(request)]) == 1
  {
    var pair := [OrderCheckCall(request), OrderSendCall(request)];
    assert pair[1..] == [OrderSendCall(request)];
    assert [OrderSendCall(request)][1..] == [];
    assert [OrderCheckCall(request)][1..] == [];
  }

  /**
   * Every call carries the request unchanged, and the first call is always
   * the check: nothing is sent before a check has passed.
   */
  lemma {:induction false} PlaceChecksFirst(attempts: int, request: Request, q: seq<Option<TradeResult>>)
    ensures var p := Place(attempts, request, q);
      && (forall c :: c in p.calls ==> c == OrderCheckCall(request) || c == OrderSendCall(request))
      && (|p.calls| > 0 ==> p.calls[0] == OrderCheckCall(request))
    decreases if attempts > 0 then attempts else 0
  {
    if attempts > 0 {
      var check := Next(q);
      var q1 := Rest(q);
      if check.Some? && check.value.retcode.Done? {
        var sent := Next(q1);
        var q2 := Rest(q1);
        if sent.Some? && IsTransient(sent.value.retcode) {
          PlaceChecksFirst(attempts - 1, request, q2);
        }
      }
    }
  }

  /**
   * The result is a check that did not pass, or a send that was final: a
   * failed check stops the loop before any send, and a transient send code
   * is never returned.
   */
  lemma {:induction false} PlaceResultIsFinal(attempts: int, request: Request, q: seq<Option<TradeResult>>)
    ensures var p := Place(attempts, request, q);
      && (p.result.Some? && !p.result.value.retcode.Done? && |p.calls| > 0
          ==> p.calls[|p.calls| - 1] == OrderCheckCall(request) || !IsTransient(p.result.value.retcode))
      && (p.result.Some? && p.result.value.retcode.Done? && |p.calls| > 0 ==> p.calls[|p.calls| - 1] == OrderSendCall(request))
    decreases if attempts > 0 then attempts else 0
  {
    if attempts > 0 {
      var check := Next(q);
      var q1 := Rest(q);
      if check.Some? && check.value.retcode.Done? {
        var sent := Next(q1);
        var q2 := Rest(q1);
        if sent.Some? && IsTransient(sent.value.retcode) {
          PlaceTransient(attempts, request, q);
          PlaceResultIsFinal(attempts - 1, request, q2);
        }
      }
    }
  }

  /** A check answer that passes followed by a transient send answer. */
  predicate TransientRound(q: seq<Option<TradeResult>>, k: nat)
    requires 2 * k + 1 < |q|
  {
    q[2 * k].Some? && q[2 * k].value.retcode.Done?
    && q[2 * k + 1].Some? && IsTransient(q[2 * k + 1].value.retcode)
  }

  /** When every attempt meets a transient code the loop gives up with no result after all its sends. */
  lemma {:induction false} AllTransientGivesUp(attempts: nat, request: Request, q: seq<Option<TradeResult>>)
    requires 2 * attempts <= |q|
    requires forall k :: 0 <= k < attempts ==> TransientRound(q, k)
    ensures var p := Place(attempts, request, q);
            p.result == None && |p.calls| == 2 * attempts && p.rest == q[2 * attempts..]
    decreases attempts
  {
    if attempts > 0 {
      assert TransientRound(q, 0);
      var q2 := q[2..];
      assert Rest(Rest(q)) == q2;
      forall k | 0 <= k < attempts - 1
        ensures TransientRound(q2, k)
      {
        assert TransientRound(q, k + 1);
        assert q2[2 * k] == q[2 * (k + 1)] && q2[2 * k + 1] == q[2 * (k + 1) + 1];
      }
      PlaceTransient(attempts, request, q);
      AllTransientGivesUp(attempts - 1, request, q2);
      assert q2[2 * (attempts - 1)..] == q[2 * attempts..];
    }
  }

  /** The message table RET_CODES. */
  const RetCodes: map<RetCode, string> := map[
    Requote := "Requote",
    Reject := "Rejected",
    Cancel := "Canceled",
    Placed := "Order placed",
    Done := "Order completed",
    DonePartial := "Order partial",
    Error := "Common error",
    Timeout := "Timeout",
    Invalid := "Invalid request",
    InvalidVolume := "Invalid volume",
    InvalidPrice := "Invalid price",
    InvalidStops := "Invalid stops",
    TradeDisabled := "Trade disabled",
    MarketClosed := "Market closed",
    NoMoney := "Not enough money",
    PriceChanged := "Price changed",
    PriceOff := "Off quotes",
    InvalidExpiration := "Invalid expiration",
    OrderChanged := "Order changed",
    TooManyRequests := "Too many requests",
    NoChanges := "No changes",
    ServerDisablesAt := "Server disables",
    ClientDisablesAt := "Client disables",
    Locked := "Locked",
    Frozen := "Frozen"]

  /** retcode_message: the table's text, or "Unknown retcode" for a code it lacks. */
  function RetcodeMessage(code: RetCode): (message: string)
    ensures code in RetCodes ==> message == RetCodes[code]
    ensures message == "Unknown retcode" <==> code !in RetCodes
  {
    if code in RetCodes then RetCodes[code] else "Unknown retcode"
  }

  /** Busy trade context, invalid filling and unnamed codes have no entry. */
  lemma UnknownCodes(n: int)
    ensures RetcodeMessage(TradeContextBusy) == "Unknown retcode"
    ensures RetcodeMessage(InvalidFill) == "Unknown retcode"
    ensures RetcodeMessage(OtherCode(n)) == "Unknown retcode"
    ensures RetcodeMessage(Done) == "Order completed"
  {
  }

  /** A placement preceded by calls already made. */
  function After(done: seq<GatewayCall>, p: Placement): Placement
  {
    Placement(p.result, p.rest, done + p.calls)
  }

  lemma AfterAfter(a: seq<GatewayCall>, b: seq<GatewayCall>, p: Placement)
    ensures After(a, After(b, p)) == After(a + b, p)
  {
    assert a + (b + p.calls) == (a + b) + p.calls;
  }

  /** An attempt whose check does not pass ends the loop with the check's answer. */
  lemma PlaceCheckFails(attempts: int, request: Request, q: seq<Option<TradeResult>>)
    requires attempts > 0 && (Next(q).None? || !Next(q).value.retcode.Done?)
    ensures Place(attempts, request, q) == Placement(Next(q), Rest(q), [OrderCheckCall(request)])
  {
  }

  /** An attempt whose check passes and whose send is not transient ends the loop with the send's answer. */
  lemma PlaceSendFinal(attempts: int, request: Request, q: seq<Option<TradeResult>>)
    requires attempts > 0 && Next(q).Some? && Next(q).value.retcode.Done?
    requires Next(Rest(q)).None? || !IsTransient(Next(Rest(q)).value.retcode)
    ensures Place(attempts, request, q)
      == Placement(Next(Rest(q)), Rest(Rest(q)), [OrderCheckCall(request), OrderSendCall(request)])
  {
  }

  /** An attempt whose send is transient is followed by the remaining attempts. */
  lemma PlaceTransient(attempts: int, request: Request, q: seq<Option<TradeResult>>)
    requires attempts > 0 && Next(q).Some? && Next(q).value.retcode.Done?
    requires Next(Rest(q)).Some? && IsTransient(Next(Rest(q)).value.retcode)
    ensures Place(attempts, request, q)
      == After([OrderCheckCall(request), OrderSendCall(request)], Place(attempts - 1, request, Rest(Rest(q))))
  {
  }

  class Adapter {
    const retryAttempts: int
    const gateway: Gateway

    constructor (retryAttempts: int, gateway: Gateway)
      ensures this.retryAttempts == retryAttempts && this.gateway == gateway
    {
      this.retryAttempts := retryAttempts;
      this.gateway := gateway;
    }

    /**
     * place_market_order: each attempt checks the request first and sends
     * it only when the check passes; DONE or PLACED is returned, a transient
     * code leads to the next attempt, anything else is returned at once.
     */
    method PlaceMarketOrder(request: Request) returns (response: Mt5Response)
      modifies gateway
      ensures var p := Place(retryAttempts, request, old(gateway.replies));
              && response == Mt5Response(request, p.result)
              && gateway.replies == p.rest
              && gateway.calls == old(gateway.calls) + p.calls
    {
      ghost var q0 := gateway.replies;
      ghost var calls0 := gateway.calls;
      var attempt := 1;
      while attempt <= retryAttempts
        invariant 1 <= attempt
        invariant After(calls0, Place(retryAttempts, request, q0))
          == After(gateway.calls, Place(retryAttempts - attempt + 1, request, gateway.replies))
        decreases retryAttempts - attempt + 1
      {
        var result, final := Attempt(request, retryAttempts - attempt + 1);
        if final {
          return Mt5Response(request, result);
        }
        attempt := attempt + 1;
      }
      assert gateway.calls + [] == gateway.calls;
      response := Mt5Response(request, None);
    }

    /**
     * One pass of place_market_order's loop: the check, and the send when
     * the check passed. It is final unless the send met a transient code;
     * either way the calls made so far followed by what `left` attempts
     * would do are unchanged.
     */
    method Attempt(request: Request, ghost left: int) returns (result: Option<TradeResult>, final: bool)
      requires left > 0
      modifies gateway
      ensures final ==> After(old(gateway.calls), Place(left, request, old(gateway.replies)))
                        == Placement(result, gateway.replies, gateway.calls)
      ensures !final ==> After(old(gateway.calls), Place(left, request, old(gateway.replies)))
                         == After(gateway.calls, Place(left - 1, request, gateway.replies))
    {
      ghost var q := gateway.replies;
      ghost var calls := gateway.calls;
      var check := gateway.OrderCheck(request);
      if check.None? || !check.value.retcode.Done? {
        PlaceCheckFails(left, request, q);
        return check, true;
      }
      var sent := gateway.OrderSend(request);
      ghost var pair := [OrderCheckCall(request), OrderSendCall(request)];
      assert gateway.calls == calls + pair;
      if sent.None? || sent.value.retcode.Done? || sent.value.retcode.Placed? || !IsTransient(sent.value.retcode) {
        PlaceSendFinal(left, request, q);
        return sent, true;
      }
      PlaceTransient(left, request, q);
      AfterAfter(calls, pair, Place(left - 1, request, gateway.replies));
      return sent, false;
    }

    /** modify_position_sl_tp: one send, its answer returned as it is. */
    method ModifyPositionSlTp(request: Request) returns (response: Mt5Response)
      modifies gateway
      ensures response == Mt5Response(request, Next(old(gateway.replies)))
      ensures gateway.replies == Rest(old(gateway.replies))
      ensures gateway.calls == old(gateway.calls) + [OrderSendCall(request)]
    {
      var result := gateway.OrderSend(request);
      response := Mt5Response(request, result);
    }
  }
}
