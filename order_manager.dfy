// The filling-mode fallback (mt5-ai-bot/src/execution/order_manager.py):
// the order is placed with each allowed filling mode in turn, moving on
// only when the server answers INVALID_FILL, and placed once more with the
// request as built when every mode was refused.

module OrderManager {
  import opened Common
  import opened Mt5Types
  import opened OrderBuilder
  import opened Mt5Adapter

  /**
   * What send_order_with_fillings does: the response, the terminal answers
   * left over, the terminal calls made, and the requests handed to
   * place_market_order, in order.
   */
  datatype FillOutcome = FillOutcome(response: Mt5Response, rest: seq<Option<TradeResult>>,
                                     calls: seq<GatewayCall>, placements: seq<Request>)

  /** The request with its "type_filling" entry overwritten, as on a dict copy. */
  function WithFilling(request: Request, filling: nat): (r: Request)
    requires request.DealRequest?
    ensures r.DealRequest? && r.typeFilling == filling
  {
    request.(typeFilling := filling)
  }

  /** The fallback over the candidates from index i on, given the terminal's answers. */
  function TryFillings(fillings: seq<nat>, i: nat, original: Request, attempts: int, q: seq<Option<TradeResult>>): FillOutcome
    requires original.DealRequest? && i <= |fillings|
    decreases |fillings| - i
  {
    if i == |fillings| then
      var p := Place(attempts, original, q);
      FillOutcome(Mt5Response(original, p.result), p.rest, p.calls, [original])
    else
      var request := WithFilling(original, fillings[i]);
      var p := Place(attempts, request, q);
      if p.result.Some? && p.result.value.retcode.InvalidFill? then
        var later := TryFillings(fillings, i + 1, original, attempts, p.rest);
        FillOutcome(later.response, later.rest, p.calls + later.calls, [request] + later.placements)
      else FillOutcome(Mt5Response(request, p.result), p.rest, p.calls, [request])
  }

  /** One step of the fallback, in terms of the candidate's placement. */
  lemma TryFillingsStep(fillings: seq<nat>, i: nat, original: Request, attempts: int, q: seq<Option<TradeResult>>)
    requires original.DealRequest? && i < |fillings|
    ensures var request := WithFilling(original, fillings[i]);
            var p := Place(attempts, request, q);
            TryFillings(fillings, i, original, attempts, q)
            == if p.result.Some? && p.result.value.retcode.InvalidFill?
               then AfterFills(p.calls, [request], TryFillings(fillings, i + 1, original, attempts, p.rest))
               else FillOutcome(Mt5Response(request, p.result), p.rest, p.calls, [request])
  {
  }

  /** The requests the fallback may place from index i on: each candidate's copy, then the built request. */
  function Candidates(fillings: seq<nat>, i: nat, original: Request): (r: seq<Request>)
    requires original.DealRequest? && i <= |fillings|
    ensures |r| == |fillings| - i + 1
    decreases |fillings| - i
  {
    if i == |fillings| then [original]
    else [WithFilling(original, fillings[i])] + Candidates(fillings, i + 1, original)
  }

  /** The candidate list holds the candidates' copies in order and ends with the built request. */
  lemma {:induction false} CandidatesShape(fillings: seq<nat>, i: nat, original: Request)
    requires original.DealRequest? && i <= |fillings|
    ensures var c := Candidates(fillings, i, original);
      && (forall k :: 0 <= k < |fillings| - i ==> c[k] == WithFilling(original, fillings[i + k]))
      && c[|fillings| - i] == original
    decreases |fillings| - i
  {
    if i < |fillings| {
      var c := Candidates(fillings, i, original);
      var rest := Candidates(fillings, i + 1, original);
      CandidatesShape(fillings, i + 1, original);
      assert forall k :: 1 <= k < |c| ==> c[k] == rest[k - 1];
    }
  }

  /**
   * The placements are a non-empty prefix of the candidate list, so at most
   * one per candidate plus the final one, in order; the response is that
   * of the last placement.
   */
  lemma {:induction false} FillingsBounded(fillings: seq<nat>, i: nat, original: Request, attempts: int, q: seq<Option<TradeResult>>)
    requires original.DealRequest? && i <= |fillings|
    ensures var o := TryFillings(fillings, i, original, attempts, q);
      && 1 <= |o.placements|
      && o.placements <= Candidates(fillings, i, original)
      && o.response.request == o.placements[|o.placements| - 1]
    decreases |fillings| - i
  {
    if i < |fillings| {
      var request := WithFilling(original, fillings[i]);
      var p := Place(attempts, request, q);
      if p.result.Some? && p.result.value.retcode.InvalidFill? {
        var later := TryFillings(fillings, i + 1, original, attempts, p.rest);
        FillingsBounded(fillings, i + 1, original, attempts, p.rest);
        assert TryFillings(fillings, i, original, attempts, q).placements == [request] + later.placements;
      }
    }
  }

  /**
   * Only INVALID_FILL moves on to the next candidate: a candidate followed
   * by another placement was answered INVALID_FILL, and an INVALID_FILL
   * response can only come from the final fallback.
   */
  lemma {:induction false} OnlyInvalidFillAdvances(fillings: seq<nat>, i: nat, original: Request, attempts: int, q: seq<Option<TradeResult>>)
    requires original.DealRequest? && i <= |fillings|
    ensures var o := TryFillings(fillings, i, original, attempts, q);
      o.response.result.Some? && o.response.result.value.retcode.InvalidFill?
      ==> |o.placements| == |fillings| - i + 1
    ensures var o := TryFillings(fillings, i, original, attempts, q);
      i < |fillings| && |o.placements| > 1
      ==> Place(attempts, WithFilling(original, fillings[i]), q).result.Some?
          && Place(attempts, WithFilling(original, fillings[i]), q).result.value.retcode.InvalidFill?
    decreases |fillings| - i
  {
    if i < |fillings| {
      var request := WithFilling(original, fillings[i]);
      var p := Place(attempts, request, q);
      if p.result.Some? && p.result.value.retcode.InvalidFill? {
        OnlyInvalidFillAdvances(fillings, i + 1, original, attempts, p.rest);
      }
    }
  }

  /** The send budget of n candidates plus the fallback, at most attempts sends each. */
  function SendBudget(attempts: nat, n: nat): (b: nat)
    ensures b == attempts * (n + 1)
  {
    if n == 0 then attempts else attempts + SendBudget(attempts, n - 1)
  }

  /** Fill probing and transient retries are bounded separately: at most attempts sends per placement. */
  lemma {:induction false} FillingsSendBound(fillings: seq<nat>, i: nat, original: Request, attempts: nat, q: seq<Option<TradeResult>>)
    requires original.DealRequest? && i <= |fillings|
    ensures Sends(TryFillings(fillings, i, original, attempts, q).calls) <= SendBudget(attempts, |fillings| - i)
    decreases |fillings| - i
  {
    if i == |fillings| {
      PlaceBounded(attempts, original, q);
    } else {
      var request := WithFilling(original, fillings[i]);
      var p := Place(attempts, request, q);
      PlaceBounded(attempts, request, q);
      TryFillingsStep(fillings, i, original, attempts, q);
      if p.result.Some? && p.result.value.retcode.InvalidFill? {
        var later := TryFillings(fillings, i + 1, original, attempts, p.rest);
        FillingsSendBound(fillings, i + 1, original, attempts, p.rest);
        SendsAppend(p.calls, later.calls);
      }
    }
  }

  /** A fill outcome preceded by placements already made. */
  function AfterFills(calls: seq<GatewayCall>, placements: seq<Request>, o: FillOutcome): FillOutcome
  {
    FillOutcome(o.response, o.rest, calls + o.calls, placements + o.placements)
  }

  lemma AfterFillsAfter(c1: seq<GatewayCall>, p1: seq<Request>, c2: seq<GatewayCall>, p2: seq<Request>, o: FillOutcome)
    ensures AfterFills(c1, p1, AfterFills(c2, p2, o)) == AfterFills(c1 + c2, p1 + p2, o)
  {
    assert c1 + (c2 + o.calls) == (c1 + c2) + o.calls;
    assert p1 + (p2 + o.placements) == (p1 + p2) + o.placements;
  }

  /**
   * The loop step of send_order_with_fillings: when candidate i is refused
   * with INVALID_FILL, its placement joins those already made.
   */
  lemma FillAdvance(fillings: seq<nat>, i: nat, original: Request, attempts: int, q: seq<Option<TradeResult>>,
                    total: FillOutcome, doneCalls: seq<GatewayCall>, donePlacements: seq<Request>)
    requires original.DealRequest? && i < |fillings|
    requires total == AfterFills(doneCalls, donePlacements, TryFillings(fillings, i, original, attempts, q))
    requires var p := Place(attempts, WithFilling(original, fillings[i]), q);
             p.result.Some? && p.result.value.retcode.InvalidFill?
    ensures var request := WithFilling(original, fillings[i]);
            var p := Place(attempts, request, q);
            total == AfterFills(doneCalls + p.calls, donePlacements + [request],
                                TryFillings(fillings, i + 1, original, attempts, p.rest))
  {
    var request := WithFilling(original, fillings[i]);
    var p := Place(attempts, request, q);
    TryFillingsStep(fillings, i, original, attempts, q);
    AfterFillsAfter(doneCalls, donePlacements, p.calls, [request],
                    TryFillings(fillings, i + 1, original, attempts, p.rest));
  }

  /** The loop exit of send_order_with_fillings: any other answer to candidate i ends the fallback. */
  lemma FillStop(fillings: seq<nat>, i: nat, original: Request, attempts: int, q: seq<Option<TradeResult>>,
                 total: FillOutcome, doneCalls: seq<GatewayCall>, donePlacements: seq<Request>)
    requires original.DealRequest? && i < |fillings|
    requires total == AfterFills(doneCalls, donePlacements, TryFillings(fillings, i, original, attempts, q))
    requires var p := Place(attempts, WithFilling(original, fillings[i]), q);
             !(p.result.Some? && p.result.value.retcode.InvalidFill?)
    ensures var request := WithFilling(original, fillings[i]);
            var p := Place(attempts, request, q);
            total.response == Mt5Response(request, p.result) && total.rest == p.rest
            && total.calls == doneCalls + p.calls
  {
    TryFillingsStep(fillings, i, original, attempts, q);
  }

  /** After the loop of send_order_with_fillings: the request as built is placed once more. */
  lemma FillFallback(fillings: seq<nat>, original: Request, attempts: int, q: seq<Option<TradeResult>>,
                     total: FillOutcome, doneCalls: seq<GatewayCall>, donePlacements: seq<Request>)
    requires original.DealRequest?
    requires total == AfterFills(doneCalls, donePlacements, TryFillings(fillings, |fillings|, original, attempts, q))
    ensures var p := Place(attempts, original, q);
            total.response == Mt5Response(original, p.result) && total.rest == p.rest
            && total.calls == doneCalls + p.calls
  {
  }

  class Manager {
    const adapter: Adapter
    const modes: FillModes

    constructor (adapter: Adapter, modes: FillModes)
      ensures this.adapter == adapter && this.modes == modes
    {
      this.adapter := adapter;
      this.modes := modes;
    }

    /** send_order_with_fillings: the fallback over the symbol's allowed filling modes. */
    method SendOrderWithFillings(orderRequest: OrderRequest, info: SymbolInfo) returns (response: Mt5Response)
      requires orderRequest.request.DealRequest?
      modifies adapter.gateway
      ensures var o := TryFillings(AllowedFillings(info, modes), 0, orderRequest.request, adapter.retryAttempts,
                                   old(adapter.gateway.replies));
              && response == o.response
              && adapter.gateway.replies == o.rest
              && adapter.gateway.calls == old(adapter.gateway.calls) + o.calls
    {
      response := SendWithFillings(AllowedFillings(info, modes), orderRequest.request);
    }

    /** The loop of send_order_with_fillings over given candidates. */
    method SendWithFillings(fillings: seq<nat>, original: Request) returns (response: Mt5Response)
      requires original.DealRequest?
      modifies adapter.gateway
      ensures var o := TryFillings(fillings, 0, original, adapter.retryAttempts, old(adapter.gateway.replies));
              && response == o.response
              && adapter.gateway.replies == o.rest
              && adapter.gateway.calls == old(adapter.gateway.calls) + o.calls
    {
      var attempts := adapter.retryAttempts;
      ghost var gateway := adapter.gateway;
      ghost var total := TryFillings(fillings, 0, original, attempts, gateway.replies);
      ghost var calls0 := gateway.calls;
      ghost var doneCalls: seq<GatewayCall> := [];
      ghost var donePlacements: seq<Request> := [];
      var i := 0;
      while i < |fillings|
        invariant 0 <= i <= |fillings|
        invariant gateway.calls == calls0 + doneCalls
        invariant total == AfterFills(doneCalls, donePlacements, TryFillings(fillings, i, original, attempts, gateway.replies))
      {
        ghost var q := gateway.replies;
        var request := WithFilling(original, fillings[i]);
        ghost var p := Place(attempts, request, q);
        response := adapter.PlaceMarketOrder(request);
        if response.result.None? || !response.result.value.retcode.InvalidFill? {
          FillStop(fillings, i, original, attempts, q, total, doneCalls, donePlacements);
          ConcatAssoc(calls0, doneCalls, p.calls);
          return;
        }
        FillAdvance(fillings, i, original, attempts, q, total, doneCalls, donePlacements);
        ConcatAssoc(calls0, doneCalls, p.calls);
        doneCalls := doneCalls + p.calls;
        donePlacements := donePlacements + [request];
        i := i + 1;
      }
      ghost var p := Place(attempts, original, gateway.replies);
      FillFallback(fillings, original, attempts, gateway.replies, total, doneCalls, donePlacements);
      response := adapter.PlaceMarketOrder(original);
      ConcatAssoc(calls0, doneCalls, p.calls);
    }
  }
}
