/** The Binance futures order gateway: what it asks of the venue for each request, and
    what it publishes once the venue has answered. */
module BinanceGateway {
  import opened Types
  import opened Orders

  /** A request of the OMS for one order. */
  datatype Request =
    | New
    | Cancel
    | AmendTo(price: Option<Price>, quantity: Quantity)

  /** A REST call on that order. */
  datatype Call =
    | Post
    | Delete
    | Put(price: Option<Price>, quantity: Quantity)

  /** How a call ends: success, an amend that reports a dead order, a venue error code, or
      a transport fault after which the outcome is unknown. */
  datatype Answer =
    | Done
    | AmendApplied(price: Option<Price>, quantity: Option<Quantity>)
    | AmendEndedOrder
    | VenueError(code: int)
    | Fault

  const UNKNOWN_ORDER: int := -2011
  const NO_SUCH_ORDER: int := -2013
  const AMEND_NOOP: int := -5027
  const AMEND_MODIFY_LIMIT: int := -5026

  predicate SaysGone(code: int) { code == UNKNOWN_ORDER || code == NO_SUCH_ORDER }

  /** Where a handler is suspended: waiting for a call, or about to resume with its answer. */
  datatype Phase =
    | Waiting(request: Request, call: Call)
    | Answered(request: Request, call: Call, answer: Answer)

  function FirstCall(r: Request): Call {
    match r
    case New => Post
    case Cancel => Delete
    case AmendTo(price, quantity) => Put(price, quantity)
  }

  /** What the handler publishes, and the further call it makes, if any, when `call` made
      for `request` has been answered. */
  datatype Resumption = Resumption(next: Option<Phase>, publish: seq<Response>)

  function AfterPost(answer: Answer, ts: int): Resumption {
    match answer
    case VenueError(_) => Resumption(None, [Reject(ts)])
    case Fault => Resumption(None, [Reject(ts)])
    case _ => Resumption(None, [Ack("", ts)])
  }

  function AfterCancel(answer: Answer, ts: int): Resumption {
    match answer
    case VenueError(code) => Resumption(None, [if SaysGone(code) then CancelDone(ts) else CancelRejected(ts)])
    case Fault => Resumption(None, [CancelRejected(ts)])
    case _ => Resumption(None, [])
  }

  function AfterPut(request: Request, answer: Answer, ts: int): Resumption
    requires request.AmendTo?
  {
    match answer
    case VenueError(code) =>
      if code == AMEND_NOOP then Resumption(None, [])
      else if code == NO_SUCH_ORDER then Resumption(None, [CancelDone(ts)])
      else if code == AMEND_MODIFY_LIMIT then Resumption(Some(Waiting(request, Delete)), [])
      else Resumption(None, [AmendRejected(ts)])
    case Fault => Resumption(None, [AmendRejected(ts)])
    case AmendEndedOrder => Resumption(None, [CancelDone(ts)])
    case AmendApplied(price, quantity) =>
      Resumption(None, [Amended(if price.Some? then price else request.price,
                                Some(if quantity.Some? then quantity.value else request.quantity), None, ts)])
    case Done => Resumption(None, [Amended(request.price, Some(request.quantity), None, ts)])
  }

  /** The DELETE that follows an exhausted modify limit. */
  function AfterForcedCancel(answer: Answer, ts: int): Resumption {
    match answer
    case VenueError(code) => Resumption(None, [if SaysGone(code) then CancelDone(ts) else AmendRejected(ts)])
    case Fault => Resumption(None, [AmendRejected(ts)])
    case _ => Resumption(None, [CancelDone(ts)])
  }

  function AfterAnswer(request: Request, call: Call, answer: Answer, ts: int): Resumption {
    match request
    case New => AfterPost(answer, ts)
    case Cancel => AfterCancel(answer, ts)
    case AmendTo(_, _) => if call.Put? then AfterPut(request, answer, ts) else AfterForcedCancel(answer, ts)
  }

  /** The gateway object: one handler at a time, suspended at REST calls. */
  class Gateway {
    var phase: Option<Phase>
    var published: seq<Response>

    constructor ()
      ensures phase.None? && published == []
    {
      phase, published := None, [];
    }

    /** Takes the next request; a request that cannot be translated is rejected at once. */
    method Take(request: Request, translates: bool, ts: int)
      requires phase.None?
      modifies this
      ensures request.New? && !translates ==> phase.None? && published == old(published) + [Reject(ts)]
      ensures !(request.New? && !translates) ==>
              phase == Some(Waiting(request, FirstCall(request))) && published == old(published)
    {
      match request {
        case New =>
          if !translates {
            published := published + [Reject(ts)];
            return;
          }
          phase := Some(Waiting(request, Post));
        case Cancel => phase := Some(Waiting(request, Delete));
        case AmendTo(price, quantity) => phase := Some(Waiting(request, Put(price, quantity)));
      }
    }

    method Resume(answer: Answer, ts: int)
      requires phase.Some? && phase.value.Waiting?
      modifies this
      ensures var r := AfterAnswer(old(phase).value.request, old(phase).value.call, answer, ts);
              phase == r.next && published == old(published) + r.publish
    {
      var request, call := phase.value.request, phase.value.call;
      phase := None;
      match request {
        case New => HandleNewAnswer(answer, ts);
        case Cancel => HandleCancelAnswer(answer, ts);
        case AmendTo(_, _) =>
          if call.Put? {
            HandleAmendAnswer(request, answer, ts);
          } else {
            HandleForcedCancelAnswer(answer, ts);
          }
      }
    }

    method HandleNewAnswer(answer: Answer, ts: int)
      modifies this`published
      ensures published == old(published) + AfterPost(answer, ts).publish
    {
      if answer.VenueError? || answer.Fault? {
        published := published + [Reject(ts)];
        return;
      }
      published := published + [Ack("", ts)];
    }

    method HandleCancelAnswer(answer: Answer, ts: int)
      modifies this`published
      ensures published == old(published) + AfterCancel(answer, ts).publish
    {
      match answer {
        case VenueError(code) =>
          if code == UNKNOWN_ORDER || code == NO_SUCH_ORDER {
            published := published + [CancelDone(ts)];
            return;
          }
          published := published + [CancelRejected(ts)];
        case Fault => published := published + [CancelRejected(ts)];
        case _ => // the user-data stream reports the cancel
      }
    }

    method HandleAmendAnswer(request: Request, answer: Answer, ts: int)
      requires request.AmendTo? && phase.None?
      modifies this
      ensures phase == AfterPut(request, answer, ts).next
      ensures published == old(published) + AfterPut(request, answer, ts).publish
    {
      match answer {
        case VenueError(code) =>
          if code == AMEND_NOOP {
            return;
          }
          if code == NO_SUCH_ORDER {
            published := published + [CancelDone(ts)];
            return;
          }
          if code == AMEND_MODIFY_LIMIT {
            phase := Some(Waiting(request, Delete));
            return;
          }
          published := published + [AmendRejected(ts)];
        case Fault => published := published + [AmendRejected(ts)];
        case AmendEndedOrder => published := published + [CancelDone(ts)];
        case AmendApplied(price, quantity) =>
          var appliedPrice := if price.Some? then price else request.price;
          var appliedQuantity := if quantity.Some? then quantity.value else request.quantity;
          published := published + [Amended(appliedPrice, Some(appliedQuantity), None, ts)];
        case Done => published := published + [Amended(request.price, Some(request.quantity), None, ts)];
      }
    }

    method HandleForcedCancelAnswer(answer: Answer, ts: int)
      modifies this`published
      ensures published == old(published) + AfterForcedCancel(answer, ts).publish
    {
      match answer {
        case VenueError(code) =>
          published := published + [if SaysGone(code) then CancelDone(ts) else AmendRejected(ts)];
        case Fault => published := published + [AmendRejected(ts)];
        case _ => published := published + [CancelDone(ts)];
      }
    }
  }
}
