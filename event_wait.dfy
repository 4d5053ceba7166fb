/**
 * The event-wait primitive and the request/response bridge, as functions on
 * the part of the shared state they touch: the pending tags of the event
 * object, `ble.error`, and the trace of requests handed to the transport.
 * The driver's methods (module Driver) are proved to follow these functions;
 * the lemmas here state what the functions promise.
 */
module EventWait {
  import opened Protocol

  /** Pending tags of the event object, `ble.error`, and the request trace. */
  datatype Link = Link(posted: set<Tag>, error: Status, trace: seq<Request>)

  /** What one Event_pend on `mask` observes and leaves behind. */
  datatype PendResult = PendResult(observed: set<Tag>, link: Link)

  /**
   * One Event_pend(apEvent, AP_NONE, mask, timeout). The tags already posted
   * and the tags that arrive during the wait form the pool; the wait returns
   * the masked part of the pool (nothing: a timeout) and consumes it, and
   * leaves the unmasked tags posted. If the other context posted `Error`
   * during the wait it stored its status into `ble.error` first.
   */
  function Pend(link: Link, mask: set<Tag>, w: Arrival): PendResult
  {
    var pool := link.posted + w.tags;
    PendResult(pool * mask,
               link.(posted := pool - mask,
                     error := if Error in w.tags then w.errorStatus else link.error))
  }

  /**
   * A wait returns only tags it waited for, exactly those posted before or
   * during it; it leaves every other posted tag posted and sends nothing.
   */
  lemma PendTakesMasked(link: Link, mask: set<Tag>, w: Arrival, t: Tag)
    ensures Pend(link, mask, w).observed <= mask
    ensures t in Pend(link, mask, w).observed <==> t in mask && (t in link.posted || t in w.tags)
    ensures t in Pend(link, mask, w).link.posted <==> t !in mask && (t in link.posted || t in w.tags)
    ensures Pend(link, mask, w).link.trace == link.trace
  {
  }

  /**
   * isError(status): BLE_CHECK_ERROR means the error is already recorded and
   * leaves it alone; any other status is stored, and it is an error unless it
   * is SNP_SUCCESS.
   */
  function IsErrorStep(link: Link, status: Status): (bool, Link)
  {
    if status == CheckError then (true, link)
    else (status != Success, link.(error := status))
  }

  lemma IsErrorFacts(link: Link, status: Status)
    ensures IsErrorStep(link, status).0 <==> status != Success
    ensures status == CheckError ==> IsErrorStep(link, status).1 == link
    ensures status != CheckError ==> IsErrorStep(link, status).1 == link.(error := status)
    ensures !IsErrorStep(link, status).0 ==> IsErrorStep(link, status).1.error == Success
  {
  }

  /**
   * apEventPend(event): resets `ble.error`, waits on `event | AP_ERROR`, for
   * the advertisement-data response waits once more and discards the result,
   * then decides: the event was observed (true); nothing was observed (the
   * error becomes BLE_TIMEOUT); only the error tag was observed (the error
   * stays as its poster stored it).
   */
  function EventPend(link: Link, event: Tag, first: Arrival, second: Arrival): (bool, Link)
  {
    var p1 := Pend(link.(error := Success), {event, Error}, first);
    var l2 := if event == AdvDataRsp then Pend(p1.link, {event, Error}, second).link else p1.link;
    if event in p1.observed then (true, l2)
    else if p1.observed == {} then (false, l2.(error := Timeout))
    else (false, l2)
  }

  /** The wait succeeds exactly when the requested tag was posted before or during it. */
  lemma WaitSucceedsIffTagPosted(link: Link, event: Tag, first: Arrival, second: Arrival)
    ensures EventPend(link, event, first, second).0 <==> event in link.posted + first.tags
  {
  }

  /**
   * Neither the tag nor the error tag: the wait times out, `ble.error` is
   * BLE_TIMEOUT, and the posted tags other than the two waited on remain.
   */
  lemma WaitTimeout(link: Link, event: Tag, first: Arrival, second: Arrival)
    requires event != Error
    requires event !in link.posted + first.tags && Error !in link.posted + first.tags
    ensures EventPend(link, event, first, second) ==
      (false, Link(if event == AdvDataRsp then (link.posted + first.tags + second.tags) - {event, Error}
                   else link.posted + first.tags,
                   Timeout, link.trace))
  {
    var p1 := Pend(link.(error := Success), {event, Error}, first);
    assert p1.observed == {} by {
      forall t | t in p1.observed ensures false { }
    }
    assert p1.link.posted == link.posted + first.tags;
  }

  /**
   * Only the error tag arrived during the wait: the result is false and
   * `ble.error` is the status its poster stored (for a tag other than the
   * advertisement-data response, whose second wait may store a later one).
   */
  lemma WaitErrorKeepsPostedStatus(link: Link, event: Tag, first: Arrival, second: Arrival)
    requires event != AdvDataRsp && event != Error
    requires event !in link.posted + first.tags && Error in first.tags
    ensures EventPend(link, event, first, second) ==
      (false, Link(link.posted + first.tags - {event, Error}, first.errorStatus, link.trace))
  {
    var p1 := Pend(link.(error := Success), {event, Error}, first);
    assert Error in p1.observed;
  }

  /**
   * An error tag left posted by an earlier, unsolicited failure fails the next
   * wait, and since that wait first resets `ble.error`, the failure is
   * reported with `ble.error == BLE_SUCCESS`.
   */
  lemma StaleErrorFailsNextWait(link: Link, event: Tag, first: Arrival)
    requires event != AdvDataRsp && event != Error
    requires Error in link.posted && event !in link.posted + first.tags && Error !in first.tags
    ensures !EventPend(link, event, first, Quiet).0
    ensures EventPend(link, event, first, Quiet).1.error == Success
  {
    var p1 := Pend(link.(error := Success), {event, Error}, first);
    assert Error in p1.observed;
  }

  /**
   * The doubly posted advertisement-data confirmation: when it is posted in
   * both windows, one success is reported and no copy of it is left posted
   * for the next, unrelated wait.
   */
  lemma DoublePostAbsorbed(link: Link, first: Arrival, second: Arrival)
    requires AdvDataRsp in first.tags && AdvDataRsp in second.tags
    ensures EventPend(link, AdvDataRsp, first, second).0
    ensures AdvDataRsp !in EventPend(link, AdvDataRsp, first, second).1.posted
    ensures Error !in EventPend(link, AdvDataRsp, first, second).1.posted
  {
  }

  /** A wait never changes the request trace, and consumes the tags it waited on. */
  lemma WaitConsumes(link: Link, event: Tag, first: Arrival, second: Arrival)
    ensures EventPend(link, event, first, second).1.trace == link.trace
    ensures event !in EventPend(link, event, first, second).1.posted
    ensures Error !in EventPend(link, event, first, second).1.posted
  {
  }

  /**
   * The bridge's call pattern `isError(send(req)) || !apEventPend(tag)`: the
   * request goes into the trace, a rejected send fails at once with its
   * status in `ble.error`, otherwise the wait decides.
   */
  function Call(link: Link, req: Request, tag: Tag, ex: Exchange): (Status, Link)
  {
    var sent := IsErrorStep(link.(trace := link.trace + [req]), ex.status);
    if sent.0 then (CheckError, sent.1)
    else
      var waited := EventPend(sent.1, tag, ex.first, ex.second);
      (if waited.0 then Success else CheckError, waited.1)
  }

  /**
   * A call succeeds exactly when the transport accepted the request and its
   * completion tag was posted; it always records the request, and it fails
   * with BLE_CHECK_ERROR only.
   */
  lemma CallOutcome(link: Link, req: Request, tag: Tag, ex: Exchange)
    ensures Call(link, req, tag, ex).0 == Success <==>
            ex.status == Success && tag in link.posted + ex.first.tags
    ensures Call(link, req, tag, ex).0 in {Success, CheckError}
    ensures Call(link, req, tag, ex).1.trace == link.trace + [req]
    ensures ex.status != Success && ex.status != CheckError ==>
            Call(link, req, tag, ex) == (CheckError, link.(trace := link.trace + [req], error := ex.status))
  {
    var l1 := link.(trace := link.trace + [req]);
    if ex.status == Success {
      WaitSucceedsIffTagPosted(l1.(error := Success), tag, ex.first, ex.second);
      WaitConsumes(l1.(error := Success), tag, ex.first, ex.second);
    }
  }

  /**
   * A guarded call: `(!cond && isError(e)) || call`. When the condition
   * fails the error is recorded and the transport is not contacted.
   */
  function Guarded(cond: bool, e: Status, link: Link, req: Request, tag: Tag, ex: Exchange): (Status, Link)
    requires e != Success && e != CheckError
  {
    if !cond then (CheckError, link.(error := e)) else Call(link, req, tag, ex)
  }

  /**
   * The short-circuit of a guarded call leaves the trace and the posted tags
   * as they were, whatever the history, and reports the guard's error.
   */
  lemma GuardShortCircuits(e: Status, link: Link, req: Request, tag: Tag, ex: Exchange)
    requires e != Success && e != CheckError
    ensures Guarded(false, e, link, req, tag, ex) == (CheckError, Link(link.posted, e, link.trace))
  {
  }
}
