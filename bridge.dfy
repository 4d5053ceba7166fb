/**
 * The application-facing request operations: each one either short-circuits
 * on a failed precondition (recording the error, contacting nobody) or sends
 * one request and waits for its completion tag. startAdvert first makes sure
 * every advertisement slot holds data. hciCommand and testCommand take the
 * response the callback published and release the callback, which waits
 * until the response has been copied.
 */
module Bridge {
  import opened Protocol
  import opened EventWait
  import opened Advert
  import opened Dispatch

  /** terminateConn: only while connected; the request carries the connection handle. */
  function TerminateConnSpec(connected: bool, connHandle: uint16, link: Link, ex: Exchange): (Status, Link)
  {
    Guarded(connected, NotConnected, link, TerminateConnReq(connHandle), ConnTerm, ex)
  }

  /** stopAdvert: only while advertising. */
  function StopAdvertSpec(advertising: bool, link: Link, ex: Exchange): (Status, Link)
  {
    Guarded(advertising, NotAdvertising, link, AdvDisableReq, AdvEnd, ex)
  }

  /** setConnParams: only while connected. */
  function SetConnParamsSpec(connected: bool, req: ConnParamsReq, link: Link, ex: Exchange): (Status, Link)
  {
    Guarded(connected, NotConnected, link, ConnParamsUpdateReq(req), ConnParamsCnf, ex)
  }

  /** useWhiteListPolicy: no precondition. */
  function UseWhiteListPolicySpec(policy: uint8, link: Link, ex: Exchange): (Status, Link)
  {
    Call(link, WhiteListReq(policy), WhiteListRsp, ex)
  }

  /**
   * startAdvert: not while advertising; then advertDataInit, whose outcome is
   * passed through isError (so its success stores BLE_SUCCESS); then the
   * enable request, carrying the settings when there are any.
   */
  function StartAdvertSpec(advertising: bool, a: AdvState, settings: Option<AdvertSettings>,
                           initEnv: seq<Exchange>, ex: Exchange): (Status, AdvState)
    requires |a.slots| == MaxAdvertIdx && |initEnv| >= MaxAdvertIdx
  {
    if advertising then (CheckError, a.(link := a.link.(error := AlreadyAdvertising)))
    else
      var init := InitFrom(a, initEnv, 0);
      if init.0 == CheckError then (CheckError, init.1)
      else
        var a1 := init.1.(link := init.1.link.(error := init.0));
        if init.0 != Success then (CheckError, a1)
        else
          var c := Call(a1.link, AdvEnableReq(settings), AdvEnb, ex);
          (c.0, a1.(link := c.1))
  }

  /**
   * The precondition short-circuits: each returns BLE_CHECK_ERROR, leaves
   * exactly the named error, and sends nothing, whatever came before.
   */
  lemma PreconditionsShortCircuit(link: Link, connHandle: uint16, req: ConnParamsReq, a: AdvState,
                                  settings: Option<AdvertSettings>, initEnv: seq<Exchange>, ex: Exchange)
    requires |a.slots| == MaxAdvertIdx && |initEnv| >= MaxAdvertIdx
    ensures TerminateConnSpec(false, connHandle, link, ex) == (CheckError, link.(error := NotConnected))
    ensures SetConnParamsSpec(false, req, link, ex) == (CheckError, link.(error := NotConnected))
    ensures StopAdvertSpec(false, link, ex) == (CheckError, link.(error := NotAdvertising))
    ensures StartAdvertSpec(true, a, settings, initEnv, ex) == (CheckError, a.(link := a.link.(error := AlreadyAdvertising)))
  {
  }

  /**
   * Past its precondition each operation sends its one request and succeeds
   * exactly when the transport accepts it and the completion tag is posted.
   */
  lemma GuardedRequestsOutcome(link: Link, connHandle: uint16, req: ConnParamsReq, policy: uint8, ex: Exchange)
    ensures TerminateConnSpec(true, connHandle, link, ex).1.trace == link.trace + [TerminateConnReq(connHandle)]
    ensures TerminateConnSpec(true, connHandle, link, ex).0 == Success <==>
            ex.status == Success && ConnTerm in link.posted + ex.first.tags
    ensures StopAdvertSpec(true, link, ex).1.trace == link.trace + [AdvDisableReq]
    ensures StopAdvertSpec(true, link, ex).0 == Success <==>
            ex.status == Success && AdvEnd in link.posted + ex.first.tags
    ensures SetConnParamsSpec(true, req, link, ex).1.trace == link.trace + [ConnParamsUpdateReq(req)]
    ensures SetConnParamsSpec(true, req, link, ex).0 == Success <==>
            ex.status == Success && ConnParamsCnf in link.posted + ex.first.tags
    ensures UseWhiteListPolicySpec(policy, link, ex).1.trace == link.trace + [WhiteListReq(policy)]
    ensures UseWhiteListPolicySpec(policy, link, ex).0 == Success <==>
            ex.status == Success && WhiteListRsp in link.posted + ex.first.tags
  {
    CallOutcome(link, TerminateConnReq(connHandle), ConnTerm, ex);
    CallOutcome(link, AdvDisableReq, AdvEnd, ex);
    CallOutcome(link, ConnParamsUpdateReq(req), ConnParamsCnf, ex);
    CallOutcome(link, WhiteListReq(policy), WhiteListRsp, ex);
  }

  /**
   * startAdvert succeeds exactly when advertDataInit succeeded, the transport
   * accepted the enable request and the enable confirmation was posted before
   * or during its wait. A success filled every empty slot that has a default,
   * released nothing and sent the enable request last.
   */
  lemma StartAdvertOutcome(a: AdvState, settings: Option<AdvertSettings>, initEnv: seq<Exchange>, ex: Exchange)
    requires WellFormed(a) && |initEnv| >= MaxAdvertIdx
    ensures var init := InitFrom(a, initEnv, 0);
      StartAdvertSpec(false, a, settings, initEnv, ex).0 == Success <==>
        init.0 == Success && ex.status == Success && AdvEnb in init.1.link.posted + ex.first.tags
    ensures StartAdvertSpec(false, a, settings, initEnv, ex).0 == Success ==>
      var r := StartAdvertSpec(false, a, settings, initEnv, ex).1;
      && r.released == a.released
      && (forall j :: 0 <= j < MaxAdvertIdx ==>
            r.slots[j] == if a.slots[j] == None && j != 1 then Some(Builtin) else a.slots[j])
      && |r.link.trace| > 0 && r.link.trace[|r.link.trace| - 1] == AdvEnableReq(settings)
  {
    InitFillsOnlyEmptySlots(a, initEnv, 0);
    var init := InitFrom(a, initEnv, 0);
    var a1 := init.1.(link := init.1.link.(error := init.0));
    CallOutcome(a1.link, AdvEnableReq(settings), AdvEnb, ex);
  }

  /** The fields setSingleConnParam can override, by their offsetof in the request. */
  datatype ConnParamField = IntervalMin | IntervalMax | SlaveLatency | SupervisionTimeout

  // The connection-interval limits of the Bluetooth Core Specification
  // (7.5 ms and 4 s in 1.25 ms units), SNP_CONN_INT_MIN and SNP_CONN_INT_MAX.
  const ConnIntMin: uint16 := 0x0006
  const ConnIntMax: uint16 := 0x0C80

  function FieldOf(r: ConnParamsReq, f: ConnParamField): uint16
  {
    match f
    case IntervalMin => r.intervalMin
    case IntervalMax => r.intervalMax
    case SlaveLatency => r.slaveLatency
    case SupervisionTimeout => r.supervisionTimeout
  }

  /**
   * setSingleConnParam's request: the current handle, the widest interval
   * range, the latency and timeout in use, then one field overwritten.
   */
  function SingleParamRequest(connHandle: uint16, used: ConnParams, f: ConnParamField, value: uint16): (r: ConnParamsReq)
    ensures r.connHandle == connHandle
    ensures FieldOf(r, f) == value
    ensures forall g :: g != f ==>
      FieldOf(r, g) == FieldOf(ConnParamsReq(connHandle, ConnIntMin, ConnIntMax, used.slaveLatency, used.supervisionTimeout), g)
  {
    var base := ConnParamsReq(connHandle, ConnIntMin, ConnIntMax, used.slaveLatency, used.supervisionTimeout);
    match f
    case IntervalMin => base.(intervalMin := value)
    case IntervalMax => base.(intervalMax := value)
    case SlaveLatency => base.(slaveLatency := value)
    case SupervisionTimeout => base.(supervisionTimeout := value)
  }

  /**
   * hciCommand: the command goes out through isError and the bridge waits
   * for the HCI response; then it copies the response the callback published
   * in asyncRspData and posts CopiedAsyncData, which releases the callback.
   * The flag stands for a non-NULL return, the second component for the copy.
   */
  function HciCommandSpec(s: Shared, opcode: uint16, data: seq<uint8>, ex: Exchange): (bool, Option<AsyncMsg>, Shared)
  {
    var c := Call(s.link, HciCmdReq(opcode, data), HciRsp, ex);
    if c.0 != Success then (false, None, s.(link := c.1))
    else (true, s.asyncRspData, Post(s.(link := c.1), CopiedAsyncData))
  }

  /**
   * testCommand: the request has no status to check; the bridge waits for
   * the test response, copies it into the caller's record and releases the
   * callback. The second component is what the caller's record receives.
   */
  function TestCommandSpec(s: Shared, w: Arrival): (Status, Option<AsyncMsg>, Shared)
  {
    var waited := EventPend(s.link.(trace := s.link.trace + [TestCmdReq]), Tag.TestRsp, w, Quiet);
    if !waited.0 then (CheckError, None, s.(link := waited.1))
    else (Success, s.asyncRspData, Post(s.(link := waited.1), CopiedAsyncData))
  }

  /**
   * hciCommand returns a response exactly when the transport accepted the
   * command and the HCI response tag was posted; it always sends the one
   * command, changes nothing but the link, and releases the callback only
   * on success.
   */
  lemma HciCommandOutcome(s: Shared, opcode: uint16, data: seq<uint8>, ex: Exchange)
    ensures var r := HciCommandSpec(s, opcode, data, ex);
      && (r.0 <==> ex.status == Success && HciRsp in s.link.posted + ex.first.tags)
      && r.2.link.trace == s.link.trace + [HciCmdReq(opcode, data)]
      && r.2 == s.(link := r.2.link)
      && (r.0 ==> r.1 == s.asyncRspData && CopiedAsyncData in r.2.link.posted)
      && (!r.0 ==> r.1 == None && (CopiedAsyncData in r.2.link.posted ==> CopiedAsyncData in s.link.posted + ex.first.tags))
  {
    CallOutcome(s.link, HciCmdReq(opcode, data), HciRsp, ex);
    if ex.status == Success {
      var l1 := s.link.(trace := s.link.trace + [HciCmdReq(opcode, data)], error := Success);
      PendTakesMasked(l1, {HciRsp, Error}, ex.first, CopiedAsyncData);
    }
  }

  /**
   * testCommand succeeds exactly when the test response tag was posted; it
   * always sends the one request, and on success hands the published
   * response to the caller and releases the callback.
   */
  lemma TestCommandOutcome(s: Shared, w: Arrival)
    ensures var r := TestCommandSpec(s, w);
      && (r.0 == Success <==> Tag.TestRsp in s.link.posted + w.tags)
      && r.0 in {Success, CheckError}
      && r.2.link.trace == s.link.trace + [TestCmdReq]
      && r.2 == s.(link := r.2.link)
      && (r.0 == Success ==> r.1 == s.asyncRspData && CopiedAsyncData in r.2.link.posted)
      && (r.0 != Success ==> r.1 == None)
  {
    var l1 := s.link.(trace := s.link.trace + [TestCmdReq]);
    WaitSucceedsIffTagPosted(l1, Tag.TestRsp, w, Quiet);
    WaitConsumes(l1, Tag.TestRsp, w, Quiet);
  }

  /**
   * The copy handshake. The callback's handling of a successful HCI response
   * is: publish it and post the HCI tag, then wait for CopiedAsyncData. When
   * the bridge's wait finds the published response, hciCommand returns that
   * response and leaves CopiedAsyncData posted, so the callback's wait takes
   * it and the callback is released.
   */
  lemma HciHandshake(s: Shared, rspOpcode: uint16, opcode: uint16, data: seq<uint8>, ex: Exchange, stall: Arrival)
    requires ex.status == Success
    ensures var m := HciCmdRsp(rspOpcode, Success);
      var published := Post(s.(opcode := rspOpcode as nat, asyncRspData := Some(m)), HciRsp);
      var r := HciCommandSpec(published, opcode, data, ex);
      && OnAsync(s, m, stall) == published.(link := Pend(published.link, {CopiedAsyncData}, stall).link)
      && r.0 && r.1 == Some(m)
      && CopiedAsyncData in Pend(r.2.link, {CopiedAsyncData}, Quiet).observed
      && CopiedAsyncData !in Pend(r.2.link, {CopiedAsyncData}, Quiet).link.posted
  {
    var m := HciCmdRsp(rspOpcode, Success);
    var published := Post(s.(opcode := rspOpcode as nat, asyncRspData := Some(m)), HciRsp);
    HciCommandOutcome(published, opcode, data, ex);
  }

  /** The same handshake for the test response, which carries no status. */
  lemma TestHandshake(s: Shared, memAlo: uint16, memMax: uint16, memSize: uint16, w: Arrival, stall: Arrival)
    ensures var m := AsyncMsg.TestRsp(memAlo, memMax, memSize);
      var published := Post(s.(asyncRspData := Some(m)), Tag.TestRsp);
      var r := TestCommandSpec(published, w);
      && OnAsync(s, m, stall) == published.(link := Pend(published.link, {CopiedAsyncData}, stall).link)
      && r.0 == Success && r.1 == Some(m)
      && CopiedAsyncData in Pend(r.2.link, {CopiedAsyncData}, Quiet).observed
      && CopiedAsyncData !in Pend(r.2.link, {CopiedAsyncData}, Quiet).link.posted
  {
    var m := AsyncMsg.TestRsp(memAlo, memMax, memSize);
    TestCommandOutcome(Post(s.(asyncRspData := Some(m)), Tag.TestRsp), w);
  }
}
