/**
 * The `ble` object and the file-scope state of BLE.cpp, as one class whose
 * methods update it in place. Every method is proved against the pure
 * definitions of the other modules: its result and new state are those the
 * definition gives for the old state, and nothing else changes.
 */
module Driver {
  import opened Protocol
  import opened EventWait
  import opened Chunking
  import opened Advert
  import opened Values
  import opened Dispatch
  import opened Bridge
  import opened Pairing

  /** The all-zero six-byte device address the public member is reset to. */
  function ZeroAddr(): (r: seq<uint8>)
    ensures |r| == 6 && forall i :: 0 <= i < |r| ==> r[i] == 0
  {
    [0, 0, 0, 0, 0, 0]
  }

  /** The public members' values after resetPublicMembers. */
  const DefaultMtu: uint16 := 20

  /** A characteristic as the bridge reads it: handle, client configuration, value buffer and stored length. */
  class Characteristic {
    var handle: uint16
    var cccd: uint16
    var value: seq<uint8>
    var valueLen: nat

    ghost predicate Valid()
      reads this
    {
      valueLen <= |value|
    }

    /** The stored value: the first `valueLen` bytes of the buffer. */
    function Stored(): seq<uint8>
      reads this
      requires Valid()
    {
      value[..valueLen]
    }

    constructor (handle: uint16, cccd: uint16, value: seq<uint8>)
      ensures Valid() && Stored() == value
      ensures this.handle == handle && this.cccd == cccd && this.value == value && valueLen == |value|
    {
      this.handle := handle;
      this.cccd := cccd;
      this.value := value;
      valueLen := |value|;
    }
  }

  class Ble {
    // The public members of the BLE class.
    var error: Status
    var opcode: nat
    var usedConnParams: ConnParams
    var bleAddr: seq<uint8>
    var authKey: nat
    var mtu: uint16
    // The file-scope globals of BLE.cpp that the callbacks write.
    var connected: bool
    var advertising: bool
    var connHandle: uint16
    var securityState: uint8
    var asyncRspData: Option<AsyncMsg>
    var eventHandlerData: AuthEvt
    // The advertisement slots (a private member).
    const advertDataArr: array<Option<AdvBuf>>
    // The event object's posted tags and the requests handed to the transport.
    var posted: set<Tag>
    var trace: seq<Request>
    // The advertisement buffers handed to free(), in order.
    var released: seq<AdvBuf>

    ghost predicate Valid()
      reads this, advertDataArr
    {
      advertDataArr.Length == MaxAdvertIdx && WellFormed(Adv())
    }

    function LinkState(): Link
      reads this
    {
      Link(posted, error, trace)
    }

    function SharedState(): Shared
      reads this
    {
      Shared(connected, advertising, connHandle, usedConnParams, bleAddr, mtu,
             securityState, opcode, authKey, asyncRspData, eventHandlerData, LinkState())
    }

    function Adv(): AdvState
      reads this, advertDataArr
    {
      AdvState(advertDataArr[..], LinkState(), released)
    }

    /** The state of the statically initialised object: no connection, no advertising, every slot empty. */
    constructor ()
      ensures Valid() && fresh(advertDataArr)
      ensures SharedState() == Shared(false, false, InvalidConnHandle, ZeroConnParams, ZeroAddr(), DefaultMtu,
                                      0, 0, 0, None, AuthEvt(0, 0, 0), Link({}, Success, []))
      ensures advertDataArr[..] == [None, None, None] && released == []
    {
      error := Success;
      opcode := 0;
      usedConnParams := ZeroConnParams;
      bleAddr := ZeroAddr();
      authKey := 0;
      mtu := DefaultMtu;
      connected := false;
      advertising := false;
      connHandle := InvalidConnHandle;
      securityState := 0;
      asyncRspData := None;
      eventHandlerData := AuthEvt(0, 0, 0);
      advertDataArr := new Option<AdvBuf>[MaxAdvertIdx](_ => None);
      posted := {};
      trace := [];
      released := [];
      new;
      assert advertDataArr[..] == [None, None, None];
    }

    /** isError: the status is stored unless it is BLE_CHECK_ERROR; it is an error unless SNP_SUCCESS. */
    method IsError(status: Status) returns (failed: bool)
      modifies this
      ensures (failed, LinkState()) == IsErrorStep(old(LinkState()), status)
      ensures SharedState() == old(SharedState()).(link := LinkState()) && released == old(released)
    {
      if status == CheckError {
        return true;
      }
      error := status;
      failed := status != Success;
    }

    /** Event_post. */
    method EventPost(t: Tag)
      modifies this
      ensures SharedState() == Post(old(SharedState()), t) && released == old(released)
    {
      posted := posted + {t};
    }

    /** apPostError: store the status, then post the error tag. */
    method ApPostError(status: Status)
      modifies this
      ensures SharedState() == PostError(old(SharedState()), status) && released == old(released)
    {
      error := status;
      posted := posted + {Error};
    }

    /**
     * Event_pend on `mask`: what the other context did meanwhile (`w`) takes
     * effect, then the masked tags that are posted are taken and returned.
     */
    method EventPendOn(mask: set<Tag>, w: Arrival) returns (observed: set<Tag>)
      modifies this
      ensures PendResult(observed, LinkState()) == Pend(old(LinkState()), mask, w)
      ensures SharedState() == old(SharedState()).(link := LinkState()) && released == old(released)
    {
      if Error in w.tags {
        error := w.errorStatus;
      }
      posted := posted + w.tags;
      observed := posted * mask;
      posted := posted - mask;
    }

    /** apEventPend. */
    method ApEventPend(event: Tag, first: Arrival, second: Arrival) returns (ok: bool)
      modifies this
      ensures (ok, LinkState()) == EventPend(old(LinkState()), event, first, second)
      ensures SharedState() == old(SharedState()).(link := LinkState()) && released == old(released)
    {
      error := Success;
      var observed := EventPendOn({event, Error}, first);
      if event == AdvDataRsp {
        var discarded := EventPendOn({event, Error}, second);
      }
      if event in observed {
        ok := true;
      } else if observed == {} {
        error := Timeout;
        ok := false;
      } else {
        ok := false;
      }
    }

    /** Hand a request to the transport, which answers `status`. */
    method Transmit(req: Request, status: Status) returns (r: Status)
      modifies this
      ensures r == status && trace == old(trace) + [req]
      ensures SharedState() == old(SharedState()).(link := LinkState()) && released == old(released)
      ensures posted == old(posted) && error == old(error)
    {
      trace := trace + [req];
      r := status;
    }

    /** The pattern `isError(request) || !apEventPend(tag)`. */
    method SendAndWait(req: Request, tag: Tag, ex: Exchange) returns (st: Status)
      modifies this
      ensures (st, LinkState()) == Call(old(LinkState()), req, tag, ex)
      ensures SharedState() == old(SharedState()).(link := LinkState()) && released == old(released)
    {
      ghost var sentLink := LinkState().(trace := trace + [req]);
      var sent := Transmit(req, ex.status);
      assert LinkState() == sentLink;
      var failed := IsError(sent);
      if failed {
        return CheckError;
      }
      var ok := ApEventPend(tag, ex.first, ex.second);
      st := if ok then Success else CheckError;
    }

    /** terminateConn. */
    method TerminateConn(ex: Exchange) returns (st: Status)
      modifies this
      ensures (st, LinkState()) == TerminateConnSpec(old(connected), old(connHandle), old(LinkState()), ex)
      ensures SharedState() == old(SharedState()).(link := LinkState()) && released == old(released)
    {
      if !connected {
        var failed := IsError(NotConnected);
        return CheckError;
      }
      st := SendAndWait(TerminateConnReq(connHandle), ConnTerm, ex);
    }

    /** stopAdvert. */
    method StopAdvert(ex: Exchange) returns (st: Status)
      modifies this
      ensures (st, LinkState()) == StopAdvertSpec(old(advertising), old(LinkState()), ex)
      ensures SharedState() == old(SharedState()).(link := LinkState()) && released == old(released)
    {
      if !advertising {
        var failed := IsError(NotAdvertising);
        return CheckError;
      }
      st := SendAndWait(AdvDisableReq, AdvEnd, ex);
    }

    /** setConnParams. */
    method SetConnParams(req: ConnParamsReq, ex: Exchange) returns (st: Status)
      modifies this
      ensures (st, LinkState()) == SetConnParamsSpec(old(connected), req, old(LinkState()), ex)
      ensures SharedState() == old(SharedState()).(link := LinkState()) && released == old(released)
    {
      if !connected {
        var failed := IsError(NotConnected);
        return CheckError;
      }
      st := SendAndWait(ConnParamsUpdateReq(req), ConnParamsCnf, ex);
    }

    /** setSingleConnParam, behind setMinConnInt, setMaxConnInt, setRespLatency and setBleTimeout. */
    method SetSingleConnParam(f: ConnParamField, value: uint16, ex: Exchange) returns (st: Status)
      modifies this
      ensures (st, LinkState()) ==
        SetConnParamsSpec(old(connected), SingleParamRequest(old(connHandle), old(usedConnParams), f, value), old(LinkState()), ex)
      ensures SharedState() == old(SharedState()).(link := LinkState()) && released == old(released)
    {
      var req := SingleParamRequest(connHandle, usedConnParams, f, value);
      st := SetConnParams(req, ex);
    }

    /** useWhiteListPolicy. */
    method UseWhiteListPolicy(policy: uint8, ex: Exchange) returns (st: Status)
      modifies this
      ensures (st, LinkState()) == UseWhiteListPolicySpec(policy, old(LinkState()), ex)
      ensures SharedState() == old(SharedState()).(link := LinkState()) && released == old(released)
    {
      st := SendAndWait(WhiteListReq(policy), WhiteListRsp, ex);
    }

    /** hciCommand: send, wait for the response, copy the published response and release the callback. */
    method HciCommand(op: uint16, data: seq<uint8>, ex: Exchange) returns (ok: bool, copy: Option<AsyncMsg>)
      modifies this
      ensures (ok, copy, SharedState()) == HciCommandSpec(old(SharedState()), op, data, ex)
      ensures released == old(released)
    {
      var st := SendAndWait(HciCmdReq(op, data), HciRsp, ex);
      if st != Success {
        return false, None;
      }
      copy := asyncRspData;
      EventPost(CopiedAsyncData);
      ok := true;
    }

    /** testCommand: send, wait for the test response, copy it and release the callback. */
    method TestCommand(w: Arrival) returns (st: Status, copy: Option<AsyncMsg>)
      modifies this
      ensures (st, copy, SharedState()) == TestCommandSpec(old(SharedState()), w)
      ensures released == old(released)
    {
      trace := trace + [TestCmdReq];
      var ok := ApEventPend(Tag.TestRsp, w, Quiet);
      if !ok {
        return CheckError, None;
      }
      copy := asyncRspData;
      EventPost(CopiedAsyncData);
      st := Success;
    }

    /** setAdvertData: the slot and the released buffers change only after a confirmed request. */
    method SetAdvertData(t: AdvertType, buf: AdvBuf, ex: Exchange) returns (st: Status)
      requires Valid()
      modifies this, advertDataArr
      ensures Valid()
      ensures (st, Adv()) == SetAdvertDataSpec(old(Adv()), t, buf, ex)
      ensures SharedState() == old(SharedState()).(link := LinkState())
    {
      st := SendAndWait(AdvDataReq(t, Payload(t, buf)), AdvDataRsp, ex);
      if st != Success {
        return CheckError;
      }
      match AdvertIndex(t) {
        case None =>
        case Some(idx) =>
          StoreSlotOf(idx, buf);
      }
    }

    /** The slot update of setAdvertData: release the previous buffer unless it is the default, then store. */
    method StoreSlotOf(idx: nat, buf: AdvBuf)
      requires Valid() && idx < MaxAdvertIdx
      modifies this, advertDataArr
      ensures Valid()
      ensures Adv() == StoreSlot(old(Adv()), idx, buf)
      ensures SharedState() == old(SharedState())
    {
      if advertDataArr[idx].Some? && advertDataArr[idx].value.Heap? {
        released := released + [advertDataArr[idx].value];
      }
      advertDataArr[idx] := Some(buf);
      assert advertDataArr[..] == old(advertDataArr[..])[idx := Some(buf)];
    }

    /** advertDataInit: fill each empty slot that has a non-empty default; stop at the first failure. */
    method AdvertDataInit(env: seq<Exchange>) returns (st: Status)
      requires Valid() && |env| >= MaxAdvertIdx
      modifies this, advertDataArr
      ensures Valid()
      ensures (st, Adv()) == InitFrom(old(Adv()), env, 0)
      ensures SharedState() == old(SharedState()).(link := LinkState())
    {
      ghost var goal := InitFrom(Adv(), env, 0);
      var idx := 0;
      while idx < MaxAdvertIdx
        invariant 0 <= idx <= MaxAdvertIdx
        invariant Valid()
        invariant goal == InitFrom(Adv(), env, idx)
        invariant SharedState() == old(SharedState()).(link := LinkState())
      {
        var ok := InitSlot(idx, env);
        if !ok {
          return CheckError;
        }
        idx := idx + 1;
      }
      st := Success;
    }

    /**
     * One pass of advertDataInit's loop: an empty slot with a non-empty
     * default gets it through setAdvertData, whose result goes through
     * isError. False when advertDataInit stops with BLE_CHECK_ERROR.
     */
    method InitSlot(idx: nat, env: seq<Exchange>) returns (ok: bool)
      requires Valid() && idx < MaxAdvertIdx && |env| >= MaxAdvertIdx
      modifies this, advertDataArr
      ensures Valid()
      ensures (if ok then Success else CheckError, Adv()) == InitSlotSpec(old(Adv()), env, idx)
      ensures SharedState() == old(SharedState()).(link := LinkState())
    {
      ok := true;
      if advertDataArr[idx] == None && |DefaultData(idx)| != 0 {
        var r := SetAdvertData(TypeOfIndex(idx), Builtin, env[idx]);
        var failed := IsError(r);
        ok := !failed;
      }
    }

    /** startAdvert. */
    method StartAdvert(settings: Option<AdvertSettings>, initEnv: seq<Exchange>, ex: Exchange) returns (st: Status)
      requires Valid() && |initEnv| >= MaxAdvertIdx
      modifies this, advertDataArr
      ensures Valid()
      ensures (st, Adv()) == StartAdvertSpec(old(advertising), old(Adv()), settings, initEnv, ex)
      ensures SharedState() == old(SharedState()).(link := LinkState())
    {
      if advertising {
        var failed := IsError(AlreadyAdvertising);
        return CheckError;
      }
      var init := AdvertDataInit(initEnv);
      var failed := IsError(init);
      if failed {
        return CheckError;
      }
      st := SendAndWait(AdvEnableReq(settings), AdvEnb, ex);
    }

    /**
     * setAdvertName: a scan response built from the default one around the
     * name, handed over to setAdvertData. The name is given by its bytes,
     * without the terminating NUL, and its length fits the uint8_t parameter.
     */
    method SetAdvertName(name: seq<uint8>, ex: Exchange) returns (st: Status)
      requires Valid() && |name| <= 0xFF && forall i :: 0 <= i < |name| ==> name[i] != 0
      modifies this, advertDataArr
      ensures Valid()
      ensures (st, Adv()) == SetAdvertDataSpec(old(Adv()), ScanRspData, Heap(ScanRspWithName(name)), ex)
      ensures SharedState() == old(SharedState()).(link := LinkState())
    {
      var newData := ScanRspWithName(name);
      st := SetAdvertData(ScanRspData, Heap(newData), ex);
    }

    /**
     * writeNotifInd: with a non-zero CCCD, send the stored value in pieces of
     * at most `mtu` bytes (at least one piece), waiting for the confirmation
     * of each piece when the indicate bit is set. The `sent` counter is a
     * uint16_t, so the value is at most 0xFFFF bytes; `env` holds the
     * transport's answer and the arrivals for each piece.
     */
    method WriteNotifInd(c: Characteristic, env: seq<Exchange>) returns (st: Status)
      requires c.Valid()
      requires c.cccd != 0 ==> c.valueLen <= 0xFFFF && (mtu > 0 || c.valueLen == 0) && |Chunks(c.Stored(), mtu as nat)| <= |env|
      modifies this
      ensures (st, LinkState()) ==
        WriteNotifIndSpec(old(connHandle), c.handle, c.cccd, c.Stored(), old(mtu) as nat, env, old(LinkState()))
      ensures SharedState() == old(SharedState()).(link := LinkState()) && released == old(released)
    {
      if c.cccd == 0 {
        return Success;
      }
      st := SendValue(Target(connHandle, c.handle, KindOf(c.cccd)), IndicateBit(c.cccd), c.value[..c.valueLen], mtu as nat, env);
    }

    /**
     * The do-while loop of writeNotifInd: pieces of at most `m` bytes of `v`
     * (at least one piece), each sent and, when indicating, confirmed.
     */
    method SendValue(t: Target, indicate: bool, v: seq<uint8>, m: nat, env: seq<Exchange>) returns (st: Status)
      requires (m > 0 || |v| == 0) && |Chunks(v, m)| <= |env|
      modifies this
      ensures (st, LinkState()) == Outcome(t, indicate, v, m, env, old(LinkState()))
      ensures SharedState() == old(SharedState()).(link := LinkState()) && released == old(released)
    {
      ghost var goal := Outcome(t, indicate, v, m, env, LinkState());
      var sent := 0;
      var rest := env;
      while true
        invariant sent <= |v| && (sent < |v| || sent == 0)
        invariant |Chunks(v[sent..], m)| <= |rest|
        invariant goal == Outcome(t, indicate, v[sent..], m, rest, LinkState())
        invariant SharedState() == old(SharedState()).(link := LinkState()) && released == old(released)
        decreases |v| - sent
      {
        var size := Min(|v| - sent, m);
        OutcomeStep(t, indicate, v, sent, m, rest, LinkState());
        var ok := SendPieceOn(t, indicate, v[sent..sent + size], rest[0]);
        if !ok {
          return CheckError;
        }
        sent := sent + size;
        rest := rest[1..];
        if sent >= |v| {
          return Success;
        }
      }
    }

    /** One pass of writeNotifInd's loop: send the piece through isError, then wait for its confirmation when indicating. */
    method SendPieceOn(t: Target, indicate: bool, piece: seq<uint8>, ex: Exchange) returns (ok: bool)
      modifies this
      ensures (ok, LinkState()) == SendPiece(t, indicate, piece, ex, old(LinkState()))
      ensures SharedState() == old(SharedState()).(link := LinkState()) && released == old(released)
    {
      var accepted := Transmit(NotifIndReq(t.connHandle, t.attrHandle, t.kind, piece), ex.status);
      var failed := IsError(accepted);
      if failed {
        return false;
      }
      ok := true;
      if indicate {
        ok := ApEventPend(NotifIndRsp, ex.first, ex.second);
      }
    }

    /** readValueValidateSize: a stored length other than `size` is BLE_UNDEFINED_VALUE. */
    method ReadValueValidateSize(c: Characteristic, size: nat) returns (st: Status)
      modifies this
      ensures st == Success <==> c.valueLen == size
      ensures st != Success ==> st == CheckError && SharedState() == old(SharedState()).(link := old(LinkState()).(error := UndefinedValue))
      ensures st == Success ==> SharedState() == old(SharedState())
      ensures released == old(released)
    {
      if c.valueLen != size {
        error := UndefinedValue;
        return CheckError;
      }
      st := Success;
    }

    /**
     * readValue_char, _uchar, _int, _uint, _long, _ulong: when the stored
     * length is the type's size, the value whose memory image is the stored
     * bytes, and `error` is BLE_SUCCESS; otherwise 0, and `error` is
     * BLE_CHECK_ERROR.
     */
    method ReadIntegral(c: Characteristic, k: IntKind) returns (x: int)
      requires c.Valid()
      modifies this
      ensures InRange(k, x)
      ensures c.valueLen == SizeOf(k) ==> Encode(k, x) == c.Stored() && error == Success
      ensures c.valueLen != SizeOf(k) ==> x == 0 && error == CheckError
      ensures SharedState() == old(SharedState()).(link := LinkState()) && released == old(released)
      ensures posted == old(posted) && trace == old(trace)
    {
      var st := ReadValueValidateSize(c, SizeOf(k));
      error := st;
      if error == Success {
        x := Decode(k, c.value[..SizeOf(k)]);
        EncodeOfDecode(k, c.value[..SizeOf(k)]);
      } else {
        x := 0;
      }
    }

    /** readValue_bool: a one-byte value is true when non-zero. */
    method ReadValueBool(c: Characteristic) returns (b: bool)
      requires c.Valid()
      modifies this
      ensures b <==> c.valueLen == 1 && c.value[0] != 0
      ensures error == if c.valueLen == 1 then Success else CheckError
      ensures SharedState() == old(SharedState()).(link := LinkState()) && released == old(released)
      ensures posted == old(posted) && trace == old(trace)
    {
      var st := ReadValueValidateSize(c, 1);
      error := st;
      if error == Success {
        return c.value[0] != 0;
      }
      b := false;
    }

    /**
     * readValue_charArr: make the buffer a C string in place (grown by one NUL
     * byte unless its last stored byte already is NUL) and return it; the
     * stored length is not changed. An empty value becomes the empty string.
     */
    method ReadValueCharArr(c: Characteristic) returns (r: seq<uint8>)
      requires c.Valid()
      modifies c
      ensures c.Valid() && c.value == r && c.valueLen == old(c.valueLen)
      ensures c.handle == old(c.handle) && c.cccd == old(c.cccd)
      ensures r == Terminated(old(c.value), c.valueLen)
    {
      var len := c.valueLen;
      if len == 0 || c.value[len - 1] != 0 {
        c.value := c.value[..len] + [0];
      }
      r := c.value;
    }

    /** A status-carrying confirmation: post the tag on success, apPostError otherwise. */
    method Confirmation(status: Status, t: Tag)
      modifies this
      ensures SharedState() == Confirm(old(SharedState()), status, t) && released == old(released)
    {
      if status == Success {
        EventPost(t);
      } else {
        ApPostError(status);
      }
    }

    /**
     * AP_asyncCB. `stall` is what arrives while a payload-bearing response
     * waits for the reader to copy it.
     */
    method AsyncCB(m: AsyncMsg, stall: Arrival)
      modifies this
      ensures SharedState() == OnAsync(old(SharedState()), m, stall) && released == old(released)
    {
      match m
      case PowerUpInd =>
        EventPost(Pui);
      case HciCmdRsp(_, _) =>
        DeviceResponse(m, stall);
      case TestRsp(_, _, _) =>
        DeviceResponse(m, stall);
      case SetAdvDataCnf(status) =>
        Confirmation(status, AdvDataRsp);
      case UpdateConnParamCnf(status) =>
        Confirmation(status, ConnParamsCnf);
      case SendAuthDataRsp(status) =>
        // No break: the white-list case runs next on the same status.
        Confirmation(status, AuthRsp);
        Confirmation(status, WhiteListRsp);
      case SetWhiteListPolicyRsp(status) =>
        Confirmation(status, WhiteListRsp);
      case SendNotifIndCnf(status) =>
        Confirmation(status, NotifIndRsp);
      case UnknownAsync(_) =>
    }

    /**
     * The payload-bearing device responses of AP_asyncCB: the payload is
     * published, the tag posted, and the callback waits until the reader has
     * copied it.
     */
    method DeviceResponse(m: AsyncMsg, stall: Arrival)
      requires m.HciCmdRsp? || m.TestRsp?
      modifies this
      ensures SharedState() == OnAsync(old(SharedState()), m, stall) && released == old(released)
    {
      if m.HciCmdRsp? {
        opcode := m.opcode as nat;
        if m.status != Success {
          ApPostError(m.status);
          return;
        }
      }
      asyncRspData := Some(m);
      EventPost(if m.HciCmdRsp? then HciRsp else Tag.TestRsp);
      var copied := EventPendOn({CopiedAsyncData}, stall);
    }

    /** processSNPEventCB. */
    method ProcessSnpEvent(ev: SnpEvent)
      modifies this
      ensures SharedState() == OnSnpEvent(old(SharedState()), ev) && released == old(released)
    {
      match ev
      case ConnEstEvt(_, _, _, _, _) =>
        ConnectionEvent(ev);
      case ConnTermEvt =>
        ConnectionEvent(ev);
      case ConnParamUpdatedEvt(_, _, _) =>
        ConnectionEvent(ev);
      case AdvStartedEvt(_) =>
        AdvertisingEvent(ev);
      case AdvEndedEvt(_) =>
        AdvertisingEvent(ev);
      case AttMtuEvt(size) =>
        mtu := ((size as int - 3) % 0x1_0000) as uint16;
      case SecurityEvt(_, _) =>
        SecurityEvent(ev);
      case AuthenticationEvt(_) =>
        SecurityEvent(ev);
      case ErrorEvt(op, status) =>
        opcode := op as nat;
        ApPostError(status);
      case OtherSnpEvent(_) =>
    }

    /** The connection group of processSNPEventCB: established, terminated, parameters updated. */
    method ConnectionEvent(ev: SnpEvent)
      requires ev.ConnEstEvt? || ev.ConnTermEvt? || ev.ConnParamUpdatedEvt?
      modifies this
      ensures SharedState() == OnSnpEvent(old(SharedState()), ev) && released == old(released)
    {
      match ev
      case ConnEstEvt(h, ci, sl, st, addr) =>
        connHandle := h;
        usedConnParams := ConnParams(ci, sl, st);
        bleAddr := addr;
        connected := true;
        EventPost(ConnEst);
      case ConnTermEvt =>
        connected := false;
        EventPost(ConnTerm);
      case ConnParamUpdatedEvt(ci, sl, st) =>
        usedConnParams := ConnParams(ci, sl, st);
        EventPost(ConnParamsUpdated);
    }

    /** The security group of processSNPEventCB: security state and authentication events. */
    method SecurityEvent(ev: SnpEvent)
      requires ev.SecurityEvt? || ev.AuthenticationEvt?
      modifies this
      ensures SharedState() == OnSnpEvent(old(SharedState()), ev) && released == old(released)
    {
      if ev.SecurityEvt? {
        securityState := ev.state;
        Confirmation(ev.status, SecurityState);
      } else {
        eventHandlerData := ev.evt;
        EventPost(HandleAuthEvt);
      }
    }

    /** The advertising group of processSNPEventCB: started and ended. */
    method AdvertisingEvent(ev: SnpEvent)
      requires ev.AdvStartedEvt? || ev.AdvEndedEvt?
      modifies this
      ensures SharedState() == OnSnpEvent(old(SharedState()), ev) && released == old(released)
    {
      if ev.status != Success {
        ApPostError(ev.status);
      } else if ev.AdvStartedEvt? {
        advertising := true;
        EventPost(AdvEnb);
      } else {
        advertising := false;
        EventPost(AdvEnd);
      }
    }

    /**
     * handleAuthKey: draw the passkey (`rand` is getRand's value) and, when
     * the peer asks for input, send it and wait for the acknowledgment.
     */
    method HandleAuthKey(evt: AuthEvt, rand: nat, ex: Exchange) returns (st: Status)
      modifies this
      ensures (st, SharedState()) == HandleAuthKeySpec(old(SharedState()), evt, rand, ex) && released == old(released)
    {
      authKey := rand % PasskeyModulus;
      if evt.input != 0 {
        st := SendAndWait(AuthRspReq(authKey), AuthRsp, ex);
        if st != Success {
          return CheckError;
        }
      }
      st := Success;
    }

    /**
     * handleEvents: a one-tick poll for an authentication event or a button
     * press (`poll` is what arrives meanwhile), then the pairing step each
     * one calls for.
     */
    method HandleEvents(poll: Arrival, rand: nat, keyEx: Exchange, btnEx: Exchange) returns (st: Status)
      modifies this
      ensures (st, SharedState()) == HandleEventsSpec(old(SharedState()), poll, rand, keyEx, btnEx)
      ensures released == old(released)
    {
      var observed := EventPendOn({HandleAuthEvt, NumCmpBtn}, poll);
      opcode := PollMask(observed);
      st := Success;
      if HandleAuthEvt in observed {
        st := AuthEvent(rand, keyEx);
      }
      if NumCmpBtn in observed {
        var r := SendAndWait(AuthRspReq(authKey), AuthRsp, btnEx);
        if r != Success {
          st := CheckError;
        }
      }
    }

    /** The authentication-event branch of handleEvents. */
    method AuthEvent(rand: nat, keyEx: Exchange) returns (st: Status)
      modifies this
      ensures (st, SharedState()) == AuthEventSpec(old(SharedState()), rand, keyEx) && released == old(released)
    {
      st := Success;
      var evt := eventHandlerData;
      if evt.numCmp != 0 {
        // handleNumCmp: only prompts the user and arms the buttons.
      } else if evt.display != 0 {
        var k := HandleAuthKey(evt, rand, keyEx);
        var failed := IsError(k);
        if failed {
          st := CheckError;
        }
      }
    }

    /** numCmpInterrupt1: button 1, the numbers are equal. */
    method NumCmpInterrupt1()
      modifies this
      ensures SharedState() == NumCmpButton(old(SharedState()), true) && released == old(released)
    {
      authKey := 1;
      EventPost(NumCmpBtn);
    }

    /** numCmpInterrupt2: button 2, the numbers differ. */
    method NumCmpInterrupt2()
      modifies this
      ensures SharedState() == NumCmpButton(old(SharedState()), false) && released == old(released)
    {
      authKey := 0;
      EventPost(NumCmpBtn);
    }

    /** resetPublicMembers. */
    method ResetPublicMembers() returns (st: Status)
      modifies this
      ensures st == Success
      ensures SharedState() == ResetPublic(old(SharedState())) && released == old(released)
    {
      error := Success;
      opcode := 0;
      usedConnParams := ZeroConnParams;
      bleAddr := ZeroAddr();
      authKey := 0;
      mtu := DefaultMtu;
      st := Success;
    }

    /**
     * end, apart from closing the transport and deleting the event: every
     * slot is emptied without releasing its buffer, the public members are
     * reset, and the connection state returns to its initial values.
     */
    method End()
      requires Valid()
      modifies this, advertDataArr
      ensures Valid()
      ensures advertDataArr[..] == [None, None, None] && released == old(released)
      ensures SharedState() == ResetPublic(old(SharedState())).(
        asyncRspData := None, eventHandlerData := AuthEvt(0, 0, 0),
        connHandle := InvalidConnHandle, connected := false, advertising := false)
    {
      var idx := 0;
      while idx < MaxAdvertIdx
        invariant 0 <= idx <= MaxAdvertIdx
        invariant forall j :: 0 <= j < idx ==> advertDataArr[j] == None
        invariant SharedState() == old(SharedState()) && released == old(released)
      {
        advertDataArr[idx] := None;
        idx := idx + 1;
      }
      var st := ResetPublicMembers();
      asyncRspData := None;
      eventHandlerData := AuthEvt(0, 0, 0);
      connHandle := InvalidConnHandle;
      connected := false;
      advertising := false;
      assert advertDataArr[..] == [None, None, None];
    }
  }

  /** The state resetPublicMembers leaves: defaults for the public members, the rest as it was. */
  function ResetPublic(s: Shared): (r: Shared)
    ensures r.link.posted == s.link.posted && r.link.trace == s.link.trace
    ensures r.connected == s.connected && r.advertising == s.advertising && r.connHandle == s.connHandle
  {
    s.(opcode := 0, usedConnParams := ZeroConnParams, bleAddr := ZeroAddr(), authKey := 0,
       mtu := DefaultMtu, link := s.link.(error := Success))
  }
}
