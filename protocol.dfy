/**
 * Vocabulary shared by every part of the model of the Energia BLE bridge:
 * fixed-width integers, status codes, the event tags that the two execution
 * contexts exchange through the single RTOS event object, the inputs that
 * stand for the other context and the transport, and the requests the
 * bridge sends to the network processor (NP).
 */
module Protocol {

  newtype uint8 = x: int | 0 <= x < 0x100
  newtype uint16 = x: int | 0 <= x < 0x1_0000

  datatype Option<T> = None | Some(value: T)

  /** The value an all-ones uint16 holds: `_connHandle = -1` before any connection. */
  const InvalidConnHandle: uint16 := 0xFFFF

  /**
   * Status codes. The bridge's own codes are named; every other code the NP
   * or the transport returns is `Np(code)`. `Success` is both BLE_SUCCESS and
   * SNP_SUCCESS.
   */
  datatype Status =
    | Success
    | CheckError          // BLE_CHECK_ERROR: "the error is already in ble.error"
    | Timeout             // BLE_TIMEOUT
    | NotConnected        // BLE_NOT_CONNECTED
    | NotAdvertising      // BLE_NOT_ADVERTISING
    | AlreadyAdvertising  // BLE_ALREADY_ADVERTISING
    | UndefinedValue      // BLE_UNDEFINED_VALUE
    | InvalidParameters   // BLE_INVALID_PARAMETERS
    | Np(code: uint8)     // any other status reported by the NP or the transport

  /** The event tags posted to and pended on the single event object. */
  datatype Tag =
    | Pui | AdvEnb | AdvEnd | AdvDataRsp | ConnEst | ConnTerm | HciRsp | TestRsp
    | ConnParamsUpdated | ConnParamsCnf | NotifIndRsp | HandleAuthEvt | AuthRsp
    | SecurityState | SecurityParamRsp | WhiteListRsp | NumCmpBtn
    | CopiedAsyncData | Error

  /** The Event_Id bit number of each tag. */
  function EventId(t: Tag): (n: nat)
    ensures n < 32
    ensures t == CopiedAsyncData <==> n == 30
    ensures t == Error <==> n == 31
    ensures t != CopiedAsyncData && t != Error ==> n <= 16
  {
    match t
    case Pui => 0
    case AdvEnb => 1
    case AdvEnd => 2
    case AdvDataRsp => 3
    case ConnEst => 4
    case ConnTerm => 5
    case HciRsp => 6
    case TestRsp => 7
    case ConnParamsUpdated => 8
    case ConnParamsCnf => 9
    case NotifIndRsp => 10
    case HandleAuthEvt => 11
    case AuthRsp => 12
    case SecurityState => 13
    case SecurityParamRsp => 14
    case WhiteListRsp => 15
    case NumCmpBtn => 16
    case CopiedAsyncData => 30
    case Error => 31
  }

  /** Distinct tags have distinct bits, so a set of tags is a bit mask. */
  lemma EventIdInjective(s: Tag, t: Tag)
    requires s != t
    ensures EventId(s) != EventId(t)
  {
  }

  function Pow2(n: nat): (r: nat)
    ensures r > 0
  {
    if n == 0 then 1 else 2 * Pow2(n - 1)
  }

  lemma {:induction false} Pow2Increasing(m: nat, n: nat)
    requires m < n
    ensures Pow2(m) < Pow2(n)
  {
    if m < n - 1 {
      Pow2Increasing(m, n - 1);
    }
  }

  /** The Event_Id_nn value of a tag: the mask with only its bit set. */
  function EventBit(t: Tag): nat
  {
    Pow2(EventId(t))
  }

  /**
   * Distinct tags have distinct single-bit values (each below bit 32, by
   * EventId), so the value a wait returns tells which tags it took.
   */
  lemma {:induction false} EventBitsDistinct(s: Tag, t: Tag)
    requires s != t
    ensures EventBit(s) != EventBit(t)
  {
    EventIdInjective(s, t);
    Pow2Injective(EventId(s), EventId(t));
  }

  lemma Pow2Injective(m: nat, n: nat)
    requires m != n
    ensures Pow2(m) != Pow2(n)
  {
    if m < n {
      Pow2Increasing(m, n);
    } else {
      Pow2Increasing(n, m);
    }
  }


  /**
   * What the other execution context did while one Event_pend was blocked:
   * the tags it posted, and, if it posted `Error`, the status that
   * apPostError stored into `ble.error` just before posting.
   */
  datatype Arrival = Arrival(tags: set<Tag>, errorStatus: Status)

  const Quiet := Arrival({}, Success)

  /**
   * The environment of one request/response exchange: the immediate status
   * the transport call returns, what arrives during the wait, and what
   * arrives during the second, discarded wait that follows an
   * advertisement-data wait.
   */
  datatype Exchange = Exchange(status: Status, first: Arrival, second: Arrival)

  /** Connection parameters as reported by the NP (`usedConnParams`). */
  datatype ConnParams = ConnParams(connInterval: uint16, slaveLatency: uint16, supervisionTimeout: uint16)

  const ZeroConnParams := ConnParams(0, 0, 0)

  /** The record sent by setConnParams (BLE_Conn_Params_Update_Req). */
  datatype ConnParamsReq = ConnParamsReq(
    connHandle: uint16, intervalMin: uint16, intervalMax: uint16,
    slaveLatency: uint16, supervisionTimeout: uint16)

  /** Advertisement settings passed to startAdvert (BLE_Advert_Settings). */
  datatype AdvertSettings = AdvertSettings(advertMode: uint8, timeout: uint16, interval: uint16, connectedBehavior: uint8)

  /** The three advertisement data kinds, and any other type byte. */
  datatype AdvertType = NotConnData | ConnData | ScanRspData | OtherAdvType(code: uint8)

  /** The two delivery kinds of snpNotifIndReq_t; `Unset` is the uninitialised field. */
  datatype NotifKind = Notification | Indication | Unset

  /** Requests the bridge hands to the transport, in the order it sends them. */
  datatype Request =
    | TerminateConnReq(connHandle: uint16)                   // SAP_setParam(CONN, CONN_STATE)
    | AdvEnableReq(settings: Option<AdvertSettings>)         // SAP_setParam(ADV, ADV_STATE, enable)
    | AdvDisableReq                                          // SAP_setParam(ADV, ADV_STATE, disable)
    | AdvDataReq(advertType: AdvertType, data: seq<uint8>)   // SAP_setParam(ADV, type)
    | ConnParamsUpdateReq(req: ConnParamsReq)                // SAP_setParam(CONN, CONN_PARAM)
    | WhiteListReq(policy: uint8)                            // SAP_setParam(WHITELIST)
    | NotifIndReq(connHandle: uint16, attrHandle: uint16, kind: NotifKind, data: seq<uint8>)
    | AuthRspReq(key: nat)                                   // SAP_setAuthenticationRsp
    | HciCmdReq(opcode: uint16, data: seq<uint8>)             // SAP_getParam(HCI, opcode)
    | TestCmdReq                                             // SAP_testCommand
}
