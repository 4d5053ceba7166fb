/**
 * The shared state that the application context and the transport's
 * callback context both touch, and the two callback entry points that
 * classify every inbound NP message: AP_asyncCB (responses and
 * confirmations, by message group and opcode) and processSNPEventCB
 * (unsolicited SNP events).
 */
module Dispatch {
  import opened Protocol
  import opened EventWait

  /** The fields of snpAuthenticationEvt_t that the pairing code reads. */
  datatype AuthEvt = AuthEvt(display: uint8, input: uint8, numCmp: nat)

  /** Asynchronous responses and confirmations delivered to AP_asyncCB. */
  datatype AsyncMsg =
    | PowerUpInd                                               // device group
    | HciCmdRsp(opcode: uint16, status: Status)                // device group
    | TestRsp(memAlo: uint16, memMax: uint16, memSize: uint16) // device group, no status
    | SetAdvDataCnf(status: Status)                            // GAP group
    | UpdateConnParamCnf(status: Status)                       // GAP group
    | SendAuthDataRsp(status: Status)                          // GAP group
    | SetWhiteListPolicyRsp(status: Status)                    // GAP group
    | SendNotifIndCnf(status: Status)                          // GATT group
    | UnknownAsync(cmd1: uint8)                                // any other opcode or group

  /** Unsolicited events delivered to processSNPEventCB. */
  datatype SnpEvent =
    | ConnEstEvt(connHandle: uint16, connInterval: uint16, slaveLatency: uint16,
                 supervisionTimeout: uint16, addr: seq<uint8>)
    | ConnTermEvt
    | ConnParamUpdatedEvt(connInterval: uint16, slaveLatency: uint16, supervisionTimeout: uint16)
    | AdvStartedEvt(status: Status)
    | AdvEndedEvt(status: Status)
    | AttMtuEvt(attMtuSize: uint16)
    | SecurityEvt(state: uint8, status: Status)
    | AuthenticationEvt(evt: AuthEvt)
    | ErrorEvt(opcode: uint16, status: Status)
    | OtherSnpEvent(code: uint16)

  /**
   * The shared state: the globals `_connHandle`, `connected`, `advertising`,
   * `asyncRspData`, `eventHandlerData`, the public members of `ble`, and the
   * link (posted tags, `ble.error`, request trace).
   */
  datatype Shared = Shared(
    connected: bool, advertising: bool, connHandle: uint16,
    usedConnParams: ConnParams, bleAddr: seq<uint8>, mtu: uint16,
    securityState: uint8, opcode: nat, authKey: nat,
    asyncRspData: Option<AsyncMsg>, eventHandlerData: AuthEvt, link: Link)

  /** apPostError: store the status, then post the error tag. */
  function PostError(s: Shared, status: Status): Shared
  {
    s.(link := s.link.(error := status, posted := s.link.posted + {Error}))
  }

  function Post(s: Shared, t: Tag): Shared
  {
    s.(link := s.link.(posted := s.link.posted + {t}))
  }

  /** A status-carrying confirmation: its completion tag on success, the error otherwise. */
  function Confirm(s: Shared, status: Status, t: Tag): Shared
  {
    if status == Success then Post(s, t) else PostError(s, status)
  }

  /**
   * AP_asyncCB. A payload-bearing response publishes itself in `asyncRspData`,
   * posts its tag, then blocks until the reader posts CopiedAsyncData (the
   * arrivals of that wait are `stall`). The authentication-data response has
   * no `break`, so it also runs the white-list case on the same status.
   */
  function OnAsync(s: Shared, m: AsyncMsg, stall: Arrival): Shared
  {
    match m
    case PowerUpInd => Post(s, Pui)
    case HciCmdRsp(op, status) =>
      var s1 := s.(opcode := op as nat);
      if status == Success then
        var s2 := Post(s1.(asyncRspData := Some(m)), HciRsp);
        s2.(link := Pend(s2.link, {CopiedAsyncData}, stall).link)
      else PostError(s1, status)
    case TestRsp(_, _, _) =>
      var s2 := Post(s.(asyncRspData := Some(m)), Tag.TestRsp);
      s2.(link := Pend(s2.link, {CopiedAsyncData}, stall).link)
    case SetAdvDataCnf(status) => Confirm(s, status, AdvDataRsp)
    case UpdateConnParamCnf(status) => Confirm(s, status, ConnParamsCnf)
    case SendAuthDataRsp(status) => Confirm(Confirm(s, status, AuthRsp), status, WhiteListRsp)
    case SetWhiteListPolicyRsp(status) => Confirm(s, status, WhiteListRsp)
    case SendNotifIndCnf(status) => Confirm(s, status, NotifIndRsp)
    case UnknownAsync(_) => s
  }

  /** The completion tag of each status-carrying confirmation that has a case of its own. */
  function ConfirmTag(m: AsyncMsg): Tag
    requires m.SetAdvDataCnf? || m.UpdateConnParamCnf? || m.SetWhiteListPolicyRsp? || m.SendNotifIndCnf?
  {
    match m
    case SetAdvDataCnf(_) => AdvDataRsp
    case UpdateConnParamCnf(_) => ConnParamsCnf
    case SetWhiteListPolicyRsp(_) => WhiteListRsp
    case SendNotifIndCnf(_) => NotifIndRsp
  }

  /**
   * Each plain confirmation posts its completion tag on success, or stores
   * its status and posts the error tag, and touches nothing else.
   */
  lemma ConfirmationPostsTagOrError(s: Shared, m: AsyncMsg, stall: Arrival)
    requires m.SetAdvDataCnf? || m.UpdateConnParamCnf? || m.SetWhiteListPolicyRsp? || m.SendNotifIndCnf?
    ensures m.status == Success ==> OnAsync(s, m, stall) == s.(link := s.link.(posted := s.link.posted + {ConfirmTag(m)}))
    ensures m.status != Success ==> OnAsync(s, m, stall) == s.(link := s.link.(posted := s.link.posted + {Error}, error := m.status))
  {
  }

  /**
   * Starting from nothing posted, no message leaves both a completion tag and
   * the error tag: when the error tag is posted it is the only one, and
   * `ble.error` holds the message's status.
   */
  lemma AsyncNeverBoth(s: Shared, m: AsyncMsg)
    requires s.link.posted == {}
    ensures Error in OnAsync(s, m, Quiet).link.posted ==> OnAsync(s, m, Quiet).link.posted == {Error}
    ensures Error in OnAsync(s, m, Quiet).link.posted ==>
              !m.PowerUpInd? && !m.TestRsp? && !m.UnknownAsync? && OnAsync(s, m, Quiet).link.error == m.status
  {
    match m
    case HciCmdRsp(_, status) =>
      if status == Success {
        assert Error !in OnAsync(s, m, Quiet).link.posted;
      }
    case TestRsp(_, _, _) =>
      assert Error !in OnAsync(s, m, Quiet).link.posted;
    case _ =>
  }

  /**
   * The authentication-data response falls through into the white-list case:
   * on success it posts both completion tags; on failure it posts the error
   * with its status (twice, which is once).
   */
  lemma AuthDataRspFallsThrough(s: Shared, status: Status, stall: Arrival)
    ensures status == Success ==>
      OnAsync(s, SendAuthDataRsp(status), stall).link.posted == s.link.posted + {AuthRsp, WhiteListRsp}
    ensures status != Success ==>
      OnAsync(s, SendAuthDataRsp(status), stall) == PostError(s, status)
  {
  }

  /**
   * A successful HCI response records its opcode and publishes the payload
   * before its tag is posted; a failed one records the opcode and the error
   * and publishes nothing. Unrecognised messages change nothing.
   */
  lemma HciAndUnknownResponses(s: Shared, op: uint16, status: Status, stall: Arrival, cmd1: uint8)
    ensures status == Success ==>
      var r := OnAsync(s, HciCmdRsp(op, status), stall);
      r.opcode == op as nat && r.asyncRspData == Some(HciCmdRsp(op, status)) && HciRsp in r.link.posted
    ensures status != Success ==>
      OnAsync(s, HciCmdRsp(op, status), stall) == PostError(s.(opcode := op as nat), status)
    ensures OnAsync(s, UnknownAsync(cmd1), stall) == s
  {
  }

  /**
   * processSNPEventCB. Connection termination clears only `connected`; the
   * handle keeps its value (only end() resets it). The MTU event posts
   * nothing and keeps the payload size, the ATT MTU less its 3-byte header,
   * in a uint16_t.
   */
  function OnSnpEvent(s: Shared, ev: SnpEvent): Shared
  {
    match ev
    case ConnEstEvt(h, ci, sl, st, addr) =>
      Post(s.(connHandle := h, usedConnParams := ConnParams(ci, sl, st), bleAddr := addr, connected := true), ConnEst)
    case ConnTermEvt => Post(s.(connected := false), ConnTerm)
    case ConnParamUpdatedEvt(ci, sl, st) => Post(s.(usedConnParams := ConnParams(ci, sl, st)), ConnParamsUpdated)
    case AdvStartedEvt(status) =>
      if status == Success then Post(s.(advertising := true), AdvEnb) else PostError(s, status)
    case AdvEndedEvt(status) =>
      if status == Success then Post(s.(advertising := false), AdvEnd) else PostError(s, status)
    case AttMtuEvt(size) => s.(mtu := ((size as int - 3) % 0x1_0000) as uint16)
    case SecurityEvt(state, status) =>
      Confirm(s.(securityState := state), status, SecurityState)
    case AuthenticationEvt(evt) => Post(s.(eventHandlerData := evt), HandleAuthEvt)
    case ErrorEvt(op, status) => PostError(s.(opcode := op as nat), status)
    case OtherSnpEvent(_) => s
  }

  /** Connection established: handle, the three parameters and the flag, and its tag. */
  lemma ConnEstablishedSetsConnection(s: Shared, h: uint16, ci: uint16, sl: uint16, st: uint16, addr: seq<uint8>)
    ensures var r := OnSnpEvent(s, ConnEstEvt(h, ci, sl, st, addr));
      && r.connected && r.connHandle == h && r.usedConnParams == ConnParams(ci, sl, st)
      && r.bleAddr == addr && r.link.posted == s.link.posted + {ConnEst}
      && r.advertising == s.advertising && r.mtu == s.mtu && r.link.error == s.link.error
  {
  }

  /** Termination clears `connected` and nothing else: the handle and the parameters stay. */
  lemma TerminationClearsOnlyConnected(s: Shared)
    ensures OnSnpEvent(s, ConnTermEvt) == s.(connected := false, link := s.link.(posted := s.link.posted + {ConnTerm}))
    ensures OnSnpEvent(s, ConnTermEvt).connHandle == s.connHandle
  {
  }

  /** A parameter update overwrites all three parameters and leaves the connection flag and handle alone. */
  lemma ParamUpdateOverwrites(s: Shared, ci: uint16, sl: uint16, st: uint16)
    ensures var r := OnSnpEvent(s, ConnParamUpdatedEvt(ci, sl, st));
      r.usedConnParams == ConnParams(ci, sl, st) && r.connected == s.connected && r.connHandle == s.connHandle
  {
  }

  /**
   * Advertising start and end: success sets the flag and posts the tag; a
   * failure leaves the flag and posts the error tag with the status.
   */
  lemma AdvertEventsSetFlag(s: Shared, status: Status)
    ensures status == Success ==> OnSnpEvent(s, AdvStartedEvt(status)).advertising
    ensures status == Success ==> !OnSnpEvent(s, AdvEndedEvt(status)).advertising
    ensures status != Success ==>
      && OnSnpEvent(s, AdvStartedEvt(status)).advertising == s.advertising
      && OnSnpEvent(s, AdvEndedEvt(status)).advertising == s.advertising
      && OnSnpEvent(s, AdvStartedEvt(status)).link == Link(s.link.posted + {Error}, status, s.link.trace)
      && OnSnpEvent(s, AdvEndedEvt(status)).link == Link(s.link.posted + {Error}, status, s.link.trace)
  {
  }

  /**
   * The MTU event sets the transfer size to the ATT MTU less 3 and posts
   * nothing; an ATT MTU below 3 wraps around in the uint16_t.
   */
  lemma MtuEventSetsTransferSize(s: Shared, size: uint16)
    ensures size >= 3 ==> OnSnpEvent(s, AttMtuEvt(size)).mtu as int == size as int - 3
    ensures size < 3 ==> OnSnpEvent(s, AttMtuEvt(size)).mtu as int == size as int + 0xFFFD
    ensures OnSnpEvent(s, AttMtuEvt(size)).link == s.link
  {
  }

  /**
   * Connect with interval 80, latency 0, timeout 600, then lose the
   * connection: connected, parameters stored, then not connected, with the
   * handle still the connection's (it is reset only by end()).
   */
  lemma ConnectThenTerminate(s: Shared, h: uint16, addr: seq<uint8>)
    ensures var s1 := OnSnpEvent(s, ConnEstEvt(h, 80, 0, 600, addr));
      var s2 := OnSnpEvent(s1, ConnTermEvt);
      && s1.connected && s1.usedConnParams == ConnParams(80, 0, 600)
      && !s2.connected && s2.connHandle == h && s2.usedConnParams == ConnParams(80, 0, 600)
  {
  }
}
