/**
 * Chunked notification/indication delivery (writeNotifInd): the value is cut
 * into pieces of at most `mtu` bytes, at least one piece even for an empty
 * value; each piece is handed to the transport, and after each piece the
 * bridge waits for the peer's confirmation only when the characteristic's
 * client configuration asks for indications.
 */
module Chunking {
  import opened Protocol
  import opened EventWait

  /** The client configuration bits of a CCCD (Bluetooth Core, Vol 3 Part G 3.3.3.3). */
  predicate NotifyBit(cccd: uint16) { cccd % 2 == 1 }
  predicate IndicateBit(cccd: uint16) { (cccd / 2) % 2 == 1 }

  /**
   * The request type writeNotifInd fills in: notification wins when both bits
   * are set; with neither bit (a CCCD holding only other bits) the field is
   * never assigned.
   */
  function KindOf(cccd: uint16): (k: NotifKind)
    ensures k == Notification <==> NotifyBit(cccd)
    ensures k == Indication <==> !NotifyBit(cccd) && IndicateBit(cccd)
  {
    if NotifyBit(cccd) then Notification
    else if IndicateBit(cccd) then Indication
    else Unset
  }

  function Min(a: nat, b: nat): nat { if a <= b then a else b }

  /** The pieces writeNotifInd sends, in order. */
  function Chunks(v: seq<uint8>, mtu: nat): seq<seq<uint8>>
    requires mtu > 0 || |v| == 0
    decreases |v|
  {
    if |v| <= mtu then [v] else [v[..mtu]] + Chunks(v[mtu..], mtu)
  }

  function Flatten(cs: seq<seq<uint8>>): seq<uint8>
  {
    if cs == [] then [] else cs[0] + Flatten(cs[1..])
  }

  /**
   * max(1, ceil(L / mtu)) pieces: one for an empty value, otherwise the n
   * with (n - 1) * mtu < L <= n * mtu.
   */
  lemma {:induction false} ChunkCount(v: seq<uint8>, mtu: nat)
    requires mtu > 0 || |v| == 0
    ensures |v| == 0 ==> |Chunks(v, mtu)| == 1
    ensures |v| > 0 ==> (|Chunks(v, mtu)| - 1) * mtu < |v| <= |Chunks(v, mtu)| * mtu
  {
    if |v| > mtu {
      ChunkCount(v[mtu..], mtu);
      var n := |Chunks(v[mtu..], mtu)|;
      assert |Chunks(v, mtu)| == n + 1;
      assert (n + 1) * mtu == n * mtu + mtu;
      assert (n + 1 - 1) * mtu == (n - 1) * mtu + mtu;
    }
  }

  /** Every piece holds at most `mtu` bytes, every piece but the last exactly `mtu`, and none is empty unless the value is. */
  lemma {:induction false} ChunkSizes(v: seq<uint8>, mtu: nat)
    requires mtu > 0 || |v| == 0
    ensures |Chunks(v, mtu)| >= 1
    ensures forall i :: 0 <= i < |Chunks(v, mtu)| ==> |Chunks(v, mtu)[i]| <= mtu
    ensures forall i :: 0 <= i < |Chunks(v, mtu)| - 1 ==> |Chunks(v, mtu)[i]| == mtu
    ensures |v| > 0 ==> forall i :: 0 <= i < |Chunks(v, mtu)| ==> |Chunks(v, mtu)[i]| > 0
    ensures |v| == 0 ==> Chunks(v, mtu) == [[]]
  {
    if |v| > mtu {
      ChunkSizes(v[mtu..], mtu);
      var cs := Chunks(v, mtu);
      assert cs[1..] == Chunks(v[mtu..], mtu);
    }
  }

  /** Concatenating the pieces in order gives back the value. */
  lemma {:induction false} ChunksReassemble(v: seq<uint8>, mtu: nat)
    requires mtu > 0 || |v| == 0
    ensures Flatten(Chunks(v, mtu)) == v
  {
    if |v| <= mtu {
      assert Flatten([v]) == v + Flatten([]);
    } else {
      ChunksReassemble(v[mtu..], mtu);
      var cs := Chunks(v, mtu);
      assert cs[1..] == Chunks(v[mtu..], mtu);
      assert v == v[..mtu] + v[mtu..];
    }
  }

  /** Where the pieces go: connection, attribute, request type. */
  datatype Target = Target(connHandle: uint16, attrHandle: uint16, kind: NotifKind)

  /** One notification/indication request per piece, in order. */
  function Requests(t: Target, cs: seq<seq<uint8>>): (r: seq<Request>)
    ensures |r| == |cs|
    ensures forall i :: 0 <= i < |cs| ==> r[i] == NotifIndReq(t.connHandle, t.attrHandle, t.kind, cs[i])
  {
    if cs == [] then [] else [NotifIndReq(t.connHandle, t.attrHandle, t.kind, cs[0])] + Requests(t, cs[1..])
  }

  /** Outcome of a delivery: result, new link state, and how many pieces were handed to the transport. */
  datatype Delivery = Delivery(status: Status, link: Link, attempted: nat)

  /**
   * One pass of writeNotifInd's loop body: hand `piece` to the transport
   * (which answers ex.status, passed through isError) and, when indications
   * are on, wait for its confirmation (arrivals ex.first). True when the
   * loop may go on.
   */
  function SendPiece(t: Target, indicate: bool, piece: seq<uint8>, ex: Exchange, link: Link): (bool, Link)
  {
    var sent := IsErrorStep(link.(trace := link.trace + [NotifIndReq(t.connHandle, t.attrHandle, t.kind, piece)]), ex.status);
    if sent.0 then (false, sent.1)
    else if indicate then EventPend(sent.1, NotifIndRsp, ex.first, ex.second)
    else (true, sent.1)
  }

  /** A pass sends exactly its piece. */
  lemma SendPieceTrace(t: Target, indicate: bool, piece: seq<uint8>, ex: Exchange, link: Link)
    ensures SendPiece(t, indicate, piece, ex, link).1.trace == link.trace + [NotifIndReq(t.connHandle, t.attrHandle, t.kind, piece)]
  {
    var sent := IsErrorStep(link.(trace := link.trace + [NotifIndReq(t.connHandle, t.attrHandle, t.kind, piece)]), ex.status);
    WaitConsumes(sent.1, NotifIndRsp, ex.first, ex.second);
  }

  /**
   * The do-while loop of writeNotifInd from the remaining bytes `rest`: one
   * pass per piece, with env[i] the environment of the i-th pass; stop on
   * the first failure, or after the piece that reaches the end.
   */
  function Deliver(t: Target, indicate: bool, rest: seq<uint8>, mtu: nat, env: seq<Exchange>, link: Link): Delivery
    requires (mtu > 0 || |rest| == 0) && |Chunks(rest, mtu)| <= |env|
    decreases |rest|
  {
    var size := Min(|rest|, mtu);
    var p := SendPiece(t, indicate, rest[..size], env[0], link);
    if !p.0 then Delivery(CheckError, p.1, 1)
    else if size < |rest| then
      var d := Deliver(t, indicate, rest[size..], mtu, env[1..], p.1);
      d.(attempted := d.attempted + 1)
    else Delivery(Success, p.1, 1)
  }

  /**
   * writeNotifInd: with a zero CCCD (the peer subscribed to nothing) nothing is
   * sent and the result is BLE_SUCCESS; otherwise the value goes out in pieces.
   */
  function WriteNotifIndSpec(connHandle: uint16, attrHandle: uint16, cccd: uint16, v: seq<uint8>,
                             mtu: nat, env: seq<Exchange>, link: Link): (Status, Link)
    requires cccd != 0 ==> (mtu > 0 || |v| == 0) && |Chunks(v, mtu)| <= |env|
  {
    if cccd == 0 then (Success, link)
    else Outcome(Target(connHandle, attrHandle, KindOf(cccd)), IndicateBit(cccd), v, mtu, env, link)
  }

  /** What the caller of a delivery sees: its result and the new link state. */
  function Outcome(t: Target, indicate: bool, rest: seq<uint8>, mtu: nat, env: seq<Exchange>, link: Link): (Status, Link)
    requires (mtu > 0 || |rest| == 0) && |Chunks(rest, mtu)| <= |env|
  {
    var d := Deliver(t, indicate, rest, mtu, env, link);
    (d.status, d.link)
  }

  /**
   * The outcome of delivering v from offset `sent` on, after its first pass,
   * in the terms of the loop that runs it: a failed pass ends it with
   * BLE_CHECK_ERROR, a pass that reaches the end with BLE_SUCCESS, and any
   * other pass leaves the outcome of delivering from the next offset with
   * the remaining environment.
   */
  lemma OutcomeStep(t: Target, indicate: bool, v: seq<uint8>, sent: nat, mtu: nat, env: seq<Exchange>, link: Link)
    requires sent <= |v| && (mtu > 0 || sent == |v|) && |Chunks(v[sent..], mtu)| <= |env|
    ensures var size := Min(|v| - sent, mtu);
      var p := SendPiece(t, indicate, v[sent..sent + size], env[0], link);
      var o := Outcome(t, indicate, v[sent..], mtu, env, link);
      if !p.0 then o == (CheckError, p.1)
      else if sent + size < |v| then
        && |Chunks(v[sent + size..], mtu)| <= |env[1..]|
        && o == Outcome(t, indicate, v[sent + size..], mtu, env[1..], p.1)
      else o == (Success, p.1)
  {
    var size := Min(|v| - sent, mtu);
    assert v[sent..][..size] == v[sent..sent + size];
    assert v[sent..][size..] == v[sent + size..];
    DeliverStep(t, indicate, v[sent..], mtu, env, link);
  }

  lemma RequestsCons(t: Target, tr: seq<Request>, cs: seq<seq<uint8>>, a: nat)
    requires a < |cs|
    ensures tr + [NotifIndReq(t.connHandle, t.attrHandle, t.kind, cs[0])] + Requests(t, cs[1..][..a]) ==
            tr + Requests(t, cs[..a + 1])
  {
    assert cs[..a + 1][1..] == cs[1..][..a];
  }

  /** How many pieces a delivery attempts, and what it can return. */
  lemma {:induction false} DeliverAttempts(t: Target, indicate: bool, rest: seq<uint8>, mtu: nat, env: seq<Exchange>, link: Link)
    requires (mtu > 0 || |rest| == 0) && |Chunks(rest, mtu)| <= |env|
    ensures var d := Deliver(t, indicate, rest, mtu, env, link);
      && 1 <= d.attempted <= |Chunks(rest, mtu)|
      && (d.status == Success || d.status == CheckError)
      && (d.status == Success ==> d.attempted == |Chunks(rest, mtu)|)
    decreases |rest|
  {
    var size := Min(|rest|, mtu);
    var p := SendPiece(t, indicate, rest[..size], env[0], link);
    if p.0 && size < |rest| {
      DeliverAttempts(t, indicate, rest[size..], mtu, env[1..], p.1);
      assert |Chunks(rest, mtu)| == 1 + |Chunks(rest[size..], mtu)|;
    }
  }

  /**
   * Whatever happens, the pieces handed to the transport are a non-empty
   * prefix of Chunks(rest, mtu), in order (with DeliverAttempts: success means
   * all of them went out, a failure leaves the earlier pieces sent).
   */
  lemma {:induction false} DeliverSendsPrefix(t: Target, indicate: bool, rest: seq<uint8>, mtu: nat, env: seq<Exchange>, link: Link)
    requires (mtu > 0 || |rest| == 0) && |Chunks(rest, mtu)| <= |env|
    ensures var d := Deliver(t, indicate, rest, mtu, env, link);
      && 1 <= d.attempted <= |Chunks(rest, mtu)|
      && d.link.trace == link.trace + Requests(t, Chunks(rest, mtu)[..d.attempted])
    decreases |rest|
  {
    DeliverAttempts(t, indicate, rest, mtu, env, link);
    DeliverStep(t, indicate, rest, mtu, env, link);
    var size := Min(|rest|, mtu);
    var p := SendPiece(t, indicate, rest[..size], env[0], link);
    SendPieceTrace(t, indicate, rest[..size], env[0], link);
    ChunksHead(rest, mtu);
    var cs := Chunks(rest, mtu);
    if p.0 && size < |rest| {
      DeliverSendsPrefix(t, indicate, rest[size..], mtu, env[1..], p.1);
      RequestsCons(t, link.trace, cs, Deliver(t, indicate, rest[size..], mtu, env[1..], p.1).attempted);
    } else {
      RequestsCons(t, link.trace, cs, 0);
    }
  }

  /** One unfolding of Deliver: either the first pass ends it, or the rest is delivered from the new link. */
  lemma DeliverStep(t: Target, indicate: bool, rest: seq<uint8>, mtu: nat, env: seq<Exchange>, link: Link)
    requires (mtu > 0 || |rest| == 0) && |Chunks(rest, mtu)| <= |env|
    ensures var size := Min(|rest|, mtu);
      var p := SendPiece(t, indicate, rest[..size], env[0], link);
      var d := Deliver(t, indicate, rest, mtu, env, link);
      if p.0 && size < |rest| then
        && |Chunks(rest[size..], mtu)| <= |env[1..]|
        && d.link == Deliver(t, indicate, rest[size..], mtu, env[1..], p.1).link
        && d.attempted == Deliver(t, indicate, rest[size..], mtu, env[1..], p.1).attempted + 1
      else d.link == p.1 && d.attempted == 1
  {
  }

  /** The first piece is the first mtu bytes; the others are the pieces of what follows. */
  lemma ChunksHead(rest: seq<uint8>, mtu: nat)
    requires mtu > 0 || |rest| == 0
    ensures Chunks(rest, mtu)[0] == rest[..Min(|rest|, mtu)]
    ensures Min(|rest|, mtu) < |rest| ==> Chunks(rest, mtu)[1..] == Chunks(rest[Min(|rest|, mtu)..], mtu)
  {
  }

  /**
   * Notifications never wait: the posted tags are untouched, and the delivery
   * succeeds exactly when the transport accepts every piece.
   */
  lemma {:induction false} NotifyNeverWaits(t: Target, rest: seq<uint8>, mtu: nat, env: seq<Exchange>, link: Link)
    requires (mtu > 0 || |rest| == 0) && |Chunks(rest, mtu)| <= |env|
    ensures Deliver(t, false, rest, mtu, env, link).link.posted == link.posted
    ensures Deliver(t, false, rest, mtu, env, link).status == Success <==>
            forall i :: 0 <= i < |Chunks(rest, mtu)| ==> env[i].status == Success
    decreases |rest|
  {
    var size := Min(|rest|, mtu);
    if size < |rest| {
      var p := SendPiece(t, false, rest[..size], env[0], link);
      NotifyNeverWaits(t, rest[size..], mtu, env[1..], p.1);
      assert Chunks(rest, mtu)[1..] == Chunks(rest[size..], mtu);
      if env[0].status == Success {
        forall i | 0 <= i < |Chunks(rest, mtu)| && i > 0
          ensures (env[i].status == Success) == (env[1..][i - 1].status == Success)
        { }
      }
    }
  }

  /**
   * Indications wait once per piece: a delivery succeeds exactly when every
   * piece is accepted and every piece's confirmation is posted, the first
   * one possibly before the delivery started.
   */
  lemma {:induction false} IndicateWaitsPerChunk(t: Target, rest: seq<uint8>, mtu: nat, env: seq<Exchange>, link: Link)
    requires (mtu > 0 || |rest| == 0) && |Chunks(rest, mtu)| <= |env|
    ensures Deliver(t, true, rest, mtu, env, link).status == Success <==>
      && env[0].status == Success && NotifIndRsp in link.posted + env[0].first.tags
      && forall i :: 0 < i < |Chunks(rest, mtu)| ==> env[i].status == Success && NotifIndRsp in env[i].first.tags
    decreases |rest|
  {
    var size := Min(|rest|, mtu);
    var l1 := link.(trace := link.trace + [NotifIndReq(t.connHandle, t.attrHandle, t.kind, rest[..size])]);
    var l1' := IsErrorStep(l1, env[0].status).1;
    WaitSucceedsIffTagPosted(l1', NotifIndRsp, env[0].first, env[0].second);
    var p := SendPiece(t, true, rest[..size], env[0], link);
    if p.0 && size < |rest| {
      WaitConsumes(l1', NotifIndRsp, env[0].first, env[0].second);
      IndicateWaitsPerChunk(t, rest[size..], mtu, env[1..], p.1);
      assert Chunks(rest, mtu)[1..] == Chunks(rest[size..], mtu);
      assert (forall i :: 0 < i < |Chunks(rest, mtu)| ==> env[i].status == Success && NotifIndRsp in env[i].first.tags) <==>
             (forall i :: 0 <= i < |Chunks(rest[size..], mtu)| ==> env[1..][i].status == Success && NotifIndRsp in env[1..][i].first.tags);
    }
  }

  /**
   * A piece that is accepted but never confirmed fails the delivery's pass,
   * with BLE_TIMEOUT in `ble.error` when nothing else arrived, the poster's
   * status when an error was posted during the wait, and BLE_SUCCESS when
   * only an older error tag was left posted.
   */
  lemma ConfirmationMissingFails(t: Target, piece: seq<uint8>, ex: Exchange, link: Link)
    requires ex.status == Success && NotifIndRsp !in link.posted + ex.first.tags
    ensures !SendPiece(t, true, piece, ex, link).0
    ensures SendPiece(t, true, piece, ex, link).1.error ==
      if Error in ex.first.tags then ex.first.errorStatus
      else if Error in link.posted then Success
      else Timeout
  {
    var l1 := link.(trace := link.trace + [NotifIndReq(t.connHandle, t.attrHandle, t.kind, piece)], error := Success);
    var p1 := Pend(l1, {NotifIndRsp, Error}, ex.first);
    assert Error in p1.observed <==> Error in link.posted + ex.first.tags;
    assert p1.observed == {} <==> Error !in link.posted + ex.first.tags;
  }

  /**
   * With both CCCD bits set the requests say notification, yet the delivery
   * waits for a confirmation of every piece, as for an indication.
   */
  lemma BothBitsNotifyButWait(connHandle: uint16, attrHandle: uint16, cccd: uint16, v: seq<uint8>,
                              mtu: nat, env: seq<Exchange>, link: Link)
    requires NotifyBit(cccd) && IndicateBit(cccd)
    requires (mtu > 0 || |v| == 0) && |Chunks(v, mtu)| <= |env|
    ensures WriteNotifIndSpec(connHandle, attrHandle, cccd, v, mtu, env, link) ==
            Outcome(Target(connHandle, attrHandle, Notification), true, v, mtu, env, link)
    ensures WriteNotifIndSpec(connHandle, attrHandle, cccd, v, mtu, env, link).0 == Success <==>
      && env[0].status == Success && NotifIndRsp in link.posted + env[0].first.tags
      && forall i :: 0 < i < |Chunks(v, mtu)| ==> env[i].status == Success && NotifIndRsp in env[i].first.tags
  {
    IndicateWaitsPerChunk(Target(connHandle, attrHandle, Notification), v, mtu, env, link);
  }

  /** A complete delivery puts exactly the value on the air, piece by piece. */
  lemma DeliveredPayloadIsValue(t: Target, indicate: bool, v: seq<uint8>, mtu: nat, env: seq<Exchange>, link: Link)
    requires (mtu > 0 || |v| == 0) && |Chunks(v, mtu)| <= |env|
    requires Deliver(t, indicate, v, mtu, env, link).status == Success
    ensures Deliver(t, indicate, v, mtu, env, link).link.trace == link.trace + Requests(t, Chunks(v, mtu))
    ensures Flatten(Chunks(v, mtu)) == v
  {
    DeliverSendsPrefix(t, indicate, v, mtu, env, link);
    ChunksReassemble(v, mtu);
  }

  /** 45 bytes over a transfer size of 20: pieces of 20, 20 and 5 bytes. */
  lemma FortyFiveBytesInThreeChunks(v: seq<uint8>)
    requires |v| == 45
    ensures |Chunks(v, 20)| == 3
    ensures |Chunks(v, 20)[0]| == 20 && |Chunks(v, 20)[1]| == 20 && |Chunks(v, 20)[2]| == 5
  {
    assert Chunks(v[40..], 20) == [v[40..]];
    assert Chunks(v[20..][20..], 20) == [v[40..]];
  }
}
