/**
 * Advertisement data: the three slots (non-connectable, connectable, scan
 * response), the built-in default payloads, the scan response rebuilt around
 * a new device name, and the rules by which setAdvertData and advertDataInit
 * replace slot contents and release the previous buffer.
 */
module Advert {
  import opened Protocol
  import opened EventWait

  const MaxAdvertIdx: nat := 3

  /** advertIndex: the slot of an advertisement data type; other types have none (BLE_INVALID_PARAMETERS). */
  function AdvertIndex(t: AdvertType): Option<nat>
  {
    match t
    case NotConnData => Some(0)
    case ConnData => Some(1)
    case ScanRspData => Some(2)
    case OtherAdvType(_) => None
  }

  /** aDIdxToType: the type stored in each slot. */
  function TypeOfIndex(i: nat): AdvertType
    requires i < MaxAdvertIdx
  {
    [NotConnData, ConnData, ScanRspData][i]
  }

  /** The two tables are inverse: every slot's type maps back to the slot ... */
  lemma IndexOfTypeOfIndex(i: nat)
    requires i < MaxAdvertIdx
    ensures AdvertIndex(TypeOfIndex(i)) == Some(i)
  {
  }

  /** ... and every type with a slot is that slot's type. */
  lemma TypeOfIndexOfType(t: AdvertType)
    ensures AdvertIndex(t).Some? ==> AdvertIndex(t).value < MaxAdvertIdx && TypeOfIndex(AdvertIndex(t).value) == t
    ensures AdvertIndex(t).None? <==> t.OtherAdvType?
  {
  }

  // AD type and flag values of the Bluetooth Core Specification Supplement, Part A.
  const AdTypeFlags: uint8 := 0x01
  const AdTypeLocalNameComplete: uint8 := 0x09
  const AdFlagsGeneralNoBrEdr: uint8 := 0x06
  const TiCompanyId: uint16 := 0x000D
  // The next four come from headers that are not part of this model; the
  // values are placeholders that no property below depends on.
  const TiStDeviceId: uint8 := 0x03
  const TiStKeyDataId: uint8 := 0x00
  const DefMinConnInt: uint16 := 80
  const DefMaxConnInt: uint16 := 800

  function Lo(x: uint16): uint8 { (x % 0x100) as uint8 }
  function Hi(x: uint16): uint8 { (x / 0x100) as uint8 }

  /** defNotConnAD: flags, then TI manufacturer data with a key state. */
  function DefNotConnAD(): (r: seq<uint8>)
    ensures |r| == 10
  {
    [0x02, AdTypeFlags, AdFlagsGeneralNoBrEdr,
     0x06, 0xFF, Lo(TiCompanyId), Hi(TiCompanyId), TiStDeviceId, TiStKeyDataId, 0x00]
  }

  /** defConnAD: empty, so the NP reuses the non-connectable data. */
  function DefConnAD(): seq<uint8> { [] }

  /** defScanRspData: complete name "Energia BLE", connection interval range, Tx power 0 dBm. */
  function DefScanRspData(): (r: seq<uint8>)
    ensures |r| == 22
  {
    [0x0C, AdTypeLocalNameComplete,
     0x45, 0x6E, 0x65, 0x72, 0x67, 0x69, 0x61, 0x20, 0x42, 0x4C, 0x45,
     0x05, 0x12, Lo(DefMinConnInt), Hi(DefMinConnInt), Lo(DefMaxConnInt), Hi(DefMaxConnInt),
     0x02, 0x0A, 0x00]
  }

  function DefaultData(i: nat): seq<uint8>
    requires i < MaxAdvertIdx
  {
    if i == 0 then DefNotConnAD() else if i == 1 then DefConnAD() else DefScanRspData()
  }

  /**
   * The first field of the default scan response is the name: its length byte
   * counts the type byte and the 11 name bytes.
   */
  lemma DefaultScanRspShape()
    ensures |DefScanRspData()| == 22 && DefScanRspData()[0] == 12
    ensures 1 + DefScanRspData()[0] as nat <= |DefScanRspData()|
    ensures |DefaultData(1)| == 0 && |DefaultData(0)| == 10
  {
  }

  /**
   * The buffer a slot points to: a built-in default (never released) or a
   * buffer handed over by the application or setAdvertName.
   */
  datatype AdvBuf = Builtin | Heap(bytes: seq<uint8>)

  /** The bytes setAdvertData sends for a buffer of a given type. */
  function Payload(t: AdvertType, buf: AdvBuf): seq<uint8>
  {
    match buf
    case Heap(b) => b
    case Builtin => match AdvertIndex(t) { case Some(i) => DefaultData(i) case None => [] }
  }

  /** The slots, the link state, and the buffers released so far. */
  datatype AdvState = AdvState(slots: seq<Option<AdvBuf>>, link: Link, released: seq<AdvBuf>)

  predicate WellFormed(s: AdvState)
  {
    |s.slots| == MaxAdvertIdx && forall i :: 0 <= i < |s.released| ==> s.released[i].Heap?
  }

  /**
   * setAdvertData: send the data and wait for the (doubly posted) confirmation;
   * only then release the slot's previous buffer unless it is the default, and
   * store the new one.
   */
  function SetAdvertDataSpec(s: AdvState, t: AdvertType, buf: AdvBuf, ex: Exchange): (Status, AdvState)
    requires |s.slots| == MaxAdvertIdx
  {
    var c := Call(s.link, AdvDataReq(t, Payload(t, buf)), AdvDataRsp, ex);
    if c.0 != Success then (CheckError, s.(link := c.1))
    else match AdvertIndex(t)
      case None => (Success, s.(link := c.1))
      case Some(i) => (Success, StoreSlot(s.(link := c.1), i, buf))
  }

  /** Store `buf` in slot `i`, releasing the buffer it held unless that was the default. */
  function StoreSlot(s: AdvState, i: nat, buf: AdvBuf): AdvState
    requires i < |s.slots|
  {
    var freed := if s.slots[i].Some? && s.slots[i].value.Heap? then [s.slots[i].value] else [];
    s.(slots := s.slots[i := Some(buf)], released := s.released + freed)
  }

  /**
   * A slot changes only when the call succeeds and only the slot of the type;
   * the previous buffer is released exactly when it was not the default; a
   * default is never released.
   */
  lemma SetAdvertDataReplacesSlot(s: AdvState, t: AdvertType, buf: AdvBuf, ex: Exchange)
    requires WellFormed(s)
    ensures var r := SetAdvertDataSpec(s, t, buf, ex);
      && WellFormed(r.1)
      && r.1.link.trace == s.link.trace + [AdvDataReq(t, Payload(t, buf))]
      && (r.0 == Success <==> ex.status == Success && AdvDataRsp in s.link.posted + ex.first.tags)
      && (r.0 != Success ==> r.1.slots == s.slots && r.1.released == s.released)
      && (r.0 == Success && t.OtherAdvType? ==> r.1.slots == s.slots && r.1.released == s.released)
      && (r.0 == Success && !t.OtherAdvType? ==>
            var i := AdvertIndex(t).value;
            && r.1.slots == s.slots[i := Some(buf)]
            && r.1.released == s.released + (if s.slots[i] == None || s.slots[i] == Some(Builtin) then [] else [s.slots[i].value]))
  {
    CallOutcome(s.link, AdvDataReq(t, Payload(t, buf)), AdvDataRsp, ex);
  }

  /**
   * One pass of advertDataInit's loop at slot `i`: an empty slot whose default
   * is not empty gets its default through setAdvertData; isError(BLE_SUCCESS)
   * after a success stores BLE_SUCCESS.
   */
  function InitSlotSpec(s: AdvState, env: seq<Exchange>, i: nat): (r: (Status, AdvState))
    requires |s.slots| == MaxAdvertIdx && |env| >= MaxAdvertIdx && i < MaxAdvertIdx
    ensures |r.1.slots| == MaxAdvertIdx
  {
    if s.slots[i] == None && |DefaultData(i)| != 0 then
      var r := SetAdvertDataSpec(s, TypeOfIndex(i), Builtin, env[i]);
      if r.0 != Success then (CheckError, r.1)
      else (Success, r.1.(link := r.1.link.(error := Success)))
    else (Success, s)
  }

  /** advertDataInit from slot `i` on: the first failing pass stops it. */
  function InitFrom(s: AdvState, env: seq<Exchange>, i: nat): (Status, AdvState)
    requires |s.slots| == MaxAdvertIdx && |env| >= MaxAdvertIdx && i <= MaxAdvertIdx
    decreases MaxAdvertIdx - i
  {
    if i == MaxAdvertIdx then (Success, s)
    else
      var r := InitSlotSpec(s, env, i);
      if r.0 != Success then r else InitFrom(r.1, env, i + 1)
  }

  /**
   * advertDataInit never overwrites a filled slot and never releases a buffer;
   * when it succeeds, each empty slot with a non-empty default holds that
   * default, and the empty connectable slot stays empty.
   */
  lemma {:induction false} InitFillsOnlyEmptySlots(s: AdvState, env: seq<Exchange>, i: nat)
    requires WellFormed(s) && |env| >= MaxAdvertIdx && i <= MaxAdvertIdx
    ensures var r := InitFrom(s, env, i);
      && WellFormed(r.1)
      && r.0 in {Success, CheckError}
      && r.1.released == s.released
      && (forall j :: 0 <= j < MaxAdvertIdx && s.slots[j].Some? ==> r.1.slots[j] == s.slots[j])
      && (forall j :: 0 <= j < i ==> r.1.slots[j] == s.slots[j])
      && (r.0 == Success ==> forall j :: i <= j < MaxAdvertIdx ==>
            r.1.slots[j] == if s.slots[j] == None && j != 1 then Some(Builtin) else s.slots[j])
    decreases MaxAdvertIdx - i
  {
    if i < MaxAdvertIdx {
      if s.slots[i] == None && |DefaultData(i)| != 0 {
        var r := SetAdvertDataSpec(s, TypeOfIndex(i), Builtin, env[i]);
        IndexOfTypeOfIndex(i);
        SetAdvertDataReplacesSlot(s, TypeOfIndex(i), Builtin, env[i]);
        if r.0 == Success {
          InitFillsOnlyEmptySlots(r.1.(link := r.1.link.(error := Success)), env, i + 1);
        }
      } else {
        InitFillsOnlyEmptySlots(s, env, i + 1);
      }
    }
  }

  /**
   * setAdvertName's buffer size, as the uint8_t variable holds it:
   * sizeof(defScanRspData) - defScanRspData[0] + 1 + n, modulo 256.
   */
  function NameRspSize(n: nat): nat
  {
    (|DefScanRspData()| - DefScanRspData()[0] as nat + 1 + n) % 0x100
  }

  /**
   * The bytes setAdvertName writes: the new name field (length byte 1 + n as
   * a uint8_t, the default's type byte, the name; the terminating NUL that
   * strcpy writes is overwritten) followed by the default data after the
   * default name field.
   */
  function NameRspWritten(name: seq<uint8>): seq<uint8>
  {
    [((1 + |name|) % 0x100) as uint8, DefScanRspData()[1]] + name + DefScanRspData()[1 + DefScanRspData()[0] as nat..]
  }

  /** The scan response setAdvertName hands to setAdvertData: the first `newSize` written bytes. */
  function ScanRspWithName(name: seq<uint8>): seq<uint8>
  {
    NameRspWritten(name)[..NameRspSize(|name|)]
  }

  /**
   * For a name of up to 244 bytes the buffer is sizeof(def) - def[0] + 1 + n
   * bytes: the length byte 1 + n, the name type, the name, then the rest of
   * the default scan response unchanged.
   */
  lemma ScanRspWithNameLayout(name: seq<uint8>)
    requires |name| <= 244
    ensures var r := ScanRspWithName(name);
      && |r| == |DefScanRspData()| - DefScanRspData()[0] as nat + 1 + |name|
      && r[0] as nat == 1 + |name|
      && r[1] == DefScanRspData()[1] == AdTypeLocalNameComplete
      && r[2..2 + |name|] == name
      && r[2 + |name|..] == DefScanRspData()[13..]
  {
    var w := NameRspWritten(name);
    assert |w| == 11 + |name|;
    assert w[2..2 + |name|] == name;
    assert w[2 + |name|..] == DefScanRspData()[13..];
  }

  /**
   * Past 244 bytes the uint8_t size wraps: a 245-byte name yields a size of
   * 0, and the request carries no data at all.
   */
  lemma LongNameWrapsSize(name: seq<uint8>)
    requires |name| == 245
    ensures NameRspSize(|name|) == 0 && ScanRspWithName(name) == []
  {
  }
}
