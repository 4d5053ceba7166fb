/**
 * Pairing: handleEvents polls for an authentication event or a button
 * press; a passkey is drawn and, when the peer asks for input, sent; a
 * numeric comparison is answered by the button the user presses (button 1:
 * equal, button 2: different).
 */
module Pairing {
  import opened Protocol
  import opened EventWait
  import opened Dispatch

  const PasskeyModulus: nat := 1000000

  /**
   * handleAuthKey: the passkey is the random number modulo 1000000; when the
   * event asks for input it is sent and the acknowledgment awaited.
   */
  function HandleAuthKeySpec(s: Shared, evt: AuthEvt, rand: nat, ex: Exchange): (Status, Shared)
  {
    var key := rand % PasskeyModulus;
    var s1 := s.(authKey := key);
    if evt.input != 0 then
      var c := Call(s1.link, AuthRspReq(key), AuthRsp, ex);
      (c.0, s1.(link := c.1))
    else (Success, s1)
  }

  /** numCmpInterrupt1 / numCmpInterrupt2: record the answer and post the button tag. */
  function NumCmpButton(s: Shared, equal: bool): Shared
  {
    Post(s.(authKey := if equal then 1 else 0), NumCmpBtn)
  }

  /** The value `Event_pend` returns for the observed tags, as `opcode` stores it. */
  function PollMask(observed: set<Tag>): nat
  {
    (if HandleAuthEvt in observed then EventBit(HandleAuthEvt) else 0) + (if NumCmpBtn in observed then EventBit(NumCmpBtn) else 0)
  }

  /** The two polled tags are bits 11 and 16, so each observation is one mask value. */
  lemma PollMaskValues(observed: set<Tag>)
    ensures PollMask(observed) ==
      (if HandleAuthEvt in observed then 0x800 else 0) + (if NumCmpBtn in observed then 0x1_0000 else 0)
  {
    assert EventBit(HandleAuthEvt) == Pow2(11) == 0x800;
    assert EventBit(NumCmpBtn) == Pow2(16) == 0x1_0000;
  }

  /**
   * handleEvents: poll (a one-tick wait) for the authentication-event and
   * button tags. An authentication event with a comparison value only
   * prompts the user (the buttons are armed outside this model); one that
   * displays a passkey goes through handleAuthKey, whose outcome passes
   * through isError. A button press sends the stored answer and awaits the
   * acknowledgment.
   */
  function HandleEventsSpec(s: Shared, poll: Arrival, rand: nat, keyEx: Exchange, btnEx: Exchange): (Status, Shared)
  {
    var p := Pend(s.link, {HandleAuthEvt, NumCmpBtn}, poll);
    var s1 := s.(link := p.link, opcode := PollMask(p.observed));
    var a := if HandleAuthEvt in p.observed then AuthEventSpec(s1, rand, keyEx) else (Success, s1);
    if NumCmpBtn in p.observed then
      var c := Call(a.1.link, AuthRspReq(a.1.authKey), AuthRsp, btnEx);
      (if c.0 == Success then a.0 else CheckError, a.1.(link := c.1))
    else a
  }

  /**
   * The authentication-event branch of handleEvents: a comparison only
   * prompts the user (the buttons are armed outside this model); a passkey
   * display goes through handleAuthKey, whose outcome passes through isError.
   */
  function AuthEventSpec(s: Shared, rand: nat, keyEx: Exchange): (Status, Shared)
  {
    var evt := s.eventHandlerData;
    if evt.numCmp == 0 && evt.display != 0 then
      var k := HandleAuthKeySpec(s, evt, rand, keyEx);
      if k.0 == Success then (Success, k.1.(link := k.1.link.(error := Success))) else (CheckError, k.1)
    else (Success, s)
  }

  /** The passkey always has at most six decimal digits. */
  lemma PasskeyBelowMillion(s: Shared, evt: AuthEvt, rand: nat, ex: Exchange)
    ensures HandleAuthKeySpec(s, evt, rand, ex).1.authKey < 1000000
    ensures evt.input == 0 ==> HandleAuthKeySpec(s, evt, rand, ex).1.link == s.link
    ensures evt.input != 0 ==>
      HandleAuthKeySpec(s, evt, rand, ex).1.link.trace == s.link.trace + [AuthRspReq(rand % 1000000)]
  {
    CallOutcome(s.link, AuthRspReq(rand % 1000000), AuthRsp, ex);
  }

  /**
   * An authentication event that displays a passkey the peer must enter:
   * handleEvents draws the key, sends exactly that key, and succeeds exactly
   * when the transport accepts it and the acknowledgment is posted.
   */
  lemma PasskeyEventSendsKey(s: Shared, poll: Arrival, rand: nat, keyEx: Exchange, btnEx: Exchange)
    requires HandleAuthEvt in s.link.posted + poll.tags && NumCmpBtn !in s.link.posted + poll.tags
    requires s.eventHandlerData.numCmp == 0 && s.eventHandlerData.display != 0 && s.eventHandlerData.input != 0
    ensures var r := HandleEventsSpec(s, poll, rand, keyEx, btnEx);
      && r.1.authKey == rand % 1000000
      && r.1.opcode == 0x800
      && r.1.link.trace == s.link.trace + [AuthRspReq(rand % 1000000)]
      && (r.0 == Success <==>
            keyEx.status == Success && AuthRsp in (s.link.posted + poll.tags - {HandleAuthEvt, NumCmpBtn}) + keyEx.first.tags)
  {
    var p := Pend(s.link, {HandleAuthEvt, NumCmpBtn}, poll);
    assert p.observed == {HandleAuthEvt};
    PollMaskValues(p.observed);
    CallOutcome(p.link, AuthRspReq(rand % 1000000), AuthRsp, keyEx);
  }

  /**
   * Pressing a button and then handling events answers the comparison with
   * that button's choice: 1 for button 1, 0 for button 2.
   */
  lemma ButtonChoosesAnswer(s: Shared, equal: bool, poll: Arrival, rand: nat, keyEx: Exchange, btnEx: Exchange)
    requires HandleAuthEvt !in s.link.posted + poll.tags
    ensures var r := HandleEventsSpec(NumCmpButton(s, equal), poll, rand, keyEx, btnEx);
      && r.1.link.trace == s.link.trace + [AuthRspReq(if equal then 1 else 0)]
      && r.1.opcode == 0x1_0000
      && (r.0 == Success <==> btnEx.status == Success && AuthRsp in s.link.posted + poll.tags + btnEx.first.tags)
  {
    var s1 := NumCmpButton(s, equal);
    var p := Pend(s1.link, {HandleAuthEvt, NumCmpBtn}, poll);
    assert NumCmpBtn in p.observed && HandleAuthEvt !in p.observed;
    assert p.observed == {NumCmpBtn};
    PollMaskValues(p.observed);
    CallOutcome(p.link, AuthRspReq(if equal then 1 else 0), AuthRsp, btnEx);
  }

  /**
   * A comparison prompt sends nothing by itself: the answer waits for a
   * button; and a poll that observes nothing sends nothing and succeeds.
   */
  lemma PromptWaitsForButton(s: Shared, poll: Arrival, rand: nat, keyEx: Exchange, btnEx: Exchange)
    requires NumCmpBtn !in s.link.posted + poll.tags
    requires HandleAuthEvt !in s.link.posted + poll.tags || s.eventHandlerData.numCmp != 0
    ensures HandleEventsSpec(s, poll, rand, keyEx, btnEx).0 == Success
    ensures HandleEventsSpec(s, poll, rand, keyEx, btnEx).1.link.trace == s.link.trace
    ensures HandleEventsSpec(s, poll, rand, keyEx, btnEx).1.authKey == s.authKey
  {
  }
}
