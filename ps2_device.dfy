/**
 * The PS/2 device driver as the keyboard firmware sees it: the calls it
 * issues (initialise the bus, run the bus task, send a make code, send a
 * break code) and the bytes those calls ask the driver to send. A break
 * code is 0xF0 followed by the key's make code (ps2demo/ps2_scancodes.h:9,
 * 190). Wire is the byte stream the firmware requests, as if every send
 * succeeds: a send the driver refuses is still part of it.
 *
 * A host-side decoder for one key event (an optional E0 prefix, an optional
 * F0 break marker and one make code) is the partner of the encoding.
 */
module Ps2Device {
  import opened Scancodes
  import opened Wrappers

  /** One call into the bus driver, in the order the firmware issues them. */
  datatype Call =
    | Init              // ps2_device_init
    | Task              // ps2_device_task
    | Make(code: Byte)  // ps2_device_send_key_make
    | Break(code: Byte) // ps2_device_send_key_break

  predicate IsKeyCall(c: Call) {
    c.Make? || c.Break?
  }

  /** The bytes one call asks the driver to send. */
  function CallBytes(c: Call): (w: seq<Byte>)
    ensures w != [] <==> IsKeyCall(c)
    ensures w != [] ==> w[|w| - 1] == c.code
    ensures c.Break? ==> w[0] == PrefixF0 && |w| == 2
    ensures c.Make? ==> |w| == 1
  {
    match c
    case Make(b) => [b]
    case Break(b) => [PrefixF0, b]
    case _ => []
  }

  /** The bytes a sequence of calls asks the driver to send, in order. */
  function Wire(calls: seq<Call>): seq<Byte> {
    if calls == [] then [] else CallBytes(calls[0]) + Wire(calls[1..])
  }

  lemma {:induction false} WireAppend(a: seq<Call>, b: seq<Call>)
    ensures Wire(a + b) == Wire(a) + Wire(b)
    decreases |a|
  {
    if a == [] {
      assert a + b == b;
    } else {
      assert (a + b)[1..] == a[1..] + b;
      WireAppend(a[1..], b);
    }
  }

  lemma {:induction false} WireWithoutKeyCalls(calls: seq<Call>)
    requires forall i :: 0 <= i < |calls| ==> !IsKeyCall(calls[i])
    ensures Wire(calls) == []
    decreases |calls|
  {
    if calls != [] {
      WireWithoutKeyCalls(calls[1..]);
    }
  }

  /** A key event as a host reads it off the wire. */
  datatype KeyEvent = KeyEvent(code: Byte, extended: bool, release: bool)

  /** The calls that send one key event: E0 first when extended, then the make or break code. */
  function EventCalls(e: KeyEvent): seq<Call> {
    (if e.extended then [Make(PrefixE0)] else [])
      + [if e.release then Break(e.code) else Make(e.code)]
  }

  /**
   * Reads one key event from the bytes of exactly one event, or None when
   * the bytes are not one well-formed event.
   */
  function Decode(w: seq<Byte>): (r: Option<KeyEvent>)
    ensures r.Some? ==> !IsPrefix(r.value.code) && Wire(EventCalls(r.value)) == w
  {
    var r := if |w| > 0 && w[0] == PrefixE0 then DecodeBody(w[1..], true) else DecodeBody(w, false);
    if r.Some? then EventWire(r.value); r else r
  }

  function DecodeBody(w: seq<Byte>, extended: bool): (r: Option<KeyEvent>)
    ensures r.Some? ==> r.value.extended == extended && !IsPrefix(r.value.code)
    ensures r.Some? && r.value.release ==> w == [PrefixF0, r.value.code]
    ensures r.Some? && !r.value.release ==> w == [r.value.code]
  {
    if |w| == 2 && w[0] == PrefixF0 && !IsPrefix(w[1]) then Some(KeyEvent(w[1], extended, true))
    else if |w| == 1 && !IsPrefix(w[0]) then Some(KeyEvent(w[0], extended, false))
    else None
  }

  /** The bytes of one event: E0 when extended, F0 when a release, then the code. */
  lemma EventWire(e: KeyEvent)
    ensures Wire(EventCalls(e))
      == (if e.extended then [PrefixE0] else []) + (if e.release then [PrefixF0] else []) + [e.code]
  {
    var last := [if e.release then Break(e.code) else Make(e.code)];
    if e.extended {
      WireAppend([Make(PrefixE0)], last);
      assert Wire([Make(PrefixE0)]) == [PrefixE0];
    } else {
      assert EventCalls(e) == last;
    }
    assert Wire(last) == CallBytes(last[0]);
  }

  /** Every event whose code is not a prefix byte survives the wire. */
  lemma DecodeEventCalls(e: KeyEvent)
    requires !IsPrefix(e.code)
    ensures Decode(Wire(EventCalls(e))) == Some(e)
  {
    EventWire(e);
  }

  /** No event whose code is a prefix byte can be read back from its bytes. */
  lemma PrefixCodesAreLost(e: KeyEvent)
    requires IsPrefix(e.code)
    ensures Decode(Wire(EventCalls(e))) == None
  {
    EventWire(e);
  }
}
