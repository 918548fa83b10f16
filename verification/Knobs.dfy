/**
 ROTO knob positions out (crates/midistage-profiles/src/device_profile.rs:663-672) and controls in
 (crates/midistage-profiles/src/device_input.rs:59-111). A knob value travels in two messages, high
 byte first, so the parser keeps the latest high byte of each knob until the low byte arrives.
 */
module Knobs {
  import opened Prelude
  import opened Midi

  const CC16: Byte := 0xBF
  const KNOB_HI_BASE: Byte := 12
  const KNOB_LO_BASE: Byte := 44
  const KNOB_TOUCH_BASE: Byte := 52
  const BUTTON_BASE: Byte := 20
  const BUTTON_COUNT: Byte := 18
  const PRESS_THRESHOLD: Byte := 64
  const KNOBS := 8

  datatype Event =
    | Knob(index: Byte, value: real)
    | KnobTouch(index: Byte, pressed: bool)
    | Button(index: Byte, pressed: bool)

  function HighMessage(index: Byte, x: real): Message
    requires index < KNOBS
  {
    [CC16, KNOB_HI_BASE + index, Position14(x) / 128]
  }

  function LowMessage(index: Byte, x: real): Message
    requires index < KNOBS
  {
    [CC16, KNOB_LO_BASE + index, Position14(x) % 128]
  }

  function KnobPosition(index: Byte, x: real): Batch
    requires index < KNOBS
  {
    [HighMessage(index, x), LowMessage(index, x)]
  }

  lemma KnobMessagesAreWellFormed(index: Byte, x: real, m: Message)
    requires index < KNOBS && m in KnobPosition(index, x)
    ensures ChannelMessage(m)
  {
    assert m == HighMessage(index, x) || m == LowMessage(index, x);
  }

  predicate Cc(m: Message) {
    |m| >= 3 && m[0] == CC16
  }

  predicate SetsHigh(m: Message, index: nat) {
    Cc(m) && m[1] == KNOB_HI_BASE as int + index
  }

  function Parsed(hi: seq<Byte>, m: Message): (r: (seq<Byte>, Option<Event>))
    requires |hi| == KNOBS
    ensures |r.0| == KNOBS
  {
    if !Cc(m) then (hi, None)
    else
      var cc, val := m[1], m[2] % 128;
      if KNOB_HI_BASE <= cc < KNOB_HI_BASE + 8 then (hi[cc - KNOB_HI_BASE := val], None)
      else if KNOB_LO_BASE <= cc < KNOB_LO_BASE + 8 then
        (hi, Some(Knob(cc - KNOB_LO_BASE, Value14(hi[cc - KNOB_LO_BASE], val))))
      else if KNOB_TOUCH_BASE <= cc < KNOB_TOUCH_BASE + 8 then
        (hi, Some(KnobTouch(cc - KNOB_TOUCH_BASE, val >= PRESS_THRESHOLD)))
      else if BUTTON_BASE <= cc < BUTTON_BASE + BUTTON_COUNT then
        (hi, Some(Button(cc - BUTTON_BASE, val >= PRESS_THRESHOLD)))
      else (hi, None)
  }

  /** A touch of knob `index`: pressed when its lower seven bits are 64 or more. */
  lemma TouchIsRead(hi: seq<Byte>, index: Byte, value: Byte)
    requires |hi| == KNOBS && index < 8
    ensures Parsed(hi, [0xBF, 52 + index, value]) == (hi, Some(KnobTouch(index, value % 128 >= 64)))
  {
  }

  /** A button, from the eight beside the knobs to the two arrows: likewise. */
  lemma ButtonIsRead(hi: seq<Byte>, index: Byte, value: Byte)
    requires |hi| == KNOBS && index < 18
    ensures Parsed(hi, [0xBF, 20 + index, value]) == (hi, Some(Button(index, value % 128 >= 64)))
  {
  }

  /** Nothing but a control change of channel 16 for a low byte, a touch or a button is an event. */
  lemma EventsAreReadExactlyFrom(hi: seq<Byte>, m: Message)
    requires |hi| == KNOBS
    ensures Parsed(hi, m).1.Some? <==> |m| >= 3 && m[0] == 0xBF && (44 <= m[1] < 60 || 20 <= m[1] < 38)
    ensures Parsed(hi, m).0 != hi ==> |m| >= 3 && m[0] == 0xBF && 12 <= m[1] < 20
  {
  }

  class Input {
    const knobHi: array<Byte>

    ghost predicate Valid()
      reads this, knobHi
    {
      knobHi.Length == KNOBS
    }

    constructor ()
      ensures Valid() && fresh(knobHi) && knobHi[..] == START
    {
      knobHi := new Byte[KNOBS](_ => 0);
    }

    method Parse(m: Message) returns (event: Option<Event>)
      requires Valid()
      modifies knobHi
      ensures Valid() && (knobHi[..], event) == Parsed(old(knobHi[..]), m)
    {
      if |m| < 3 || m[0] != CC16 {
        return None;
      }
      var cc, val := m[1], m[2] % 128;
      if KNOB_HI_BASE <= cc < KNOB_HI_BASE + 8 {
        knobHi[cc - KNOB_HI_BASE] := val;
        return None;
      } else if KNOB_LO_BASE <= cc < KNOB_LO_BASE + 8 {
        var index := cc - KNOB_LO_BASE;
        return Some(Knob(index, Value14(knobHi[index], val)));
      } else if KNOB_TOUCH_BASE <= cc < KNOB_TOUCH_BASE + 8 {
        return Some(KnobTouch(cc - KNOB_TOUCH_BASE, val >= PRESS_THRESHOLD));
      } else if BUTTON_BASE <= cc < BUTTON_BASE + BUTTON_COUNT {
        return Some(Button(cc - BUTTON_BASE, val >= PRESS_THRESHOLD));
      }
      return None;
    }
  }

  const START: seq<Byte> := [0, 0, 0, 0, 0, 0, 0, 0]

  /** The parser's memory after the first `n` messages. */
  function After(ms: seq<Message>, n: nat): (hi: seq<Byte>)
    requires n <= |ms|
    ensures |hi| == KNOBS
  {
    if n == 0 then START else Parsed(After(ms, n - 1), ms[n - 1]).0
  }

  function EventAt(ms: seq<Message>, n: nat): Option<Event>
    requires n < |ms|
  {
    Parsed(After(ms, n), ms[n]).1
  }

  lemma {:induction false} HighIsKept(ms: seq<Message>, i: nat, n: nat, index: nat)
    requires i < n <= |ms| && index < KNOBS && SetsHigh(ms[i], index)
    requires forall k :: i < k < n ==> !SetsHigh(ms[k], index)
    ensures After(ms, n)[index] == ms[i][2] % 128
  {
    if i + 1 < n {
      HighIsKept(ms, i, n - 1, index);
    }
  }

  /**
   Whatever arrives before, between and after: once a knob's high and low message are in the stream, with no
   other high message of the same knob between them, the parser reports that knob at the sent place.
   */
  lemma KnobRoundTrip(ms: seq<Message>, i: nat, j: nat, index: Byte, x: real)
    requires i < j < |ms| && index < KNOBS && ms[i] == HighMessage(index, x) && ms[j] == LowMessage(index, x)
    requires forall k :: i < k < j ==> !SetsHigh(ms[k], index)
    ensures EventAt(ms, i) == None
    ensures var e := EventAt(ms, j); e.Some? && e.value.Knob? && e.value.index == index && Near(e.value.value, x)
  {
    HighIsKept(ms, i, j, index);
    Position14IsNear(x);
  }

  /** The value reported is always that of the latest high byte, or of zero before the first. */
  lemma {:induction false} LowUsesLatestHigh(ms: seq<Message>, n: nat, index: nat) returns (high: Option<nat>)
    requires n <= |ms| && index < KNOBS
    ensures high.Some? ==>
      high.value < n && SetsHigh(ms[high.value], index) && After(ms, n)[index] == ms[high.value][2] % 128
    ensures forall k :: (if high.Some? then high.value + 1 else 0) <= k < n ==> !SetsHigh(ms[k], index)
    ensures high.None? ==> After(ms, n)[index] == 0
  {
    high := None;
    if n > 0 {
      if SetsHigh(ms[n - 1], index) {
        high := Some(n - 1);
      } else {
        high := LowUsesLatestHigh(ms, n - 1, index);
      }
    }
  }
}
