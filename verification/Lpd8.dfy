/**
 The LPD8 mk2 profile (crates/midistage-profiles/src/device_profile.rs:403-493) and the pad part of
 the feedback projection (crates/vantage-point/src/devices.rs:616-636).
 */
module Lpd8 {
  import opened Prelude
  import opened Midi

  const MK2_HEADER: seq<Byte> := [0xF0, 0x47, 0x7F, 0x4C]
  const CMD_PAD_LED: seq<Byte> := [0x06, 0x00, 0x30]
  const PADS := 8
  const BLACK := Rgb(0, 0, 0)

  function Pack7(value: Byte): (s: seq<Byte>)
    ensures |s| == 2 && DataBytes(s)
  {
    [value / 128, value % 128]
  }

  function Packed(color: Rgb): (s: seq<Byte>)
    ensures |s| == 6 && DataBytes(s)
  {
    Pack7(color.r) + Pack7(color.g) + Pack7(color.b)
  }

  function PackedAll(colors: seq<Rgb>): (s: seq<Byte>)
    ensures |s| == 6 * |colors| && DataBytes(s)
  {
    if colors == [] then [] else PackedAll(colors[..|colors| - 1]) + Packed(colors[|colors| - 1])
  }

  function PadLedMessage(colors: seq<Rgb>): Message {
    MK2_HEADER + CMD_PAD_LED + PackedAll(colors) + [EOX]
  }

  function Called(colors: seq<Rgb>, index: Byte, color: Rgb): (r: (seq<Rgb>, Batch))
    ensures |r.0| == |colors|
  {
    if index >= |colors| then (colors, []) else (colors[index := color], [PadLedMessage(colors[index := color])])
  }

  // ----- feedback -----

  datatype Pad = Pad(index: Byte, filled: bool, color: Option<Rgb>)

  function ColorOf(pad: Pad): Rgb {
    if pad.color.Some? then pad.color.value else if pad.filled then Rgb(255, 180, 40) else BLACK
  }

  /** All projections of the pads, in order: the shadow after them, and every message they would send. */
  function Projected(colors: seq<Rgb>, pads: seq<Pad>): (r: (seq<Rgb>, Batch))
    ensures |r.0| == |colors|
    decreases |pads|
  {
    if pads == [] then (colors, [])
    else
      var before := Projected(colors, pads[..|pads| - 1]);
      var last := Called(before.0, pads[|pads| - 1].index, ColorOf(pads[|pads| - 1]));
      (last.0, before.1 + last.1)
  }

  class Profile {
    const padColors: array<Rgb>

    ghost predicate Valid()
      reads this, padColors
    {
      padColors.Length == PADS
    }

    constructor ()
      ensures Valid() && fresh(padColors) && padColors[..] == [BLACK, BLACK, BLACK, BLACK, BLACK, BLACK, BLACK, BLACK]
    {
      padColors := new Rgb[PADS](_ => BLACK);
    }

    method PadLedSysEx() returns (m: Message)
      requires Valid()
      ensures m == PadLedMessage(padColors[..])
    {
      m := MK2_HEADER + CMD_PAD_LED;
      for i := 0 to PADS
        invariant m == MK2_HEADER + CMD_PAD_LED + PackedAll(padColors[..i])
      {
        m := m + Pack7(padColors[i].r) + Pack7(padColors[i].g) + Pack7(padColors[i].b);
        assert padColors[..i + 1][..i] == padColors[..i];
      }
      assert padColors[..PADS] == padColors[..];
      m := m + [EOX];
    }

    method ProjectTrack(index: Byte, color: Rgb) returns (batch: Batch)
      requires Valid()
      modifies padColors
      ensures Valid() && (padColors[..], batch) == Called(old(padColors[..]), index, color)
    {
      if index >= PADS {
        return [];
      }
      padColors[index] := color;
      var m := PadLedSysEx();
      return [m];
    }

    /** The pads of one feedback: each is projected, and only the messages of the last are sent. */
    method Feedback(pads: seq<Pad>) returns (batch: Batch)
      requires Valid()
      modifies padColors
      ensures Valid() && padColors[..] == Projected(old(padColors[..]), pads).0
      ensures batch == Last(Projected(old(padColors[..]), pads).1)
    {
      batch := [];
      ghost var colors := padColors[..];
      for i := 0 to |pads|
        invariant Valid() && padColors[..] == Projected(colors, pads[..i]).0
        invariant batch == Last(Projected(colors, pads[..i]).1)
      {
        assert pads[..i + 1][..i] == pads[..i];
        if pads[i].index < 8 {
          batch := ProjectTrack(pads[i].index, ColorOf(pads[i]));
        }
      }
      assert pads[..|pads|] == pads;
    }
  }

  // ----- the device -----

  function Unpacked(s: seq<Byte>, i: nat): Rgb
    requires 6 * i + 6 <= |s|
  {
    Rgb(Joined(s[6 * i], s[6 * i + 1]), Joined(s[6 * i + 2], s[6 * i + 3]), Joined(s[6 * i + 4], s[6 * i + 5]))
  }

  function Joined(msb: Byte, lsb: Byte): Byte {
    msb % 2 * 128 + lsb % 128
  }

  /** The device sets all eight pads from one pad message. */
  function Received(pads: seq<Rgb>, m: Message): (r: seq<Rgb>)
    requires |pads| == PADS
    ensures |r| == PADS
  {
    if |m| == 56 && m[..7] == MK2_HEADER + CMD_PAD_LED then seq(PADS, i requires 0 <= i < PADS => Unpacked(m[7..55], i))
    else pads
  }

  function ReceivedAll(pads: seq<Rgb>, batch: Batch): (r: seq<Rgb>)
    requires |pads| == PADS
    ensures |r| == PADS
    decreases |batch|
  {
    if batch == [] then pads else Received(ReceivedAll(pads, batch[..|batch| - 1]), batch[|batch| - 1])
  }

  lemma PackRoundTrip(value: Byte)
    ensures Joined(Pack7(value)[0], Pack7(value)[1]) == value
  {
  }

  lemma {:induction false} UnpackedAt(colors: seq<Rgb>, i: nat)
    requires i < |colors|
    ensures Unpacked(PackedAll(colors), i) == colors[i]
  {
    if i == |colors| - 1 {
      PackRoundTrip(colors[i].r);
      PackRoundTrip(colors[i].g);
      PackRoundTrip(colors[i].b);
    } else {
      UnpackedAt(colors[..|colors| - 1], i);
    }
  }

  /** One message sets the whole device to the shadow, whatever it showed before. */
  lemma DeviceShowsShadow(pads: seq<Rgb>, colors: seq<Rgb>)
    requires |pads| == PADS && |colors| == PADS
    ensures Received(pads, PadLedMessage(colors)) == colors
  {
    var m := PadLedMessage(colors);
    assert m[..7] == MK2_HEADER + CMD_PAD_LED && m[7..55] == PackedAll(colors);
    forall i | 0 <= i < PADS ensures Received(pads, m)[i] == colors[i] {
      UnpackedAt(colors, i);
    }
  }

  /** The pad's latest colour in the list — its own, amber if it is only filled, dark otherwise — or what it was. */
  function Latest(colors: seq<Rgb>, pads: seq<Pad>, i: nat): Rgb
    requires i < |colors|
    decreases |pads|
  {
    if pads == [] then colors[i]
    else if pads[|pads| - 1].index == i then
      match pads[|pads| - 1].color
      case Some(color) => color
      case None => if pads[|pads| - 1].filled then Rgb(255, 180, 40) else Rgb(0, 0, 0)
    else Latest(colors, pads[..|pads| - 1], i)
  }

  lemma {:induction false} ShadowIsLatest(colors: seq<Rgb>, pads: seq<Pad>, i: nat)
    requires i < |colors| == PADS
    ensures Projected(colors, pads).0[i] == Latest(colors, pads, i)
    ensures Projected(colors, pads).1 == [] ==> Projected(colors, pads).0 == colors
    ensures forall m <- Projected(colors, pads).1 :: exists c: seq<Rgb> :: |c| == PADS && m == PadLedMessage(c)
    ensures var (c, all) := Projected(colors, pads); all != [] ==> all[|all| - 1] == PadLedMessage(c)
    decreases |pads|
  {
    if pads == [] {
    } else {
      ShadowIsLatest(colors, pads[..|pads| - 1], i);
    }
  }

  function Last(batch: Batch): Batch {
    if batch == [] then [] else [batch[|batch| - 1]]
  }

  /**
   Sending only the last pad message of a feedback leaves the device as sending all of them would; then
   every pad shows its latest colour, unless nothing was sent to a device that was not in step before.
   */
  lemma LastMessageSuffices(shown: seq<Rgb>, colors: seq<Rgb>, pads: seq<Pad>, i: nat)
    requires |shown| == PADS && |colors| == PADS && i < PADS
    ensures var all := Projected(colors, pads).1;
      && ReceivedAll(shown, Last(all)) == ReceivedAll(shown, all)
      && (all != [] || shown == colors ==> ReceivedAll(shown, Last(all))[i] == Latest(colors, pads, i))
  {
    var (c, all) := Projected(colors, pads);
    ShadowIsLatest(colors, pads, i);
    if all != [] {
      DeviceShowsShadow(shown, c);
      DeviceShowsShadow(ReceivedAll(shown, all[..|all| - 1]), c);
      assert Last(all)[..0] == [];
    }
  }

  lemma PadMessageIsWellFormed(colors: seq<Rgb>)
    ensures SysEx(PadLedMessage(colors))
  {
    Framed(MK2_HEADER + CMD_PAD_LED, PackedAll(colors));
  }
}
