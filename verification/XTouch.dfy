/**
 The X-Touch profile (crates/midistage-profiles/src/device_profile.rs:120-308) and the fader input
 (crates/midistage-profiles/src/device_input.rs:211-256). The device writes whole lines and all colours
 at once, so the profile keeps shadows; the results below say that a device fed every emitted message
 shows, strip by strip, the latest projection.
 */
module XTouch {
  import opened Prelude
  import opened Midi

  const MCU_HEADER: seq<Byte> := [0xF0, 0x00, 0x00, 0x66, 0x14]
  const CMD_LCD: Byte := 0x12
  const CMD_STRIP_COLORS: Byte := 0x72
  const LINE2_OFFSET: Byte := 0x38
  const STRIPS := 8
  const CHARS_PER_STRIP := 7
  const LINE_LEN := 56
  const STRIP_COLORS: seq<nat> := [0x000000, 0xFF0000, 0x00FF00, 0xFFFF00, 0x0000FF, 0xFF00FF, 0x00FFFF, 0xFFFFFF]

  datatype Spec = Spec(name: string, value: real, centerDetent: bool)

  // ----- what one call emits -----

  predicate Printable(c: char) {
    0x20 <= c as int < 0x7F
  }

  function Shown(c: char): (b: Byte)
    ensures 0x20 <= b < 0x7F
  {
    if Printable(c) then c as int else '_' as int
  }

  /** Seven characters: cut off, or filled up with blanks. */
  function Cell(name: string): (cell: seq<Byte>)
    ensures |cell| == CHARS_PER_STRIP && DataBytes(cell)
  {
    seq(CHARS_PER_STRIP, k requires 0 <= k < CHARS_PER_STRIP => if k < |name| then Shown(name[k]) else 0x20)
  }

  function Cells(names: seq<string>): (text: seq<Byte>)
    ensures |text| == CHARS_PER_STRIP * |names| && DataBytes(text)
  {
    if names == [] then [] else Cells(names[..|names| - 1]) + Cell(names[|names| - 1])
  }

  function Line(offset: Byte, names: seq<string>): Message {
    MCU_HEADER + [CMD_LCD, offset] + Cells(names) + [EOX]
  }

  function ColorsMessage(colors: seq<Byte>): Message {
    MCU_HEADER + [CMD_STRIP_COLORS] + colors + [EOX]
  }

  function FaderPosition(channel: Byte, normalized: real): Message {
    [0xE0 + channel % 16, Position14(normalized) % 128, Position14(normalized) / 128 % 128]
  }

  function RingValue(centerDetent: bool, normalized: real): (value: Byte)
    ensures value < 0x80
  {
    var x := Clamp(normalized);
    var position := if Round(x * 10.0) + 1 < 11 then Round(x * 10.0) + 1 else 11;
    16 * (if centerDetent then 1 else 2) + position + (if 0.48 <= x < 0.58 then 64 else 0)
  }

  function Ring(index: Byte, centerDetent: bool, normalized: real): Message
    requires index < STRIPS
  {
    [0xB0, 0x30 + index, RingValue(centerDetent, normalized)]
  }

  datatype View = View(names: seq<string>, params: seq<string>, colors: seq<Byte>)

  predicate Sized(v: View) {
    |v.names| == STRIPS && |v.params| == STRIPS && |v.colors| == STRIPS
    && forall k :: 0 <= k < STRIPS ==> v.colors[k] < STRIPS
  }

  const BLANK := View(["", "", "", "", "", "", "", ""], ["", "", "", "", "", "", "", ""], [0, 0, 0, 0, 0, 0, 0, 0])

  datatype Call = Track(index: Byte, name: string, color: Rgb) | Learn(index: Byte, spec: Spec)

  function Called(v: View, c: Call): (r: (View, Batch))
    requires Sized(v)
    ensures Sized(r.0)
  {
    if c.index >= STRIPS then (v, [])
    else
      match c
      case Track(index, name, color) =>
        var next := v.(names := v.names[index := name], colors := v.colors[index := ClosestIndex(STRIP_COLORS, color)]);
        (next, [Line(0x00, next.names), ColorsMessage(next.colors)])
      case Learn(index, spec) =>
        var next := v.(params := v.params[index := spec.name]);
        (next, [Line(LINE2_OFFSET, next.params), FaderPosition(index, spec.value),
          Ring(index, spec.centerDetent, spec.value)])
  }

  // ----- the profile -----

  method StripCell(name: string) returns (cell: seq<Byte>)
    ensures cell == Cell(name)
    ensures |cell| == CHARS_PER_STRIP
    ensures forall k :: 0 <= k < CHARS_PER_STRIP ==>
      cell[k] == if k >= |name| then 0x20 else if ' ' <= name[k] <= '~' then name[k] as int else '_' as int
  {
    var slots := new Byte[CHARS_PER_STRIP](_ => 0x20);
    var i := 0;
    while i < CHARS_PER_STRIP && i < |name|
      invariant 0 <= i <= CHARS_PER_STRIP && i <= |name|
      invariant forall k :: 0 <= k < CHARS_PER_STRIP ==> slots[k] == if k < i then Shown(name[k]) else 0x20
    {
      slots[i] := if Printable(name[i]) then name[i] as int else '_' as int;
      i := i + 1;
    }
    cell := slots[..];
  }

  method LcdLine(offset: Byte, names: array<string>) returns (m: Message)
    requires names.Length == STRIPS
    ensures m == Line(offset, names[..])
  {
    var text: seq<Byte> := [];
    for i := 0 to names.Length
      invariant text == Cells(names[..i])
    {
      var cell := StripCell(names[i]);
      text := text + cell;
      assert names[..i + 1][..i] == names[..i];
    }
    assert names[..names.Length] == names[..];
    m := MCU_HEADER + [CMD_LCD, offset] + text[..LINE_LEN] + [EOX];
    assert text[..LINE_LEN] == text;
  }

  class Profile {
    const stripNames: array<string>
    const paramNames: array<string>
    const stripColors: array<Byte>

    ghost predicate Valid()
      reads this, stripNames, paramNames, stripColors
    {
      stripNames != paramNames && Sized(Shadow())
    }

    ghost function Shadow(): View
      reads this, stripNames, paramNames, stripColors
    {
      View(stripNames[..], paramNames[..], stripColors[..])
    }

    constructor ()
      ensures Valid() && Shadow() == BLANK && fresh(stripNames) && fresh(paramNames) && fresh(stripColors)
    {
      stripNames := new string[STRIPS](_ => "");
      paramNames := new string[STRIPS](_ => "");
      stripColors := new Byte[STRIPS](_ => 0);
    }

    method ProjectTrack(index: Byte, name: string, color: Rgb) returns (batch: Batch)
      requires Valid()
      modifies stripNames, stripColors
      ensures Valid() && (Shadow(), batch) == Called(old(Shadow()), Track(index, name, color))
    {
      if index >= STRIPS {
        return [];
      }
      stripNames[index] := name;
      var quantized := FindClosest(STRIP_COLORS, color);
      stripColors[index] := quantized;
      var line := LcdLine(0x00, stripNames);
      return [line, MCU_HEADER + [CMD_STRIP_COLORS] + stripColors[..] + [EOX]];
    }

    method LearnParameter(index: Byte, spec: Spec) returns (batch: Batch)
      requires Valid()
      modifies paramNames
      ensures Valid() && (Shadow(), batch) == Called(old(Shadow()), Learn(index, spec))
    {
      if index >= STRIPS {
        return [];
      }
      paramNames[index] := spec.name;
      var line := LcdLine(LINE2_OFFSET, paramNames);
      return [line, FaderPosition(index, spec.value), Ring(index, spec.centerDetent, spec.value)];
    }
  }

  // ----- runs of calls -----

  function After(calls: seq<Call>): (v: View)
    ensures Sized(v)
    decreases |calls|
  {
    if calls == [] then BLANK else Called(After(calls[..|calls| - 1]), calls[|calls| - 1]).0
  }

  function Emitted(calls: seq<Call>, n: nat): Batch
    requires n < |calls|
  {
    Called(After(calls[..n]), calls[n]).1
  }

  /** The latest name and colour projected to the strip. */
  function LatestTrack(calls: seq<Call>, i: nat): Option<(string, Rgb)>
    decreases |calls|
  {
    if calls == [] then None
    else
      var last := calls[|calls| - 1];
      if last.Track? && last.index == i then Some((last.name, last.color)) else LatestTrack(calls[..|calls| - 1], i)
  }

  /** The latest parameter taught to the strip. */
  function LatestLearn(calls: seq<Call>, i: nat): Option<Spec>
    decreases |calls|
  {
    if calls == [] then None
    else
      var last := calls[|calls| - 1];
      if last.Learn? && last.index == i then Some(last.spec) else LatestLearn(calls[..|calls| - 1], i)
  }

  predicate AnyTrack(calls: seq<Call>) {
    exists c <- calls :: c.Track? && c.index < STRIPS
  }

  predicate AnyLearn(calls: seq<Call>) {
    exists c <- calls :: c.Learn? && c.index < STRIPS
  }

  lemma {:induction false} ShadowIsLatest(calls: seq<Call>, i: nat)
    requires i < STRIPS
    ensures var t := LatestTrack(calls, i);
      && After(calls).names[i] == (if t.Some? then t.value.0 else "")
      && After(calls).colors[i] == (if t.Some? then ClosestIndex(STRIP_COLORS, t.value.1) else 0)
    ensures var l := LatestLearn(calls, i); After(calls).params[i] == if l.Some? then l.value.name else ""
    decreases |calls|
  {
    if calls == [] {
    } else {
      ShadowIsLatest(calls[..|calls| - 1], i);
    }
  }

  // ----- the device -----

  /** `text`: two lines of 56 characters; `faders` and `rings` hold what was last moved. */
  datatype Screen = Screen(text: seq<Byte>, colors: seq<Byte>, faders: map<Byte, nat>, rings: map<Byte, Byte>)

  predicate Whole(s: Screen) {
    |s.text| == 2 * LINE_LEN && |s.colors| == STRIPS
  }

  function Received(s: Screen, m: Message): (t: Screen)
    requires Whole(s)
    ensures Whole(t)
  {
    if |m| >= 8 && m[..5] == MCU_HEADER && m[5] == CMD_LCD && m[6] as int + |m| - 8 <= 2 * LINE_LEN then
      s.(text := s.text[..m[6]] + m[7..|m| - 1] + s.text[m[6] as int + |m| - 8..])
    else if |m| == 15 && m[..5] == MCU_HEADER && m[5] == CMD_STRIP_COLORS then s.(colors := m[6..14])
    else if |m| == 3 && 0xE0 <= m[0] < 0xF0 then
      s.(faders := s.faders[m[0] - 0xE0 := 128 * (m[2] as int) + m[1] as int])
    else if |m| == 3 && m[0] == 0xB0 && 0x30 <= m[1] < 0x38 then s.(rings := s.rings[m[1] - 0x30 := m[2]])
    else s
  }

  function ReceivedAll(s: Screen, batch: Batch): (t: Screen)
    requires Whole(s)
    ensures Whole(t)
    decreases |batch|
  {
    if batch == [] then s else ReceivedAll(Received(s, batch[0]), batch[1..])
  }

  /** A device that was sent the messages of every call, in order. */
  function Display(s: Screen, calls: seq<Call>): (t: Screen)
    requires Whole(s)
    ensures Whole(t)
    decreases |calls|
  {
    if calls == [] then s
    else ReceivedAll(Display(s, calls[..|calls| - 1]), Emitted(calls, |calls| - 1))
  }

  lemma LineIsReceived(s: Screen, offset: Byte, names: seq<string>)
    requires Whole(s) && |names| == STRIPS && (offset == 0 || offset == LINE2_OFFSET)
    ensures Received(s, Line(offset, names)) ==
      s.(text := s.text[..offset] + Cells(names) + s.text[offset as int + LINE_LEN..])
  {
    var m := Line(offset, names);
    assert m[..5] == MCU_HEADER && m[7..|m| - 1] == Cells(names);
  }

  lemma ColorsAreReceived(s: Screen, colors: seq<Byte>)
    requires Whole(s) && |colors| == STRIPS
    ensures Received(s, ColorsMessage(colors)) == s.(colors := colors)
  {
    var m := ColorsMessage(colors);
    assert m[..5] == MCU_HEADER && m[6..14] == colors;
  }

  lemma FaderIsReceived(s: Screen, channel: Byte, x: real)
    requires Whole(s) && channel < 16
    ensures Received(s, FaderPosition(channel, x)) == s.(faders := s.faders[channel := Position14(x)])
  {
    assert Position14(x) / 128 * 128 + Position14(x) % 128 == Position14(x);
  }

  lemma TrackIsReceived(s: Screen, names: seq<string>, colors: seq<Byte>)
    requires Whole(s) && |names| == STRIPS && |colors| == STRIPS
    ensures var t := ReceivedAll(s, [Line(0x00, names), ColorsMessage(colors)]);
      && t.text[..LINE_LEN] == Cells(names) && t.text[LINE_LEN..] == s.text[LINE_LEN..]
      && t.colors == colors && t.faders == s.faders && t.rings == s.rings
  {
    LineIsReceived(s, 0x00, names);
    var u := Received(s, Line(0x00, names));
    ColorsAreReceived(u, colors);
    assert ReceivedAll(u, [ColorsMessage(colors)]) == ReceivedAll(Received(u, ColorsMessage(colors)), []);
    assert [Line(0x00, names), ColorsMessage(colors)][1..] == [ColorsMessage(colors)];
  }

  lemma ThreeAreReceived(s: Screen, a: Message, b: Message, c: Message)
    requires Whole(s)
    ensures ReceivedAll(s, [a, b, c]) == Received(Received(Received(s, a), b), c)
  {
    assert [a, b, c][1..] == [b, c] && [b, c][1..] == [c];
    assert ReceivedAll(Received(Received(s, a), b), [c]) == Received(Received(Received(s, a), b), c);
  }

  lemma LearnIsReceived(s: Screen, params: seq<string>, index: Byte, spec: Spec)
    requires Whole(s) && |params| == STRIPS && index < STRIPS
    ensures var batch := [Line(LINE2_OFFSET, params), FaderPosition(index, spec.value),
      Ring(index, spec.centerDetent, spec.value)];
      var t := ReceivedAll(s, batch);
      && t.text[LINE_LEN..] == Cells(params) && t.text[..LINE_LEN] == s.text[..LINE_LEN] && t.colors == s.colors
      && t.faders == s.faders[index := Position14(spec.value)]
      && t.rings == s.rings[index := RingValue(spec.centerDetent, spec.value)]
  {
    var line, fader, ring := Line(LINE2_OFFSET, params), FaderPosition(index, spec.value),
      Ring(index, spec.centerDetent, spec.value);
    LineIsReceived(s, LINE2_OFFSET, params);
    var u := Received(s, line);
    FaderIsReceived(u, index, spec.value);
    ThreeAreReceived(s, line, fader, ring);
  }

  predicate UpperFollows(s: Screen, start: Screen, v: View, any: bool)
    requires Whole(s) && Whole(start)
  {
    if any then s.text[..LINE_LEN] == Cells(v.names) && s.colors == v.colors
    else s.text[..LINE_LEN] == start.text[..LINE_LEN] && s.colors == start.colors
  }

  predicate LowerFollows(s: Screen, start: Screen, v: View, any: bool)
    requires Whole(s) && Whole(start)
  {
    s.text[LINE_LEN..] == if any then Cells(v.params) else start.text[LINE_LEN..]
  }

  /** One call and its messages keep the device in step with the shadow. */
  lemma CallFollows(s: Screen, start: Screen, v: View, c: Call, tracked: bool, learned: bool)
    requires Whole(s) && Whole(start) && Sized(v) && UpperFollows(s, start, v, tracked)
      && LowerFollows(s, start, v, learned)
    ensures var (next, batch) := Called(v, c);
      && UpperFollows(ReceivedAll(s, batch), start, next, tracked || (c.Track? && c.index < STRIPS))
      && LowerFollows(ReceivedAll(s, batch), start, next, learned || (c.Learn? && c.index < STRIPS))
  {
    var next := Called(v, c).0;
    if c.index < STRIPS && c.Track? {
      TrackIsReceived(s, next.names, next.colors);
    } else if c.index < STRIPS {
      LearnIsReceived(s, next.params, c.index, c.spec);
    }
  }

  lemma AnyOneMore(calls: seq<Call>, last: Call)
    ensures AnyTrack(calls + [last]) <==> AnyTrack(calls) || (last.Track? && last.index < STRIPS)
    ensures AnyLearn(calls + [last]) <==> AnyLearn(calls) || (last.Learn? && last.index < STRIPS)
  {
    assert last in calls + [last];
  }

  lemma {:induction false} DisplayFollowsShadow(s: Screen, calls: seq<Call>)
    requires Whole(s)
    ensures UpperFollows(Display(s, calls), s, After(calls), AnyTrack(calls))
    ensures LowerFollows(Display(s, calls), s, After(calls), AnyLearn(calls))
    decreases |calls|
  {
    if calls == [] {
    } else {
      var before, last := calls[..|calls| - 1], calls[|calls| - 1];
      DisplayFollowsShadow(s, before);
      assert calls == before + [last];
      AnyOneMore(before, last);
      CallFollows(Display(s, before), s, After(before), last, AnyTrack(before), AnyLearn(before));
    }
  }

  lemma {:induction false} CellsAt(names: seq<string>, i: nat)
    requires i < |names|
    ensures Cells(names)[CHARS_PER_STRIP * i..CHARS_PER_STRIP * (i + 1)] == Cell(names[i])
  {
    if i < |names| - 1 {
      CellsAt(names[..|names| - 1], i);
    }
  }

  function Upper(s: Screen, i: nat): seq<Byte>
    requires Whole(s) && i < STRIPS
  {
    s.text[CHARS_PER_STRIP * i..CHARS_PER_STRIP * (i + 1)]
  }

  function Lower(s: Screen, i: nat): seq<Byte>
    requires Whole(s) && i < STRIPS
  {
    s.text[LINE_LEN + CHARS_PER_STRIP * i..LINE_LEN + CHARS_PER_STRIP * (i + 1)]
  }

  lemma SliceOfPrefix<T>(text: seq<T>, end: nat, from: nat, to: nat)
    requires from <= to <= end <= |text|
    ensures text[..end][from..to] == text[from..to]
  {
  }

  lemma SliceOfSuffix<T>(text: seq<T>, start: nat, from: nat, to: nat)
    requires from <= to && start + to <= |text|
    ensures text[start..][from..to] == text[start + from..start + to]
  {
  }

  lemma CellsOnScreen(s: Screen, names: seq<string>, i: nat)
    requires Whole(s) && |names| == STRIPS && i < STRIPS
    ensures s.text[..LINE_LEN] == Cells(names) ==> Upper(s, i) == Cell(names[i])
    ensures s.text[LINE_LEN..] == Cells(names) ==> Lower(s, i) == Cell(names[i])
  {
    CellsAt(names, i);
    SliceOfPrefix(s.text, LINE_LEN, CHARS_PER_STRIP * i, CHARS_PER_STRIP * (i + 1));
    SliceOfSuffix(s.text, LINE_LEN, CHARS_PER_STRIP * i, CHARS_PER_STRIP * (i + 1));
  }

  /**
   Whatever was projected and taught, in any order and on any strip: a device that got every message shows
   on each strip the latest name and colour, or the default if the strip never had one.
   */
  lemma ScreenShowsLatest(s: Screen, calls: seq<Call>, i: nat)
    requires Whole(s) && i < STRIPS
    ensures var d, t, l := Display(s, calls), LatestTrack(calls, i), LatestLearn(calls, i);
      && (AnyTrack(calls) ==>
            && Upper(d, i) == Cell(if t.Some? then t.value.0 else "")
            && d.colors[i] == if t.Some? then ClosestIndex(STRIP_COLORS, t.value.1) else 0)
      && (AnyLearn(calls) ==> Lower(d, i) == Cell(if l.Some? then l.value.name else ""))
  {
    DisplayFollowsShadow(s, calls);
    ShadowIsLatest(calls, i);
    CellsOnScreen(Display(s, calls), After(calls).names, i);
    CellsOnScreen(Display(s, calls), After(calls).params, i);
  }

  /** And each motor fader and ring stands where the latest parameter of its strip put it. */
  lemma {:induction false} FadersFollowLatest(s: Screen, calls: seq<Call>, i: Byte)
    requires Whole(s) && i < STRIPS && LatestLearn(calls, i).Some?
    ensures var d, l := Display(s, calls), LatestLearn(calls, i).value;
      && i in d.faders && d.faders[i] == Position14(l.value)
      && i in d.rings && d.rings[i] == RingValue(l.centerDetent, l.value)
    decreases |calls|
  {
    var before, last := calls[..|calls| - 1], calls[|calls| - 1];
    var d := Display(s, before);
    if !(last.Learn? && last.index == i) {
      FadersFollowLatest(s, before, i);
    }
    if last.index < STRIPS && last.Track? {
      TrackIsReceived(d, After(calls).names, After(calls).colors);
    } else if last.index < STRIPS {
      LearnIsReceived(d, After(calls).params, last.index, last.spec);
    }
  }

  lemma LineIsWellFormed(offset: Byte, names: seq<string>)
    requires offset < 0x80
    ensures SysEx(Line(offset, names))
  {
    Framed(MCU_HEADER + [CMD_LCD, offset], Cells(names));
  }

  lemma ColorsAreWellFormed(colors: seq<Byte>)
    requires DataBytes(colors)
    ensures SysEx(ColorsMessage(colors))
  {
    Framed(MCU_HEADER + [CMD_STRIP_COLORS], colors);
  }

  predicate WellFormed(m: Message) {
    SysEx(m) || ChannelMessage(m)
  }

  /** Every message of every call is well-formed, for any name. */
  lemma CallsAreWellFormed(v: View, c: Call)
    requires Sized(v)
    ensures forall m <- Called(v, c).1 :: WellFormed(m)
  {
    var next := Called(v, c).0;
    LineIsWellFormed(0x00, next.names);
    LineIsWellFormed(LINE2_OFFSET, next.params);
    ColorsAreWellFormed(next.colors);
    if c.Learn? && c.index < STRIPS {
      assert ChannelMessage(FaderPosition(c.index, c.spec.value))
        && ChannelMessage(Ring(c.index, c.spec.centerDetent, c.spec.value));
    }
  }

  /**
   The low four bits place the ring within half a step of the value,
   the next two its mode, bit 6 the centre light.
   */
  lemma RingShowsPosition(centerDetent: bool, x: real)
    ensures var value, position := RingValue(centerDetent, x), RingValue(centerDetent, x) % 16;
      && 1 <= position <= 11 && -0.5 <= (position - 1) as real - 10.0 * Clamp(x) <= 0.5
      && value / 16 % 4 == (if centerDetent then 1 else 2)
      && (value >= 64 <==> 0.48 <= Clamp(x) < 0.58)
  {
    var n := Round(Clamp(x) * 10.0);
    assert n <= 10;
    RingDigits(if centerDetent then 1 else 2, n + 1, 0.48 <= Clamp(x) < 0.58);
  }

  lemma RingDigits(mode: nat, position: nat, centred: bool)
    requires 1 <= mode <= 2 && position < 16
    ensures var value := 16 * mode + position + (if centred then 64 else 0);
      value % 16 == position && value / 16 % 4 == mode && (value >= 64 <==> centred)
  {
  }

  // ----- faders both ways -----

  datatype Event = Fader(index: Byte, value: real) | FaderTouch(index: Byte, pressed: bool)

  const FADER_TOUCH_BASE: Byte := 0x68
  const FADER_COUNT: Byte := 9

  /** XTouchInput::parse: a fader is decided by one message, so the parser has no state. */
  function Parse(m: Message): Option<Event> {
    if |m| < 3 then None
    else
      var channel := m[0] % 16;
      var status := m[0] - channel;
      if status == 0xE0 && channel < FADER_COUNT then Some(Fader(channel, Value14(m[2], m[1] % 128)))
      else if (status == 0x90 || status == 0x80) && FADER_TOUCH_BASE <= m[1] < FADER_TOUCH_BASE + FADER_COUNT then
        Some(FaderTouch(m[1] - FADER_TOUCH_BASE, status == 0x90 && m[2] > 0))
      else None
  }

  /** The low byte comes first, and only its lower seven bits are read. */
  lemma FaderIsRead(channel: Byte, low: Byte, high: Byte)
    requires channel < FADER_COUNT
    ensures Parse([0xE0 + channel, low, high]) ==
      Some(Fader(channel, (high as int * 128 + low as int % 128) as real / 16383.0))
  {
  }

  /** On any channel: pressed by a Note On with a velocity, released by one without or by a Note Off. */
  lemma TouchIsRead(channel: Byte, index: Byte, velocity: Byte)
    requires channel < 16 && index < FADER_COUNT
    ensures Parse([0x90 + channel, 0x68 + index, velocity]) == Some(FaderTouch(index, velocity > 0))
    ensures Parse([0x80 + channel, 0x68 + index, velocity]) == Some(FaderTouch(index, false))
  {
    assert (0x90 + channel) % 16 == channel && (0x80 + channel) % 16 == channel;
  }

  /** Nothing else is an event. */
  lemma EventsAreReadExactlyFrom(m: Message)
    ensures Parse(m).Some? <==>
      |m| >= 3 && (0xE0 <= m[0] < 0xE9 || (0x80 <= m[0] < 0xA0 && 0x68 <= m[1] < 0x71))
  {
    if |m| >= 3 {
      assert m[0] == m[0] / 16 * 16 + m[0] % 16;
    }
  }

  /** Every channel is cut to its lower four bits, and the two data bytes are the position, low byte first. */
  lemma FaderMessageHoldsThePosition(channel: Byte, x: real)
    ensures var m := FaderPosition(channel, x);
      && |m| == 3 && 0xE0 <= m[0] < 0xF0 && m[0] % 16 == channel % 16 && m[1] < 0x80 && m[2] < 0x80
      && -0.5 <= (128 * (m[2] as int) + m[1] as int) as real - 16383.0 * Clamp(x) <= 0.5
  {
    var n := Position14(x);
    assert n / 128 * 128 + n % 128 == n && n / 128 < 128;
    assert (0xE0 + channel % 16) % 16 == channel % 16;
  }

  /** A position sent to a fader reads back as that fader at that place, exactly when there is such a fader. */
  lemma FaderRoundTrip(channel: Byte, x: real)
    ensures var e := Parse(FaderPosition(channel, x));
      (e.Some? && e.value.Fader? && e.value.index == channel && Near(e.value.value, x)) <==> channel < FADER_COUNT
  {
    if channel < FADER_COUNT {
      FaderIsParsed(channel, x);
      Position14IsNear(x);
    }
  }

  lemma FaderIsParsed(channel: Byte, x: real)
    requires channel < FADER_COUNT
    ensures Parse(FaderPosition(channel, x)) ==
      Some(Fader(channel, Value14(Position14(x) / 128, Position14(x) % 128)))
  {
    assert Position14(x) % 128 % 128 == Position14(x) % 128 && Position14(x) / 128 % 128 == Position14(x) / 128;
  }
}
