/**
 The ROTO-CONTROL profile (crates/midistage-profiles/src/device_profile.rs:553-824, roto_palette.rs:18-50):
 track names and colours in framed batches, and parameters taught with their names. The device shows a
 batch only when its closing message arrives, so every projection sends the whole frame again.
 */
module Roto {
  import opened Prelude
  import opened Midi

  const HEADER: seq<Byte> := [0xF0, 0x00, 0x22, 0x03, 0x02]
  const TYPE_GENERAL: Byte := 0x0A
  const TYPE_PLUGIN: Byte := 0x0B
  const CMD_COUNT: Byte := 0x04
  const CMD_OFFSET: Byte := 0x05
  const CMD_TRACK_UPDATE: Byte := 0x07
  const CMD_COMMIT: Byte := 0x08
  const CMD_PARAM_LEARN: Byte := 0x0A
  const NAME_SLOTS := 13
  const TRACKS := 8
  const DEFAULT_COLOR: Byte := 70

  const PALETTE: seq<nat> := [
    16749734, 16753961, 13408550, 16184445, 0xBFFB00, 2031406, 2686888, 6094824, 9160191, 5538020, 9611263,
    14183652, 15029152, 0xFFFFFF, 16725302, 16149507, 10051915, 14800173, 8912744, 4113155, 180143, 1632767,
    1025262, 163264, 9006308, 11958214, 16726484, 0xD0D0D0, 14968922, 16753524, 13872497, 15597486, 13821080,
    12243060, 10208397, 13958625, 13496824, 12108259, 13482980, 11442405, 15064289, 0xA9A9A9, 15110795,
    12026454, 9995114, 12565098, 10993152, 9028282, 9879994, 10269636, 8758727, 8622797, 10851765, 12558270,
    12349845, 0x7B7B7B, 0xAF3333, 11096369, 7491393, 14402304, 8754463, 5480241, 564366, 2253700, 1715862,
    3101346, 6376365, 10701741, 13381229, 0x3C3C3C, 0, 0xFF0000, 261888, 0xFFFF00, 255, 0xFF00FF, 262143,
    0x800000, 0x808000, 32770, 32896, 128, 0x800080
  ]

  // ----- names -----

  /** toAsciiDisplay of one character: printable ASCII, a Latin replacement, or nothing. */
  function Ascii(c: char): (s: seq<Byte>)
    ensures forall k :: 0 <= k < |s| ==> 0x20 <= s[k] < 0x7F
  {
    var n := c as int;
    if 0x20 <= n < 0x7F then [n]
    else if n == 0xDF then ['s' as int, 's' as int]
    else
      var replaced := Latin(n);
      if replaced.Some? then [replaced.value] else []
  }

  /** One letter for a Latin letter with a mark; nothing for any other character. */
  function Latin(n: int): (b: Option<Byte>)
    ensures b.Some? ==> 0x20 <= b.value < 0x7F
  {
    if n == 0xE4 || n == 0xE0 || n == 0xE1 || n == 0xE2 then Some('a' as int)
    else if n == 0xF6 || n == 0xF2 || n == 0xF3 || n == 0xF4 then Some('o' as int)
    else if n == 0xFC || n == 0xF9 || n == 0xFA || n == 0xFB then Some('u' as int)
    else if n == 0xE8 || n == 0xE9 || n == 0xEA then Some('e' as int)
    else if n == 0xC4 then Some('A' as int)
    else if n == 0xD6 then Some('O' as int)
    else if n == 0xDC then Some('U' as int)
    else None
  }

  function AsciiDisplay(name: string): (s: seq<Byte>)
    ensures forall k :: 0 <= k < |s| ==> 0x20 <= s[k] < 0x7F
  {
    if name == [] then [] else AsciiDisplay(name[..|name| - 1]) + Ascii(name[|name| - 1])
  }

  /** The first `limit` bytes in thirteen slots, the rest zero. */
  function Slots(s: seq<Byte>, limit: nat): (slots: seq<Byte>)
    ensures |slots| == NAME_SLOTS
  {
    seq(NAME_SLOTS, k requires 0 <= k < NAME_SLOTS => if k < limit && k < |s| then s[k] else 0)
  }

  function Name13(name: string): seq<Byte> {
    Slots(AsciiDisplay(name), NAME_SLOTS)
  }

  function Name12(name: string): seq<Byte> {
    Slots(AsciiDisplay(name), NAME_SLOTS - 1)
  }

  method ToAsciiDisplay(name: string) returns (s: seq<Byte>)
    ensures s == AsciiDisplay(name)
  {
    s := [];
    for i := 0 to |name|
      invariant s == AsciiDisplay(name[..i])
    {
      assert name[..i + 1][..i] == name[..i];
      s := s + Ascii(name[i]);
    }
    assert name[..|name|] == name;
  }

  method FillSlots(name: string, limit: nat) returns (slots: seq<Byte>)
    requires limit <= NAME_SLOTS
    ensures slots == Slots(AsciiDisplay(name), limit)
  {
    var ascii := ToAsciiDisplay(name);
    var a := new Byte[NAME_SLOTS](_ => 0);
    var k := 0;
    while k < limit && k < |ascii|
      invariant 0 <= k <= limit && k <= |ascii|
      invariant forall j :: 0 <= j < NAME_SLOTS ==> a[j] == if j < k then ascii[j] else 0
    {
      a[k] := ascii[k];
      k := k + 1;
    }
    slots := a[..];
  }

  /** The bytes before the first zero. */
  function Until(slots: seq<Byte>): seq<Byte> {
    if slots == [] || slots[0] == 0 then [] else [slots[0]] + Until(slots[1..])
  }

  lemma {:induction false} UntilZero(s: seq<Byte>, zeros: seq<Byte>)
    requires forall k :: 0 <= k < |s| ==> s[k] != 0
    requires forall k :: 0 <= k < |zeros| ==> zeros[k] == 0
    ensures Until(s + zeros) == s
  {
    if s == [] {
    } else {
      assert (s + zeros)[1..] == s[1..] + zeros;
      UntilZero(s[1..], zeros);
    }
  }

  /** What is left of a displayed name that is cut off after `n` bytes. */
  function Front(s: seq<Byte>, n: nat): (front: seq<Byte>)
    ensures front == s <==> |s| <= n
  {
    if |s| <= n then s else s[..n]
  }

  lemma SlotsAreRead(s: seq<Byte>, limit: nat)
    requires limit <= NAME_SLOTS && forall k :: 0 <= k < |s| ==> 0x20 <= s[k] < 0x7F
    ensures Until(Slots(s, limit)) == Front(s, limit) && forall k :: limit <= k < NAME_SLOTS ==> Slots(s, limit)[k] == 0
  {
    var kept := Front(s, limit);
    var zeros: seq<Byte> := seq(NAME_SLOTS - |kept|, _ => 0);
    assert Slots(s, limit) == kept + zeros;
    UntilZero(kept, zeros);
  }

  /** A state name is read back as the first twelve displayable bytes, always terminated by a zero. */
  lemma NameRoundTrip(name: string)
    ensures Until(Name12(name)) == Front(AsciiDisplay(name), 12)
    ensures Name12(name)[12] == 0 && DataBytes(Name12(name)) && DataBytes(Name13(name))
  {
    SlotsAreRead(AsciiDisplay(name), 12);
  }

  /** A display name is read back as the first thirteen, so whole exactly if it has no more. */
  lemma DisplayNameRoundTrip(name: string)
    ensures Until(Name13(name)) == Front(AsciiDisplay(name), 13)
    ensures Until(Name13(name)) == AsciiDisplay(name) <==> |AsciiDisplay(name)| <= 13
  {
    SlotsAreRead(AsciiDisplay(name), 13);
  }

  /** A name of printable ASCII characters is displayed as it is. */
  lemma {:induction false} PlainNameIsKept(name: string)
    requires forall k :: 0 <= k < |name| ==> 0x20 <= name[k] as int < 0x7F
    ensures |AsciiDisplay(name)| == |name| && forall k :: 0 <= k < |name| ==> AsciiDisplay(name)[k] == name[k] as int
  {
    if name == [] {
    } else {
      PlainNameIsKept(name[..|name| - 1]);
    }
  }

  /** Letters with a mark lose it, a sharp s becomes two, and every other character beyond ASCII is dropped. */
  lemma MarksAreDropped(c: char)
    ensures Ascii(c) ==
      if 0x20 <= c as int < 0x7F then [c as int]
      else if c == '\U{DF}' then ['s' as int, 's' as int]
      else if c in "\U{E4}\U{E0}\U{E1}\U{E2}" then ['a' as int]
      else if c in "\U{F6}\U{F2}\U{F3}\U{F4}" then ['o' as int]
      else if c in "\U{FC}\U{F9}\U{FA}\U{FB}" then ['u' as int]
      else if c in "\U{E8}\U{E9}\U{EA}" then ['e' as int]
      else if c == '\U{C4}' then ['A' as int]
      else if c == '\U{D6}' then ['O' as int]
      else if c == '\U{DC}' then ['U' as int]
      else []
  {
  }

  // ----- track batches -----

  datatype Slot = Slot(name: string, color: Byte, group: bool)

  datatype View = View(tracks: seq<Slot>, count: nat)

  const NO_TRACK := Slot("", DEFAULT_COLOR, false)

  const BLANK := View([NO_TRACK, NO_TRACK, NO_TRACK, NO_TRACK, NO_TRACK, NO_TRACK, NO_TRACK, NO_TRACK], 0)

  predicate Sized(v: View) {
    |v.tracks| == TRACKS && v.count <= TRACKS
  }

  function General(command: Byte, value: nat): Message {
    HEADER + [TYPE_GENERAL, command] + Split14(value) + [EOX]
  }

  function Flag(b: bool): (r: Byte)
    ensures r < 2 && (r != 0 <==> b)
  {
    if b then 1 else 0
  }

  function UpdateOf(i: nat, name: seq<Byte>, color: Byte, group: bool): Message {
    HEADER + [TYPE_GENERAL, CMD_TRACK_UPDATE] + Split14(i) + name + [color, Flag(group)] + [EOX]
  }

  function Update(i: nat, slot: Slot): Message {
    UpdateOf(i, Name12(slot.name), slot.color, slot.group)
  }

  function Updates(tracks: seq<Slot>, n: nat): (batch: Batch)
    requires n <= |tracks|
    ensures |batch| == n
  {
    if n == 0 then [] else Updates(tracks, n - 1) + [Update(n - 1, tracks[n - 1])]
  }

  const COMMIT: Message := HEADER + [TYPE_GENERAL, CMD_COMMIT] + [EOX]

  function Frame(v: View): Batch
    requires Sized(v)
  {
    [General(CMD_COUNT, v.count), General(CMD_OFFSET, 0)] + Updates(v.tracks, v.count) + [COMMIT]
  }

  datatype Call = Call(index: Byte, name: string, color: Rgb, group: bool)

  function SlotOf(c: Call): Slot {
    var quantized := ClosestIndex(PALETTE, c.color);
    Slot(c.name, quantized, c.group)
  }

  function Called(v: View, c: Call): (r: (View, Batch))
    requires Sized(v)
    ensures Sized(r.0)
  {
    if c.index >= TRACKS then (v, [])
    else
      var next := View(v.tracks[c.index := SlotOf(c)], if v.count < c.index + 1 then c.index + 1 else v.count);
      (next, Frame(next))
  }

  class Profile {
    const tracks: array<Slot>
    var trackCount: nat

    ghost predicate Valid()
      reads this, tracks
    {
      Sized(Shadow())
    }

    ghost function Shadow(): View
      reads this, tracks
    {
      View(tracks[..], trackCount)
    }

    constructor ()
      ensures Valid() && Shadow() == BLANK && fresh(tracks)
    {
      tracks := new Slot[TRACKS](_ => NO_TRACK);
      trackCount := 0;
    }

    method TrackUpdate(index: nat) returns (m: Message)
      requires Valid() && index < TRACKS
      ensures m == Update(index, tracks[index])
    {
      var slot := tracks[index];
      var name := FillSlots(slot.name, NAME_SLOTS - 1);
      m := UpdateOf(index, name, slot.color, slot.group);
    }

    method ProjectTrack(c: Call) returns (batch: Batch)
      requires Valid()
      modifies `trackCount, tracks
      ensures Valid() && (Shadow(), batch) == Called(old(Shadow()), c)
    {
      if c.index >= TRACKS {
        return [];
      }
      var quantized := FindClosest(PALETTE, c.color);
      tracks[c.index] := Slot(c.name, quantized, c.group);
      trackCount := if trackCount < c.index + 1 then c.index + 1 else trackCount;
      batch := FramedBatch();
    }

    method FramedBatch() returns (batch: Batch)
      requires Valid()
      ensures batch == Frame(Shadow())
    {
      batch := [General(CMD_COUNT, trackCount), General(CMD_OFFSET, 0)];
      for i := 0 to trackCount
        invariant batch == [General(CMD_COUNT, trackCount), General(CMD_OFFSET, 0)] + Updates(tracks[..], i)
      {
        var m := TrackUpdate(i);
        batch := batch + [m];
      }
      batch := batch + [COMMIT];
    }
  }

  // ----- the device -----

  datatype Track = Track(name: seq<Byte>, color: Byte, group: bool)

  /** `staged` gathers the updates of a frame; `shown` is what the last closing message put on display. */
  datatype Screen = Screen(count: nat, staged: map<nat, Track>, shown: seq<Option<Track>>)

  function Received(s: Screen, m: Message): Screen {
    if |m| < 8 || m[..5] != HEADER || m[5] != TYPE_GENERAL then s
    else if m[6] == CMD_COUNT && |m| == 10 then s.(count := 128 * (m[7] as int) + m[8] as int)
    else if m[6] == CMD_TRACK_UPDATE && |m| == 25 then
      s.(staged := s.staged[128 * (m[7] as int) + m[8] as int := Track(Until(m[9..22]), m[22], m[23] != 0)])
    else if m[6] == CMD_COMMIT && |m| == 8 then
      s.(shown := seq(s.count, i requires 0 <= i < s.count => if i in s.staged then Some(s.staged[i]) else None))
    else s
  }

  function ReceivedAll(s: Screen, batch: Batch): Screen
    decreases |batch|
  {
    if batch == [] then s else Received(ReceivedAll(s, batch[..|batch| - 1]), batch[|batch| - 1])
  }

  /** What the device displays of a slot: the name cut to twelve displayable bytes, the colour and the flag. */
  function TrackOf(slot: Slot): Track {
    Track(Front(AsciiDisplay(slot.name), 12), slot.color, slot.group)
  }

  lemma UpdateLayout(i: nat, name: seq<Byte>, color: Byte, group: bool)
    requires |name| == NAME_SLOTS
    ensures var m := UpdateOf(i, name, color, group);
      && |m| == 25 && m[..9] == HEADER + [TYPE_GENERAL, CMD_TRACK_UPDATE] + Split14(i) && m[9..22] == name
      && m[22..] == [color, Flag(group)] + [EOX]
  {
    var before, ending: seq<Byte> := HEADER + [TYPE_GENERAL, CMD_TRACK_UPDATE] + Split14(i),
      [color, Flag(group)] + [EOX];
    assert before + name + ending == UpdateOf(i, name, color, group);
    Middle(before, name, ending);
  }

  lemma UpdateFields(m: Message, i: nat, color: Byte, group: bool)
    requires |m| == 25 && m[..9] == HEADER + [TYPE_GENERAL, CMD_TRACK_UPDATE] + Split14(i)
      && m[22..] == [color, Flag(group)] + [EOX]
    ensures m[..5] == HEADER && m[5] == TYPE_GENERAL && m[6] == CMD_TRACK_UPDATE
    ensures m[7] == Split14(i)[0] && m[8] == Split14(i)[1] && m[22] == color && m[23] == Flag(group)
  {
    assert m[..5] == m[..9][..5] && m[7] == m[..9][7] && m[8] == m[..9][8];
    assert m[22] == m[22..][0] && m[23] == m[22..][1];
  }

  lemma BytesAreReceived(s: Screen, m: Message, i: nat, name: seq<Byte>, color: Byte, group: bool)
    requires i < 16384 && |name| == NAME_SLOTS && m == UpdateOf(i, name, color, group)
    ensures Received(s, m) == s.(staged := s.staged[i := Track(Until(name), color, group)])
  {
    UpdateLayout(i, name, color, group);
    UpdateFields(m, i, color, group);
    FieldsAreReceived(s, m, i, name, color, group);
  }

  lemma FieldsAreReceived(s: Screen, m: Message, i: nat, name: seq<Byte>, color: Byte, group: bool)
    requires i < 16384 && |m| == 25 && m[..5] == HEADER && m[5] == TYPE_GENERAL && m[6] == CMD_TRACK_UPDATE
    requires m[7] == Split14(i)[0] && m[8] == Split14(i)[1] && m[9..22] == name && m[22] == color
      && m[23] == Flag(group)
    ensures Received(s, m) == s.(staged := s.staged[i := Track(Until(name), color, group)])
  {
  }

  lemma UpdateIsReceived(s: Screen, i: nat, slot: Slot)
    requires i < 16384
    ensures Received(s, Update(i, slot)) == s.(staged := s.staged[i := TrackOf(slot)])
  {
    NameRoundTrip(slot.name);
    BytesAreReceived(s, Update(i, slot), i, Name12(slot.name), slot.color, slot.group);
  }

  lemma CountIsReceived(s: Screen, n: nat)
    requires n < 16384
    ensures Received(Received(s, General(CMD_COUNT, n)), General(CMD_OFFSET, 0)) == s.(count := n)
  {
    var m := General(CMD_COUNT, n);
    assert m[..5] == HEADER && m[7] == Split14(n)[0] && m[8] == Split14(n)[1];
    assert General(CMD_OFFSET, 0)[..5] == HEADER;
  }

  lemma ReceivedOneMore(s: Screen, batch: Batch, m: Message)
    ensures ReceivedAll(s, batch + [m]) == Received(ReceivedAll(s, batch), m)
  {
    assert (batch + [m])[..|batch|] == batch;
  }

  lemma {:induction false} ReceivedInTwo(s: Screen, a: Batch, b: Batch)
    ensures ReceivedAll(s, a + b) == ReceivedAll(ReceivedAll(s, a), b)
    decreases |b|
  {
    if b == [] {
      assert a + b == a;
    } else {
      assert (a + b)[..|a + b| - 1] == a + b[..|b| - 1];
      ReceivedInTwo(s, a, b[..|b| - 1]);
    }
  }

  function Tracks(slots: seq<Slot>): seq<Track> {
    seq(|slots|, i requires 0 <= i < |slots| => TrackOf(slots[i]))
  }

  function Staged(staged: map<nat, Track>, tracks: seq<Track>, n: nat): (t: map<nat, Track>)
    requires n <= |tracks|
    ensures forall i :: 0 <= i < n ==> i in t && t[i] == tracks[i]
  {
    if n == 0 then staged else Staged(staged, tracks, n - 1)[n - 1 := tracks[n - 1]]
  }

  lemma {:induction false} UpdatesAreReceived(s: Screen, tracks: seq<Slot>, n: nat)
    requires n <= |tracks| <= TRACKS
    ensures ReceivedAll(s, Updates(tracks, n)) == s.(staged := Staged(s.staged, Tracks(tracks), n))
  {
    if n == 0 {
    } else {
      UpdatesAreReceived(s, tracks, n - 1);
      var t := s.(staged := Staged(s.staged, Tracks(tracks), n - 1));
      UpdateIsReceived(t, n - 1, tracks[n - 1]);
      ReceivedOneMore(s, Updates(tracks, n - 1), Update(n - 1, tracks[n - 1]));
    }
  }

  function Opening(count: nat): Batch {
    [General(CMD_COUNT, count), General(CMD_OFFSET, 0)]
  }

  lemma OpeningIsReceived(s: Screen, count: nat)
    requires count < 16384
    ensures ReceivedAll(s, Opening(count)) == s.(count := count)
  {
    assert Opening(count) == [General(CMD_COUNT, count)] + [General(CMD_OFFSET, 0)];
    assert [General(CMD_COUNT, count)] == [] + [General(CMD_COUNT, count)];
    ReceivedOneMore(s, [General(CMD_COUNT, count)], General(CMD_OFFSET, 0));
    ReceivedOneMore(s, [], General(CMD_COUNT, count));
    CountIsReceived(s, count);
  }

  /** A commit shows what is staged, up to the count. */
  lemma CommitShows(s: Screen, staged: map<nat, Track>, tracks: seq<Track>)
    requires s.count <= |tracks| && s.staged == Staged(staged, tracks, s.count)
    ensures var t := Received(s, COMMIT);
      |t.shown| == s.count && forall i :: 0 <= i < s.count ==> t.shown[i] == Some(tracks[i])
  {
    assert COMMIT[..5] == HEADER;
  }

  /** A frame makes the device show exactly the shadow's first tracks, whatever it was sent before. */
  lemma FrameIsShown(s: Screen, v: View)
    requires Sized(v) && v.count > 0
    ensures var t := ReceivedAll(s, Frame(v));
      |t.shown| == v.count && forall i :: 0 <= i < v.count ==> t.shown[i] == Some(TrackOf(v.tracks[i]))
  {
    var counted := s.(count := v.count);
    OpeningIsReceived(s, v.count);
    ReceivedInTwo(s, Opening(v.count), Updates(v.tracks, v.count));
    ReceivedOneMore(s, Opening(v.count) + Updates(v.tracks, v.count), COMMIT);
    UpdatesAreReceived(counted, v.tracks, v.count);
    CommitShows(ReceivedAll(counted, Updates(v.tracks, v.count)), s.staged, Tracks(v.tracks));
  }

  // ----- runs of calls -----

  function After(calls: seq<Call>): (v: View)
    ensures Sized(v)
    decreases |calls|
  {
    if calls == [] then BLANK else Called(After(calls[..|calls| - 1]), calls[|calls| - 1]).0
  }

  function Display(s: Screen, calls: seq<Call>): Screen
    decreases |calls|
  {
    if calls == [] then s
    else ReceivedAll(Display(s, calls[..|calls| - 1]), Called(After(calls[..|calls| - 1]), calls[|calls| - 1]).1)
  }

  function Latest(calls: seq<Call>, i: nat): Option<Call>
    decreases |calls|
  {
    if calls == [] then None
    else if calls[|calls| - 1].index == i then Some(calls[|calls| - 1])
    else Latest(calls[..|calls| - 1], i)
  }

  /** One more than the highest slot projected to. */
  function Extent(calls: seq<Call>): (n: nat)
    ensures n <= TRACKS
    decreases |calls|
  {
    if calls == [] then 0
    else
      var n, last := Extent(calls[..|calls| - 1]), calls[|calls| - 1].index;
      if n <= last < TRACKS then last + 1 else n
  }

  lemma {:induction false} ShadowIsLatest(calls: seq<Call>, i: nat)
    requires i < TRACKS
    ensures var c := Latest(calls, i); After(calls).tracks[i] == if c.Some? then SlotOf(c.value) else NO_TRACK
    ensures After(calls).count == Extent(calls)
    decreases |calls|
  {
    if calls == [] {
    } else {
      ShadowIsLatest(calls[..|calls| - 1], i);
    }
  }

  lemma {:induction false} DisplayFollowsShadow(s: Screen, calls: seq<Call>)
    requires Extent(calls) > 0
    ensures var d := Display(s, calls);
      |d.shown| == Extent(calls)
      && forall i :: 0 <= i < Extent(calls) ==> d.shown[i] == Some(TrackOf(After(calls).tracks[i]))
    decreases |calls|
  {
    var before, last := calls[..|calls| - 1], calls[|calls| - 1];
    ShadowIsLatest(calls, 0);
    if last.index < TRACKS {
      FrameIsShown(Display(s, before), After(calls));
    } else {
      DisplayFollowsShadow(s, before);
    }
  }

  /**
   After any sequence of projections the device shows one track per slot up to the highest one used:
   the slot's latest name, colour and flag, or the black default if it never had one.
   */
  lemma ScreenShowsLatest(s: Screen, calls: seq<Call>, i: nat)
    requires i < Extent(calls)
    ensures var d, c := Display(s, calls), Latest(calls, i);
      |d.shown| == Extent(calls) && d.shown[i] == Some(TrackOf(if c.Some? then SlotOf(c.value) else NO_TRACK))
  {
    DisplayFollowsShadow(s, calls);
    ShadowIsLatest(calls, i);
  }

  // ----- parameters -----

  datatype Spec = Spec(name: string, value: real, centerDetent: bool, steps: Byte, stepNames: seq<string>,
    isMacro: bool)

  /** The identifier is six bytes of a digest of the parameter's id, each made a data byte. */
  function Hash6(digest: seq<Byte>): (s: seq<Byte>)
    requires |digest| >= 6
    ensures |s| == 6 && DataBytes(s)
  {
    seq(6, k requires 0 <= k < 6 => digest[k] % 128)
  }

  function StepName(spec: Spec, step: nat): string {
    if step < |spec.stepNames| then spec.stepNames[step] else ""
  }

  function Labels(spec: Spec, n: nat): (s: seq<Byte>)
    ensures |s| == NAME_SLOTS * n
  {
    if n == 0 then [] else Labels(spec, n - 1) + Name13(StepName(spec, n - 1))
  }

  lemma {:induction false} LabelsAreData(spec: Spec, n: nat)
    ensures DataBytes(Labels(spec, n))
  {
    if n == 0 {
    } else {
      LabelsAreData(spec, n - 1);
      NameRoundTrip(StepName(spec, n - 1));
      DataJoined(Labels(spec, n - 1), Name13(StepName(spec, n - 1)));
    }
  }

  function LabelCount(steps: Byte): nat {
    if 1 <= steps <= 16 then steps else 0
  }

  /** What stands between the command and the labels. */
  function Fixed(index: Byte, digest: seq<Byte>, spec: Spec, name: seq<Byte>): (s: seq<Byte>)
    requires |digest| >= 6 && |name| == NAME_SLOTS
    ensures |s| == 26
  {
    Split14(index) + Hash6(digest) + [Flag(spec.isMacro), Flag(spec.centerDetent), spec.steps % 128]
      + Split14(Position14(spec.value)) + name
  }

  function Learning(index: Byte, digest: seq<Byte>, spec: Spec, name: seq<Byte>, labels: seq<Byte>): Message
    requires |digest| >= 6 && |name| == NAME_SLOTS
  {
    HEADER + [TYPE_PLUGIN, CMD_PARAM_LEARN] + (Fixed(index, digest, spec, name) + labels) + [EOX]
  }

  function LearnMessage(index: Byte, digest: seq<Byte>, spec: Spec): Message
    requires |digest| >= 6
  {
    Learning(index, digest, spec, Name13(spec.name), Labels(spec, LabelCount(spec.steps)))
  }

  method StepLabel(spec: Spec, step: nat) returns (text: seq<Byte>)
    ensures text == Name13(StepName(spec, step))
  {
    text := FillSlots(if step < |spec.stepNames| then spec.stepNames[step] else "", NAME_SLOTS);
  }

  method StepLabels(spec: Spec) returns (labels: seq<Byte>)
    ensures labels == Labels(spec, LabelCount(spec.steps))
  {
    labels := [];
    if 1 <= spec.steps <= 16 {
      for step := 0 to spec.steps
        invariant labels == Labels(spec, step)
      {
        var text := StepLabel(spec, step);
        labels := labels + text;
      }
    }
  }

  method LearnParameter(index: Byte, digest: seq<Byte>, spec: Spec) returns (batch: Batch)
    requires |digest| >= 6
    ensures batch == [LearnMessage(index, digest, spec)]
  {
    var name := FillSlots(spec.name, NAME_SLOTS);
    var labels := StepLabels(spec);
    batch := [Learning(index, digest, spec, name, labels)];
  }

  datatype Lesson = Lesson(index: nat, hash: seq<Byte>, isMacro: bool, centerDetent: bool, steps: nat, position: nat,
                           name: seq<Byte>, labels: seq<seq<Byte>>)

  function LabelsIn(s: seq<Byte>, n: nat): seq<seq<Byte>>
    requires |s| == NAME_SLOTS * n
  {
    if n == 0 then [] else LabelsIn(s[..NAME_SLOTS * (n - 1)], n - 1) + [Until(s[NAME_SLOTS * (n - 1)..])]
  }

  /** A receiver that takes the announced number of steps at its word. */
  function Learned(m: Message): Option<Lesson> {
    if |m| < 34 || m[..7] != HEADER + [TYPE_PLUGIN, CMD_PARAM_LEARN] then None
    else
      var labels := LabelCount(m[17]);
      if |m| != 34 + NAME_SLOTS * labels then None
      else Some(Lesson(128 * (m[7] as int) + m[8] as int, m[9..15], m[15] != 0, m[16] != 0, m[17],
                       128 * (m[18] as int) + m[19] as int, Until(m[20..33]), LabelsIn(m[33..|m| - 1], labels)))
  }

  /** The names of the first `n` steps, each cut off after thirteen displayed bytes. */
  function Texts(spec: Spec, n: nat): seq<seq<Byte>> {
    seq(n, k requires 0 <= k < n => Front(AsciiDisplay(StepName(spec, k)), 13))
  }

  lemma OneMoreText(spec: Spec, n: nat)
    ensures Texts(spec, n + 1) == Texts(spec, n) + [Front(AsciiDisplay(StepName(spec, n)), 13)]
  {
  }

  lemma OneMoreLabel(s: seq<Byte>, text: seq<Byte>, n: nat)
    requires |s| == NAME_SLOTS * n && |text| == NAME_SLOTS
    ensures LabelsIn(s + text, n + 1) == LabelsIn(s, n) + [Until(text)]
  {
    assert (s + text)[..NAME_SLOTS * n] == s && (s + text)[NAME_SLOTS * n..] == text;
  }

  lemma {:induction false} LabelsAreRead(spec: Spec, n: nat)
    ensures LabelsIn(Labels(spec, n), n) == Texts(spec, n)
  {
    if n == 0 {
    } else {
      LabelsAreRead(spec, n - 1);
      OneMoreText(spec, n - 1);
      DisplayNameRoundTrip(StepName(spec, n - 1));
      OneMoreLabel(Labels(spec, n - 1), Name13(StepName(spec, n - 1)), n - 1);
    }
  }

  lemma FixedParts(index: Byte, digest: seq<Byte>, spec: Spec, name: seq<Byte>)
    requires |digest| >= 6 && |name| == NAME_SLOTS
    ensures var s, position := Fixed(index, digest, spec, name), Split14(Position14(spec.value));
      && s[0] == Split14(index)[0] && s[1] == Split14(index)[1] && s[2..8] == Hash6(digest)
      && s[8] == Flag(spec.isMacro) && s[9] == Flag(spec.centerDetent) && s[10] == spec.steps % 128
      && s[11] == position[0] && s[12] == position[1] && s[13..] == name
  {
  }

  lemma LearningLayout(index: Byte, digest: seq<Byte>, spec: Spec, name: seq<Byte>, labels: seq<Byte>)
    requires |digest| >= 6 && |name| == NAME_SLOTS
    ensures var m := Learning(index, digest, spec, name, labels);
      && |m| == 34 + |labels| && m[..7] == HEADER + [TYPE_PLUGIN, CMD_PARAM_LEARN]
      && m[7..33] == Fixed(index, digest, spec, name) && m[33..|m| - 1] == labels
  {
  }

  lemma FieldsAt(m: Message, s: seq<Byte>)
    requires |m| >= 34 && m[7..33] == s && |s| == 26
    ensures m[9..15] == s[2..8] && m[20..33] == s[13..]
    ensures m[7] == s[0] && m[8] == s[1] && m[15] == s[8] && m[16] == s[9] && m[17] == s[10] && m[18] == s[11]
      && m[19] == s[12]
  {
  }

  function LessonIn(s: seq<Byte>, labels: seq<seq<Byte>>): Lesson
    requires |s| == 26
  {
    Lesson(128 * (s[0] as int) + s[1] as int, s[2..8], s[8] != 0, s[9] != 0, s[10],
      128 * (s[11] as int) + s[12] as int, Until(s[13..]), labels)
  }

  lemma LearnedFromLayout(m: Message, s: seq<Byte>, labels: seq<Byte>, n: nat)
    requires |s| == 26 && |labels| == NAME_SLOTS * n && |m| == 34 + NAME_SLOTS * n
    requires m[..7] == HEADER + [TYPE_PLUGIN, CMD_PARAM_LEARN] && m[7..33] == s && m[33..|m| - 1] == labels
    ensures Learned(m) == if LabelCount(s[10]) == n then Some(LessonIn(s, LabelsIn(labels, n))) else None
  {
    FieldsAt(m, s);
  }

  lemma FieldsAreLearned(m: Message, s: seq<Byte>, index: Byte, hash: seq<Byte>, spec: Spec, name: seq<Byte>,
      labels: seq<Byte>)
    requires var n, position := LabelCount(spec.steps), Split14(Position14(spec.value));
      && |s| == 26 && |labels| == NAME_SLOTS * n && |m| == 34 + NAME_SLOTS * n
      && m[..7] == HEADER + [TYPE_PLUGIN, CMD_PARAM_LEARN] && m[7..33] == s && m[33..|m| - 1] == labels
      && s[0] == Split14(index)[0] && s[1] == Split14(index)[1] && s[2..8] == hash && s[8] == Flag(spec.isMacro)
      && s[9] == Flag(spec.centerDetent) && s[10] == spec.steps % 128 && s[11] == position[0] && s[12] == position[1]
      && s[13..] == name
    ensures Learned(m) ==
      if 129 <= spec.steps <= 144 then None
      else Some(Lesson(index, hash, spec.isMacro, spec.centerDetent, spec.steps % 128, Position14(spec.value),
                       Until(name), LabelsIn(labels, LabelCount(spec.steps))))
  {
    LearnedFromLayout(m, s, labels, LabelCount(spec.steps));
  }

  /** The parameter with so many steps, the names of the first `labels` of them, and all names cut after 13 bytes. */
  function LessonWith(index: Byte, digest: seq<Byte>, spec: Spec, steps: nat, labels: nat): Lesson
    requires |digest| >= 6
  {
    Lesson(index, Hash6(digest), spec.isMacro, spec.centerDetent, steps, Position14(spec.value),
           Front(AsciiDisplay(spec.name), 13), Texts(spec, labels))
  }

  lemma BytesAreLearned(m: Message, index: Byte, digest: seq<Byte>, spec: Spec, name: seq<Byte>, labels: seq<Byte>)
    requires |digest| >= 6 && |name| == NAME_SLOTS && |labels| == NAME_SLOTS * LabelCount(spec.steps)
    requires m == Learning(index, digest, spec, name, labels)
    ensures Learned(m) ==
      if 129 <= spec.steps <= 144 then None
      else Some(Lesson(index, Hash6(digest), spec.isMacro, spec.centerDetent, spec.steps % 128, Position14(spec.value),
                       Until(name), LabelsIn(labels, LabelCount(spec.steps))))
  {
    LearningLayout(index, digest, spec, name, labels);
    FixedParts(index, digest, spec, name);
    FieldsAreLearned(m, Fixed(index, digest, spec, name), index, Hash6(digest), spec, name, labels);
  }

  /** What a receiver makes of the message, for every number of steps. */
  lemma LearnIsReadAs(index: Byte, digest: seq<Byte>, spec: Spec)
    requires |digest| >= 6
    ensures Learned(LearnMessage(index, digest, spec)) ==
      if 129 <= spec.steps <= 144 then None
      else Some(LessonWith(index, digest, spec, spec.steps % 128, LabelCount(spec.steps)))
  {
    var n := LabelCount(spec.steps);
    LabelsAreRead(spec, n);
    DisplayNameRoundTrip(spec.name);
    BytesAreLearned(LearnMessage(index, digest, spec), index, digest, spec, Name13(spec.name), Labels(spec, n));
  }

  /**
   The lesson tells all of the parameter: identifier, flags, number of steps, the value within half a step of the
   scale, and the name and every step's name as displayed.
   */
  predicate TellsAll(l: Lesson, index: Byte, digest: seq<Byte>, spec: Spec)
    requires |digest| >= 6
  {
    && l.index == index && l.hash == Hash6(digest) && l.isMacro == spec.isMacro && l.centerDetent == spec.centerDetent
    && l.steps == spec.steps && Near(l.position as real / 16383.0, spec.value) && l.name == AsciiDisplay(spec.name)
    && |l.labels| == spec.steps as nat
    && forall k :: 0 <= k < |l.labels| ==> l.labels[k] == AsciiDisplay(StepName(spec, k))
  }

  lemma PositionIsNear(x: real)
    ensures Near(Position14(x) as real / 16383.0, x)
  {
    Position14IsNear(x);
    assert Position14(x) / 128 * 128 + Position14(x) % 128 == Position14(x);
  }

  /**
   A taught parameter is read back whole exactly when it has at most sixteen steps, and its name and the name of
   every step display as at most thirteen bytes.
   */
  lemma LearnRoundTrip(index: Byte, digest: seq<Byte>, spec: Spec)
    requires |digest| >= 6
    ensures var read := Learned(LearnMessage(index, digest, spec));
      (read.Some? && TellsAll(read.value, index, digest, spec)) <==>
        && spec.steps <= 16 && |AsciiDisplay(spec.name)| <= 13
        && forall k :: 0 <= k < spec.steps ==> |AsciiDisplay(StepName(spec, k))| <= 13
  {
    LearnIsReadAs(index, digest, spec);
    PositionIsNear(spec.value);
    LessonTellsAll(index, digest, spec);
  }

  lemma LessonTellsAll(index: Byte, digest: seq<Byte>, spec: Spec)
    requires |digest| >= 6
    ensures var read := LessonWith(index, digest, spec, spec.steps % 128, LabelCount(spec.steps));
      TellsAll(read, index, digest, spec) <==>
      && spec.steps <= 16 && |AsciiDisplay(spec.name)| <= 13
      && forall k :: 0 <= k < spec.steps ==> |AsciiDisplay(StepName(spec, k))| <= 13
  {
    PositionIsNear(spec.value);
    var l := LessonWith(index, digest, spec, spec.steps % 128, LabelCount(spec.steps));
    if spec.steps <= 16 {
      assert forall k :: 0 <= k < spec.steps ==> l.labels[k] == Front(AsciiDisplay(StepName(spec, k)), 13);
    }
  }

  /**
   The number of steps is read back exactly below 128 of them; the names, which are cut after thirteen displayed
   bytes, and for the steps only carried for one to sixteen of them, do not come into that.
   */
  lemma StepsAreReadExactlyWhen(index: Byte, digest: seq<Byte>, spec: Spec)
    requires |digest| >= 6
    ensures Learned(LearnMessage(index, digest, spec)) ==
      Some(LessonWith(index, digest, spec, spec.steps, LabelCount(spec.steps)))
      <==> spec.steps < 128
    ensures var read := Learned(LearnMessage(index, digest, spec));
      (read.Some? && read.value.steps == spec.steps) <==> spec.steps < 128
  {
    LearnIsReadAs(index, digest, spec);
    var n := LabelCount(spec.steps);
    StepsDiffer(LessonWith(index, digest, spec, spec.steps % 128, n), LessonWith(index, digest, spec, spec.steps, n));
  }

  lemma StepsDiffer(read: Lesson, whole: Lesson)
    ensures read.steps != whole.steps ==> read != whole
  {
  }

  /** And a receiver that takes the number of steps at its word can read nothing exactly from 129 to 144. */
  lemma LearnIsUnreadableExactlyWhen(index: Byte, digest: seq<Byte>, spec: Spec)
    requires |digest| >= 6
    ensures Learned(LearnMessage(index, digest, spec)).None? <==> 129 <= spec.steps <= 144
  {
    LearnIsReadAs(index, digest, spec);
  }

  // ----- framing -----

  /** Every message of every projection is a well-formed System Exclusive message, for any name. */
  lemma FrameIsWellFormed(v: View, m: Message)
    requires Sized(v) && (forall k :: 0 <= k < TRACKS ==> v.tracks[k].color < 0x80) && m in Frame(v)
    ensures SysEx(m)
  {
    if m == General(CMD_COUNT, v.count) {
      Framed(HEADER + [TYPE_GENERAL, CMD_COUNT], Split14(v.count));
    } else if m == General(CMD_OFFSET, 0) {
      Framed(HEADER + [TYPE_GENERAL, CMD_OFFSET], Split14(0));
    } else if m != COMMIT {
      var i := UpdateAt(v.tracks, v.count, m);
      UpdateIsWellFormed(i, v.tracks[i]);
    }
  }

  lemma {:induction false} UpdateAt(tracks: seq<Slot>, n: nat, m: Message) returns (i: nat)
    requires n <= |tracks| && m in Updates(tracks, n)
    ensures i < n && m == Update(i, tracks[i])
  {
    if m == Update(n - 1, tracks[n - 1]) {
      i := n - 1;
    } else {
      i := UpdateAt(tracks, n - 1, m);
    }
  }

  lemma BytesAreWellFormed(i: nat, name: seq<Byte>, color: Byte, group: bool)
    requires DataBytes(name) && color < 0x80
    ensures SysEx(UpdateOf(i, name, color, group))
  {
    var ending: seq<Byte> := [color, Flag(group)];
    DataJoined(Split14(i), name);
    DataJoined(Split14(i) + name, ending);
    Framed(HEADER + [TYPE_GENERAL, CMD_TRACK_UPDATE], Split14(i) + name + ending);
    assert UpdateOf(i, name, color, group) ==
      HEADER + [TYPE_GENERAL, CMD_TRACK_UPDATE] + (Split14(i) + name + ending) + [EOX];
  }

  lemma UpdateIsWellFormed(i: nat, slot: Slot)
    requires slot.color < 0x80
    ensures SysEx(Update(i, slot))
  {
    NameRoundTrip(slot.name);
    BytesAreWellFormed(i, Name12(slot.name), slot.color, slot.group);
  }

  lemma {:induction false} ShadowColorsAreData(calls: seq<Call>, k: nat)
    requires k < TRACKS
    ensures After(calls).tracks[k].color < 0x80
    decreases |calls|
  {
    ShadowIsLatest(calls, k);
  }

  lemma ProjectionsAreWellFormed(calls: seq<Call>, m: Message)
    requires Extent(calls) > 0 && m in Frame(After(calls))
    ensures SysEx(m)
  {
    forall k | 0 <= k < TRACKS ensures After(calls).tracks[k].color < 0x80 {
      ShadowColorsAreData(calls, k);
    }
    FrameIsWellFormed(After(calls), m);
  }

  lemma LearningIsWellFormed(index: Byte, digest: seq<Byte>, spec: Spec, name: seq<Byte>, labels: seq<Byte>)
    requires |digest| >= 6 && |name| == NAME_SLOTS && DataBytes(name) && DataBytes(labels)
    ensures SysEx(Learning(index, digest, spec, name, labels))
  {
    var flags: seq<Byte> := [Flag(spec.isMacro), Flag(spec.centerDetent), spec.steps % 128];
    DataJoined(Split14(index), Hash6(digest));
    DataJoined(Split14(index) + Hash6(digest), flags);
    DataJoined(Split14(index) + Hash6(digest) + flags, Split14(Position14(spec.value)));
    DataJoined(Split14(index) + Hash6(digest) + flags + Split14(Position14(spec.value)), name);
    DataJoined(Fixed(index, digest, spec, name), labels);
    Framed(HEADER + [TYPE_PLUGIN, CMD_PARAM_LEARN], Fixed(index, digest, spec, name) + labels);
  }

  lemma LearnMessageIsWellFormed(index: Byte, digest: seq<Byte>, spec: Spec)
    requires |digest| >= 6
    ensures SysEx(LearnMessage(index, digest, spec))
  {
    NameRoundTrip(spec.name);
    LabelsAreData(spec, LabelCount(spec.steps));
    LearningIsWellFormed(index, digest, spec, Name13(spec.name), Labels(spec, LabelCount(spec.steps)));
  }
}
