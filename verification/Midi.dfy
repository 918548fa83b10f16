/**
 MIDI bytes, 14-bit positions and palette quantization shared by the device profiles
 (crates/midistage-profiles/src/device_profile.rs:100-117, 205-215, 663-672 and roto_palette.rs:34-50).
 Bit operations on bytes are written as arithmetic: `x & 0x7F` is `x % 128`, `x >> 7` is `x / 128`, and
 `(hi << 7) | lo` with `lo` below 128 is `hi * 128 + lo`.
 */
module Midi {
  type Byte = x: int | 0 <= x < 256

  type Message = seq<Byte>

  type Batch = seq<Message>

  datatype Rgb = Rgb(r: Byte, g: Byte, b: Byte)

  const EOX: Byte := 0xF7

  /** System Exclusive framing of the MIDI 1.0 Detailed Specification: data bytes only between F0 and F7. */
  predicate SysEx(m: Message) {
    |m| >= 2 && m[0] == 0xF0 && m[|m| - 1] == EOX && forall k :: 0 < k < |m| - 1 ==> m[k] < 0x80
  }

  predicate ChannelMessage(m: Message) {
    |m| == 3 && 0x80 <= m[0] < 0xF0 && m[1] < 0x80 && m[2] < 0x80
  }

  predicate DataBytes(s: seq<Byte>) {
    forall k :: 0 <= k < |s| ==> s[k] < 0x80
  }

  lemma DataJoined(a: seq<Byte>, b: seq<Byte>)
    requires DataBytes(a) && DataBytes(b)
    ensures DataBytes(a + b)
  {
  }

  lemma Middle(a: seq<Byte>, b: seq<Byte>, c: seq<Byte>)
    ensures (a + b + c)[|a|..|a| + |b|] == b && (a + b + c)[..|a|] == a && (a + b + c)[|a| + |b|..] == c
  {
  }

  lemma Framed(header: seq<Byte>, payload: seq<Byte>)
    requires |header| > 0 && header[0] == 0xF0 && DataBytes(header[1..]) && DataBytes(payload)
    ensures SysEx(header + payload + [EOX])
  {
    var m := header + payload + [EOX];
    forall k | 0 < k < |m| - 1 ensures m[k] < 0x80 {
      if k < |header| {
        assert m[k] == header[1..][k - 1];
      } else {
        assert m[k] == payload[k - |header|];
      }
    }
  }

  // ----- positions -----

  function Clamp(x: real): (r: real)
    ensures 0.0 <= r <= 1.0 && (0.0 <= x <= 1.0 ==> r == x) && (x < 0.0 ==> r == 0.0) && (x > 1.0 ==> r == 1.0)
  {
    if x < 0.0 then 0.0 else if x > 1.0 then 1.0 else x
  }

  /** Half away from zero, on a non-negative number. */
  function Round(x: real): (n: int)
    requires x >= 0.0
    ensures n >= 0 && n as real - 0.5 <= x < n as real + 0.5
  {
    (x + 0.5).Floor
  }

  function Position14(x: real): (n: nat)
    ensures n <= 16383
  {
    Round(16383.0 * Clamp(x))
  }

  function Value14(hi: nat, lo: nat): real {
    (hi * 128 + lo) as real / 16383.0
  }

  predicate Near(value: real, x: real) {
    -1.0 / 32766.0 <= value - Clamp(x) <= 1.0 / 32766.0
  }

  lemma Position14IsNear(x: real)
    ensures Near(Value14(Position14(x) / 128, Position14(x) % 128), x)
  {
    var n := Position14(x);
    assert n / 128 * 128 + n % 128 == n;
    assert -0.5 <= n as real - 16383.0 * Clamp(x) <= 0.5;
  }

  function Split14(n: nat): (s: seq<Byte>)
    ensures |s| == 2 && DataBytes(s)
    ensures n < 16384 ==> 128 * (s[0] as int) + s[1] as int == n
  {
    [n / 128 % 128, n % 128]
  }

  // ----- palettes -----

  function Square(d: int): nat {
    d * d
  }

  function Distance(candidate: nat, color: Rgb): nat {
    Square(color.r - candidate / 0x10000 % 256) + Square(color.g - candidate / 0x100 % 256)
    + Square(color.b - candidate % 256)
  }

  /** The first of the nearest entries. */
  predicate Closest(palette: seq<nat>, color: Rgb, index: nat) {
    && index < |palette|
    && (forall j :: 0 <= j < |palette| ==> Distance(palette[index], color) <= Distance(palette[j], color))
    && (forall j :: 0 <= j < index ==> Distance(palette[index], color) < Distance(palette[j], color))
  }

  function ClosestFrom(palette: seq<nat>, color: Rgb, best: nat, i: nat): (index: nat)
    requires best < i <= |palette| && Closest(palette[..i], color, best)
    ensures Closest(palette, color, index)
    decreases |palette| - i
  {
    if i == |palette| then
      assert palette[..i] == palette;
      best
    else
      assert palette[..i + 1][..i] == palette[..i];
      ClosestFrom(palette, color,
        if Distance(palette[i], color) < Distance(palette[best], color) then i else best, i + 1)
  }

  function ClosestIndex(palette: seq<nat>, color: Rgb): (index: nat)
    requires palette != []
    ensures Closest(palette, color, index)
  {
    ClosestFrom(palette, color, 0, 1)
  }

  /** There is only one such entry, so the search below finds the very index of the specification. */
  lemma ClosestIsUnique(palette: seq<nat>, color: Rgb, a: nat, b: nat)
    requires Closest(palette, color, a) && Closest(palette, color, b)
    ensures a == b
  {
    assert Distance(palette[a], color) == Distance(palette[b], color);
  }

  /** closest_palette_index: the running best starts beyond any distance, and only a nearer entry replaces it. */
  method FindClosest(palette: seq<nat>, color: Rgb) returns (index: nat)
    requires palette != []
    ensures index == ClosestIndex(palette, color)
  {
    index := 0;
    var best := 0x7FFF_FFFF_FFFF_FFFF;
    for i := 0 to |palette|
      invariant i == 0 ==> index == 0 && best == 0x7FFF_FFFF_FFFF_FFFF
      invariant i > 0 ==> Closest(palette[..i], color, index) && best == Distance(palette[index], color)
    {
      var distance := Distance(palette[i], color);
      DistanceIsSmall(palette[i], color);
      assert palette[..i + 1] == palette[..i] + [palette[i]];
      if distance < best {
        best := distance;
        index := i;
      }
    }
    assert palette[..|palette|] == palette;
    ClosestIsUnique(palette, color, index, ClosestIndex(palette, color));
  }

  lemma ProductIsNatural(a: nat, b: nat)
    ensures a * b >= 0
  {
  }

  lemma SquareIsSmall(d: int)
    requires -255 <= d <= 255
    ensures Square(d) <= 255 * 255
  {
    ProductIsNatural(255 - d, 255 + d);
    assert (255 - d) * (255 + d) == 255 * 255 - d * d;
  }

  lemma DistanceIsSmall(candidate: nat, color: Rgb)
    ensures Distance(candidate, color) <= 3 * 255 * 255
  {
    SquareIsSmall(color.r - candidate / 0x10000 % 256);
    SquareIsSmall(color.g - candidate / 0x100 % 256);
    SquareIsSmall(color.b - candidate % 256);
  }
}
