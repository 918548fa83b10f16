/**
 The LED surface of the ROTO (crates/vantage-point/src/roto_surface.rs:24-88) and its MIDI contract
 (crates/vantage-point/src/roto_midi.rs:13-61).
 */
module Surface {
  import opened Prelude
  import opened Midi

  const PINS := 8
  const STATUS: Byte := 0xB0 + 15
  const BUTTONS: seq<Byte> := [20, 21, 22, 23, 24, 25, 26, 27]
  const PRESS: Byte := 127
  const RELEASE: Byte := 0

  // ----- one message -----

  datatype Event = Button(index: Byte, pressed: bool)

  function SwitchLed(index: nat, on: bool): Message
    requires index < PINS
  {
    [STATUS, BUTTONS[index], if on then PRESS else RELEASE]
  }

  function Parsed(m: Message): (event: Option<Event>)
    ensures event.Some? <==> |m| == 3 && m[0] == STATUS && m[1] in BUTTONS && (m[2] == PRESS || m[2] == RELEASE)
    ensures event.Some? ==>
      && event.value.index < PINS && BUTTONS[event.value.index] == m[1]
      && (event.value.pressed <==> m[2] == PRESS)
  {
    if |m| != 3 || m[0] != STATUS || m[1] !in BUTTONS || (m[2] != PRESS && m[2] != RELEASE) then None
    else Some(Button(m[1] - BUTTONS[0], m[2] == PRESS))
  }

  /** RotoMidiInput::parse looks the controller up in the list of buttons. */
  method Parse(m: Message) returns (event: Option<Event>)
    ensures event == Parsed(m)
  {
    if |m| != 3 || m[0] != STATUS {
      return None;
    }
    var i := 0;
    while i < |BUTTONS| && BUTTONS[i] != m[1]
      invariant 0 <= i <= |BUTTONS|
      invariant forall k :: 0 <= k < i ==> BUTTONS[k] != m[1]
    {
      i := i + 1;
    }
    if i == |BUTTONS| {
      return None;
    }
    if m[2] == PRESS {
      return Some(Button(i, true));
    } else if m[2] == RELEASE {
      return Some(Button(i, false));
    }
    return None;
  }

  /** What is sent to light a switch reads back as that switch pressed or released, and nothing else does. */
  lemma SwitchLedRoundTrip(index: nat, on: bool, m: Message)
    requires index < PINS
    ensures Parsed(m) == Some(Button(index, on)) <==> m == SwitchLed(index, on)
    ensures ChannelMessage(SwitchLed(index, on))
  {
  }

  // ----- wanted LEDs -----

  datatype Lane = Lane(address: string, awaitingUser: bool, requesting: seq<bool>)

  predicate NeedsYou(lane: Lane) {
    lane.awaitingUser || true in lane.requesting
  }

  method LedsForPins(addresses: seq<Option<string>>, lanes: seq<Lane>) returns (leds: seq<bool>)
    requires |addresses| == PINS
    ensures |leds| == PINS
    ensures forall i :: 0 <= i < PINS ==>
      (leds[i] <==> addresses[i].Some? && exists lane <- lanes ::
        (lane.awaitingUser || true in lane.requesting) && lane.address == addresses[i].value)
  {
    var lit: set<string> := {};
    for k := 0 to |lanes|
      invariant forall a :: a in lit <==> exists lane <- lanes[..k] :: NeedsYou(lane) && lane.address == a
    {
      ghost var before := lit;
      if NeedsYou(lanes[k]) {
        lit := lit + {lanes[k].address};
      }
      assert lanes[..k + 1] == lanes[..k] + [lanes[k]];
      forall a ensures a in lit <==> exists lane <- lanes[..k + 1] :: NeedsYou(lane) && lane.address == a {
        if a in before {
          var lane :| lane in lanes[..k] && NeedsYou(lane) && lane.address == a;
          assert lane in lanes[..k + 1];
        } else if a in lit {
          assert lanes[k] in lanes[..k + 1];
        }
      }
    }
    assert lanes[..|lanes|] == lanes;
    leds := seq(PINS, i requires 0 <= i < PINS => addresses[i].Some? && addresses[i].value in lit);
  }

  // ----- reconciliation -----

  type Leds = s: seq<bool> | |s| == PINS witness [false, false, false, false, false, false, false, false]

  /** The messages for the switches below `n` whose projection is unknown or differs. */
  function Changes(shown: Option<Leds>, desired: Leds, n: nat): Batch
    requires n <= PINS
  {
    if n == 0 then []
    else
      var same := shown.Some? && shown.value[n - 1] == desired[n - 1];
      Changes(shown, desired, n - 1) + if same then [] else [SwitchLed(n - 1, desired[n - 1])]
  }

  function Reconciled(projected: Option<Leds>, ready: bool, desired: Leds): (Option<Leds>, Batch) {
    if !ready then (None, []) else (Some(desired), Changes(projected, desired, PINS))
  }

  class RotoSurface {
    var projected: Option<Leds>

    constructor ()
      ensures projected == None
    {
      projected := None;
    }

    method Reconcile(ready: bool, desired: Leds) returns (messages: Batch)
      modifies this
      ensures (projected, messages) == Reconciled(old(projected), ready, desired)
    {
      messages := [];
      if !ready {
        projected := None;
        return;
      }
      for i := 0 to PINS
        invariant projected == old(projected) && messages == Changes(projected, desired, i)
      {
        if projected.None? || projected.value[i] != desired[i] {
          messages := messages + [SwitchLed(i, desired[i])];
        }
      }
      projected := Some(desired);
    }
  }

  // ----- the hardware -----

  function Lit(hardware: Leds, m: Message): Leds {
    var event := Parsed(m);
    if event.Some? then hardware[event.value.index := event.value.pressed] else hardware
  }

  function LitAll(hardware: Leds, batch: Batch): Leds
    decreases |batch|
  {
    if batch == [] then hardware else Lit(LitAll(hardware, batch[..|batch| - 1]), batch[|batch| - 1])
  }

  lemma LitOneMore(hardware: Leds, batch: Batch, m: Message)
    ensures LitAll(hardware, batch + [m]) == Lit(LitAll(hardware, batch), m)
  {
    assert (batch + [m])[..|batch|] == batch;
  }

  lemma SwitchIsLit(hardware: Leds, n: nat, on: bool)
    requires n < PINS
    ensures Lit(hardware, SwitchLed(n, on)) == hardware[n := on]
  {
    SwitchLedRoundTrip(n, on, SwitchLed(n, on));
  }

  lemma OneMoreIsLit(hardware: Leds, shown: Option<Leds>, desired: Leds, n: nat)
    requires 0 < n <= PINS
    ensures LitAll(hardware, Changes(shown, desired, n)) ==
      var lit := LitAll(hardware, Changes(shown, desired, n - 1));
      if shown.None? || shown.value[n - 1] != desired[n - 1] then lit[n - 1 := desired[n - 1]] else lit
  {
    var before := Changes(shown, desired, n - 1);
    if shown.None? || shown.value[n - 1] != desired[n - 1] {
      LitOneMore(hardware, before, SwitchLed(n - 1, desired[n - 1]));
      SwitchIsLit(LitAll(hardware, before), n - 1, desired[n - 1]);
    } else {
      assert Changes(shown, desired, n) == before;
    }
  }

  /** The switches below `n` that differ from the shown ones stand as desired, the others as they were. */
  predicate Overlays(lit: Leds, hardware: Leds, shown: Option<Leds>, desired: Leds, n: nat) {
    forall i :: 0 <= i < PINS ==>
      lit[i] == if i < n && (shown.None? || shown.value[i] != desired[i]) then desired[i] else hardware[i]
  }

  lemma OverlaysOn(before: Leds, lit: Leds, hardware: Leds, shown: Option<Leds>, desired: Leds, n: nat)
    requires 0 < n <= PINS && Overlays(before, hardware, shown, desired, n - 1)
    requires lit ==
      if shown.None? || shown.value[n - 1] != desired[n - 1] then before[n - 1 := desired[n - 1]] else before
    ensures Overlays(lit, hardware, shown, desired, n)
  {
  }

  lemma {:induction false} ChangesAreLit(hardware: Leds, shown: Option<Leds>, desired: Leds, n: nat)
    requires n <= PINS
    ensures Overlays(LitAll(hardware, Changes(shown, desired, n)), hardware, shown, desired, n)
  {
    if n == 0 {
    } else {
      ChangesAreLit(hardware, shown, desired, n - 1);
      OneMoreIsLit(hardware, shown, desired, n);
      OverlaysOn(LitAll(hardware, Changes(shown, desired, n - 1)), LitAll(hardware, Changes(shown, desired, n)),
                 hardware, shown, desired, n);
    }
  }

  predicate InStep(hardware: Leds, shown: Leds, desired: Leds) {
    forall i :: 0 <= i < PINS && shown[i] == desired[i] ==> hardware[i] == shown[i]
  }

  /**
   After a ready tick the hardware shows the desired pattern exactly when the switches that got no message
   were in step with the remembered pattern; a tick that remembers none always converges.
   */
  lemma TickConvergesExactlyWhen(hardware: Leds, projected: Option<Leds>, desired: Leds)
    ensures LitAll(hardware, Reconciled(projected, true, desired).1) == desired <==>
      projected.None? || InStep(hardware, projected.value, desired)
  {
    var after := LitAll(hardware, Changes(projected, desired, PINS));
    ChangesAreLit(hardware, projected, desired, PINS);
    if after == desired && projected.Some? {
      forall i | 0 <= i < PINS && projected.value[i] == desired[i] ensures hardware[i] == projected.value[i] {
        assert after[i] == desired[i];
      }
    }
  }

  lemma {:induction false} MessageMeansChange(projected: Option<Leds>, desired: Leds, n: nat, i: nat, on: bool)
    requires n <= PINS && i < PINS
    ensures SwitchLed(i, on) in Changes(projected, desired, n) <==>
      i < n && on == desired[i] && (projected.None? || projected.value[i] != desired[i])
  {
    if n == 0 {
    } else {
      MessageMeansChange(projected, desired, n - 1, i, on);
      SwitchLedRoundTrip(i, on, SwitchLed(n - 1, desired[n - 1]));
      SwitchLedRoundTrip(n - 1, desired[n - 1], SwitchLed(n - 1, desired[n - 1]));
    }
  }

  // ----- runs -----

  /** A tick of the surface, delivered or lost on the way out, or the hardware changing by itself. */
  datatype Move = Tick(ready: bool, desired: Leds, delivered: bool) | Drift(hardware: Leds)

  datatype Scene = Scene(projected: Option<Leds>, hardware: Leds)

  function Played(s: Scene, e: Move): Scene {
    match e
    case Drift(hardware) => s.(hardware := hardware)
    case Tick(ready, desired, delivered) =>
      var (projected, messages) := Reconciled(s.projected, ready, desired);
      Scene(projected, if delivered then LitAll(s.hardware, messages) else s.hardware)
  }

  function After(s: Scene, es: seq<Move>, n: nat): Scene
    requires n <= |es|
  {
    if n == 0 then s else Played(After(s, es, n - 1), es[n - 1])
  }

  /** The latest tick before `n`, if any, was not ready. */
  predicate Unready(es: seq<Move>, n: nat)
    requires n <= |es|
  {
    n == 0 || (if es[n - 1].Tick? then !es[n - 1].ready else Unready(es, n - 1))
  }

  /** The next tick from `n` on, if any, is not ready. */
  predicate NextUnready(es: seq<Move>, n: nat)
    requires n <= |es|
    decreases |es| - n
  {
    n == |es| || (if es[n].Tick? then !es[n].ready else NextUnready(es, n + 1))
  }

  /** Sends succeed, and where the hardware changes by itself the tick before or after finds it not ready. */
  predicate Gentle(es: seq<Move>) {
    forall n :: 0 <= n < |es| ==> if es[n].Tick? then es[n].delivered else Unready(es, n) || NextUnready(es, n)
  }

  lemma {:induction false} ProjectionIsTrue(s: Scene, es: seq<Move>, n: nat)
    requires s.projected.None? && Gentle(es) && n <= |es|
    ensures Unready(es, n) ==> After(s, es, n).projected.None?
    ensures var t := After(s, es, n); t.projected.Some? && !NextUnready(es, n) ==> t.hardware == t.projected.value
  {
    if n == 0 {
    } else {
      ProjectionIsTrue(s, es, n - 1);
      var t := After(s, es, n - 1);
      if es[n - 1].Tick? && es[n - 1].ready {
        TickConvergesExactlyWhen(t.hardware, t.projected, es[n - 1].desired);
      }
    }
  }

  /** Then every ready tick leaves the hardware with the desired pattern. */
  lemma ReadyTicksConverge(s: Scene, es: seq<Move>, n: nat)
    requires s.projected.None? && Gentle(es) && n < |es| && es[n].Tick? && es[n].ready
    ensures After(s, es, n + 1).hardware == es[n].desired
  {
    ProjectionIsTrue(s, es, n);
    var t := After(s, es, n);
    TickConvergesExactlyWhen(t.hardware, t.projected, es[n].desired);
  }

  /** A change of the hardware between two ready ticks, or a lost message, is not noticed. */
  lemma UnseenChangesStay(on: Leds, off: Leds)
    requires on != off
    ensures After(Scene(None, off), [Tick(true, on, true), Drift(off), Tick(true, on, true)], 3).hardware == off
    ensures After(Scene(None, off), [Tick(true, on, false), Tick(true, on, true)], 2).hardware == off
  {
    var blip := [Tick(true, on, true), Drift(off), Tick(true, on, true)];
    var lost := [Tick(true, on, false), Tick(true, on, true)];
    assert After(Scene(None, off), blip, 1).projected == Some(on)
      && After(Scene(None, off), lost, 1) == Scene(Some(on), off);
    assert After(Scene(None, off), blip, 2) == Scene(Some(on), off);
    ChangesAreLit(off, Some(on), on, PINS);
  }
}
