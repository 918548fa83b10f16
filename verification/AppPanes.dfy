/**
 Pane layouts of the app window (crates/vp-app/webview/app-panes.ts:86-256): presets, short visits to a
 pane, and the layout remembered per lane. Applying a scene sets the current layout of the engine.
 */
module AppPanes {
  import opened Prelude

  /** A pane as the layout resolves it: its area, and where it stands in depth. */
  datatype Pane = Pane(id: string, width: real, height: real, floating: bool, attention: real)

  /** A layout is told apart by its structure; `resolved` lists its panes in output order. */
  datatype Layout = Layout(structure: nat, resolved: seq<Pane>)

  datatype Shape = Shape(layout: Layout, scene: Option<string>)

  // ----- presets -----

  function Focus(structure: nat, pane: string): Layout {
    Layout(structure, [Pane(pane, 1.0, 1.0, false, 1.0)])
  }

  const SCENES: map<string, Layout> := map[
    "lane-focus" := Focus(1, "lane"),
    "runner-focus" := Focus(2, "runner"),
    "devices-focus" := Focus(3, "devices"),
    "preview-focus" := Focus(4, "preview"),
    "empty" := Focus(5, "empty")
  ]

  const CYCLE: seq<string> := ["lane-focus", "runner-focus", "devices-focus", "preview-focus"]

  function SceneOf(pane: string): string {
    pane + "-focus"
  }

  // ----- the pane in front -----

  function Depth(p: Pane): real {
    (if p.floating then 10.0 else 0.0) + p.attention
  }

  predicate Visible(p: Pane) {
    p.width > 0.0 && p.height > 0.0
  }

  /** The first of two panes stands at least as deep as the second; a floating one has ten to spare. */
  predicate Behind(p: Pane, q: Pane) {
    if p.floating == q.floating then p.attention <= q.attention
    else if q.floating then p.attention <= q.attention + 10.0
    else p.attention + 10.0 <= q.attention
  }

  /** The k-th pane takes up space, all others that do are behind it, and it is behind none that comes after it. */
  predicate InFront(panes: seq<Pane>, k: nat) {
    && k < |panes| && panes[k].width > 0.0 && panes[k].height > 0.0
    && (forall j :: 0 <= j < |panes| && panes[j].width > 0.0 && panes[j].height > 0.0 ==> Behind(panes[j], panes[k]))
    && (forall j :: k < j < |panes| && panes[j].width > 0.0 && panes[j].height > 0.0 ==> !Behind(panes[k], panes[j]))
  }

  function Front(panes: seq<Pane>): (k: Option<nat>)
    ensures k.None? ==> forall p <- panes :: !(p.width > 0.0 && p.height > 0.0)
    ensures k.Some? ==> InFront(panes, k.value)
  {
    if panes == [] then None
    else
      var last := |panes| - 1;
      var before := Front(panes[..last]);
      assert panes == panes[..last] + [panes[last]];
      if Visible(panes[last]) && (before.None? || Depth(panes[last]) >= Depth(panes[before.value])) then Some(last)
      else before
  }

  /** A floating pane stands before a tiled one of whatever place exactly when that one is not ten deeper. */
  lemma FloatingIsInFrontExactlyWhen(tiled: Pane, float: Pane)
    requires !tiled.floating && float.floating && Visible(tiled) && Visible(float)
    ensures Front([tiled, float]) == Some(1) <==> tiled.attention <= float.attention + 10.0
    ensures Front([float, tiled]) == Some(0) <==> tiled.attention < float.attention + 10.0
  {
    assert [tiled, float][..1] == [tiled] && [float, tiled][..1] == [float];
    assert [tiled][..0] == [] && [float][..0] == [];
  }

  function Primary(panes: seq<Pane>): Option<string> {
    var k := Front(panes);
    if k.Some? then Some(panes[k.value].id) else None
  }

  method PrimaryAppPane(panes: seq<Pane>) returns (best: Option<string>)
    ensures best == Primary(panes)
  {
    best := None;
    var bestKey := 0.0;
    for i := 0 to |panes|
      invariant var k := Front(panes[..i]);
        best == Primary(panes[..i]) && (k.Some? ==> bestKey == Depth(panes[k.value]))
    {
      assert panes[..i + 1][..i] == panes[..i];
      var p := panes[i];
      if !(p.width <= 0.0 || p.height <= 0.0) {
        if best.None? || Depth(p) >= bestKey {
          best := Some(p.id);
          bestKey := Depth(p);
        }
      }
    }
    assert panes[..|panes|] == panes;
  }

  /** The lane memory keeps a layout only if some pane other than the placeholder is in front. */
  predicate Worth(layout: Layout) {
    var primary := Primary(layout.resolved);
    primary.Some? && primary.value != "empty"
  }

  // ----- state -----

  datatype View = View(current: Layout, scene: Option<string>, visiting: bool, before: Option<Shape>,
    lanes: map<string, Shape>)

  function Applied(v: View, id: string): View {
    if id in SCENES then v.(current := SCENES[id], scene := Some(id), visiting := false) else v.(visiting := false)
  }

  function Visited(v: View, pane: string): View {
    var base := if v.visiting then v else v.(before := Some(Shape(v.current, v.scene)));
    Applied(base, SceneOf(pane)).(visiting := SceneOf(pane) in SCENES)
  }

  function Closed(v: View): View {
    if v.visiting && v.before.Some? then
      v.(current := v.before.value.layout, scene := v.before.value.scene, visiting := false, before := None)
    else Applied(v.(visiting := false, before := None), "lane-focus")
  }

  function IndexIn(cycle: seq<string>, scene: Option<string>): (i: int)
    ensures -1 <= i < |cycle|
    ensures i >= 0 ==> scene == Some(cycle[i])
    ensures i == -1 ==> scene.None? || scene.value !in cycle
  {
    if cycle == [] then -1
    else if scene == Some(cycle[0]) then 0
    else
      var rest := IndexIn(cycle[1..], scene);
      if rest == -1 then -1 else rest + 1
  }

  /** `direction` is 1 for the next preset and -1 for the previous one. */
  function Cycled(v: View, direction: int): View
    requires direction == 1 || direction == -1
  {
    Applied(v, CYCLE[(IndexIn(CYCLE, v.scene) + direction + |CYCLE|) % |CYCLE|])
  }

  function AiApplied(v: View, next: Layout): View {
    v.(current := next, scene := None, visiting := false, before := None)
  }

  /** The shape a lane would be remembered by: during a visit the one before it. */
  function Base(v: View): Shape {
    if v.visiting && v.before.Some? then v.before.value else Shape(v.current, v.scene)
  }

  function Saved(v: View, lane: string): View {
    if Worth(Base(v).layout) then v.(lanes := v.lanes[lane := Base(v)]) else v
  }

  function Restored(v: View, lane: string): View {
    if lane in v.lanes then v.(current := v.lanes[lane].layout, scene := v.lanes[lane].scene, visiting := false)
    else Applied(v.(visiting := false), "lane-focus")
  }

  class Panes {
    var current: Layout
    var currentSceneId: Option<string>
    var transientVisit: bool
    var beforeVisit: Option<Shape>
    var laneStates: map<string, Shape>

    constructor (initial: Layout)
      ensures Shown() == View(initial, None, false, None, map[])
    {
      current := initial;
      currentSceneId := None;
      transientVisit := false;
      beforeVisit := None;
      laneStates := map[];
    }

    function Shown(): View
      reads this
    {
      View(current, currentSceneId, transientVisit, beforeVisit, laneStates)
    }

    method ApplyAppScene(id: string) returns (known: bool)
      modifies this
      ensures Shown() == Applied(old(Shown()), id) && known == (id in SCENES)
    {
      transientVisit := false;
      if id !in SCENES {
        return false;
      }
      current := SCENES[id];
      currentSceneId := Some(id);
      return true;
    }

    method ApplyAppLayoutFromAi(next: Layout)
      modifies this
      ensures Shown() == AiApplied(old(Shown()), next)
    {
      current := next;
      currentSceneId := None;
      transientVisit := false;
      beforeVisit := None;
    }

    method VisitAppPane(pane: string) returns (ok: bool)
      modifies this
      ensures Shown() == Visited(old(Shown()), pane) && ok == (SceneOf(pane) in SCENES)
    {
      if !transientVisit {
        beforeVisit := Some(Shape(current, currentSceneId));
      }
      ok := ApplyAppScene(pane + "-focus");
      transientVisit := ok;
    }

    method CloseAppPaneVisit()
      modifies this
      ensures Shown() == Closed(old(Shown()))
    {
      if transientVisit && beforeVisit.Some? {
        current := beforeVisit.value.layout;
        currentSceneId := beforeVisit.value.scene;
        transientVisit := false;
        beforeVisit := None;
        return;
      }
      transientVisit := false;
      beforeVisit := None;
      var _ := ApplyAppScene("lane-focus");
    }

    method CycleAppScene(direction: int) returns (known: bool)
      requires direction == 1 || direction == -1
      modifies this
      ensures Shown() == Cycled(old(Shown()), direction) && known
    {
      var i := 0;
      while i < |CYCLE| && currentSceneId != Some(CYCLE[i])
        invariant 0 <= i <= |CYCLE|
        invariant forall k :: 0 <= k < i ==> currentSceneId != Some(CYCLE[k])
      {
        i := i + 1;
      }
      var index := if i == |CYCLE| then -1 else i;
      IndexIsFirst(CYCLE, currentSceneId, index);
      known := ApplyAppScene(CYCLE[(index + direction + |CYCLE|) % |CYCLE|]);
    }

    method SaveAppStateFor(lane: string)
      modifies this
      ensures Shown() == Saved(old(Shown()), lane)
    {
      if transientVisit && beforeVisit.Some? {
        var primary := PrimaryAppPane(beforeVisit.value.layout.resolved);
        if primary.None? || primary.value == "empty" {
          return;
        }
        laneStates := laneStates[lane := beforeVisit.value];
        return;
      }
      var primary := PrimaryAppPane(current.resolved);
      if primary.None? || primary.value == "empty" {
        return;
      }
      laneStates := laneStates[lane := Shape(current, currentSceneId)];
    }

    method RestoreAppStateFor(lane: string)
      modifies this
      ensures Shown() == Restored(old(Shown()), lane)
    {
      transientVisit := false;
      if lane !in laneStates {
        var _ := ApplyAppScene("lane-focus");
        return;
      }
      current := laneStates[lane].layout;
      currentSceneId := laneStates[lane].scene;
    }
  }

  lemma {:induction false} IndexIsFirst(cycle: seq<string>, scene: Option<string>, i: int)
    requires -1 <= i < |cycle|
    requires i >= 0 ==> scene == Some(cycle[i]) && forall k :: 0 <= k < i ==> scene != Some(cycle[k])
    requires i == -1 ==> forall k :: 0 <= k < |cycle| ==> scene != Some(cycle[k])
    ensures IndexIn(cycle, scene) == i
  {
    if cycle != [] && scene != Some(cycle[0]) {
      IndexIsFirst(cycle[1..], scene, if i == -1 then -1 else i - 1);
    }
  }

  // ----- what each operation shows -----

  predicate Shows(v: View, layout: Layout, scene: Option<string>) {
    v.current == layout && v.scene == scene
  }

  /** A known scene is shown, an unknown one changes nothing shown; a visit is over either way. */
  lemma ApplyShowsTheScene(v: View, id: string)
    ensures var n := Applied(v, id);
      && !n.visiting && n.before == v.before && n.lanes == v.lanes
      && if id in SCENES then Shows(n, SCENES[id], Some(id)) else Shows(n, v.current, v.scene)
  {
  }

  /** A visit shows the pane's scene; the first one remembers what was shown, a further one does not. */
  lemma VisitShowsThePane(v: View, pane: string)
    requires pane + "-focus" in SCENES
    ensures var n := Visited(v, pane);
      && Shows(n, SCENES[pane + "-focus"], Some(pane + "-focus")) && n.visiting && n.lanes == v.lanes
      && n.before == if v.visiting then v.before else Some(Shape(v.current, v.scene))
  {
  }

  /** Without a visit, closing goes to the lane's own scene. */
  lemma CloseShowsTheStartOrTheLane(v: View)
    ensures var n := Closed(v);
      && !n.visiting && n.before.None? && n.lanes == v.lanes
      && if v.visiting && v.before.Some? then Shows(n, v.before.value.layout, v.before.value.scene)
         else Shows(n, SCENES["lane-focus"], Some("lane-focus"))
  {
  }

  /** A lane never saved shows the lane's own scene, any other one its own shape. */
  lemma RestoreShowsTheLane(v: View, lane: string)
    ensures var n := Restored(v, lane);
      && !n.visiting && n.lanes == v.lanes && n.before == v.before
      && if lane in v.lanes then Shows(n, v.lanes[lane].layout, v.lanes[lane].scene)
         else Shows(n, SCENES["lane-focus"], Some("lane-focus"))
  {
  }

  /** A lane is remembered by what was shown before any visit, unless nothing or only the placeholder is in front. */
  lemma SaveRemembersTheLane(v: View, lane: string)
    ensures var n := Saved(v, lane);
      var shape := if v.visiting && v.before.Some? then v.before.value else Shape(v.current, v.scene);
      && n == v.(lanes := n.lanes) && (forall other :: other != lane ==> (other in n.lanes <==> other in v.lanes))
      && (forall other <- v.lanes :: other != lane ==> n.lanes[other] == v.lanes[other])
      && if exists k: nat :: InFront(shape.layout.resolved, k) && shape.layout.resolved[k].id != "empty"
         then lane in n.lanes && n.lanes[lane] == shape
         else n.lanes == v.lanes
  {
    var shape := if v.visiting && v.before.Some? then v.before.value else Shape(v.current, v.scene);
    var panes := shape.layout.resolved;
    var k := Front(panes);
    forall j: nat | InFront(panes, j) ensures k == Some(j) {
      assert panes[j] in panes;
    }
  }

  /** The next or previous preset in the ring; with none of them up, the first one and the last but one. */
  lemma CycleShowsTheNeighbour(v: View, direction: int, i: nat)
    requires direction == 1 || direction == -1
    ensures i < |CYCLE| && v.scene == Some(CYCLE[i]) ==>
      var id := CYCLE[(i + direction + 4) % 4]; Shows(Cycled(v, direction), SCENES[id], Some(id))
    ensures v.scene.None? || v.scene.value !in CYCLE ==>
      var id := if direction == 1 then "lane-focus" else "devices-focus";
      Shows(Cycled(v, direction), SCENES[id], Some(id))
    ensures !Cycled(v, direction).visiting
  {
    IndexIsFirst(CYCLE, v.scene, if i < |CYCLE| && v.scene == Some(CYCLE[i]) then i else IndexIn(CYCLE, v.scene));
  }

  // ----- visits -----

  datatype Action =
    | Apply(id: string)
    | Ai(next: Layout)
    | Visit(pane: string)
    | Close
    | Cycle(direction: int)
    | Save(lane: string)
    | Restore(lane: string)
    | Adjust(next: Layout)

  /** `Adjust`: the user drags the shares of the current layout. */
  function Acted(v: View, a: Action): View {
    match a
    case Apply(id) => Applied(v, id)
    case Ai(next) => AiApplied(v, next)
    case Visit(pane) => Visited(v, pane)
    case Close => Closed(v)
    case Cycle(direction) => Cycled(v, if direction >= 0 then 1 else -1)
    case Save(lane) => Saved(v, lane)
    case Restore(lane) => Restored(v, lane)
    case Adjust(next) => v.(current := next)
  }

  function After(v: View, acts: seq<Action>, n: nat): View
    requires n <= |acts|
  {
    if n == 0 then v else Acted(After(v, acts, n - 1), acts[n - 1])
  }

  /** What may happen inside a visit: further visits to known panes, dragging, and lanes being remembered. */
  predicate DuringVisit(a: Action) {
    (a.Visit? && SceneOf(a.pane) in SCENES) || a.Adjust? || a.Save?
  }

  lemma {:induction false} VisitKeepsStart(v: View, acts: seq<Action>, n: nat)
    requires !v.visiting && 0 < n <= |acts| && acts[0].Visit? && forall k :: 0 <= k < |acts| ==> DuringVisit(acts[k])
    ensures After(v, acts, n).visiting && After(v, acts, n).before == Some(Shape(v.current, v.scene))
  {
    if n > 1 {
      VisitKeepsStart(v, acts, n - 1);
    } else {
      assert After(v, acts, 0) == v;
    }
  }

  /**
   However many panes are visited and dragged about, closing brings
   back the layout and scene from before the first.
   */
  lemma VisitsAreTransparent(v: View, acts: seq<Action>)
    requires !v.visiting && acts != [] && acts[0].Visit? && forall k :: 0 <= k < |acts| ==> DuringVisit(acts[k])
    ensures var c := Closed(After(v, acts, |acts|));
      Shape(c.current, c.scene) == Shape(v.current, v.scene) && !c.visiting
  {
    VisitKeepsStart(v, acts, |acts|);
  }

  /**
   A single visit is undone by closing it exactly when the pane has
   a scene, or the lane's own scene was up anyway.
   */
  lemma VisitIsUndoneExactlyWhen(v: View, pane: string)
    requires !v.visiting
    ensures var c := Closed(Visited(v, pane));
      Shape(c.current, c.scene) == Shape(v.current, v.scene) <==>
        SceneOf(pane) in SCENES || Shape(v.current, v.scene) == Shape(SCENES["lane-focus"], Some("lane-focus"))
  {
  }

  /** A pane without a scene ends the visit but leaves its layout up, which a lane may then be remembered by. */
  lemma UnknownPaneEndsTheVisit(v: View, pane: string, unknown: string, lane: string)
    requires SceneOf(pane) in SCENES && SceneOf(unknown) !in SCENES && Worth(SCENES[SceneOf(pane)])
    ensures var w := After(v, [Visit(pane), Visit(unknown), Save(lane)], 3);
      lane in w.lanes && w.lanes[lane] == Shape(SCENES[SceneOf(pane)], Some(SceneOf(pane)))
  {
    var acts := [Visit(pane), Visit(unknown), Save(lane)];
    assert After(v, acts, 1) == Visited(v, pane);
    assert After(v, acts, 2) == Visited(Visited(v, pane), unknown);
  }

  // ----- lane memory -----

  predicate WasShown(v: View, acts: seq<Action>, n: nat, shape: Shape)
    requires n <= |acts|
  {
    exists k :: 0 <= k <= n && !After(v, acts, k).visiting
      && Shape(After(v, acts, k).current, After(v, acts, k).scene) == shape
  }

  predicate Fresh(v: View) {
    !v.visiting && v.lanes == map[]
  }

  lemma VisitStep(u: View, a: Action, w: View)
    requires w == Acted(u, a) && w.visiting
    ensures if u.visiting then w.before == u.before else w.before == Some(Shape(u.current, u.scene))
  {
  }

  lemma {:induction false} VisitBeganFromShown(v: View, acts: seq<Action>, n: nat)
    requires Fresh(v) && n <= |acts| && After(v, acts, n).visiting
    ensures var w := After(v, acts, n); w.before.Some? && WasShown(v, acts, n, w.before.value)
  {
    if n == 0 {
    } else {
      var u, w := After(v, acts, n - 1), After(v, acts, n);
      VisitStep(u, acts[n - 1], w);
      if u.visiting {
        VisitBeganFromShown(v, acts, n - 1);
      } else {
        ShownNow(v, acts, n - 1);
      }
      Later(v, acts, n - 1, w.before.value);
    }
  }

  lemma ShownNow(v: View, acts: seq<Action>, n: nat)
    requires n <= |acts| && !After(v, acts, n).visiting
    ensures WasShown(v, acts, n, Shape(After(v, acts, n).current, After(v, acts, n).scene))
  {
  }

  lemma BaseWasShown(v: View, acts: seq<Action>, n: nat)
    requires Fresh(v) && n <= |acts|
    ensures WasShown(v, acts, n, Base(After(v, acts, n)))
  {
    if After(v, acts, n).visiting {
      VisitBeganFromShown(v, acts, n);
    } else {
      ShownNow(v, acts, n);
    }
  }

  lemma Later(v: View, acts: seq<Action>, n: nat, shape: Shape)
    requires n < |acts| && WasShown(v, acts, n, shape)
    ensures WasShown(v, acts, n + 1, shape)
  {
    var k :| 0 <= k <= n && !After(v, acts, k).visiting
      && Shape(After(v, acts, k).current, After(v, acts, k).scene) == shape;
    assert 0 <= k <= n + 1;
  }

  lemma LanesStep(u: View, a: Action, w: View, lane: string)
    requires w == Acted(u, a) && lane in w.lanes
    ensures (lane in u.lanes && w.lanes[lane] == u.lanes[lane]) || (w.lanes[lane] == Base(u) && Worth(Base(u).layout))
    ensures lane in u.lanes && a != Save(lane) ==> w.lanes[lane] == u.lanes[lane]
  {
  }

  lemma LanesGrow(u: View, a: Action, w: View)
    requires w == Acted(u, a)
    ensures u.lanes.Keys <= w.lanes.Keys
  {
  }

  /** Every remembered layout was on show at a moment with no visit going on, with a real pane in front. */
  lemma {:induction false} MemoryHoldsNoVisit(v: View, acts: seq<Action>, n: nat, lane: string)
    requires Fresh(v) && n <= |acts| && lane in After(v, acts, n).lanes
    ensures WasShown(v, acts, n, After(v, acts, n).lanes[lane]) && Worth(After(v, acts, n).lanes[lane].layout)
  {
    if n == 0 {
    } else {
      var u, w := After(v, acts, n - 1), After(v, acts, n);
      LanesStep(u, acts[n - 1], w, lane);
      if lane in u.lanes && w.lanes[lane] == u.lanes[lane] {
        MemoryHoldsNoVisit(v, acts, n - 1, lane);
      } else {
        BaseWasShown(v, acts, n - 1);
      }
      Later(v, acts, n - 1, w.lanes[lane]);
    }
  }

  lemma {:induction false} MemoryIsKept(v: View, acts: seq<Action>, n: nat, lane: string)
    requires n <= |acts| && lane in v.lanes && Save(lane) !in acts
    ensures lane in After(v, acts, n).lanes && After(v, acts, n).lanes[lane] == v.lanes[lane]
  {
    if n == 0 {
    } else {
      MemoryIsKept(v, acts, n - 1, lane);
      assert acts[n - 1] in acts;
      LanesGrow(After(v, acts, n - 1), acts[n - 1], After(v, acts, n));
      LanesStep(After(v, acts, n - 1), acts[n - 1], After(v, acts, n), lane);
    }
  }

  /**
   Leaving a lane and coming back, whatever is done meanwhile elsewhere,
   brings back its shape — and not the visit.
   */
  lemma LaneRoundTrip(v: View, acts: seq<Action>, lane: string)
    requires Save(lane) !in acts && Worth(Base(v).layout)
    ensures var w := Restored(After(Saved(v, lane), acts, |acts|), lane);
      Shape(w.current, w.scene) == Base(v) && !w.visiting
  {
    MemoryIsKept(Saved(v, lane), acts, |acts|, lane);
  }

  // ----- presets in a circle -----

  predicate AtPreset(v: View, i: nat)
    requires i < |CYCLE|
  {
    v.scene == Some(CYCLE[i]) && CYCLE[i] in SCENES && v.current == SCENES[CYCLE[i]]
  }

  lemma NextPreset(v: View, i: nat, j: nat)
    requires i < 4 && j == (i + 1) % 4 && v.scene == Some(CYCLE[i])
    ensures AtPreset(Cycled(v, 1), j)
  {
    IndexIsFirst(CYCLE, v.scene, i);
  }

  lemma PreviousPreset(v: View, i: nat, j: nat)
    requires i < 4 && j < 4 && i == (j + 1) % 4 && v.scene == Some(CYCLE[i])
    ensures AtPreset(Cycled(v, -1), j)
  {
    IndexIsFirst(CYCLE, v.scene, i);
  }

  /** From a preset, going to the next and back again ends at the same preset. */
  lemma PreviousUndoesNext(v: View, i: nat, next: View)
    requires i < 4 && AtPreset(v, i) && next == Cycled(v, 1)
    ensures AtPreset(Cycled(next, -1), i)
  {
    NextPreset(v, i, (i + 1) % 4);
    PreviousPreset(next, (i + 1) % 4, i);
  }
}
