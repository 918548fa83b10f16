/**
 What a cut costs the hand-off (crates/vantage-point/src/midi_use.rs:31-49, devices.rs:814-843, 978-986): a call
 cut off while it waits for listener tasks leaves them to end on their own, and a later release does not wait for
 them either. For each of the three calls that can be cut off, the exact state in which that does harm.
 */
module MidiAborts {
  import opened Prelude
  import opened MidiAccess
  import opened MidiHandoff

  // ----- continuations -----

  predicate Passes(owner: Port -> string, w: World, step: Step, v: World, tidy: bool) {
    Follows(owner, w, step, v) && Clean(w, step) && (tidy ==> Tidy(w, step))
  }

  predicate Path(owner: Port -> string, states: seq<World>, steps: seq<Step>, tidy: bool) {
    |states| == |steps| + 1 && forall i | 0 <= i < |steps| :: Passes(owner, states[i], steps[i], states[i + 1], tidy)
  }

  /** Some continuation whose further cuts are all clean, or all tidy, leads from `w` to `v`. */
  ghost predicate Leads(owner: Port -> string, w: World, v: World, tidy: bool) {
    exists states: seq<World>, steps: seq<Step> ::
      Path(owner, states, steps, tidy) && states[0] == w && states[|steps|] == v
  }

  lemma Stays(owner: Port -> string, w: World, tidy: bool)
    ensures Leads(owner, w, w, tidy)
  {
    assert Path(owner, [w], [], tidy);
  }

  lemma Goes(owner: Port -> string, w: World, v: World, step: Step, tidy: bool) returns (u: World)
    requires Leads(owner, w, v, tidy) && Enabled(owner, v, step) && Clean(v, step) && (tidy ==> Tidy(v, step))
    ensures u == Next(owner, v, step) && Leads(owner, w, u, tidy)
  {
    u := Next(owner, v, step);
    LeadsOn(owner, w, v, step, u, tidy);
  }

  lemma LeadsOn(owner: Port -> string, w: World, v: World, step: Step, u: World, tidy: bool)
    requires Leads(owner, w, v, tidy) && Passes(owner, v, step, u, tidy)
    ensures Leads(owner, w, u, tidy)
  {
    var states: seq<World>, steps: seq<Step> :|
      Path(owner, states, steps, tidy) && states[0] == w && states[|steps|] == v;
    var states', steps' := states + [u], steps + [step];
    forall i | 0 <= i < |steps'| ensures Passes(owner, states'[i], steps'[i], states'[i + 1], tidy) {
      assert i < |steps| ==> states'[i] == states[i] && steps'[i] == steps[i] && states'[i + 1] == states[i + 1];
    }
    assert Path(owner, states', steps', tidy);
  }

  lemma Writes(owner: Port -> string, w: World, v: World) returns (u: World)
    requires Leads(owner, w, v, false) && WriterReady(v)
    ensures u == WriterStep(v) && Leads(owner, w, u, false)
  {
    u := Goes(owner, w, v, AdvanceWriter, false);
  }

  lemma {:induction false} PathKeepsInv(owner: Port -> string, states: seq<World>, steps: seq<Step>, n: nat, tidy: bool)
    requires Path(owner, states, steps, tidy) && n <= |steps| && Inv(owner, states[0], tidy)
    ensures Inv(owner, states[n], tidy)
  {
    if n == 0 {
    } else {
      PathKeepsInv(owner, states, steps, n - 1, tidy);
      assert Passes(owner, states[n - 1], steps[n - 1], states[n], tidy);
      StepKeepsInv(owner, states[n - 1], steps[n - 1], states[n], tidy);
    }
  }

  // ----- tasks that are waited for are in the map no more -----

  predicate Gone(listeners: map<Port, Tid>, tasks: Tasks, t: Tid) {
    t in tasks && !Mapped(listeners, tasks, t)
  }

  predicate CallsApart(calls: Calls, listeners: map<Port, Tid>, tasks: Tasks) {
    forall pid <- calls :: calls[pid].StopJoins? ==> Gone(listeners, tasks, calls[pid].task)
  }

  predicate WriterApart(writer: Writer, listeners: map<Port, Tid>, tasks: Tasks) {
    writer.ApplyJoins? || writer.ReleaseDrained? ==> forall t <- writer.tasks :: Gone(listeners, tasks, t)
  }

  predicate Apart(w: World) {
    CallsApart(w.calls, w.listeners, w.tasks) && WriterApart(w.writer, w.listeners, w.tasks)
  }

  /** What is out of the map stays out. */
  predicate NoReturn(w: World, v: World) {
    forall t <- w.tasks :: Gone(w.listeners, w.tasks, t) ==> Gone(v.listeners, v.tasks, t)
  }

  lemma ApartFramed(w: World, v: World)
    requires Apart(w) && NoReturn(w, v)
    requires forall pid <- v.calls :: v.calls[pid].StopJoins? ==> pid in w.calls && w.calls[pid] == v.calls[pid]
    requires v.writer == w.writer || (!v.writer.ApplyJoins? && !v.writer.ReleaseDrained?)
    ensures Apart(v)
  {
  }

  lemma SpawnedReturnsNone(w: World, pid: Pid, spawned: Tid, port: Port, grant: OwnedPorts)
    requires spawned !in w.tasks
    ensures NoReturn(w, Spawned(w, pid, spawned, port, grant))
  {
  }

  lemma ApartByEnsure(w: World, pid: Pid, spawned: Tid)
    requires Apart(w) && pid in w.calls && spawned !in w.tasks
    ensures Apart(EnsureStep(w, pid, spawned))
  {
    match w.calls[pid] {
      case EnsureResolved(port, grant) =>
        SpawnedReturnsNone(w, pid, spawned, port, grant);
        ApartFramed(w, EnsureStep(w, pid, spawned));
      case _ => ApartFramed(w, EnsureStep(w, pid, spawned));
    }
  }

  lemma ApartByDetaching(w: World, pid: Pid, port: Port)
    requires Apart(w) && Keyed(w.listeners, w.tasks) && pid in w.calls && port in w.listeners
    ensures Apart(Detached(w, pid, port))
  {
  }

  lemma ApartByStop(w: World, pid: Pid)
    requires Apart(w) && Keyed(w.listeners, w.tasks) && pid in w.calls
    ensures Apart(StopStep(w, pid))
  {
    match w.calls[pid] {
      case StopHolds(name) =>
        var port := Resolve(w.access, name, true);
        if port.Some? && port.value in w.listeners {
          ApartByDetaching(w, pid, port.value);
        } else {
          ApartFramed(w, StopStep(w, pid));
        }
      case _ => ApartFramed(w, StopStep(w, pid));
    }
  }

  lemma ApartByAborting(w: World, v: World, removed: set<Port>, aborted: set<Tid>)
    requires Apart(w) && Keyed(w.listeners, w.tasks) && v.calls == w.calls
    requires v.listeners == w.listeners - removed && v.tasks == Abort(w.tasks, aborted)
    requires (v.writer.ApplyJoins? || v.writer.ReleaseDrained?) && v.writer.tasks == aborted
    requires forall t <- aborted :: exists port <- removed :: port in w.listeners && w.listeners[port] == t
    ensures Apart(v)
  {
  }

  lemma ApartByWriter(w: World)
    requires Apart(w) && Keyed(w.listeners, w.tasks)
    ensures Apart(WriterStep(w))
  {
    match w.writer {
      case ApplyReplaced(prev, _) =>
        var swept := Swept(w, prev);
        forall t <- swept.Values ensures exists port <- swept.Keys :: port in w.listeners && w.listeners[port] == t {
          var port :| port in swept && swept[port] == t;
          assert port in swept.Keys;
        }
        ApartByAborting(w, WriterStep(w), swept.Keys, swept.Values);
      case ReleaseCleared(_) =>
        assert w.listeners - w.listeners.Keys == map[];
        ApartByAborting(w, WriterStep(w), w.listeners.Keys, w.listeners.Values);
      case _ => ApartFramed(w, WriterStep(w));
    }
  }

  lemma ApartByCall(w: World, pid: Pid, spawned: Tid, opens: bool)
    requires Apart(w) && Keyed(w.listeners, w.tasks) && pid in w.calls && spawned !in w.tasks
    ensures Apart(CallStep(w, pid, spawned, opens))
  {
    if Sending(w.calls[pid]) {
      ApartFramed(w, SendStep(w, pid, opens));
    } else if Stopping(w.calls[pid]) {
      ApartByStop(w, pid);
    } else {
      ApartByEnsure(w, pid, spawned);
    }
  }

  lemma ApartKept(owner: Port -> string, w: World, step: Step, v: World)
    requires Apart(w) && Keyed(w.listeners, w.tasks) && Follows(owner, w, step, v)
    ensures Apart(v)
  {
    match step {
      case Advance(pid, spawned, opens) => ApartByCall(w, pid, spawned, opens);
      case AdvanceWriter => ApartByWriter(w);
      case _ => ApartFramed(w, v);
    }
  }

  lemma {:induction false} AlwaysApart(owner: Port -> string, states: seq<World>, steps: seq<Step>, n: nat)
    requires CleanTrace(owner, states, steps) && n <= |steps|
    ensures Apart(states[n])
  {
    if n == 0 {
    } else {
      AlwaysApart(owner, states, steps, n - 1);
      TraceKeepsInv(owner, states, steps, n - 1, false);
      ApartKept(owner, states[n - 1], steps[n - 1], states[n]);
    }
  }

  // ----- a release that does not wait for an orphan -----

  /** A live task that is in no map, so that no release will put it down. */
  predicate Orphan(w: World, t: Tid) {
    Live(w.tasks, t) && !Mapped(w.listeners, w.tasks, t)
  }

  predicate Ready(w: World) {
    w.lock.None? && Keyed(w.listeners, w.tasks)
  }

  lemma FinishSends(owner: Port -> string, w: World, v: World, sends: set<Pid>) returns (u: World)
    requires Leads(owner, w, v, false) && forall pid <- sends :: pid in v.calls && Sending(v.calls[pid])
    requires forall pid <- v.calls :: Sending(v.calls[pid]) ==> pid in sends
    ensures Leads(owner, w, u, false) && u == v.(calls := u.calls) && forall pid <- u.calls :: !Sending(u.calls[pid])
    decreases sends
  {
    u := v;
    if sends != {} {
      var pid :| pid in sends;
      var next := Goes(owner, w, v, CutCall(pid), false);
      u := FinishSends(owner, w, next, sends - {pid});
    }
  }

  lemma EndAll(owner: Port -> string, w: World, v: World, tasks: set<Tid>, t: Tid) returns (u: World)
    requires Leads(owner, w, v, false) && t !in tasks && Live(v.tasks, t)
    requires forall other <- tasks :: other in v.tasks && v.tasks[other].aborted
    ensures Leads(owner, w, u, false) && u == v.(tasks := u.tasks) && Live(u.tasks, t) && SameTasks(v.tasks, u.tasks)
    ensures forall other <- tasks :: !Live(u.tasks, other)
    ensures forall other <- v.tasks :: !Live(v.tasks, other) ==> !Live(u.tasks, other)
    decreases tasks
  {
    u := v;
    if tasks != {} {
      var other :| other in tasks;
      if Live(v.tasks, other) {
        u := Goes(owner, w, v, End(other), false);
      }
      u := EndAll(owner, w, u, tasks - {other}, t);
    }
  }

  /** A release that has the map lock to itself takes the listeners and waits for them, but not for the orphan. */
  lemma Drains(owner: Port -> string, w: World, v: World, t: Tid) returns (u: World)
    requires Leads(owner, w, v, false) && v.writer.ReleaseCleared? && Ready(v) && Orphan(v, t)
    ensures Leads(owner, w, u, false) && Live(u.tasks, t) && SameTasks(v.tasks, u.tasks)
    ensures u == v.(writer := ReleaseOutputs, listeners := map[], tasks := u.tasks)
  {
    u := Writes(owner, w, v);
    assert t !in v.listeners.Values;
    u := EndAll(owner, w, u, v.listeners.Values, t);
    u := Writes(owner, w, u);
  }

  lemma OrphanOutlivesRelease(owner: Port -> string, w: World, v: World, t: Tid) returns (u: World)
    requires Leads(owner, w, v, false) && Unclaimed(v) && Ready(v) && Orphan(v, t)
    ensures Leads(owner, w, u, false) && u.writer.ReleaseOutputs? && Live(u.tasks, t)
  {
    u := Goes(owner, w, v, BeginRelease, false);
    u := Writes(owner, w, u);
    u := Writes(owner, w, u);
    u := Drains(owner, w, u, t);
  }

  // ----- an acknowledgement that does not wait for an orphan -----

  /** The service wants one device back, and this session has nothing else. */
  function WantsBack(device: string): Option<Snapshot> {
    Some(Snapshot("", [Device(device, Phase.Releasing, Some(LeaseInfo("", "")), [], [])]))
  }

  lemma WantedBack(owner: Port -> string, device: string, enabled: bool)
    ensures Plausible(owner, WantsBack(device))
    ensures Grants(WantsBack(device), enabled) == [] && Awaiting(WantsBack(device)) == {device}
  {
    var s := WantsBack(device).value;
    assert GrantsFrom(s, 1) == [];
    assert s.devices[0] in s.devices;
  }

  /** An application that has replaced the table sweeps and waits, but not for the orphan, and comes to its end. */
  lemma Joins(owner: Port -> string, w: World, v: World, t: Tid) returns (u: World)
    requires Leads(owner, w, v, false) && v.writer.ApplyReplaced? && Keyed(v.listeners, v.tasks) && Orphan(v, t)
    ensures Leads(owner, w, u, false) && Live(u.tasks, t) && SameTasks(v.tasks, u.tasks)
    ensures u == v.(writer := Idle, lock := None, listeners := u.listeners, tasks := u.tasks, outputs := u.outputs,
                    releasing := v.writer.releasing)
    ensures u.listeners == v.listeners - Swept(v, v.writer.prev).Keys
  {
    var swept := Swept(v, v.writer.prev);
    u := Writes(owner, w, v);
    assert t !in swept.Values;
    u := EndAll(owner, w, u, swept.Values, t);
    u := Writes(owner, w, u);
    u := Writes(owner, w, u);
  }

  lemma OrphanOutlivesAcknowledgement(owner: Port -> string, w: World, v: World, t: Tid) returns (u: World)
    requires Leads(owner, w, v, false) && Unclaimed(v) && Ready(v) && Orphan(v, t)
    ensures Leads(owner, w, u, false) && owner(v.tasks[t].port) in u.releasing
    ensures Live(u.tasks, t) && SameTasks(v.tasks, u.tasks)
  {
    var device := owner(v.tasks[t].port);
    WantedBack(owner, device, v.enabled);
    u := Goes(owner, w, v, BeginApply(WantsBack(device)), false);
    u := Writes(owner, w, u);
    u := Writes(owner, w, u);
    u := Joins(owner, w, u, t);
  }

  // ----- what was under way comes to its end, and the orphan stays -----

  lemma OrphanStays(v: World, u: World, t: Tid)
    requires Orphan(v, t) && Live(u.tasks, t) && SameTasks(v.tasks, u.tasks)
    requires forall port <- u.listeners :: port in v.listeners && u.listeners[port] == v.listeners[port]
    requires Keyed(v.listeners, v.tasks)
    ensures Orphan(u, t) && Keyed(u.listeners, u.tasks)
  {
  }

  lemma ReleaseEnds(owner: Port -> string, w: World, v: World, t: Tid) returns (u: World)
    requires Leads(owner, w, v, false) && v.writer.ReleaseCleared? && Ready(v) && Orphan(v, t)
    ensures Leads(owner, w, u, false) && Live(u.tasks, t) && SameTasks(v.tasks, u.tasks)
    ensures u == v.(writer := Idle, listeners := map[], tasks := u.tasks, outputs := {})
  {
    u := Drains(owner, w, v, t);
    u := Writes(owner, w, u);
  }

  lemma ApplyEnds(owner: Port -> string, w: World, v: World, t: Tid) returns (u: World)
    requires Leads(owner, w, v, false) && v.writer.ApplyWaits? && Ready(v) && Orphan(v, t)
    ensures Leads(owner, w, u, false) && Live(u.tasks, t) && SameTasks(v.tasks, u.tasks)
    ensures u.writer.Idle? && u.lock.None? && u.calls == v.calls
    ensures forall port <- u.listeners :: port in v.listeners && u.listeners[port] == v.listeners[port]
  {
    u := Writes(owner, w, v);
    u := Writes(owner, w, u);
    u := Joins(owner, w, u, t);
  }

  /** A release that has just begun comes to the point where it takes the listeners. */
  lemma ReleaseClears(owner: Port -> string, w: World, v: World) returns (u: World)
    requires Leads(owner, w, v, false) && (v.writer.ReleaseAsked? || v.writer.ReleaseOff? || v.writer.ReleaseCleared?)
    ensures Leads(owner, w, u, false) && u.writer.ReleaseCleared?
    ensures u == v.(writer := u.writer, enabled := u.enabled, access := u.access)
  {
    u := v;
    if u.writer.ReleaseAsked? {
      u := Writes(owner, w, u);
    }
    if u.writer.ReleaseOff? {
      u := Writes(owner, w, u);
    }
  }

  /** A writer that was waiting when the stop was cut off gets its way. */
  lemma ComesToRest(owner: Port -> string, w: World, v: World, t: Tid) returns (u: World)
    requires Leads(owner, w, v, false) && Ready(v) && Orphan(v, t)
    requires forall pid <- v.calls :: Sending(v.calls[pid]) ==> v.writer.Idle?
    requires !v.writer.ApplyHolds? && !v.writer.ApplyReplaced? && !v.writer.ApplyJoins?
    requires !v.writer.ReleaseDrained? && !v.writer.ReleaseOutputs?
    ensures Leads(owner, w, u, false) && Unclaimed(u) && Ready(u) && Orphan(u, t) && SameTasks(v.tasks, u.tasks)
  {
    match v.writer {
      case Idle => u := FinishSends(owner, w, v, set q <- v.calls | Sending(v.calls[q]));
      case ApplyWaits(_, _) => u := ApplyEnds(owner, w, v, t);
      case ApplyOutputs(_, _) => u := Writes(owner, w, v);
      case _ =>
        u := ReleaseClears(owner, w, v);
        u := ReleaseEnds(owner, w, u, t);
    }
    OrphanStays(v, u, t);
  }

  /** With everything switched off and the map empty, a call that holds the map lock gives it back. */
  lemma LockComesFree(owner: Port -> string, w: World, v: World, t: Tid) returns (u: World)
    requires Leads(owner, w, v, false) && Locked(v.calls, v.writer, v.lock) && v.writer.Idle?
    requires !v.enabled && v.access == [] && v.listeners == map[] && Live(v.tasks, t)
    requires forall pid <- v.calls ::
      !Sending(v.calls[pid]) && !v.calls[pid].EnsureResolved? && !v.calls[pid].StopJoins?
    ensures Leads(owner, w, u, false) && Unclaimed(u) && Ready(u) && Orphan(u, t) && SameTasks(v.tasks, u.tasks)
  {
    u := v;
    if v.lock.Some? {
      var pid := v.lock.value.pid;
      var spawned := Above(v.tasks.Keys);
      u := Goes(owner, w, v, Advance(pid, spawned, false), false);
    }
  }

  // ----- the exact conditions -----

  /** Every release that comes to its end after `w` leaves nothing held. */
  ghost predicate ReleasesEmpty(owner: Port -> string, w: World) {
    forall v :: Leads(owner, w, v, false) && v.writer.ReleaseOutputs? ==> Empty(WriterStep(v))
  }

  lemma SoundReleasesEmpty(owner: Port -> string, w: World)
    requires Inv(owner, w, false)
    ensures ReleasesEmpty(owner, w)
  {
    forall v | Leads(owner, w, v, false) && v.writer.ReleaseOutputs? ensures Empty(WriterStep(v)) {
      var states: seq<World>, steps: seq<Step> :|
        Path(owner, states, steps, false) && states[0] == w && states[|steps|] == v;
      PathKeepsInv(owner, states, steps, |steps|, false);
      ReleasedIsEmpty(owner, v);
    }
  }

  /** Every release acknowledged after `w` leaves the device clear. */
  ghost predicate AcknowledgesClear(owner: Port -> string, w: World) {
    forall v, device :: Leads(owner, w, v, false) && device in v.releasing ==> Clear(owner, v, device)
  }

  lemma ReleasingAlongPath(owner: Port -> string, states: seq<World>, steps: seq<Step>, n: nat, device: string)
    requires Path(owner, states, steps, false) && n < |steps| && Inv(owner, states[0], false)
    requires device in states[n + 1].releasing && (device in states[n].releasing ==> Clear(owner, states[n], device))
    ensures Clear(owner, states[n + 1], device)
  {
    PathKeepsInv(owner, states, steps, n, false);
    assert Passes(owner, states[n], steps[n], states[n + 1], false);
    ReleasingStepIsClear(owner, states[n], steps[n], states[n + 1], device);
  }

  lemma {:induction false} PathStaysClear(owner: Port -> string, states: seq<World>, steps: seq<Step>, n: nat,
      device: string)
    requires Path(owner, states, steps, false) && n <= |steps| && Inv(owner, states[0], false)
    requires device in states[n].releasing && (device in states[0].releasing ==> Clear(owner, states[0], device))
    ensures Clear(owner, states[n], device)
  {
    if n == 0 {
    } else {
      if device in states[n - 1].releasing {
        PathStaysClear(owner, states, steps, n - 1, device);
      }
      ReleasingAlongPath(owner, states, steps, n - 1, device);
    }
  }

  lemma SoundAcknowledgesClear(owner: Port -> string, w: World)
    requires Inv(owner, w, false) && forall device <- w.releasing :: Clear(owner, w, device)
    ensures AcknowledgesClear(owner, w)
  {
    forall v, device | Leads(owner, w, v, false) && device in v.releasing ensures Clear(owner, v, device) {
      var states: seq<World>, steps: seq<Step> :|
        Path(owner, states, steps, false) && states[0] == w && states[|steps|] == v;
      PathStaysClear(owner, states, steps, |steps|, device);
    }
  }

  /** Later releases and acknowledgements mean what they say. */
  ghost predicate KeepsItsWord(owner: Port -> string, w: World) {
    ReleasesEmpty(owner, w) && AcknowledgesClear(owner, w)
  }

  lemma CleanCutKeepsItsWord(owner: Port -> string, states: seq<World>, steps: seq<Step>, n: nat, cut: Step)
    requires CleanTrace(owner, states, steps) && n <= |steps|
    requires cut.CutApply? || cut.CutCall? || cut.CutRelease?
    requires Enabled(owner, states[n], cut) && Clean(states[n], cut)
    ensures KeepsItsWord(owner, Next(owner, states[n], cut))
  {
    var v := Next(owner, states[n], cut);
    TraceKeepsInv(owner, states, steps, n, false);
    StepKeepsInv(owner, states[n], cut, v, false);
    SoundReleasesEmpty(owner, v);
    forall device <- v.releasing ensures Clear(owner, v, device) {
      ReleasingIsClear(owner, states, steps, n, device);
      ClearKept(owner, states[n], cut, v, device);
    }
    SoundAcknowledgesClear(owner, v);
  }

  /** An orphan next to an idle writer breaks both. */
  lemma OrphanBreaksBoth(owner: Port -> string, w: World, v: World, t: Tid)
    requires Leads(owner, w, v, false) && Unclaimed(v) && Ready(v) && Orphan(v, t)
    ensures !ReleasesEmpty(owner, w) && !AcknowledgesClear(owner, w)
  {
    var u := OrphanOutlivesRelease(owner, w, v, t);
    assert !Empty(WriterStep(u)) by {
      assert WriterStep(u).tasks == u.tasks;
    }
    u := OrphanOutlivesAcknowledgement(owner, w, v, t);
    assert !TasksClear(owner, u.tasks, owner(v.tasks[t].port));
  }

  /**
   Aborting the session's task while it applies a snapshot is harmless, to later releases as to later
   acknowledgements, exactly when no task it waits for is alive.
   */
  lemma CutApplyIsHarmlessExactlyWhen(owner: Port -> string, states: seq<World>, steps: seq<Step>, n: nat)
    requires CleanTrace(owner, states, steps) && n <= |steps| && Enabled(owner, states[n], CutApply)
    ensures var w, v := states[n], Next(owner, states[n], CutApply);
      var harmless := w.writer.ApplyJoins? ==> forall t <- w.writer.tasks :: !Live(w.tasks, t);
      (ReleasesEmpty(owner, v) <==> harmless) && (AcknowledgesClear(owner, v) <==> harmless)
  {
    var w := states[n];
    var v := Next(owner, w, CutApply);
    TraceKeepsInv(owner, states, steps, n, false);
    AlwaysApart(owner, states, steps, n);
    if Clean(w, CutApply) {
      CleanCutKeepsItsWord(owner, states, steps, n, CutApply);
    } else {
      var t :| t in w.writer.tasks && Live(w.tasks, t);
      Stays(owner, v, false);
      OrphanBreaksBoth(owner, v, v, t);
    }
  }

  /**
   Aborting a stop of a listener is harmless exactly when its task is over, whatever is being applied or
   released, or waits behind the stop, at that moment.
   */
  lemma CutStopIsHarmlessExactlyWhen(owner: Port -> string, states: seq<World>, steps: seq<Step>, n: nat, pid: Pid)
    requires CleanTrace(owner, states, steps) && n <= |steps|
    requires pid in states[n].calls && states[n].calls[pid].StopJoins?
    ensures var v, harmless := Next(owner, states[n], CutCall(pid)), !Live(states[n].tasks, states[n].calls[pid].task);
      (ReleasesEmpty(owner, v) <==> harmless) && (AcknowledgesClear(owner, v) <==> harmless)
  {
    var w := states[n];
    var v := Next(owner, w, CutCall(pid));
    TraceKeepsInv(owner, states, steps, n, false);
    AlwaysApart(owner, states, steps, n);
    if Clean(w, CutCall(pid)) {
      CleanCutKeepsItsWord(owner, states, steps, n, CutCall(pid));
    } else {
      Stays(owner, v, false);
      var u := ComesToRest(owner, v, v, w.calls[pid].task);
      OrphanBreaksBoth(owner, v, u, w.calls[pid].task);
    }
  }

  /**
   Cutting off a release — the switch-off, or the one at shutdown — is harmless to later releases and
   acknowledgements exactly when no task it waits for is alive; what it left in the map the next one takes.
   */
  lemma CutReleaseIsHarmlessExactlyWhen(owner: Port -> string, states: seq<World>, steps: seq<Step>, n: nat)
    requires CleanTrace(owner, states, steps) && n <= |steps| && Enabled(owner, states[n], CutRelease)
    ensures var w, v := states[n], Next(owner, states[n], CutRelease);
      var harmless := w.writer.ReleaseDrained? ==> forall t <- w.writer.tasks :: !Live(w.tasks, t);
      (ReleasesEmpty(owner, v) <==> harmless) && (AcknowledgesClear(owner, v) <==> harmless)
  {
    var w := states[n];
    var v := Next(owner, w, CutRelease);
    TraceKeepsInv(owner, states, steps, n, false);
    if Clean(w, CutRelease) {
      CleanCutKeepsItsWord(owner, states, steps, n, CutRelease);
    } else {
      var t :| t in w.writer.tasks && Live(w.tasks, t);
      Stays(owner, v, false);
      var u := LockComesFree(owner, v, v, t);
      OrphanBreaksBoth(owner, v, u, t);
    }
  }

  // ----- grants after a cut release -----

  /** Outside a hand-over, every listener that lives on any tidy continuation lives on a grant of the table. */
  ghost predicate GrantsHold(owner: Port -> string, w: World) {
    forall v, t :: Leads(owner, w, v, true) && !HandingOver(v) && Live(v.tasks, t) ==> Backed(v.access, v.tasks[t])
  }

  lemma SoundGrantsHold(owner: Port -> string, w: World)
    requires Inv(owner, w, true)
    ensures GrantsHold(owner, w)
  {
    forall v, t | Leads(owner, w, v, true) && !HandingOver(v) && Live(v.tasks, t) ensures Backed(v.access, v.tasks[t]) {
      var states: seq<World>, steps: seq<Step> :|
        Path(owner, states, steps, true) && states[0] == w && states[|steps|] == v;
      PathKeepsInv(owner, states, steps, |steps|, true);
    }
  }

  /** A start that was resolved before the cut puts up a listener without a grant. */
  lemma StartBreaksGrants(owner: Port -> string, w: World, pid: Pid)
    requires w.writer.Idle? && w.access == [] && pid in w.calls && w.calls[pid].EnsureResolved?
    requires forall t <- w.tasks :: !Live(w.tasks, t)
    ensures !GrantsHold(owner, w)
  {
    Stays(owner, w, true);
    var spawned := Above(w.tasks.Keys);
    var v := Goes(owner, w, w, Advance(pid, spawned, false), true);
    assert Live(v.tasks, spawned);
  }

  /**
   After a run with tidy cuts, cutting off a release leaves every later listener on a grant exactly when it had
   waited for all it took, or, cut off before it took them, found no listener alive and none about to start.
   */
  lemma CutReleaseKeepsGrantsExactlyWhen(owner: Port -> string, states: seq<World>, steps: seq<Step>, n: nat)
    requires TidyTrace(owner, states, steps) && n <= |steps| && Enabled(owner, states[n], CutRelease)
    ensures GrantsHold(owner, Next(owner, states[n], CutRelease)) <==> Tidy(states[n], CutRelease)
  {
    var w := states[n];
    var v := Next(owner, w, CutRelease);
    TraceKeepsInv(owner, states, steps, n, true);
    if Tidy(w, CutRelease) {
      StepKeepsInv(owner, w, CutRelease, v, true);
      SoundGrantsHold(owner, v);
    } else if t: Tid :| Live(v.tasks, t) {
      Stays(owner, v, true);
      assert !Backed(v.access, v.tasks[t]);
    } else {
      var pid :| pid in w.calls && w.calls[pid].EnsureResolved?;
      StartBreaksGrants(owner, v, pid);
    }
  }
}
