/**
 What each call of the hand-off brings about when it gets its way (crates/vantage-point/src/devices.rs:320-369,
 405-445, 643-681, 814-843, 987-1057): a start starts, a listener opens, a stop stops, a send opens its output, an
 applied snapshot is the table from then on, and a release lets go of everything.
 */
module MidiProgress {
  import opened Prelude
  import opened MidiAccess
  import opened MidiHandoff

  /** The step is one of the call's own, or of the writer's, or the end of a task. */
  predicate Own(step: Step, actor: Holder) {
    || step.End?
    || match actor
       case ByCall(pid) => step.Advance? && step.pid == pid
       case ByWriter => step.BeginApply? || step.BeginRelease? || step.AdvanceWriter?
  }

  ghost predicate Segment(owner: Port -> string, states: seq<World>, steps: seq<Step>, actor: Holder) {
    && |states| == |steps| + 1
    && (forall i | 0 <= i < |steps| :: Follows(owner, states[i], steps[i], states[i + 1]))
    && (forall step <- steps :: Own(step, actor))
  }

  /** The actor's own steps, and ends of tasks, lead from `w` to `v`. */
  ghost predicate ByItself(owner: Port -> string, w: World, v: World, actor: Holder) {
    exists states: seq<World>, steps: seq<Step> ::
      Segment(owner, states, steps, actor) && states[0] == w && states[|steps|] == v
  }

  lemma Rests(owner: Port -> string, w: World, actor: Holder)
    ensures ByItself(owner, w, w, actor)
  {
    assert Segment(owner, [w], [], actor);
  }

  lemma Proceeds(owner: Port -> string, w: World, v: World, step: Step, u: World, actor: Holder)
    requires ByItself(owner, w, v, actor) && Follows(owner, v, step, u) && Own(step, actor)
    ensures ByItself(owner, w, u, actor)
  {
    var states: seq<World>, steps: seq<Step> :|
      Segment(owner, states, steps, actor) && states[0] == w && states[|steps|] == v;
    var states', steps' := states + [u], steps + [step];
    forall i | 0 <= i < |steps'| ensures Follows(owner, states'[i], steps'[i], states'[i + 1]) {
      assert i < |steps| ==> states'[i] == states[i] && steps'[i] == steps[i] && states'[i + 1] == states[i + 1];
    }
    assert Segment(owner, states', steps', actor);
  }

  lemma Acts(owner: Port -> string, w: World, v: World, pid: Pid, spawned: Tid, opens: bool) returns (u: World)
    requires ByItself(owner, w, v, ByCall(pid)) && pid in v.calls && spawned !in v.tasks && CallReady(v, v.calls[pid])
    ensures ByItself(owner, w, u, ByCall(pid)) && u == CallStep(v, pid, spawned, opens)
  {
    u := CallStep(v, pid, spawned, opens);
    Proceeds(owner, w, v, Advance(pid, spawned, opens), u, ByCall(pid));
  }

  // ----- ensure_input_listener -----

  lemma Overwritten(calls: Calls, pid: Pid, a: Call, b: Call)
    ensures calls[pid := a][pid := b] == calls[pid := b] && calls[pid := a] - {pid} == calls - {pid}
  {
  }

  /** With the switch on and the map lock free, a start comes to hold the lock and to look at the table. */
  lemma StartLocks(owner: Port -> string, w: World, pid: Pid, spawned: Tid, name: string) returns (v: World)
    requires w.enabled && w.lock.None? && spawned !in w.tasks && pid in w.calls && w.calls[pid] == EnsureAsked(name)
    ensures ByItself(owner, w, v, ByCall(pid))
    ensures v == w.(calls := w.calls[pid := EnsureOn(name)], lock := Some(ByCall(pid)))
  {
    Rests(owner, w, ByCall(pid));
    v := Acts(owner, w, w, pid, spawned, false);
    Overwritten(w.calls, pid, EnsureWaits(name), EnsureHolds(name));
    v := Acts(owner, w, v, pid, spawned, false);
    assert v == w.(calls := w.calls[pid := EnsureHolds(name)], lock := Some(ByCall(pid)));
    Overwritten(w.calls, pid, EnsureHolds(name), EnsureOn(name));
    v := Acts(owner, w, v, pid, spawned, false);
  }

  /** With a granted port that answers, it then comes to hold that port. */
  lemma StartResolves(owner: Port -> string, w: World, pid: Pid, spawned: Tid, name: string, port: Port)
    returns (v: World)
    requires w.enabled && w.lock.None? && spawned !in w.tasks && Resolve(w.access, name, true) == Some(port)
    requires pid in w.calls && w.calls[pid] == EnsureAsked(name)
    ensures ByItself(owner, w, v, ByCall(pid)) && pid in v.calls
    ensures v == w.(calls := w.calls[pid := v.calls[pid]], lock := Some(ByCall(pid)))
    ensures v.calls[pid].EnsureResolved? && v.calls[pid].port == port
    ensures v.calls[pid].grant in w.access && port in v.calls[pid].grant.inputs
  {
    v := StartLocks(owner, w, pid, spawned, name);
    var grant := EntryOf(w.access, port);
    Overwritten(w.calls, pid, EnsureOn(name), EnsureResolved(port, grant));
    v := Acts(owner, w, v, pid, spawned, false);
  }

  /** A live listener on the port is left alone; otherwise there is a new one, in the map, with a grant of the port. */
  predicate Started(w: World, v: World, pid: Pid, spawned: Tid, port: Port) {
    && port in v.listeners && Live(v.tasks, v.listeners[port]) && v.tasks[v.listeners[port]].port == port
    && if port in w.listeners && Live(w.tasks, w.listeners[port])
       then v == w.(calls := w.calls - {pid})
       else
         && spawned in v.tasks && v.tasks[spawned] == Listener(port, v.tasks[spawned].grant, Checking, false)
         && v.tasks[spawned].grant in w.access && port in v.tasks[spawned].grant.inputs
         && v == w.(calls := w.calls - {pid}, listeners := w.listeners[port := spawned],
                    tasks := w.tasks[spawned := v.tasks[spawned]])
  }

  /** So it ends with a live listener on that port in the map, and with nothing else changed. */
  lemma StartStarts(owner: Port -> string, w: World, pid: Pid, spawned: Tid, name: string, port: Port)
    returns (v: World)
    requires Keyed(w.listeners, w.tasks) && w.enabled && w.lock.None? && spawned !in w.tasks
    requires pid in w.calls && w.calls[pid] == EnsureAsked(name) && Resolve(w.access, name, true) == Some(port)
    ensures ByItself(owner, w, v, ByCall(pid)) && Started(w, v, pid, spawned, port)
  {
    var u := StartResolves(owner, w, pid, spawned, name, port);
    v := Acts(owner, w, u, pid, spawned, false);
    Overwritten(w.calls, pid, u.calls[pid], u.calls[pid]);
  }

  /** Without a granted port that answers, or with the switch off, a start ends with nothing changed at all. */
  lemma StartIsRefused(owner: Port -> string, w: World, pid: Pid, spawned: Tid, name: string) returns (v: World)
    requires w.lock.None? && spawned !in w.tasks && pid in w.calls && w.calls[pid] == EnsureAsked(name)
    requires !w.enabled || Resolve(w.access, name, true).None?
    ensures ByItself(owner, w, v, ByCall(pid)) && v == w.(calls := w.calls - {pid})
  {
    if w.enabled {
      v := StartLocks(owner, w, pid, spawned, name);
      v := Acts(owner, w, v, pid, spawned, false);
      Overwritten(w.calls, pid, EnsureOn(name), EnsureOn(name));
    } else {
      Rests(owner, w, ByCall(pid));
      v := Acts(owner, w, w, pid, spawned, false);
    }
  }

  // ----- the listener task -----

  lemma ChecksSwitch(owner: Port -> string, w: World, task: Tid)
    requires Has(w.tasks, task, Checking)
    ensures Follows(owner, w, CheckSwitch(task),
      w.(tasks := w.tasks[task := w.tasks[task].(life := if w.enabled then SwitchedOn else Over)]))
  {
  }

  lemma ChecksTable(owner: Port -> string, w: World, task: Tid)
    requires Has(w.tasks, task, SwitchedOn)
    ensures var permitted := exists p <- w.access :: w.tasks[task].port in p.inputs;
      Follows(owner, w, CheckTable(task),
        w.(tasks := w.tasks[task := w.tasks[task].(life := if permitted then Allowed else Over)]))
  {
  }

  lemma TriesPort(owner: Port -> string, w: World, task: Tid)
    requires Has(w.tasks, task, Allowed)
    ensures Follows(owner, w, TryOpen(task, Open), w.(tasks := w.tasks[task := w.tasks[task].(life := Open)]))
  {
  }

  /** A fresh listener with the switch on and its port granted passes both checks and comes to hold the port. */
  lemma ListenerOpens(owner: Port -> string, w: World, task: Tid) returns (a: World, b: World, c: World)
    requires Has(w.tasks, task, Checking) && w.enabled && exists p <- w.access :: w.tasks[task].port in p.inputs
    ensures Follows(owner, w, CheckSwitch(task), a) && Follows(owner, a, CheckTable(task), b)
    ensures Follows(owner, b, TryOpen(task, Open), c)
    ensures c == w.(tasks := w.tasks[task := w.tasks[task].(life := Open)])
  {
    var l := w.tasks[task];
    a := w.(tasks := w.tasks[task := l.(life := SwitchedOn)]);
    b := w.(tasks := w.tasks[task := l.(life := Allowed)]);
    c := w.(tasks := w.tasks[task := l.(life := Open)]);
    ChecksSwitch(owner, w, task);
    ChecksTable(owner, a, task);
    assert a.tasks[task := l.(life := Allowed)] == b.tasks;
    TriesPort(owner, b, task);
    assert b.tasks[task := l.(life := Open)] == c.tasks;
  }

  // ----- stop_input_listener -----

  /** With the map lock free, a stop takes the listener of the answering port out of the map and aborts it. */
  lemma StopDetaches(owner: Port -> string, w: World, pid: Pid, spawned: Tid, name: string, port: Port)
    returns (v: World)
    requires w.lock.None? && spawned !in w.tasks && port in w.listeners
    requires pid in w.calls && w.calls[pid] == StopWaits(name) && Resolve(w.access, name, true) == Some(port)
    ensures ByItself(owner, w, v, ByCall(pid))
    ensures v == w.(calls := w.calls[pid := StopJoins(w.listeners[port])], lock := Some(ByCall(pid)),
                    listeners := w.listeners - {port}, tasks := Abort(w.tasks, {w.listeners[port]}))
  {
    Rests(owner, w, ByCall(pid));
    Overwritten(w.calls, pid, StopHolds(name), StopJoins(w.listeners[port]));
    v := Acts(owner, w, w, pid, spawned, false);
    v := Acts(owner, w, v, pid, spawned, false);
  }

  /** It then sees the end of that listener's task, and gives the lock back; nothing else has changed. */
  lemma StopStops(owner: Port -> string, w: World, pid: Pid, spawned: Tid, name: string, port: Port) returns (v: World)
    requires w.lock.None? && spawned !in w.tasks && Keyed(w.listeners, w.tasks) && port in w.listeners
    requires pid in w.calls && w.calls[pid] == StopWaits(name) && Resolve(w.access, name, true) == Some(port)
    ensures ByItself(owner, w, v, ByCall(pid)) && !Live(v.tasks, w.listeners[port])
    ensures v == w.(calls := w.calls - {pid}, listeners := w.listeners - {port}, tasks := v.tasks)
    ensures v.tasks.Keys == w.tasks.Keys && forall t <- w.tasks :: t != w.listeners[port] ==> v.tasks[t] == w.tasks[t]
  {
    var task := w.listeners[port];
    v := StopDetaches(owner, w, pid, spawned, name, port);
    if Live(v.tasks, task) {
      var u := Relived(v, task, Over);
      Proceeds(owner, w, v, End(task), u, ByCall(pid));
      v := u;
    }
    v := Acts(owner, w, v, pid, spawned, false);
    Overwritten(w.calls, pid, StopJoins(task), StopJoins(task));
  }

  /** Without a listener on the answering port, or without such a port, a stop changes nothing at all. */
  lemma StopFindsNothing(owner: Port -> string, w: World, pid: Pid, spawned: Tid, name: string) returns (v: World)
    requires w.lock.None? && spawned !in w.tasks && pid in w.calls && w.calls[pid] == StopWaits(name)
    requires var port := Resolve(w.access, name, true); port.None? || port.value !in w.listeners
    ensures ByItself(owner, w, v, ByCall(pid)) && v == w.(calls := w.calls - {pid})
  {
    Rests(owner, w, ByCall(pid));
    v := Acts(owner, w, w, pid, spawned, false);
    v := Acts(owner, w, v, pid, spawned, false);
    Overwritten(w.calls, pid, StopHolds(name), StopHolds(name));
  }

  // ----- send_output -----

  /** A send to an answering granted port opens it, or drops it if that fails; without one it touches nothing. */
  lemma SendSends(owner: Port -> string, w: World, pid: Pid, spawned: Tid, opens: bool, name: string)
    returns (v: World)
    requires pid in w.calls && w.calls[pid] == SendAsked(name) && spawned !in w.tasks
    ensures ByItself(owner, w, v, ByCall(pid)) && v == w.(calls := w.calls - {pid}, outputs := v.outputs)
    ensures match Resolve(w.access, name, false)
      case None => v.outputs == w.outputs
      case Some(port) => v.outputs == if opens then w.outputs + {port} else w.outputs - {port}
  {
    Rests(owner, w, ByCall(pid));
    v := Acts(owner, w, w, pid, spawned, opens);
    var port := Resolve(w.access, name, false);
    if port.Some? {
      Overwritten(w.calls, pid, SendResolved(port.value), SendResolved(port.value));
      v := Acts(owner, w, v, pid, spawned, opens);
    }
  }

  // ----- apply_midi_snapshot and release_fleet -----

  lemma Writes(owner: Port -> string, w: World, v: World) returns (u: World)
    requires ByItself(owner, w, v, ByWriter) && WriterReady(v)
    ensures ByItself(owner, w, u, ByWriter) && u == WriterStep(v)
  {
    u := WriterStep(v);
    Proceeds(owner, w, v, AdvanceWriter, u, ByWriter);
  }

  /** The aborted tasks come to their end, and no other one changes. */
  lemma TasksEnd(owner: Port -> string, w: World, v: World, tasks: set<Tid>) returns (u: World)
    requires ByItself(owner, w, v, ByWriter) && forall t <- tasks :: t in v.tasks && v.tasks[t].aborted
    ensures ByItself(owner, w, u, ByWriter) && u == v.(tasks := u.tasks) && u.tasks.Keys == v.tasks.Keys
    ensures forall t <- v.tasks :: if t in tasks then !Live(u.tasks, t) else u.tasks[t] == v.tasks[t]
    decreases tasks
  {
    u := v;
    if tasks != {} {
      var t :| t in tasks;
      if Live(v.tasks, t) {
        u := Relived(v, t, Over);
        Proceeds(owner, w, v, End(t), u, ByWriter);
      }
      u := TasksEnd(owner, w, u, tasks - {t});
    }
  }

  /** The application takes the map lock and replaces the table. */
  lemma ApplyReplaces(owner: Port -> string, w: World, s: Option<Snapshot>) returns (v: World)
    requires Unclaimed(w) && w.lock.None? && Plausible(owner, s)
    ensures ByItself(owner, w, v, ByWriter)
    ensures v == w.(writer := ApplyReplaced(w.access, Awaiting(s)), lock := Some(ByWriter), releasing := {},
                    access := Grants(s, w.enabled))
  {
    Rests(owner, w, ByWriter);
    v := w.(writer := ApplyWaits(Grants(s, w.enabled), Awaiting(s)), releasing := {});
    Proceeds(owner, w, w, BeginApply(s), v, ByWriter);
    v := Writes(owner, w, v);
    v := Writes(owner, w, v);
  }

  /** The port was revoked with its device's old grant, or is not granted any more. */
  predicate Lost(prev: Table, next: Table, input: bool, port: Port) {
    || (exists p <- prev :: p in prev && (exists q <- prev :: q.device == p.device && q !in next)
          && (port in p.inputs || port in p.outputs))
    || !(exists p <- next :: port in if input then p.inputs else p.outputs)
  }

  lemma LostIsSwept(prev: Table, next: Table, input: bool, port: Port)
    ensures Lost(prev, next, input, port) <==> Revoked(prev, next, port) || !Permits(next, input, port)
  {
    if Revoked(prev, next, port) {
      var p :| p in prev && p.device in Released(prev, next) && (port in p.inputs || port in p.outputs);
      var q :| q in prev && q !in next && q.device == p.device;
    }
  }

  /** The listeners and outputs after an application, in terms of the tables before and after. */
  ghost predicate Kept(w: World, v: World) {
    && (forall port :: port in v.listeners <==> port in w.listeners && !Lost(w.access, v.access, true, port))
    && (forall port <- v.listeners :: v.listeners[port] == w.listeners[port])
    && (forall o :: o in v.outputs <==> o in w.outputs && !Lost(w.access, v.access, false, o))
    && v.tasks.Keys == w.tasks.Keys
    && (forall port <- w.listeners :: port !in v.listeners ==> !Live(v.tasks, w.listeners[port]))
    && (forall t <- w.tasks ::
          (forall port <- w.listeners :: w.listeners[port] == t ==> port in v.listeners) ==> v.tasks[t] == w.tasks[t])
  }

  /**
   With the registry and the map lock free, an application makes the snapshot's grants the table, keeps exactly the
   listeners and outputs whose port has not been lost, has seen every other listener end, and lets the session
   acknowledge exactly what the service is waiting for.
   */
  lemma ApplicationTakesEffect(owner: Port -> string, w: World, s: Option<Snapshot>) returns (v: World)
    requires Unclaimed(w) && w.lock.None? && Keyed(w.listeners, w.tasks) && Plausible(owner, s)
    ensures ByItself(owner, w, v, ByWriter) && Kept(w, v)
    ensures v == w.(access := Grants(s, w.enabled), releasing := Awaiting(s),
                    listeners := v.listeners, tasks := v.tasks, outputs := v.outputs)
  {
    var u := ApplyReplaces(owner, w, s);
    var swept := Swept(u, w.access);
    v := Writes(owner, w, u);
    v := TasksEnd(owner, w, v, swept.Values);
    v := Writes(owner, w, v);
    v := Writes(owner, w, v);
    SweepKeeps(w, u, v);
  }

  lemma SweepKeeps(w: World, u: World, v: World)
    requires u.listeners == w.listeners && u.tasks == w.tasks && u.access == v.access
    requires Keyed(w.listeners, w.tasks) && v.tasks.Keys == w.tasks.Keys
    requires var swept := Swept(u, w.access);
      && v.listeners == w.listeners - swept.Keys
      && forall t <- w.tasks :: if t in swept.Values then !Live(v.tasks, t) else v.tasks[t] == w.tasks[t]
    requires v.outputs == set o <- w.outputs | !Revoked(w.access, v.access, o) && Permits(v.access, false, o)
    ensures Kept(w, v)
  {
    var swept := Swept(u, w.access);
    forall port ensures port in v.listeners <==> port in w.listeners && !Lost(w.access, v.access, true, port) {
      LostIsSwept(w.access, v.access, true, port);
    }
    forall o ensures o in v.outputs <==> o in w.outputs && !Lost(w.access, v.access, false, o) {
      LostIsSwept(w.access, v.access, false, o);
    }
    forall port <- w.listeners | port !in v.listeners ensures !Live(v.tasks, w.listeners[port]) {
      assert swept[port] == w.listeners[port];
    }
    forall t <- w.tasks | forall port <- w.listeners :: w.listeners[port] == t ==> port in v.listeners
      ensures v.tasks[t] == w.tasks[t]
    {
    }
  }

  /** A release with the map lock free turns the switch off and lets go of every grant, listener and output. */
  lemma ReleaseTakesEffect(owner: Port -> string, w: World) returns (v: World)
    requires Unclaimed(w) && w.lock.None? && Keyed(w.listeners, w.tasks)
    ensures ByItself(owner, w, v, ByWriter)
    ensures v == w.(enabled := false, access := [], listeners := map[], outputs := {}, tasks := v.tasks)
    ensures v.tasks.Keys == w.tasks.Keys
    ensures forall t <- w.tasks :: if t in w.listeners.Values then !Live(v.tasks, t) else v.tasks[t] == w.tasks[t]
  {
    Rests(owner, w, ByWriter);
    v := w.(writer := ReleaseAsked);
    Proceeds(owner, w, w, BeginRelease, v, ByWriter);
    v := Writes(owner, w, v);
    v := Writes(owner, w, v);
    assert v == w.(writer := ReleaseCleared(w.access), enabled := false, access := []);
    v := Writes(owner, w, v);
    v := ReleaseEnds(owner, w, v, w.listeners.Values);
  }

  lemma ReleaseEnds(owner: Port -> string, w: World, v: World, tasks: set<Tid>) returns (u: World)
    requires ByItself(owner, w, v, ByWriter) && v.writer == ReleaseDrained(tasks)
    requires forall t <- tasks :: t in v.tasks && v.tasks[t].aborted
    ensures ByItself(owner, w, u, ByWriter) && u == v.(writer := Idle, outputs := {}, tasks := u.tasks)
    ensures u.tasks.Keys == v.tasks.Keys
    ensures forall t <- v.tasks :: if t in tasks then !Live(u.tasks, t) else u.tasks[t] == v.tasks[t]
  {
    u := TasksEnd(owner, w, v, tasks);
    u := Writes(owner, w, u);
    u := Writes(owner, w, u);
  }

  /** Turned on, the fleet may be granted ports and start listeners again; nothing else changes. */
  lemma SwitchTurnsOn(owner: Port -> string, w: World)
    requires Unclaimed(w)
    ensures Enabled(owner, w, SwitchOn) && Next(owner, w, SwitchOn).enabled
    ensures Next(owner, w, SwitchOn) == w.(enabled := Next(owner, w, SwitchOn).enabled)
  {
  }

  // ----- the last applied snapshot, over runs -----

  /** The application of a snapshot is under way, and has replaced the table or will. */
  predicate Underway(w: World, table: Table, awaiting: set<string>) {
    match w.writer
    case ApplyWaits(next, releasing) => next == table && releasing == awaiting
    case ApplyHolds(next, releasing) => next == table && releasing == awaiting
    case ApplyReplaced(_, releasing) => w.access == table && releasing == awaiting
    case ApplyJoins(_, releasing, _) => w.access == table && releasing == awaiting
    case ApplyOutputs(_, releasing) => w.access == table && releasing == awaiting
    case _ => false
  }

  lemma StaysUnderway(owner: Port -> string, w: World, step: Step, v: World, table: Table, awaiting: set<string>)
    requires Underway(w, table, awaiting) && Follows(owner, w, step, v) && !v.writer.Idle?
    ensures Underway(v, table, awaiting)
  {
    match step {
      case Advance(pid, spawned, opens) => CallKeepsTables(w, pid, spawned, opens);
      case AdvanceWriter => UnderwayByWriter(w, table, awaiting);
      case _ =>
    }
  }

  lemma UnderwayByWriter(w: World, table: Table, awaiting: set<string>)
    requires Underway(w, table, awaiting) && !WriterStep(w).writer.Idle?
    ensures Underway(WriterStep(w), table, awaiting)
  {
  }

  lemma {:induction false} RemainsUnderway(owner: Port -> string, states: seq<World>, steps: seq<Step>, i: nat, j: nat)
    requires Trace(owner, states, steps) && i < j <= |steps| && steps[i].BeginApply?
    requires forall m | i < m <= j :: !states[m].writer.Idle?
    ensures Underway(states[j], Grants(steps[i].snapshot, states[i].enabled), Awaiting(steps[i].snapshot))
    decreases j
  {
    assert Follows(owner, states[j - 1], steps[j - 1], states[j]);
    if i == j - 1 {
    } else {
      RemainsUnderway(owner, states, steps, i, j - 1);
      StaysUnderway(owner, states[j - 1], steps[j - 1], states[j],
                    Grants(steps[i].snapshot, states[i].enabled), Awaiting(steps[i].snapshot));
    }
  }

  /** The application begun at `i` comes to its end at `j`. */
  predicate Applies(states: seq<World>, steps: seq<Step>, i: nat, j: nat)
    requires i < j < |steps| && |states| == |steps| + 1
  {
    && steps[i].BeginApply? && steps[j].AdvanceWriter? && states[j].writer.ApplyOutputs?
    && forall m | i < m <= j :: !states[m].writer.Idle?
  }

  lemma ForeignDeviceHasNoGrant(owner: Port -> string, s: Snapshot, d: Device, enabled: bool)
    requires Plausible(owner, Some(s)) && d in s.devices
    requires !(d.phase == Active && d.lease.Some? && d.lease.value.session == s.session)
    ensures d.id !in Devices(Grants(Some(s), enabled))
  {
    if enabled {
      forall p | p in Grants(Some(s), true) ensures p.device != d.id {
        GrantsAreThisSessions(s, p);
        var e :| e in s.devices && e.phase == Active && e.lease.Some? && e.lease.value.session == s.session
          && p == OwnedPorts(e.id, e.lease.value.token, e.inputs, e.outputs);
        var k, l :| 0 <= k < |s.devices| && s.devices[k] == d && 0 <= l < |s.devices| && s.devices[l] == e;
        assert k < l || l < k;
      }
    }
  }

  /**
   From the end of an application until the next one begins, no live listener and no open output is on a port of a
   device that the snapshot does not show active on a lease of this very session.
   */
  lemma OnlyThisSessionsPorts(owner: Port -> string, states: seq<World>, steps: seq<Step>, i: nat, j: nat, k: nat,
      s: Snapshot, d: Device, port: Port)
    requires CleanTrace(owner, states, steps) && i < j < k <= |steps| && Applies(states, steps, i, j)
    requires steps[i].snapshot == Some(s) && (forall m | j < m < k :: !steps[m].BeginApply?)
    requires d in s.devices && !(d.phase == Active && d.lease.Some? && d.lease.value.session == s.session)
    requires port in d.inputs || port in d.outputs
    ensures port !in states[k].outputs
    ensures forall t <- states[k].tasks :: states[k].tasks[t].port == port ==> states[k].tasks[t].life == Over
  {
    assert Follows(owner, states[i], steps[i], states[i + 1]) && Follows(owner, states[j], steps[j], states[j + 1]);
    assert owner(port) == d.id by {
      assert Named(owner, [GrantOf(d)]);
      assert GrantOf(d) in [GrantOf(d)];
    }
    RemainsUnderway(owner, states, steps, i, j);
    ForeignDeviceHasNoGrant(owner, s, d, states[i].enabled);
    TraceKeepsInv(owner, states, steps, j, false);
    AppliedIsClear(owner, states[j], d.id);
    ClearLasts(owner, states, steps, j + 1, k, d.id);
  }

  /** And with the application's end the session may acknowledge exactly what the snapshot shows releasing. */
  lemma AppliedSnapshotIsInForce(owner: Port -> string, states: seq<World>, steps: seq<Step>, i: nat, j: nat,
      s: Snapshot)
    requires Trace(owner, states, steps) && i < j < |steps| && Applies(states, steps, i, j)
    requires steps[i].snapshot == Some(s)
    ensures states[j + 1].access == Grants(Some(s), states[i].enabled)
    ensures forall id :: id in states[j + 1].releasing <==> ShownReleasing(s, id)
  {
    assert Follows(owner, states[j], steps[j], states[j + 1]);
    RemainsUnderway(owner, states, steps, i, j);
    forall id ensures id in Awaiting(Some(s)) <==> ShownReleasing(s, id) {
      AwaitingAreThisSessions(s, id);
    }
  }
}
