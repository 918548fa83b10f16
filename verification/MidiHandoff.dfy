/**
 The MIDI hand-off as concurrent code (crates/vantage-point/src/devices.rs:320-469, 643-681, 789-849,
 978-1057 and crates/vantage-point/src/midi_use.rs:31-49, 165-195): any number of calls that start or
 stop input listeners, the listener tasks themselves, output sends, and one holder of the registry's write
 lock that applies a snapshot's grants or releases everything. Code between awaits, and between two
 accesses to shared state on different threads, is one step.

 Three calls can be cut off at an await: the session's task, which applies snapshots, the discovery's, which
 starts and stops listeners, and a release, whose caller may be dropped. A call that is cut off drops its locks
 and waits for nothing any more.

 The registry's read/write lock: a writer (`Writer`) excludes the sends, which hold it for reading.
 Starting and stopping listeners is not bound to it, because the discovery task holds neither side.
 `lock` is the write lock of the listener map.
 */
module MidiHandoff {
  import opened Prelude
  import opened MidiAccess

  type Tid = nat
  type Pid = nat

  /** A listener task: about to read the switch, then the table, allowed to try, holding the port, or over. */
  datatype Life = Checking | SwitchedOn | Allowed | Open | Over

  /** `grant` is a bystander record: the entry of the table through which the port was found. */
  datatype Listener = Listener(port: Port, grant: OwnedPorts, life: Life, aborted: bool)

  datatype Call =
    // ensure_input_listener, in source order
    | EnsureAsked(name: string)
    | EnsureWaits(name: string)
    | EnsureHolds(name: string)
    | EnsureOn(name: string)
    | EnsureResolved(port: Port, grant: OwnedPorts)
    // stop_input_listener
    | StopWaits(name: string)
    | StopHolds(name: string)
    | StopJoins(task: Tid)
    // send_output
    | SendAsked(name: string)
    | SendResolved(port: Port)

  type Tasks = map<Tid, Listener>

  type Calls = map<Pid, Call>

  datatype Writer =
    | Idle
    // apply_midi_snapshot
    | ApplyWaits(next: Table, releasing: set<string>)
    | ApplyHolds(next: Table, releasing: set<string>)
    | ApplyReplaced(prev: Table, releasing: set<string>)
    | ApplyJoins(prev: Table, releasing: set<string>, tasks: set<Tid>)
    | ApplyOutputs(prev: Table, releasing: set<string>)
    // release_fleet, also the switch turned off
    | ReleaseAsked
    | ReleaseOff
    | ReleaseCleared(prev: Table)
    | ReleaseDrained(tasks: set<Tid>)
    | ReleaseOutputs

  datatype Holder = ByWriter | ByCall(pid: Pid)

  /** `releasing`: the devices whose release the last applied snapshot lets the session acknowledge. */
  datatype World = World(
    enabled: bool,
    access: Table,
    lock: Option<Holder>,
    listeners: map<Port, Tid>,
    tasks: Tasks,
    outputs: set<Port>,
    calls: Calls,
    writer: Writer,
    releasing: set<string>)

  const START := World(false, [], None, map[], map[], {}, map[], Idle, {})

  datatype Step =
    | Begin(pid: Pid, call: Call)
    | Advance(pid: Pid, spawned: Tid, opens: bool)
    | CheckSwitch(task: Tid)
    | CheckTable(task: Tid)
    | TryOpen(task: Tid, life: Life)
    | End(task: Tid)
    | BeginApply(snapshot: Option<Snapshot>)
    | BeginRelease
    | SwitchOn
    | AdvanceWriter
    | CutApply
    | CutCall(pid: Pid)
    | CutRelease

  predicate Live(tasks: Tasks, t: Tid) {
    t in tasks && !tasks[t].life.Over?
  }

  predicate Sending(c: Call) {
    c.SendAsked? || c.SendResolved?
  }

  predicate Stopping(c: Call) {
    c.StopWaits? || c.StopHolds? || c.StopJoins?
  }

  predicate Holding(c: Call) {
    c.EnsureHolds? || c.EnsureOn? || c.EnsureResolved? || c.StopHolds? || c.StopJoins?
  }

  predicate Named(owner: Port -> string, table: Table) {
    forall p <- table :: (forall n <- p.inputs :: owner(n) == p.device)
      && (forall n <- p.outputs :: owner(n) == p.device)
  }

  /** What the service promises: one entry per device, and no native port name on two devices. */
  predicate Plausible(owner: Port -> string, s: Option<Snapshot>) {
    s.Some? ==>
      && (forall i, j :: 0 <= i < j < |s.value.devices| ==> s.value.devices[i].id != s.value.devices[j].id)
      && (forall d <- s.value.devices :: Named(owner, [GrantOf(d)]))
  }

  // ----- when a step is possible -----

  /** The registry's write lock is free: no writer, and no send holding it for reading. */
  predicate Unclaimed(w: World) {
    w.writer.Idle? && forall pid <- w.calls :: !Sending(w.calls[pid])
  }

  predicate CallReady(w: World, c: Call) {
    match c
    case EnsureWaits(_) => w.lock.None?
    case StopWaits(_) => w.lock.None?
    case StopJoins(task) => !Live(w.tasks, task)
    case _ => true
  }

  predicate WriterReady(w: World) {
    match w.writer
    case Idle => false
    case ApplyWaits(_, _) => w.lock.None?
    case ApplyJoins(_, _, tasks) => forall t <- tasks :: !Live(w.tasks, t)
    case ReleaseCleared(_) => w.lock.None?
    case ReleaseDrained(tasks) => forall t <- tasks :: !Live(w.tasks, t)
    case _ => true
  }

  predicate Enabled(owner: Port -> string, w: World, step: Step) {
    match step
    case Begin(pid, call) =>
      && pid !in w.calls
      && (call.EnsureAsked? || call.StopWaits? || (call.SendAsked? && w.writer.Idle?))
    case Advance(pid, spawned, _) => pid in w.calls && spawned !in w.tasks && CallReady(w, w.calls[pid])
    case CheckSwitch(task) => task in w.tasks && w.tasks[task].life.Checking?
    case CheckTable(task) => task in w.tasks && w.tasks[task].life.SwitchedOn?
    case TryOpen(task, life) => task in w.tasks && w.tasks[task].life.Allowed? && !life.SwitchedOn? && !life.Allowed?
    case End(task) => Live(w.tasks, task) && (w.tasks[task].aborted || w.tasks[task].life.Open?)
    case BeginApply(snapshot) => Unclaimed(w) && Plausible(owner, snapshot)
    case BeginRelease => Unclaimed(w)
    case SwitchOn => Unclaimed(w)
    case AdvanceWriter => WriterReady(w)
    case CutApply => w.writer.ApplyWaits? || w.writer.ApplyJoins? || w.writer.ApplyOutputs?
    case CutCall(pid) => pid in w.calls && (w.calls[pid].StopJoins? || !Holding(w.calls[pid]))
    case CutRelease => w.writer.ReleaseCleared? || w.writer.ReleaseDrained? || w.writer.ReleaseOutputs?
  }

  /** If the step cuts off a call, no task that the call is waiting for is still alive. */
  predicate Clean(w: World, step: Step) {
    && (step.CutApply? && w.writer.ApplyJoins? ==> forall t <- w.writer.tasks :: !Live(w.tasks, t))
    && (step.CutRelease? && w.writer.ReleaseDrained? ==> forall t <- w.writer.tasks :: !Live(w.tasks, t))
    && (step.CutCall? && step.pid in w.calls && w.calls[step.pid].StopJoins? ==> !Live(w.tasks, w.calls[step.pid].task))
  }

  /** No listener is alive and none is about to be started. */
  predicate Bare(tasks: Tasks, calls: Calls) {
    (forall t <- tasks :: !Live(tasks, t)) && forall pid <- calls :: !calls[pid].EnsureResolved?
  }

  /** Moreover a release cut off before it could take the listeners leaves none without a grant. */
  predicate Tidy(w: World, step: Step) {
    Clean(w, step) && (step.CutRelease? && w.writer.ReleaseCleared? ==> Bare(w.tasks, w.calls))
  }

  // ----- what a step does -----

  function Done(w: World, pid: Pid): World {
    w.(calls := w.calls - {pid})
  }

  function Unlocked(w: World, pid: Pid): World {
    w.(calls := w.calls - {pid}, lock := None)
  }

  function Now(w: World, pid: Pid, call: Call): World {
    w.(calls := w.calls[pid := call])
  }

  function Locking(w: World, pid: Pid, call: Call): World {
    w.(calls := w.calls[pid := call], lock := Some(ByCall(pid)))
  }

  function Spawned(w: World, pid: Pid, spawned: Tid, port: Port, grant: OwnedPorts): World {
    w.(calls := w.calls - {pid}, lock := None, listeners := w.listeners[port := spawned],
       tasks := w.tasks[spawned := Listener(port, grant, Checking, false)])
  }

  function Detached(w: World, pid: Pid, port: Port): World
    requires port in w.listeners
  {
    w.(calls := w.calls[pid := StopJoins(w.listeners[port])], listeners := w.listeners - {port},
       tasks := Abort(w.tasks, {w.listeners[port]}))
  }

  function Abort(tasks: Tasks, aborted: set<Tid>): Tasks {
    map t <- tasks :: if t in aborted then tasks[t].(aborted := true) else tasks[t]
  }

  /** The entry of the table that names the input port. */
  function EntryOf(owned: Table, port: Port): (entry: OwnedPorts)
    requires Permits(owned, true, port)
    ensures entry in owned && port in entry.inputs
  {
    if port in owned[0].inputs then owned[0]
    else
      assert Permits(owned[1..], true, port) by {
        var p :| p in owned && port in PortsOf(p, true);
        assert p in owned[1..];
      }
      EntryOf(owned[1..], port)
  }

  function EnsureStep(w: World, pid: Pid, spawned: Tid): World
    requires pid in w.calls
  {
    match w.calls[pid]
    case EnsureAsked(name) => if w.enabled then Now(w, pid, EnsureWaits(name)) else Done(w, pid)
    case EnsureWaits(name) => Locking(w, pid, EnsureHolds(name))
    case EnsureHolds(name) => if w.enabled then Now(w, pid, EnsureOn(name)) else Unlocked(w, pid)
    case EnsureOn(name) =>
      var port := Resolve(w.access, name, true);
      if port.Some? then Now(w, pid, EnsureResolved(port.value, EntryOf(w.access, port.value))) else Unlocked(w, pid)
    case EnsureResolved(port, grant) =>
      if port in w.listeners && Live(w.tasks, w.listeners[port]) then Unlocked(w, pid)
      else Spawned(w, pid, spawned, port, grant)
    case _ => w
  }

  function StopStep(w: World, pid: Pid): World
    requires pid in w.calls
  {
    match w.calls[pid]
    case StopWaits(name) => Locking(w, pid, StopHolds(name))
    case StopHolds(name) =>
      var port := Resolve(w.access, name, true);
      if port.Some? && port.value in w.listeners then Detached(w, pid, port.value) else Unlocked(w, pid)
    case StopJoins(_) => Unlocked(w, pid)
    case _ => w
  }

  function SendStep(w: World, pid: Pid, opens: bool): World
    requires pid in w.calls
  {
    match w.calls[pid]
    case SendAsked(name) =>
      var port := Resolve(w.access, name, false);
      if port.Some? then Now(w, pid, SendResolved(port.value)) else Done(w, pid)
    case SendResolved(port) =>
      w.(calls := w.calls - {pid}, outputs := if opens then w.outputs + {port} else w.outputs - {port})
    case _ => w
  }

  function CallStep(w: World, pid: Pid, spawned: Tid, opens: bool): World
    requires pid in w.calls
  {
    if Sending(w.calls[pid]) then SendStep(w, pid, opens)
    else if Stopping(w.calls[pid]) then StopStep(w, pid)
    else EnsureStep(w, pid, spawned)
  }

  /** The listeners a new table sweeps away: their port was revoked, or is not permitted any more. */
  function Swept(w: World, prev: Table): map<Port, Tid> {
    map port | port in w.listeners && (Revoked(prev, w.access, port) || !Permits(w.access, true, port)) ::
      w.listeners[port]
  }

  function WriterStep(w: World): World {
    match w.writer
    case Idle => w
    case ApplyWaits(next, releasing) => w.(writer := ApplyHolds(next, releasing), lock := Some(ByWriter))
    case ApplyHolds(next, releasing) => w.(writer := ApplyReplaced(w.access, releasing), access := next)
    case ApplyReplaced(prev, releasing) =>
      var swept := Swept(w, prev);
      w.(writer := ApplyJoins(prev, releasing, swept.Values), listeners := w.listeners - swept.Keys,
         tasks := Abort(w.tasks, swept.Values))
    case ApplyJoins(prev, releasing, _) => w.(writer := ApplyOutputs(prev, releasing), lock := None)
    case ApplyOutputs(prev, releasing) =>
      w.(writer := Idle, releasing := releasing,
         outputs := set o <- w.outputs | !Revoked(prev, w.access, o) && Permits(w.access, false, o))
    case ReleaseAsked => w.(writer := ReleaseOff, enabled := false)
    case ReleaseOff => w.(writer := ReleaseCleared(w.access), access := [])
    case ReleaseCleared(_) =>
      w.(writer := ReleaseDrained(w.listeners.Values), listeners := map[], tasks := Abort(w.tasks, w.listeners.Values))
    case ReleaseDrained(_) => w.(writer := ReleaseOutputs)
    case ReleaseOutputs => w.(writer := Idle, outputs := {})
  }

  function CutOff(w: World): World {
    w.(writer := Idle, lock := if w.lock == Some(ByWriter) then None else w.lock)
  }

  function Relived(w: World, task: Tid, life: Life): World
    requires task in w.tasks
  {
    w.(tasks := w.tasks[task := w.tasks[task].(life := life)])
  }

  function Next(owner: Port -> string, w: World, step: Step): World
    requires Enabled(owner, w, step)
  {
    match step
    case Begin(pid, call) => Now(w, pid, call)
    case Advance(pid, spawned, opens) => CallStep(w, pid, spawned, opens)
    case CheckSwitch(task) => Relived(w, task, if w.enabled then SwitchedOn else Over)
    case CheckTable(task) => Relived(w, task, if Permits(w.access, true, w.tasks[task].port) then Allowed else Over)
    case TryOpen(task, life) => Relived(w, task, life)
    case End(task) => Relived(w, task, Over)
    case BeginApply(snapshot) =>
      w.(writer := ApplyWaits(Grants(snapshot, w.enabled), Awaiting(snapshot)), releasing := {})
    case BeginRelease => w.(writer := ReleaseAsked)
    case SwitchOn => w.(enabled := true)
    case AdvanceWriter => WriterStep(w)
    case CutApply => CutOff(w)
    case CutCall(pid) => if w.calls[pid].StopJoins? then Unlocked(w, pid) else Done(w, pid)
    case CutRelease => CutOff(w)
  }

  predicate Follows(owner: Port -> string, w: World, step: Step, v: World) {
    Enabled(owner, w, step) && v == Next(owner, w, step)
  }

  predicate Trace(owner: Port -> string, states: seq<World>, steps: seq<Step>) {
    && |states| == |steps| + 1 && states[0] == START
    && forall i | 0 <= i < |steps| :: Follows(owner, states[i], steps[i], states[i + 1])
  }

  /** A run on which every cut is clean. */
  predicate CleanTrace(owner: Port -> string, states: seq<World>, steps: seq<Step>) {
    Trace(owner, states, steps) && forall i | 0 <= i < |steps| :: Clean(states[i], steps[i])
  }

  predicate TidyTrace(owner: Port -> string, states: seq<World>, steps: seq<Step>) {
    Trace(owner, states, steps) && forall i | 0 <= i < |steps| :: Tidy(states[i], steps[i])
  }

  // ----- invariant -----

  /** The table that the listeners' ports answer to: the old one until the sweep, else the current one. */
  function Held(access: Table, writer: Writer): Table {
    match writer
    case ApplyReplaced(prev, _) => prev
    case ReleaseCleared(prev) => prev
    case _ => access
  }

  predicate Backed(table: Table, l: Listener) {
    l.grant in table && l.port in l.grant.inputs
  }

  predicate Locked(calls: Calls, writer: Writer, lock: Option<Holder>) {
    && (forall pid <- calls :: Holding(calls[pid]) ==> lock == Some(ByCall(pid)))
    && (writer.ApplyHolds? || writer.ApplyReplaced? || writer.ApplyJoins? ==> lock == Some(ByWriter))
    && match lock
       case None => true
       case Some(ByWriter) => writer.ApplyHolds? || writer.ApplyReplaced? || writer.ApplyJoins?
       case Some(ByCall(pid)) => pid in calls && Holding(calls[pid])
  }

  predicate Keyed(listeners: map<Port, Tid>, tasks: Tasks) {
    forall port <- listeners :: listeners[port] in tasks && tasks[listeners[port]].port == port
  }

  predicate ListenersBacked(listeners: map<Port, Tid>, tasks: Tasks, table: Table) {
    forall port <- listeners :: Live(tasks, listeners[port]) ==> Backed(table, tasks[listeners[port]])
  }

  predicate CallsBacked(calls: Calls, table: Table) {
    forall pid <- calls :: calls[pid].EnsureResolved? ==>
      calls[pid].grant in table && calls[pid].port in calls[pid].grant.inputs
  }

  predicate Mapped(listeners: map<Port, Tid>, tasks: Tasks, t: Tid)
    requires t in tasks
  {
    tasks[t].port in listeners && listeners[tasks[t].port] == t
  }

  predicate StopAwaits(calls: Calls, lock: Option<Holder>, t: Tid) {
    lock.Some? && lock.value.ByCall? && lock.value.pid in calls && calls[lock.value.pid] == StopJoins(t)
  }

  predicate WriterAwaits(writer: Writer, t: Tid) {
    (writer.ApplyJoins? || writer.ReleaseDrained?) && t in writer.tasks
  }

  predicate Accounted(listeners: map<Port, Tid>, tasks: Tasks, calls: Calls, writer: Writer, lock: Option<Holder>) {
    forall t <- tasks :: Live(tasks, t) ==>
      Mapped(listeners, tasks, t) || StopAwaits(calls, lock, t) || WriterAwaits(writer, t)
  }

  predicate LiveBacked(tasks: Tasks, writer: Writer, table: Table) {
    forall t <- tasks :: Live(tasks, t) ==> Backed(table, tasks[t]) || WriterAwaits(writer, t)
  }

  predicate OnePerPort(tasks: Tasks) {
    forall t <- tasks, u <- tasks :: Live(tasks, t) && Live(tasks, u) && tasks[t].port == tasks[u].port ==> t == u
  }

  predicate Switched(enabled: bool, access: Table, writer: Writer) {
    && (writer.ReleaseOff? || writer.ReleaseCleared? || writer.ReleaseDrained? || writer.ReleaseOutputs? ==> !enabled)
    && (writer.ReleaseCleared? || writer.ReleaseDrained? || writer.ReleaseOutputs? ==> access == [])
    && (!enabled && !writer.ReleaseOff? ==> access == [])
    && (!enabled && (writer.ApplyWaits? || writer.ApplyHolds?) ==> writer.next == [])
  }

  predicate SendsSound(calls: Calls, writer: Writer, access: Table) {
    && (forall pid <- calls :: Sending(calls[pid]) ==> writer.Idle?)
    && (forall pid <- calls :: calls[pid].SendResolved? ==> Permits(access, false, calls[pid].port))
  }

  predicate Owned(owner: Port -> string, access: Table, writer: Writer) {
    && Named(owner, access)
    && (writer.ApplyWaits? || writer.ApplyHolds? ==>
      Named(owner, writer.next) && writer.releasing !! Devices(writer.next))
    && (writer.ApplyReplaced? || writer.ApplyJoins? || writer.ApplyOutputs? ==> writer.releasing !! Devices(access))
  }

  /** From the sweep to the end of an application every live task is on a permitted port, or waited for. */
  predicate Permitted(tasks: Tasks, calls: Calls, writer: Writer, access: Table) {
    writer.ApplyJoins? || writer.ApplyOutputs? ==>
      && (forall t <- tasks :: Live(tasks, t) ==> Permits(access, true, tasks[t].port) || WriterAwaits(writer, t))
      && (forall pid <- calls :: calls[pid].EnsureResolved? ==> Permits(access, true, calls[pid].port))
  }

  /** Once a release has taken the listeners, what still lives is waited for. */
  predicate Emptied(listeners: map<Port, Tid>, tasks: Tasks, calls: Calls, writer: Writer) {
    writer.ReleaseDrained? || writer.ReleaseOutputs? ==>
      && listeners == map[]
      && (forall pid <- calls :: !calls[pid].EnsureResolved? && !calls[pid].StopJoins?)
      && (forall t <- tasks :: Live(tasks, t) ==> WriterAwaits(writer, t))
  }

  /** Every live listener and every start lives on a grant of the table. */
  predicate OnGrants(w: World) {
    && ListenersBacked(w.listeners, w.tasks, Held(w.access, w.writer))
    && CallsBacked(w.calls, Held(w.access, w.writer))
    && LiveBacked(w.tasks, w.writer, Held(w.access, w.writer))
  }

  /** `backed`: with the grants, which a release cut off too early may leave behind. */
  predicate Inv(owner: Port -> string, w: World, backed: bool) {
    && Locked(w.calls, w.writer, w.lock)
    && Keyed(w.listeners, w.tasks)
    && Accounted(w.listeners, w.tasks, w.calls, w.writer, w.lock)
    && OnePerPort(w.tasks)
    && Permitted(w.tasks, w.calls, w.writer, w.access)
    && Emptied(w.listeners, w.tasks, w.calls, w.writer)
    && Switched(w.enabled, w.access, w.writer)
    && SendsSound(w.calls, w.writer, w.access)
    && Owned(owner, w.access, w.writer)
    && (backed ==> OnGrants(w))
  }

  // ----- preserved by every step -----

  lemma RelivedKeepsInv(owner: Port -> string, w: World, t: Tid, life: Life, backed: bool)
    requires Inv(owner, w, backed) && Live(w.tasks, t)
    ensures Inv(owner, Relived(w, t, life), backed)
  {
  }

  lemma DoneKeepsInv(owner: Port -> string, w: World, pid: Pid, backed: bool)
    requires Inv(owner, w, backed) && pid in w.calls && !Holding(w.calls[pid])
    ensures Inv(owner, Done(w, pid), backed)
  {
  }

  lemma UnlockedKeepsInv(owner: Port -> string, w: World, pid: Pid, backed: bool)
    requires Inv(owner, w, backed) && pid in w.calls && Holding(w.calls[pid])
    requires w.calls[pid].StopJoins? ==> !Live(w.tasks, w.calls[pid].task)
    ensures Inv(owner, Unlocked(w, pid), backed)
  {
  }

  lemma LockingKeepsInv(owner: Port -> string, w: World, pid: Pid, call: Call, backed: bool)
    requires Inv(owner, w, backed) && w.lock.None? && (call.EnsureHolds? || call.StopHolds?)
    ensures Inv(owner, Locking(w, pid, call), backed)
  {
  }

  /** While a resolved start holds the map lock, a port whose entry is missing or over has no live task at all. */
  lemma PortIsFree(owner: Port -> string, w: World, pid: Pid)
    requires Inv(owner, w, false) && pid in w.calls && w.calls[pid].EnsureResolved?
    requires w.calls[pid].port in w.listeners ==> !Live(w.tasks, w.listeners[w.calls[pid].port])
    ensures forall t <- w.tasks :: Live(w.tasks, t) ==>
      Mapped(w.listeners, w.tasks, t) && w.tasks[t].port != w.calls[pid].port
  {
  }

  lemma SpawnedTasks(w: World, spawned: Tid, l: Listener)
    requires Keyed(w.listeners, w.tasks) && OnePerPort(w.tasks) && spawned !in w.tasks
    requires forall t <- w.tasks :: Live(w.tasks, t) ==> Mapped(w.listeners, w.tasks, t) && w.tasks[t].port != l.port
    ensures var tasks, listeners := w.tasks[spawned := l], w.listeners[l.port := spawned];
      Keyed(listeners, tasks) && OnePerPort(tasks)
      && forall t <- tasks :: Live(tasks, t) ==> Mapped(listeners, tasks, t)
  {
  }

  lemma SpawnedKeepsInv(owner: Port -> string, w: World, pid: Pid, spawned: Tid, backed: bool)
    requires Inv(owner, w, backed) && pid in w.calls && w.calls[pid].EnsureResolved? && spawned !in w.tasks
    requires w.calls[pid].port in w.listeners ==> !Live(w.tasks, w.listeners[w.calls[pid].port])
    ensures Inv(owner, Spawned(w, pid, spawned, w.calls[pid].port, w.calls[pid].grant), backed)
  {
    PortIsFree(owner, w, pid);
    SpawnedTasks(w, spawned, Listener(w.calls[pid].port, w.calls[pid].grant, Checking, false));
  }

  lemma DetachedTasks(w: World, port: Port)
    requires Keyed(w.listeners, w.tasks) && OnePerPort(w.tasks) && port in w.listeners
    requires forall t <- w.tasks :: Live(w.tasks, t) ==> Mapped(w.listeners, w.tasks, t) || WriterAwaits(w.writer, t)
    ensures var tasks, listeners := Abort(w.tasks, {w.listeners[port]}), w.listeners - {port};
      && Keyed(listeners, tasks) && OnePerPort(tasks)
      && forall t <- tasks :: Live(tasks, t) ==>
        Mapped(listeners, tasks, t) || t == w.listeners[port] || WriterAwaits(w.writer, t)
  {
  }

  lemma DetachedKeepsInv(owner: Port -> string, w: World, pid: Pid, port: Port, backed: bool)
    requires Inv(owner, w, backed) && pid in w.calls && w.calls[pid].StopHolds? && port in w.listeners
    ensures Inv(owner, Detached(w, pid, port), backed)
  {
    DetachedTasks(w, port);
  }

  lemma SendKeepsInv(owner: Port -> string, w: World, pid: Pid, opens: bool, backed: bool)
    requires Inv(owner, w, backed) && pid in w.calls && Sending(w.calls[pid])
    ensures Inv(owner, SendStep(w, pid, opens), backed)
  {
    match w.calls[pid] {
      case SendAsked(name) => DoneKeepsInv(owner, w, pid, backed);
      case SendResolved(_) =>
    }
  }

  lemma StopKeepsInv(owner: Port -> string, w: World, pid: Pid, backed: bool)
    requires Inv(owner, w, backed) && pid in w.calls && Stopping(w.calls[pid]) && CallReady(w, w.calls[pid])
    ensures Inv(owner, StopStep(w, pid), backed)
  {
    match w.calls[pid] {
      case StopWaits(name) => LockingKeepsInv(owner, w, pid, StopHolds(name), backed);
      case StopHolds(name) =>
        var port := Resolve(w.access, name, true);
        if port.Some? && port.value in w.listeners {
          DetachedKeepsInv(owner, w, pid, port.value, backed);
        } else {
          UnlockedKeepsInv(owner, w, pid, backed);
        }
      case StopJoins(_) => UnlockedKeepsInv(owner, w, pid, backed);
    }
  }

  lemma ResolvedKeepsInv(owner: Port -> string, w: World, pid: Pid, port: Port, backed: bool)
    requires Inv(owner, w, backed) && pid in w.calls && w.calls[pid].EnsureOn? && Permits(w.access, true, port)
    ensures Inv(owner, Now(w, pid, EnsureResolved(port, EntryOf(w.access, port))), backed)
  {
  }

  lemma EnsureKeepsInv(owner: Port -> string, w: World, pid: Pid, spawned: Tid, backed: bool)
    requires Inv(owner, w, backed) && pid in w.calls && !Sending(w.calls[pid]) && !Stopping(w.calls[pid])
    requires spawned !in w.tasks && CallReady(w, w.calls[pid])
    ensures Inv(owner, EnsureStep(w, pid, spawned), backed)
  {
    match w.calls[pid] {
      case EnsureAsked(_) => DoneKeepsInv(owner, w, pid, backed);
      case EnsureWaits(name) => LockingKeepsInv(owner, w, pid, EnsureHolds(name), backed);
      case EnsureHolds(_) => UnlockedKeepsInv(owner, w, pid, backed);
      case EnsureOn(name) =>
        var port := Resolve(w.access, name, true);
        if port.Some? {
          ResolvedKeepsInv(owner, w, pid, port.value, backed);
        } else {
          UnlockedKeepsInv(owner, w, pid, backed);
        }
      case EnsureResolved(port, _) =>
        if port in w.listeners && Live(w.tasks, w.listeners[port]) {
          UnlockedKeepsInv(owner, w, pid, backed);
        } else {
          SpawnedKeepsInv(owner, w, pid, spawned, backed);
        }
    }
  }

  /** A listener that the sweep leaves alone keeps its entry — device, lease token and ports — in the new table. */
  lemma UnsweptIsBacked(w: World, prev: Table, port: Port)
    requires port in w.listeners && port !in Swept(w, prev)
    requires w.listeners[port] in w.tasks && w.tasks[w.listeners[port]].port == port
      && Backed(prev, w.tasks[w.listeners[port]])
    ensures Backed(w.access, w.tasks[w.listeners[port]])
  {
    var grant := w.tasks[w.listeners[port]].grant;
    assert grant !in w.access ==> grant.device in Released(prev, w.access);
  }

  lemma SweptTasks(w: World, swept: map<Port, Tid>)
    requires Keyed(w.listeners, w.tasks) && OnePerPort(w.tasks)
    requires forall port <- swept :: port in w.listeners && swept[port] == w.listeners[port]
    requires forall t <- w.tasks :: Live(w.tasks, t) ==> Mapped(w.listeners, w.tasks, t)
    ensures Keyed(w.listeners - swept.Keys, Abort(w.tasks, swept.Values)) && OnePerPort(Abort(w.tasks, swept.Values))
    ensures forall t <- w.tasks :: Live(w.tasks, t) ==>
      Mapped(w.listeners - swept.Keys, w.tasks, t) || t in swept.Values
  {
    forall t <- w.tasks | Live(w.tasks, t) && w.tasks[t].port in swept ensures t in swept.Values {
      assert swept[w.tasks[t].port] == t;
    }
  }

  lemma SweptIsBacked(w: World, prev: Table)
    requires Keyed(w.listeners, w.tasks) && ListenersBacked(w.listeners, w.tasks, prev)
    ensures var swept := Swept(w, prev);
      ListenersBacked(w.listeners - swept.Keys, Abort(w.tasks, swept.Values), w.access)
  {
    forall port <- w.listeners | port !in Swept(w, prev) && Live(w.tasks, w.listeners[port])
      ensures Backed(w.access, w.tasks[w.listeners[port]])
    {
      UnsweptIsBacked(w, prev, port);
    }
  }

  lemma SweptLiveBacked(w: World, swept: map<Port, Tid>)
    requires ListenersBacked(w.listeners - swept.Keys, Abort(w.tasks, swept.Values), w.access)
    requires forall t <- w.tasks :: Live(w.tasks, t) ==>
      Mapped(w.listeners - swept.Keys, w.tasks, t) || t in swept.Values
    ensures var tasks := Abort(w.tasks, swept.Values);
      forall t <- tasks :: Live(tasks, t) ==>
        t in swept.Values || (Mapped(w.listeners - swept.Keys, tasks, t) && Backed(w.access, tasks[t]))
  {
  }

  lemma SweptAccounts(w: World, swept: map<Port, Tid>, writer: Writer)
    requires writer.ApplyJoins? && writer.tasks == swept.Values
    requires forall t <- w.tasks :: Live(w.tasks, t) ==>
      Mapped(w.listeners - swept.Keys, w.tasks, t) || t in swept.Values
    ensures Accounted(w.listeners - swept.Keys, Abort(w.tasks, swept.Values), w.calls, writer, w.lock)
  {
  }

  lemma SweptPermitted(w: World, swept: map<Port, Tid>, writer: Writer)
    requires writer.ApplyJoins? && writer.tasks == swept.Values && (forall pid <- w.calls :: !Holding(w.calls[pid]))
    requires forall port <- w.listeners :: port in swept || Permits(w.access, true, port)
    requires forall t <- w.tasks :: Live(w.tasks, t) ==>
      Mapped(w.listeners - swept.Keys, w.tasks, t) || t in swept.Values
    ensures Permitted(Abort(w.tasks, swept.Values), w.calls, writer, w.access)
  {
  }

  /** While the writer holds the map lock every live task is in the map. */
  lemma WriterSeesAll(owner: Port -> string, w: World)
    requires Inv(owner, w, false) && (w.writer.ApplyReplaced? || (w.writer.ReleaseCleared? && w.lock.None?))
    ensures forall pid <- w.calls :: !Holding(w.calls[pid])
    ensures forall t <- w.tasks :: Live(w.tasks, t) ==> Mapped(w.listeners, w.tasks, t)
  {
  }

  lemma SweptOnGrants(w: World, swept: map<Port, Tid>, v: World)
    requires (forall pid <- w.calls :: !Holding(w.calls[pid])) && v.calls == w.calls && v.access == w.access
    requires v.writer.ApplyJoins? && v.writer.tasks == swept.Values
    requires v.listeners == w.listeners - swept.Keys && v.tasks == Abort(w.tasks, swept.Values)
    requires ListenersBacked(v.listeners, v.tasks, w.access)
    requires forall t <- w.tasks :: Live(w.tasks, t) ==>
      Mapped(w.listeners - swept.Keys, w.tasks, t) || t in swept.Values
    ensures OnGrants(v)
  {
    SweptLiveBacked(w, swept);
  }

  /** A sweep that spares only permitted ports, and grants of the new table, keeps the invariant. */
  lemma SweepKeepsInv(owner: Port -> string, w: World, swept: map<Port, Tid>, v: World, backed: bool)
    requires Inv(owner, w, backed) && w.writer.ApplyReplaced?
    requires forall port <- swept :: port in w.listeners && swept[port] == w.listeners[port]
    requires forall port <- w.listeners :: port in swept || Permits(w.access, true, port)
    requires backed ==> ListenersBacked(w.listeners - swept.Keys, Abort(w.tasks, swept.Values), w.access)
    requires v == w.(writer := ApplyJoins(w.writer.prev, w.writer.releasing, swept.Values),
                     listeners := w.listeners - swept.Keys, tasks := Abort(w.tasks, swept.Values))
    ensures Inv(owner, v, backed)
  {
    WriterSeesAll(owner, w);
    SweptTasks(w, swept);
    SweptAccounts(w, swept, v.writer);
    SweptPermitted(w, swept, v.writer);
    if backed {
      SweptOnGrants(w, swept, v);
    }
  }

  lemma SweptKeepsInv(owner: Port -> string, w: World, backed: bool)
    requires Inv(owner, w, backed) && w.writer.ApplyReplaced?
    ensures Inv(owner, WriterStep(w), backed)
  {
    if backed {
      SweptIsBacked(w, w.writer.prev);
    }
    SweepKeepsInv(owner, w, Swept(w, w.writer.prev), WriterStep(w), backed);
  }

  lemma DrainedTasks(w: World, writer: Writer)
    requires writer == ReleaseDrained(w.listeners.Values) && OnePerPort(w.tasks)
    requires forall t <- w.tasks :: Live(w.tasks, t) ==> Mapped(w.listeners, w.tasks, t)
    ensures var tasks := Abort(w.tasks, w.listeners.Values);
      && Accounted(map[], tasks, w.calls, writer, w.lock) && LiveBacked(tasks, writer, w.access) && OnePerPort(tasks)
      && forall t <- tasks :: Live(tasks, t) ==> WriterAwaits(writer, t)
  {
  }

  lemma DrainedKeepsInv(owner: Port -> string, w: World, backed: bool)
    requires Inv(owner, w, backed) && w.writer.ReleaseCleared? && w.lock.None?
    ensures Inv(owner, WriterStep(w), backed)
  {
    WriterSeesAll(owner, w);
    DrainedTasks(w, ReleaseDrained(w.listeners.Values));
  }

  lemma ApplyKeepsInv(owner: Port -> string, w: World, backed: bool)
    requires Inv(owner, w, backed) && WriterReady(w)
    requires w.writer.ApplyWaits? || w.writer.ApplyHolds? || w.writer.ApplyJoins? || w.writer.ApplyOutputs?
    ensures Inv(owner, WriterStep(w), backed)
  {
  }

  lemma ReleaseKeepsInv(owner: Port -> string, w: World, backed: bool)
    requires Inv(owner, w, backed) && WriterReady(w)
    requires w.writer.ReleaseAsked? || w.writer.ReleaseOff? || w.writer.ReleaseDrained? || w.writer.ReleaseOutputs?
    ensures Inv(owner, WriterStep(w), backed)
  {
  }

  lemma WriterKeepsInv(owner: Port -> string, w: World, backed: bool)
    requires Inv(owner, w, backed) && WriterReady(w)
    ensures Inv(owner, WriterStep(w), backed)
  {
    match w.writer {
      case ApplyReplaced(_, _) => SweptKeepsInv(owner, w, backed);
      case ApplyWaits(_, _) => ApplyKeepsInv(owner, w, backed);
      case ApplyHolds(_, _) => ApplyKeepsInv(owner, w, backed);
      case ApplyJoins(_, _, _) => ApplyKeepsInv(owner, w, backed);
      case ApplyOutputs(_, _) => ApplyKeepsInv(owner, w, backed);
      case ReleaseCleared(_) => DrainedKeepsInv(owner, w, backed);
      case _ => ReleaseKeepsInv(owner, w, backed);
    }
  }

  lemma GrantsAreNamed(owner: Port -> string, s: Option<Snapshot>, enabled: bool)
    requires Plausible(owner, s)
    ensures Named(owner, Grants(s, enabled)) && Awaiting(s) !! Devices(Grants(s, enabled))
  {
    if s.Some? {
      forall p <- Grants(s, enabled) ensures Named(owner, [p]) && p.device !in Awaiting(s) {
        var k :| 0 <= k < |s.value.devices| && MidiAccess.Granted(s.value, s.value.devices[k])
          && p == GrantOf(s.value.devices[k]);
        assert s.value.devices[k] in s.value.devices;
      }
    }
  }

  lemma BeginKeepsInv(owner: Port -> string, w: World, pid: Pid, call: Call, backed: bool)
    requires Inv(owner, w, backed) && Enabled(owner, w, Begin(pid, call))
    ensures Inv(owner, Now(w, pid, call), backed)
  {
  }

  lemma CutKeepsInv(owner: Port -> string, w: World, step: Step, backed: bool)
    requires Inv(owner, w, backed) && Enabled(owner, w, step) && (step.CutApply? || step.CutRelease?)
    requires Clean(w, step) && (backed ==> Tidy(w, step))
    ensures Inv(owner, CutOff(w), backed)
  {
  }

  lemma CutCallKeepsInv(owner: Port -> string, w: World, pid: Pid, backed: bool)
    requires Inv(owner, w, backed) && Enabled(owner, w, CutCall(pid)) && Clean(w, CutCall(pid))
    ensures Inv(owner, if w.calls[pid].StopJoins? then Unlocked(w, pid) else Done(w, pid), backed)
  {
    if w.calls[pid].StopJoins? {
      UnlockedKeepsInv(owner, w, pid, backed);
    } else {
      DoneKeepsInv(owner, w, pid, backed);
    }
  }

  lemma CallKeepsInv(owner: Port -> string, w: World, pid: Pid, spawned: Tid, opens: bool, backed: bool)
    requires Inv(owner, w, backed) && Enabled(owner, w, Advance(pid, spawned, opens))
    ensures Inv(owner, CallStep(w, pid, spawned, opens), backed)
  {
    if Sending(w.calls[pid]) {
      SendKeepsInv(owner, w, pid, opens, backed);
    } else if Stopping(w.calls[pid]) {
      StopKeepsInv(owner, w, pid, backed);
    } else {
      EnsureKeepsInv(owner, w, pid, spawned, backed);
    }
  }

  lemma ApplyingKeepsInv(owner: Port -> string, w: World, snapshot: Option<Snapshot>, backed: bool)
    requires Inv(owner, w, backed) && Enabled(owner, w, BeginApply(snapshot))
    ensures var v := w.(writer := ApplyWaits(Grants(snapshot, w.enabled), Awaiting(snapshot)), releasing := {});
      Inv(owner, v, backed)
  {
    GrantsAreNamed(owner, snapshot, w.enabled);
  }

  lemma TaskKeepsInv(owner: Port -> string, w: World, step: Step, v: World, backed: bool)
    requires Inv(owner, w, backed) && Follows(owner, w, step, v)
    requires step.CheckSwitch? || step.CheckTable? || step.TryOpen? || step.End?
    ensures Inv(owner, v, backed)
  {
    RelivedKeepsInv(owner, w, step.task, v.tasks[step.task].life, backed);
  }

  lemma SwitchingKeepsInv(owner: Port -> string, w: World, backed: bool)
    requires Inv(owner, w, backed) && Unclaimed(w)
    ensures Inv(owner, w.(writer := ReleaseAsked), backed) && Inv(owner, w.(enabled := true), backed)
  {
  }

  lemma StepKeepsInv(owner: Port -> string, w: World, step: Step, v: World, backed: bool)
    requires Inv(owner, w, backed) && Follows(owner, w, step, v) && Clean(w, step)
    requires backed ==> Tidy(w, step)
    ensures Inv(owner, v, backed)
  {
    match step {
      case Begin(pid, call) => BeginKeepsInv(owner, w, pid, call, backed);
      case Advance(pid, spawned, opens) => CallKeepsInv(owner, w, pid, spawned, opens, backed);
      case CheckSwitch(_) => TaskKeepsInv(owner, w, step, v, backed);
      case CheckTable(_) => TaskKeepsInv(owner, w, step, v, backed);
      case TryOpen(_, _) => TaskKeepsInv(owner, w, step, v, backed);
      case End(_) => TaskKeepsInv(owner, w, step, v, backed);
      case BeginApply(snapshot) => ApplyingKeepsInv(owner, w, snapshot, backed);
      case BeginRelease => SwitchingKeepsInv(owner, w, backed);
      case SwitchOn => SwitchingKeepsInv(owner, w, backed);
      case AdvanceWriter => WriterKeepsInv(owner, w, backed);
      case CutApply => CutKeepsInv(owner, w, step, backed);
      case CutRelease => CutKeepsInv(owner, w, step, backed);
      case CutCall(pid) => CutCallKeepsInv(owner, w, pid, backed);
    }
  }

  // ----- one live listener per port -----

  lemma {:induction false} TraceKeepsInv(owner: Port -> string, states: seq<World>, steps: seq<Step>, n: nat,
      backed: bool)
    requires CleanTrace(owner, states, steps) && (backed ==> TidyTrace(owner, states, steps)) && n <= |steps|
    ensures Inv(owner, states[n], backed)
  {
    if n == 0 {
    } else {
      TraceKeepsInv(owner, states, steps, n - 1, backed);
      StepKeepsInv(owner, states[n - 1], steps[n - 1], states[n], backed);
    }
  }

  /** In every interleaving with clean cuts no native port has two listener tasks that could hold it. */
  lemma OneListenerPerPort(owner: Port -> string, states: seq<World>, steps: seq<Step>, n: nat, t: Tid, u: Tid)
    requires CleanTrace(owner, states, steps) && n <= |steps|
    requires Live(states[n].tasks, t) && Live(states[n].tasks, u) && states[n].tasks[t].port == states[n].tasks[u].port
    ensures t == u
  {
    TraceKeepsInv(owner, states, steps, n, false);
  }

  // ----- acknowledged release -----

  predicate TasksClear(owner: Port -> string, tasks: Tasks, device: string) {
    forall t <- tasks :: Live(tasks, t) ==> owner(tasks[t].port) != device
  }

  predicate OutputsClear(owner: Port -> string, outputs: set<Port>, device: string) {
    forall o <- outputs :: owner(o) != device
  }

  predicate CallsClear(owner: Port -> string, calls: Calls, device: string) {
    forall pid <- calls :: calls[pid].EnsureResolved? || calls[pid].SendResolved? ==> owner(calls[pid].port) != device
  }

  predicate TablesClear(access: Table, writer: Writer, device: string) {
    device !in Devices(access) && (writer.ApplyWaits? || writer.ApplyHolds? ==> device !in Devices(writer.next))
  }

  /** No listener, no output and no started call touches a port of the device, and no table grants one. */
  predicate Clear(owner: Port -> string, w: World, device: string) {
    && TablesClear(w.access, w.writer, device) && TasksClear(owner, w.tasks, device)
    && OutputsClear(owner, w.outputs, device) && CallsClear(owner, w.calls, device)
  }

  predicate Regrants(w: World, step: Step, device: string) {
    step.BeginApply? && device in Devices(Grants(step.snapshot, w.enabled))
  }

  lemma PermittedIsForeign(owner: Port -> string, table: Table, input: bool, port: Port, device: string)
    requires Named(owner, table) && Permits(table, input, port) && device !in Devices(table)
    ensures owner(port) != device
  {
  }

  lemma ClearBySpawn(owner: Port -> string, w: World, pid: Pid, spawned: Tid, device: string)
    requires Clear(owner, w, device) && pid in w.calls && w.calls[pid].EnsureResolved? && spawned !in w.tasks
    ensures Clear(owner, EnsureStep(w, pid, spawned), device)
  {
  }

  lemma ClearByEnsure(owner: Port -> string, w: World, pid: Pid, spawned: Tid, device: string)
    requires Named(owner, w.access) && Clear(owner, w, device) && pid in w.calls && spawned !in w.tasks
    ensures Clear(owner, EnsureStep(w, pid, spawned), device)
  {
    match w.calls[pid] {
      case EnsureOn(name) =>
        var port := Resolve(w.access, name, true);
        if port.Some? {
          PermittedIsForeign(owner, w.access, true, port.value, device);
        }
      case EnsureResolved(port, grant) => ClearBySpawn(owner, w, pid, spawned, device);
      case _ =>
    }
  }

  lemma ClearBySend(owner: Port -> string, w: World, pid: Pid, opens: bool, device: string)
    requires Named(owner, w.access) && Clear(owner, w, device) && pid in w.calls
    ensures Clear(owner, SendStep(w, pid, opens), device)
  {
    match w.calls[pid] {
      case SendAsked(name) =>
        var port := Resolve(w.access, name, false);
        if port.Some? {
          PermittedIsForeign(owner, w.access, false, port.value, device);
        }
      case _ =>
    }
  }

  lemma ClearByStop(owner: Port -> string, w: World, pid: Pid, device: string)
    requires Clear(owner, w, device) && pid in w.calls
    ensures Clear(owner, StopStep(w, pid), device)
  {
    match w.calls[pid] {
      case StopHolds(name) =>
        var port := Resolve(w.access, name, true);
        if port.Some? && port.value in w.listeners {
          AbortKeepsClear(owner, w.tasks, {w.listeners[port.value]}, device);
        }
      case _ =>
    }
  }

  lemma ClearByCall(owner: Port -> string, w: World, pid: Pid, spawned: Tid, opens: bool, device: string)
    requires Named(owner, w.access) && Clear(owner, w, device) && pid in w.calls && spawned !in w.tasks
    ensures Clear(owner, CallStep(w, pid, spawned, opens), device)
  {
    if Sending(w.calls[pid]) {
      ClearBySend(owner, w, pid, opens, device);
    } else if Stopping(w.calls[pid]) {
      ClearByStop(owner, w, pid, device);
    } else {
      ClearByEnsure(owner, w, pid, spawned, device);
    }
  }

  lemma AbortKeepsClear(owner: Port -> string, tasks: Tasks, aborted: set<Tid>, device: string)
    requires TasksClear(owner, tasks, device)
    ensures TasksClear(owner, Abort(tasks, aborted), device)
  {
  }

  lemma ClearByWriter(owner: Port -> string, w: World, device: string)
    requires Clear(owner, w, device)
    ensures Clear(owner, WriterStep(w), device)
  {
    match w.writer {
      case ApplyReplaced(prev, _) => AbortKeepsClear(owner, w.tasks, Swept(w, prev).Values, device);
      case ReleaseCleared(_) => AbortKeepsClear(owner, w.tasks, w.listeners.Values, device);
      case _ =>
    }
  }

  lemma ClearByTask(owner: Port -> string, w: World, t: Tid, life: Life, device: string)
    requires Clear(owner, w, device) && Live(w.tasks, t)
    ensures Clear(owner, Relived(w, t, life), device)
  {
  }

  lemma ClearKept(owner: Port -> string, w: World, step: Step, v: World, device: string)
    requires Named(owner, w.access) && Clear(owner, w, device) && Follows(owner, w, step, v)
      && !Regrants(w, step, device)
    ensures Clear(owner, v, device)
  {
    match step {
      case CheckSwitch(task) => ClearByTask(owner, w, task, v.tasks[task].life, device);
      case CheckTable(task) => ClearByTask(owner, w, task, v.tasks[task].life, device);
      case TryOpen(task, life) => ClearByTask(owner, w, task, life, device);
      case End(task) => ClearByTask(owner, w, task, Over, device);
      case Advance(pid, spawned, opens) => ClearByCall(owner, w, pid, spawned, opens, device);
      case AdvanceWriter => ClearByWriter(owner, w, device);
      case _ =>
    }
  }

  /** When a snapshot's grants have been applied, every device they leave out is clear. */
  lemma AppliedIsClear(owner: Port -> string, w: World, device: string)
    requires Inv(owner, w, false) && w.writer.ApplyOutputs? && device !in Devices(w.access)
    ensures Clear(owner, WriterStep(w), device)
  {
    forall o <- WriterStep(w).outputs ensures owner(o) != device {
      PermittedIsForeign(owner, w.access, false, o, device);
    }
    forall t <- w.tasks | Live(w.tasks, t) ensures owner(w.tasks[t].port) != device {
      PermittedIsForeign(owner, w.access, true, w.tasks[t].port, device);
    }
    forall pid <- w.calls | w.calls[pid].EnsureResolved? ensures owner(w.calls[pid].port) != device {
      PermittedIsForeign(owner, w.access, true, w.calls[pid].port, device);
    }
  }

  lemma ReleasingIsOlder(owner: Port -> string, w: World, step: Step, device: string)
    requires Enabled(owner, w, step) && device in Next(owner, w, step).releasing
    ensures (step.AdvanceWriter? && w.writer.ApplyOutputs? && device in w.writer.releasing)
         || (device in w.releasing && !step.BeginApply?)
  {
    match step {
      case Advance(pid, spawned, opens) => CallKeepsTables(w, pid, spawned, opens);
      case _ =>
    }
  }

  lemma CallKeepsTables(w: World, pid: Pid, spawned: Tid, opens: bool)
    requires pid in w.calls
    ensures var v := CallStep(w, pid, spawned, opens);
      v.releasing == w.releasing && v.access == w.access && v.writer == w.writer
  {
    match w.calls[pid] {
      case EnsureOn(_) =>
      case EnsureResolved(_, _) =>
      case StopHolds(_) =>
      case SendAsked(_) =>
      case _ =>
    }
  }

  lemma ReleasingStepIsClear(owner: Port -> string, w: World, step: Step, v: World, device: string)
    requires Inv(owner, w, false) && Follows(owner, w, step, v) && device in v.releasing
    requires device in w.releasing ==> Clear(owner, w, device)
    ensures Clear(owner, v, device)
  {
    ReleasingIsOlder(owner, w, step, device);
    if step.AdvanceWriter? && w.writer.ApplyOutputs? && device in w.writer.releasing {
      AppliedIsClear(owner, w, device);
    } else {
      ClearKept(owner, w, step, v, device);
    }
  }

  lemma ReleasingAtNext(owner: Port -> string, states: seq<World>, steps: seq<Step>, n: nat, device: string)
    requires CleanTrace(owner, states, steps) && n < |steps| && device in states[n + 1].releasing
    requires device in states[n].releasing ==> Clear(owner, states[n], device)
    ensures Clear(owner, states[n + 1], device)
  {
    TraceKeepsInv(owner, states, steps, n, false);
    ReleasingStepIsClear(owner, states[n], steps[n], states[n + 1], device);
  }

  lemma {:induction false} ReleasingIsClear(owner: Port -> string, states: seq<World>, steps: seq<Step>, n: nat,
      device: string)
    requires CleanTrace(owner, states, steps) && n <= |steps| && device in states[n].releasing
    ensures Clear(owner, states[n], device)
  {
    if n == 0 {
    } else {
      if device in states[n - 1].releasing {
        ReleasingIsClear(owner, states, steps, n - 1, device);
      }
      ReleasingAtNext(owner, states, steps, n - 1, device);
    }
  }

  lemma ClearAtNext(owner: Port -> string, states: seq<World>, steps: seq<Step>, n: nat, device: string)
    requires CleanTrace(owner, states, steps) && n < |steps| && Clear(owner, states[n], device)
    requires !Regrants(states[n], steps[n], device)
    ensures Clear(owner, states[n + 1], device)
  {
    TraceKeepsInv(owner, states, steps, n, false);
    ClearKept(owner, states[n], steps[n], states[n + 1], device);
  }

  lemma {:induction false} ClearLasts(owner: Port -> string, states: seq<World>, steps: seq<Step>, i: nat, j: nat,
      device: string)
    requires CleanTrace(owner, states, steps) && i <= j <= |steps| && Clear(owner, states[i], device)
    requires forall k | i <= k < j :: !Regrants(states[k], steps[k], device)
    ensures Clear(owner, states[j], device)
    decreases j
  {
    if i == j {
    } else {
      ClearLasts(owner, states, steps, i, j - 1, device);
      ClearAtNext(owner, states, steps, j - 1, device);
    }
  }

  /**
   On every run with clean cuts: whenever the session may acknowledge a device's release, no live listener and no
   open output is on any of its ports, and none is until a snapshot that grants the device again is applied.
   */
  lemma AcknowledgedReleaseHolds(owner: Port -> string, states: seq<World>, steps: seq<Step>, i: nat, j: nat,
      device: string)
    requires CleanTrace(owner, states, steps) && i <= j <= |steps| && device in states[i].releasing
    requires forall k | i <= k < j :: !Regrants(states[k], steps[k], device)
    ensures forall t <- states[j].tasks :: owner(states[j].tasks[t].port) == device ==> states[j].tasks[t].life.Over?
    ensures forall o <- states[j].outputs :: owner(o) != device
  {
    ReleasingIsClear(owner, states, steps, i, device);
    ClearLasts(owner, states, steps, i, j, device);
  }

  // ----- lease generations -----

  /** Between the replaced table and the joined tasks: old listeners are still being put down. */
  predicate HandingOver(w: World) {
    w.writer.ApplyReplaced? || w.writer.ApplyJoins? || w.writer.ReleaseCleared? || w.writer.ReleaseDrained?
  }

  /** The tasks of `v` are those of `w`, on the same ports and grants, and perhaps one more. */
  predicate SameTasks(w: Tasks, v: Tasks) {
    forall t <- w :: t in v && v[t].port == w[t].port && v[t].grant == w[t].grant
  }

  /** Moreover they stand where they stood, and a new one is at its beginning. */
  predicate Grown(w: Tasks, v: Tasks) {
    && SameTasks(w, v) && (forall t <- w :: t in v && v[t].life == w[t].life)
    && (forall t <- v :: t in w || v[t].life.Checking?)
  }

  lemma AbortGrows(tasks: Tasks, aborted: set<Tid>)
    ensures Grown(tasks, Abort(tasks, aborted))
  {
  }

  lemma CallGrowsTasks(w: World, pid: Pid, spawned: Tid, opens: bool)
    requires pid in w.calls && spawned !in w.tasks
    ensures Grown(w.tasks, CallStep(w, pid, spawned, opens).tasks)
  {
    if Stopping(w.calls[pid]) {
      StopGrowsTasks(w, pid);
    } else if !Sending(w.calls[pid]) {
      EnsureGrowsTasks(w, pid, spawned);
    }
  }

  lemma StopGrowsTasks(w: World, pid: Pid)
    requires pid in w.calls
    ensures Grown(w.tasks, StopStep(w, pid).tasks)
  {
    if w.calls[pid].StopHolds? {
      var port := Resolve(w.access, w.calls[pid].name, true);
      if port.Some? && port.value in w.listeners {
        AbortGrows(w.tasks, {w.listeners[port.value]});
      }
    }
  }

  lemma EnsureGrowsTasks(w: World, pid: Pid, spawned: Tid)
    requires pid in w.calls && spawned !in w.tasks
    ensures Grown(w.tasks, EnsureStep(w, pid, spawned).tasks)
  {
    match w.calls[pid] {
      case EnsureAsked(_) =>
      case EnsureWaits(_) =>
      case EnsureHolds(_) =>
      case EnsureOn(_) =>
      case EnsureResolved(port, grant) =>
        assert Grown(w.tasks, w.tasks[spawned := Listener(port, grant, Checking, false)]);
      case _ =>
    }
  }

  lemma WriterGrowsTasks(w: World)
    ensures Grown(w.tasks, WriterStep(w).tasks)
  {
    match w.writer {
      case ApplyReplaced(prev, _) =>
        var swept := Swept(w, prev).Values;
        AbortGrows(w.tasks, swept);
        assert WriterStep(w).tasks == Abort(w.tasks, swept);
      case ReleaseCleared(_) =>
        AbortGrows(w.tasks, w.listeners.Values);
        assert WriterStep(w).tasks == Abort(w.tasks, w.listeners.Values);
      case _ => assert WriterStep(w).tasks == w.tasks;
    }
  }

  lemma TasksAreFixed(owner: Port -> string, w: World, step: Step, v: World)
    requires Follows(owner, w, step, v)
    ensures SameTasks(w.tasks, v.tasks)
  {
    match step {
      case Advance(pid, spawned, opens) => CallGrowsTasks(w, pid, spawned, opens);
      case AdvanceWriter => WriterGrowsTasks(w);
      case _ =>
    }
  }

  lemma SameTasksTrans(u: Tasks, v: Tasks, w: Tasks)
    requires SameTasks(u, v) && SameTasks(v, w)
    ensures SameTasks(u, w)
  {
  }

  lemma {:induction false} TasksStayFixed(owner: Port -> string, states: seq<World>, steps: seq<Step>, i: nat, j: nat)
    requires Trace(owner, states, steps) && i <= j <= |steps|
    ensures SameTasks(states[i].tasks, states[j].tasks)
    decreases j
  {
    if i == j {
    } else {
      TasksStayFixed(owner, states, steps, i, j - 1);
      TasksAreFixed(owner, states[j - 1], steps[j - 1], states[j]);
      SameTasksTrans(states[i].tasks, states[j - 1].tasks, states[j].tasks);
    }
  }

  /**
   A listener that lives through any stretch of a run with tidy cuts lives on one grant: the same device, lease token
   and ports are in the table at every moment of the stretch that is outside a hand-over. A new token
   therefore ends the listener even when the port keeps its name.
   */
  lemma OneGrantPerListener(owner: Port -> string, states: seq<World>, steps: seq<Step>, i: nat, j: nat, t: Tid)
    requires TidyTrace(owner, states, steps) && i <= j <= |steps|
    requires Live(states[i].tasks, t) && Live(states[j].tasks, t) && !HandingOver(states[i]) && !HandingOver(states[j])
    ensures exists grant <- states[i].access :: grant in states[j].access && states[j].tasks[t].port in grant.inputs
  {
    TraceKeepsInv(owner, states, steps, i, true);
    TraceKeepsInv(owner, states, steps, j, true);
    TasksStayFixed(owner, states, steps, i, j);
    assert Backed(states[i].access, states[i].tasks[t]) && Backed(states[j].access, states[j].tasks[t]);
  }

  // ----- checks before each attempt -----

  predicate Has(tasks: Tasks, t: Tid, life: Life) {
    t in tasks && tasks[t].life == life
  }

  /** The step is an attempt of the listener to open its port. */
  predicate Attempts(step: Step, t: Tid) {
    step.TryOpen? && step.task == t
  }

  /** The listener reads the switch and finds it on. */
  predicate SeesSwitch(w: World, step: Step, t: Tid) {
    step == CheckSwitch(t) && w.enabled
  }

  /** The listener reads the table and finds its port permitted. */
  predicate SeesGrant(w: World, step: Step, t: Tid) {
    step == CheckTable(t) && t in w.tasks && Permits(w.access, true, w.tasks[t].port)
  }

  /** A task comes by each of its two passes only through the check that gives it. */
  lemma LifeStep(owner: Port -> string, w: World, step: Step, v: World, t: Tid)
    requires Follows(owner, w, step, v)
    ensures Has(v.tasks, t, SwitchedOn) ==>
      (Has(w.tasks, t, SwitchedOn) && !Attempts(step, t)) || SeesSwitch(w, step, t)
    ensures Has(v.tasks, t, Allowed) ==>
      (Has(w.tasks, t, Allowed) && !Attempts(step, t)) || (Has(w.tasks, t, SwitchedOn) && SeesGrant(w, step, t))
    ensures Attempts(step, t) ==> Has(w.tasks, t, Allowed)
  {
    match step {
      case Advance(pid, spawned, opens) => CallGrowsTasks(w, pid, spawned, opens);
      case AdvanceWriter => WriterGrowsTasks(w);
      case _ =>
    }
  }

  /** The `j`-th step finds the switch on, and no attempt of the listener lies between it and the `n`-th step. */
  predicate SwitchSeenAt(states: seq<World>, steps: seq<Step>, j: nat, n: nat, t: Tid)
    requires j < n <= |steps| && |states| == |steps| + 1
  {
    SeesSwitch(states[j], steps[j], t) && forall m :: j <= m < n ==> !Attempts(steps[m], t)
  }

  lemma {:induction false} SwitchWasSeen(owner: Port -> string, states: seq<World>, steps: seq<Step>, n: nat, t: Tid)
    returns (j: nat)
    requires Trace(owner, states, steps) && n <= |steps| && Has(states[n].tasks, t, SwitchedOn)
    ensures j < n && SwitchSeenAt(states, steps, j, n, t)
  {
    assert n > 0;
    LifeStep(owner, states[n - 1], steps[n - 1], states[n], t);
    if SeesSwitch(states[n - 1], steps[n - 1], t) {
      j := n - 1;
    } else {
      j := SwitchWasSeen(owner, states, steps, n - 1, t);
    }
  }

  lemma {:induction false} GrantWasSeen(owner: Port -> string, states: seq<World>, steps: seq<Step>, n: nat, t: Tid)
    returns (j: nat, k: nat)
    requires Trace(owner, states, steps) && n <= |steps| && Has(states[n].tasks, t, Allowed)
    ensures j < k < n && SwitchSeenAt(states, steps, j, n, t) && SeesGrant(states[k], steps[k], t)
  {
    assert n > 0;
    LifeStep(owner, states[n - 1], steps[n - 1], states[n], t);
    if Has(states[n - 1].tasks, t, Allowed) && !Attempts(steps[n - 1], t) {
      j, k := GrantWasSeen(owner, states, steps, n - 1, t);
    } else {
      j := SwitchWasSeen(owner, states, steps, n - 1, t);
      k := n - 1;
    }
  }

  /**
   Before each attempt to open its port, and after the attempt before that, a listener has found the switch
   on and then its port permitted.
   */
  lemma EachAttemptIsChecked(owner: Port -> string, states: seq<World>, steps: seq<Step>, n: nat, t: Tid)
    requires Trace(owner, states, steps) && n < |steps| && Attempts(steps[n], t)
    ensures exists j: nat, k: nat ::
      j < k < n && SwitchSeenAt(states, steps, j, n, t) && SeesGrant(states[k], steps[k], t)
  {
    LifeStep(owner, states[n], steps[n], states[n + 1], t);
    var j, k := GrantWasSeen(owner, states, steps, n, t);
  }

  // ----- the fleet switched off -----

  /** Nothing is held and nothing is granted. */
  predicate Empty(w: World) {
    && w.listeners == map[] && w.outputs == {} && w.access == []
    && (forall t <- w.tasks :: !Live(w.tasks, t))
    && (forall pid <- w.calls :: !w.calls[pid].EnsureResolved? && !w.calls[pid].SendResolved?)
    && (w.writer.ApplyWaits? || w.writer.ApplyHolds? ==> w.writer.next == [])
  }

  predicate GrantsSome(w: World, step: Step) {
    step.BeginApply? && Grants(step.snapshot, w.enabled) != []
  }

  lemma EmptyByCall(w: World, pid: Pid, spawned: Tid, opens: bool)
    requires Empty(w) && pid in w.calls
    ensures Empty(CallStep(w, pid, spawned, opens))
  {
  }

  lemma EmptyByWriter(w: World)
    requires Empty(w)
    ensures Empty(WriterStep(w))
  {
    match w.writer {
      case ApplyReplaced(_, _) =>
      case ReleaseCleared(_) =>
      case ApplyOutputs(_, _) =>
      case _ =>
    }
  }

  lemma EmptyKept(owner: Port -> string, w: World, step: Step, v: World)
    requires Empty(w) && Follows(owner, w, step, v) && !GrantsSome(w, step)
    ensures Empty(v)
  {
    match step {
      case Advance(pid, spawned, opens) => EmptyByCall(w, pid, spawned, opens);
      case AdvanceWriter => EmptyByWriter(w);
      case _ =>
    }
  }

  lemma ReleasedIsEmpty(owner: Port -> string, w: World)
    requires Inv(owner, w, false) && w.writer.ReleaseOutputs?
    ensures Empty(WriterStep(w))
  {
  }

  /**
   Once everything is released the map is empty, no task lives and no output is open, and it stays so —
   also with the switch turned on again — until a snapshot with a grant is applied.
   */
  lemma ReleasedStaysEmpty(owner: Port -> string, states: seq<World>, steps: seq<Step>, i: nat, j: nat)
    requires CleanTrace(owner, states, steps) && i < j <= |steps| && steps[i].AdvanceWriter?
      && states[i].writer.ReleaseOutputs?
    requires forall k | i < k < j :: !GrantsSome(states[k], steps[k])
    ensures states[j].listeners == map[] && states[j].outputs == {}
      && forall t <- states[j].tasks :: !Live(states[j].tasks, t)
  {
    TraceKeepsInv(owner, states, steps, i, false);
    assert Follows(owner, states[i], steps[i], states[i + 1]);
    ReleasedIsEmpty(owner, states[i]);
    EmptyLasts(owner, states, steps, i + 1, j);
  }

  lemma EmptyAtNext(owner: Port -> string, states: seq<World>, steps: seq<Step>, n: nat)
    requires Trace(owner, states, steps) && n < |steps| && Empty(states[n]) && !GrantsSome(states[n], steps[n])
    ensures Empty(states[n + 1])
  {
    EmptyKept(owner, states[n], steps[n], states[n + 1]);
  }

  lemma {:induction false} EmptyLasts(owner: Port -> string, states: seq<World>, steps: seq<Step>, i: nat, j: nat)
    requires Trace(owner, states, steps) && i <= j <= |steps| && Empty(states[i])
    requires forall k | i <= k < j :: !GrantsSome(states[k], steps[k])
    ensures Empty(states[j])
    decreases j
  {
    if i == j {
    } else {
      EmptyLasts(owner, states, steps, i, j - 1);
      EmptyAtNext(owner, states, steps, j - 1);
    }
  }
}
