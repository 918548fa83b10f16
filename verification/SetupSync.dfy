/**
 The setup synchroniser (crates/vantage-point/src/roto_setup_sync.rs): one reconciler per leased
 device, at most one request in flight for each, driven by the 200 ms snapshot loop.

 What the outside world decides while a status is processed arrives as a `World`: whether the
 request's task has finished and how, the clock readings, whether the hash file can be saved,
 and the id of a task if one is spawned. Requests sent to the service are returned.
 */
module SetupSync {
  import opened Prelude
  import opened SetupState
  import opened SetupFiles

  datatype Status = Status(
    device: string,
    lease: Option<Lease>,
    sequence: nat,
    configuring: bool,
    currentSetup: Option<nat>,
    error: Option<string>)

  /** An error, a timeout and a panicked task are all `NoReply`. */
  datatype Outcome = Replied(reply: Status) | NoReply

  datatype Task = Task(id: nat, action: Action)

  /** A request handed to the transport; an Apply carries the content its hash names. */
  datatype Rpc = Rpc(id: nat, device: string, lease: Lease, action: Action)

  datatype World = World(finished: Option<Outcome>, repliedAt: nat, observedAt: nat, refusedAt: nat, saves: bool,
    id: nat)

  datatype DeviceView = DeviceView(
    lease: Lease,
    state: StateView,
    task: Option<Task>,
    afterSequence: Option<nat>,
    busyWarned: bool)

  function Fresh(lease: Lease, saved: Option<Hash>): DeviceView {
    DeviceView(lease, Initial(saved), None, None, false)
  }

  // ----- one status, one device -----

  predicate Good(action: Action, outcome: Outcome, device: string, lease: Lease) {
    && outcome.Replied?
    && outcome.reply.device == device
    && outcome.reply.lease == Some(lease)
    && (action.Apply? ==> outcome.reply.configuring)
  }

  function Joined(d: DeviceView, device: string, lease: Lease, w: World): DeviceView {
    if d.task.None? || w.finished.None? then d
    else
      var action, outcome := d.task.value.action, w.finished.value;
      if Good(action, outcome, device, lease) then
        d.(task := None, afterSequence := Some(outcome.reply.sequence),
           state := if action.Register? then RegisteredOf(d.state)
                    else AcceptedOf(d.state, outcome.reply.configuring))
      else d.(task := None, state := FailedOf(d.state, w.repliedAt))
  }

  /** The snapshot is no newer than the last reply. */
  predicate Stale(d: DeviceView, st: Status) {
    d.afterSequence.Some? && st.sequence <= d.afterSequence.value
  }

  function Seen(st: Status, lease: Lease, pin: Hash, w: World): Observation {
    Observation(Some(lease), pin, st.configuring, st.error.Some?, w.observedAt)
  }

  datatype Turn = Turn(device: DeviceView, cache: Cache, rpc: Option<Rpc>)

  function Spawned(d: DeviceView, c: Cache, action: Action, device: string, lease: Lease, w: World): Turn {
    Turn(d.(task := Some(Task(w.id, action))), c, Some(Rpc(w.id, device, lease, action)))
  }

  function Acted(d: DeviceView, c: Cache, action: Option<Action>, device: string, lease: Lease, w: World): Turn {
    match action
    case Some(Confirm(hash)) => Turn(d, Confirmed(c, device, hash, w.saves), None)
    case Some(Register) => Spawned(d, c, Register, device, lease, w)
    case Some(Apply(hash)) =>
      var (c', ok) := Invalidated(c, device, w.saves);
      if ok then Spawned(d, c', Apply(hash), device, lease, w)
      else Turn(d.(state := FailedOf(d.state, w.refusedAt)), c', None)
    case Some(Failed) => Turn(d, c, None)
    case None => Turn(d, c, None)
  }

  function DeviceTurn(d: DeviceView, c: Cache, pin: Hash, st: Status, lease: Lease, w: World): Turn {
    var j := Joined(d, st.device, lease, w);
    if Stale(j, st) then Turn(j, c, None)
    else
      var (state, action) := Observed(j.state, Seen(st, lease, pin, w));
      Acted(j.(state := state, busyWarned := st.configuring), c, action, st.device, lease, w)
  }

  class DeviceSync {
    const lease: Lease
    const state: State
    var task: Option<Task>
    var afterSequence: Option<nat>
    var busyWarned: bool

    ghost function View(): DeviceView
      reads this, state
    {
      DeviceView(lease, state.View(), task, afterSequence, busyWarned)
    }

    /** Only requests are ever spawned, so the reply of no other action is ever joined. */
    ghost predicate Valid()
      reads this
    {
      task.Some? ==> task.value.action.Register? || task.value.action.Apply?
    }

    constructor (lease: Lease, saved: Option<Hash>)
      ensures View() == Fresh(lease, saved) && Valid() && fresh(state)
    {
      this.lease := lease;
      this.state := new State(saved);
      task, afterSequence, busyWarned := None, None, false;
    }

    method Join(device: string, lease: Lease, w: World)
      requires Valid()
      modifies this, state
      ensures View() == Joined(old(View()), device, lease, w) && Valid()
    {
      if task.Some? && w.finished.Some? {
        var action, outcome := task.value.action, w.finished.value;
        task := None;
        if Good(action, outcome, device, lease) {
          afterSequence := Some(outcome.reply.sequence);
          match action
          case Register => state.Registered();
          case Apply(_) => state.Accepted(outcome.reply.configuring);
          case _ => assert false;
        } else {
          state.Failed(w.repliedAt);
        }
      }
    }

    method Act(action: Option<Action>, hashes: Hashes, device: string, lease: Lease, w: World)
      returns (rpc: Option<Rpc>)
      requires Valid()
      modifies this, state, hashes
      ensures Turn(View(), hashes.View(), rpc) ==
              Acted(old(View()), old(hashes.View()), action, device, lease, w)
      ensures Valid()
    {
      rpc := None;
      match action
      case Some(Confirm(hash)) =>
        var _ := hashes.Confirm(device, hash, w.saves);
      case Some(Failed) =>
      case Some(Register) =>
        task := Some(Task(w.id, Register));
        return Some(Rpc(w.id, device, lease, Register));
      case Some(Apply(hash)) =>
        var ok := hashes.Invalidate(device, w.saves);
        if !ok {
          state.Failed(w.refusedAt);
          return None;
        }
        task := Some(Task(w.id, Apply(hash)));
        return Some(Rpc(w.id, device, lease, Apply(hash)));
      case None =>
    }

    method Process(hashes: Hashes, pin: Hash, st: Status, lease: Lease, w: World) returns (rpc: Option<Rpc>)
      requires Valid()
      modifies this, state, hashes
      ensures Turn(View(), hashes.View(), rpc) ==
              DeviceTurn(old(View()), old(hashes.View()), pin, st, lease, w)
      ensures Valid()
    {
      Join(st.device, lease, w);
      if afterSequence.Some? && st.sequence <= afterSequence.value {
        return None;
      }
      busyWarned := st.configuring;
      var action := state.Observe(Seen(st, lease, pin, w));
      rpc := Act(action, hashes, st.device, lease, w);
    }
  }

  // ----- one tick over all statuses -----

  datatype SyncView = SyncView(devices: map<string, DeviceView>, cache: Cache)

  predicate Held(statuses: seq<Status>, device: string, lease: Lease) {
    exists i | 0 <= i < |statuses| :: statuses[i].device == device && statuses[i].lease == Some(lease)
  }

  function Retained(devices: map<string, DeviceView>, statuses: seq<Status>): map<string, DeviceView> {
    map d | d in devices && Held(statuses, d, devices[d].lease) :: devices[d]
  }

  function EntryFor(v: SyncView, device: string, lease: Lease): DeviceView {
    if device in v.devices then v.devices[device] else Fresh(lease, Entry(v.cache, device))
  }

  function StatusTurn(v: SyncView, pin: Hash, st: Status, w: World): (SyncView, seq<Rpc>) {
    match st.lease
    case None => (v, [])
    case Some(lease) =>
      var t := DeviceTurn(EntryFor(v, st.device, lease), v.cache, pin, st, lease, w);
      (SyncView(v.devices[st.device := t.device], t.cache), if t.rpc.Some? then [t.rpc.value] else [])
  }

  function Turns(v: SyncView, pin: Hash, statuses: seq<Status>, worlds: seq<World>, n: nat): (SyncView, seq<Rpc>)
    requires n <= |statuses| == |worlds|
  {
    if n == 0 then (v, [])
    else
      var (before, sent) := Turns(v, pin, statuses, worlds, n - 1);
      var (after, more) := StatusTurn(before, pin, statuses[n - 1], worlds[n - 1]);
      (after, sent + more)
  }

  function Ticked(v: SyncView, pin: Option<Hash>, statuses: seq<Status>, worlds: seq<World>): (SyncView, seq<Rpc>)
    requires |statuses| == |worlds|
  {
    var kept := v.(devices := Retained(v.devices, statuses));
    if pin.None? then (kept, []) else Turns(kept, pin.value, statuses, worlds, |statuses|)
  }

  lemma OverwriteTwice(devices: map<string, DeviceView>, device: string, d: DeviceView, e: DeviceView)
    ensures devices[device := d][device := e] == devices[device := e]
  {
  }

  lemma KeptKeys(before: map<string, DeviceView>, after: map<string, DeviceView>, statuses: seq<Status>)
    requires forall d <- after :: d in before && after[d] == before[d]
    requires forall d <- before :: d in after <==> Held(statuses, d, before[d].lease)
    ensures after == Retained(before, statuses)
  {
  }

  lemma OneMoreKey<V>(before: map<string, V>, after: map<string, V>, key: string)
    requires after.Keys == before.Keys + {key} && forall k <- before :: k != key ==> after[k] == before[k]
    ensures after == before[key := after[key]]
  {
  }

  class Sync {
    var hashes: Hashes
    var devices: map<string, DeviceSync>

    ghost predicate Valid()
      reads this, devices.Values
    {
      && (forall d <- devices :: devices[d].Valid())
      && (forall d <- devices, e <- devices :: d != e ==>
        devices[d] != devices[e] && devices[d].state != devices[e].state)
    }

    ghost function States(): set<State>
      reads this
    {
      set d <- devices :: devices[d].state
    }

    ghost function View(): SyncView
      reads this, hashes, devices.Values, States()
    {
      SyncView(map d <- devices :: devices[d].View(), hashes.View())
    }

    constructor (file: HashMap, readable: bool)
      ensures Valid() && View() == SyncView(map[], Loaded(file, readable))
      ensures fresh(hashes) && devices == map[]
    {
      hashes := new Hashes.Load(file, readable);
      devices := map[];
    }

    method Retain(statuses: seq<Status>)
      requires Valid()
      modifies this`devices
      ensures Valid()
      ensures View() == old(View()).(devices := Retained(old(View()).devices, statuses))
      ensures devices.Values <= old(devices.Values) && States() <= old(States())
    {
      devices := map d | d in devices && Held(statuses, d, devices[d].lease) :: devices[d];
      ViewOfRetained(statuses);
    }

    twostate lemma ViewOfRetained(statuses: seq<Status>)
      requires forall d <- devices :: d in old(devices) && devices[d] == old(devices)[d]
      requires forall d <- old(devices) :: d in devices <==> Held(statuses, d, old(devices)[d].lease)
      requires hashes == old(hashes) && unchanged(hashes)
      requires forall d <- old(devices) :: unchanged(old(devices)[d]) && unchanged(old(devices)[d].state)
      ensures View() == old(View()).(devices := Retained(old(View()).devices, statuses))
    {
      forall d | d in devices ensures devices[d].View() == old(devices[d].View()) {
        SameView(devices[d]);
      }
      KeptKeys(old(View()).devices, View().devices, statuses);
    }

    twostate lemma SameView(entry: DeviceSync)
      requires unchanged(entry) && unchanged(entry.state)
      ensures entry.View() == old(entry.View())
    {
    }

    method EntryOf(device: string, lease: Lease) returns (entry: DeviceSync)
      requires Valid()
      modifies this`devices
      ensures Valid() && device in devices && devices[device] == entry
      ensures entry.View() == EntryFor(old(View()), device, lease)
      ensures View() == old(View()).(devices := old(View()).devices[device := entry.View()])
      ensures fresh(devices.Values - old(devices.Values)) && fresh(States() - old(States()))
    {
      if device !in devices {
        entry := new DeviceSync(lease, hashes.Get(device));
        devices := devices[device := entry];
        EntryAdded(device);
      } else {
        assert old(View()).devices[device := devices[device].View()] == old(View()).devices;
      }
      entry := devices[device];
    }

    twostate lemma EntryAdded(device: string)
      requires device in devices && device !in old(devices) && devices.Keys == old(devices.Keys) + {device}
      requires forall d <- old(devices) ::
        devices[d] == old(devices)[d] && unchanged(devices[d]) && unchanged(devices[d].state)
      requires hashes == old(hashes) && unchanged(hashes)
      ensures View() == old(View()).(devices := old(View()).devices[device := devices[device].View()])
    {
      forall d | d in old(devices) ensures devices[d].View() == old(devices[d].View()) {
        SameView(devices[d]);
      }
      OneMoreKey(old(View()).devices, View().devices, device);
    }

    /** A call on one entry leaves the others as they were, because entries share nothing. */
    twostate lemma OnlyEntryChanged(device: string)
      requires old(Valid()) && device in devices && devices == old(devices) && devices[device].Valid()
      requires forall d <- devices :: d != device ==> unchanged(devices[d]) && unchanged(devices[d].state)
      ensures Valid()
      ensures View().devices == old(View().devices)[device := devices[device].View()]
    {
      forall d | d in devices && d != device
        ensures devices[d].View() == old(devices[d].View())
      {
      }
    }

    method Advance(pin: Hash, st: Status, lease: Lease, w: World) returns (rpc: Option<Rpc>)
      requires Valid() && st.device in devices
      modifies hashes, devices.Values, States()
      ensures Valid()
      ensures var t := DeviceTurn(old(View()).devices[st.device], old(View()).cache, pin, st, lease, w);
              View() == SyncView(old(View()).devices[st.device := t.device], t.cache) && rpc == t.rpc
    {
      rpc := devices[st.device].Process(hashes, pin, st, lease, w);
      OnlyEntryChanged(st.device);
    }

    method OnStatus(pin: Hash, st: Status, w: World) returns (sent: seq<Rpc>)
      requires Valid()
      modifies this`devices, hashes, devices.Values, States()
      ensures Valid()
      ensures (View(), sent) == StatusTurn(old(View()), pin, st, w)
      ensures fresh(devices.Values - old(devices.Values)) && fresh(States() - old(States()))
    {
      sent := [];
      if st.lease.Some? {
        var entry := EntryOf(st.device, st.lease.value);
        ghost var d := entry.View();
        var rpc := Advance(pin, st, st.lease.value, w);
        OverwriteTwice(old(View()).devices, st.device, d, View().devices[st.device]);
        sent := if rpc.Some? then [rpc.value] else [];
      }
    }

    method Tick(pin: Option<Hash>, statuses: seq<Status>, worlds: seq<World>) returns (sent: seq<Rpc>)
      requires Valid() && |statuses| == |worlds|
      modifies this`devices, hashes, devices.Values, States()
      ensures Valid()
      ensures (View(), sent) == Ticked(old(View()), pin, statuses, worlds)
    {
      Retain(statuses);
      if pin.None? {
        return [];
      }
      ghost var kept := View();
      sent := [];
      for i := 0 to |statuses|
        invariant Valid()
        invariant hashes == old(hashes)
        invariant (View(), sent) == Turns(kept, pin.value, statuses, worlds, i)
        invariant fresh(devices.Values - old(devices.Values)) && fresh(States() - old(States()))
      {
        var more := OnStatus(pin.value, statuses[i], worlds[i]);
        sent := sent + more;
      }
    }
  }
}
