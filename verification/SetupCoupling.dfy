/**
 What one processed status keeps for one device: its task mirrors its pending request, and what it
 believes about its last write agrees with an independent record of the requests sent to the
 service and the answers seen (crates/vantage-point/src/roto_setup_sync.rs:74-170).
 */
module SetupCoupling {
  import opened Prelude
  import opened SetupState
  import opened SetupFiles
  import opened SetupSync

  // ----- the record of a bystander who sees only requests, replies and snapshots -----

  datatype Progress =
    | Issued
    | AcceptedAt(reply: nat)
    | Finished(reply: nat, seen: nat)
    | Spoiled

  /** The last Apply issued for a device, and how far it was seen to get. */
  datatype Applied = Applied(id: nat, hash: Hash, progress: Progress)

  datatype Record = Record(applied: Option<Applied>, registeredOn: set<Lease>)

  function NoteReply(r: Record, d: DeviceView, device: string, lease: Lease, w: World): Record {
    if d.task.None? || w.finished.None? || !Good(d.task.value.action, w.finished.value, device, lease) then r
    else
      match d.task.value.action
      case Register => r.(registeredOn := r.registeredOn + {lease})
      case Apply(_) =>
        if r.applied.Some? && r.applied.value.id == d.task.value.id
        then r.(applied := Some(r.applied.value.(progress := AcceptedAt(w.finished.value.reply.sequence))))
        else r
      case _ => r
  }

  /** An idle snapshot newer than the acceptance shows how the write ended. */
  function NoteStatus(r: Record, st: Status): Record {
    if r.applied.Some? && r.applied.value.progress.AcceptedAt? && !st.configuring
       && r.applied.value.progress.reply < st.sequence
    then r.(applied := Some(r.applied.value.(progress :=
           if st.error.Some? then Spoiled else Finished(r.applied.value.progress.reply, st.sequence))))
    else r
  }

  function NoteRequest(r: Record, rpc: Option<Rpc>): Record {
    if rpc.Some? && rpc.value.action.Apply?
    then r.(applied := Some(Applied(rpc.value.id, rpc.value.action.hash, Issued)))
    else r
  }

  function Noted(r: Record, d: DeviceView, st: Status, lease: Lease, w: World, rpc: Option<Rpc>): Record {
    NoteRequest(NoteStatus(NoteReply(r, d, st.device, lease, w), st), rpc)
  }

  // ----- the invariant of one device -----

  /** A task is in flight exactly while a registration or an Apply awaits its answer, and it is that request. */
  predicate Coupled(d: DeviceView) {
    && d.state.lease == Some(d.lease)
    && match d.state.pending
       case Some(Registering) =>
         d.task.Some? && d.task.value.action == Register && !d.state.registered
       case Some(Requested(hash)) =>
         d.task.Some? && d.task.value.action == Apply(hash) && d.state.registered && d.state.saved.None?
       case Some(Applying(_, busySeen)) =>
         d.task.None? && busySeen && d.afterSequence.Some? && d.state.registered && d.state.saved.None?
       case None => d.task.None?
  }

  predicate Unseen(d: DeviceView) {
    d == Fresh(d.lease, d.state.saved)
  }

  predicate Proven(hash: Option<Hash>, r: Record) {
    hash.Some? ==> r.applied.Some? && r.applied.value.hash == hash.value && r.applied.value.progress.Finished?
  }

  /** The device's beliefs follow from the record. */
  predicate Tracked(d: DeviceView, r: Record, cached: Option<Hash>) {
    && Proven(cached, r)
    && Proven(d.state.saved, r)
    && (d.state.registered ==> d.lease in r.registeredOn)
    && match d.state.pending
       case Some(Requested(hash)) =>
         d.task.Some? && r.applied == Some(Applied(d.task.value.id, hash, Issued)) && cached.None?
       case Some(Applying(hash, _)) =>
         && d.afterSequence.Some? && cached.None? && r.applied.Some?
         && r.applied.value.hash == hash && r.applied.value.progress == AcceptedAt(d.afterSequence.value)
       case _ => true
  }

  predicate DeviceInv(d: DeviceView, r: Record, cached: Option<Hash>) {
    Tracked(d, r, cached) && (Coupled(d) || Unseen(d))
  }

  // ----- the steps of a turn -----

  lemma JoiningKeepsDeviceInv(d: DeviceView, r: Record, cached: Option<Hash>, device: string, lease: Lease, w: World)
    requires DeviceInv(d, r, cached) && lease == d.lease
    ensures DeviceInv(Joined(d, device, lease, w), NoteReply(r, d, device, lease, w), cached)
    ensures Unseen(d) ==> Joined(d, device, lease, w) == d
  {
  }

  /** What is known between an observation and the action it asks for. */
  predicate Poised(d: DeviceView, action: Option<Action>, r: Record, cached: Option<Hash>) {
    && d.state.lease == Some(d.lease)
    && Proven(cached, r) && Proven(d.state.saved, r)
    && (d.state.registered ==> d.lease in r.registeredOn)
    && match action
       case Some(Register) => d.state.pending == Some(Registering) && !d.state.registered && d.task.None?
       case Some(Apply(hash)) =>
         d.state.pending == Some(Requested(hash)) && d.state.registered && d.state.saved.None? && d.task.None?
       case Some(Confirm(hash)) => d.state.pending.None? && d.task.None? && Proven(Some(hash), r)
       case _ => DeviceInv(d, r, cached) && Coupled(d)
  }

  /** A running write whose end is seen confirms or spoils what it wrote; before that nothing changes. */
  lemma ApplyingIsPoised(j: DeviceView, r: Record, cached: Option<Hash>, pin: Hash, st: Status, w: World)
    requires DeviceInv(j, r, cached) && !Stale(j, st) && j.state.pending.Some? && j.state.pending.value.Applying?
    ensures var (state, action) := Observed(j.state, Seen(st, j.lease, pin, w));
            Poised(j.(state := state, busyWarned := st.configuring), action, NoteStatus(r, st), cached)
  {
  }

  /** A request in flight is left alone on its own lease; on another one it may be dropped. */
  lemma WaitingIsPoised(j: DeviceView, r: Record, cached: Option<Hash>, pin: Hash, st: Status, w: World)
    requires DeviceInv(j, r, cached) && Coupled(j) && !Stale(j, st) && j.state.pending.Some?
      && !j.state.pending.value.Applying?
    ensures var (state, action) := Observed(j.state, Seen(st, j.lease, pin, w));
            Poised(j.(state := state, busyWarned := st.configuring), action, NoteStatus(r, st), cached)
  {
  }

  /** With nothing pending the observation may ask for a registration, a write or a confirmation. */
  lemma IdleIsPoised(j: DeviceView, r: Record, cached: Option<Hash>, pin: Hash, st: Status, w: World)
    requires DeviceInv(j, r, cached) && !Stale(j, st) && (Unseen(j) || j.state.pending.None?)
    ensures var (state, action) := Observed(j.state, Seen(st, j.lease, pin, w));
            Poised(j.(state := state, busyWarned := st.configuring), action, NoteStatus(r, st), cached)
  {
    assert Noticed(j.state, Seen(st, j.lease, pin, w)).pending.None?;
  }

  /** Observing a status the barrier lets through. */
  lemma ObservingIsPoised(j: DeviceView, r: Record, cached: Option<Hash>, pin: Hash, st: Status, w: World)
    requires DeviceInv(j, r, cached) && !Stale(j, st)
    ensures var (state, action) := Observed(j.state, Seen(st, j.lease, pin, w));
            Poised(j.(state := state, busyWarned := st.configuring), action, NoteStatus(r, st), cached)
  {
    if Unseen(j) || j.state.pending.None? {
      IdleIsPoised(j, r, cached, pin, st, w);
    } else if j.state.pending.value.Applying? {
      ApplyingIsPoised(j, r, cached, pin, st, w);
    } else {
      WaitingIsPoised(j, r, cached, pin, st, w);
    }
  }

  /** A request leaves only when none is in flight, as the device's task; an Apply only on a registered lease. */
  predicate SoundRequest(before: DeviceView, t: Turn, r: Record, device: string, w: World) {
    t.rpc.Some? ==>
      && before.task.None?
      && t.rpc.value == Rpc(w.id, device, before.lease, t.rpc.value.action)
      && t.device.task == Some(Task(w.id, t.rpc.value.action))
      && (t.rpc.value.action.Register? || t.rpc.value.action.Apply?)
      && (t.rpc.value.action.Apply? ==> before.lease in r.registeredOn)
  }

  lemma ActingKeepsDeviceInv(d: DeviceView, c: Cache, action: Option<Action>, r: Record, device: string, w: World)
    requires Poised(d, action, r, Entry(c, device))
    ensures var t := Acted(d, c, action, device, d.lease, w);
            && DeviceInv(t.device, NoteRequest(r, t.rpc), Entry(t.cache, device))
            && t.device.lease == d.lease
            && SoundRequest(d, t, r, device, w)
  {
  }

  /**
   One status keeps the invariant, whatever the outside world does. A request is only spawned
   when no task is in flight, and an Apply only after a registration answered on this lease.
   */
  lemma TurnKeepsDeviceInv(d: DeviceView, c: Cache, r: Record, pin: Hash, st: Status, lease: Lease, w: World)
    requires DeviceInv(d, r, Entry(c, st.device)) && lease == d.lease
    ensures var t := DeviceTurn(d, c, pin, st, lease, w);
            var r' := Noted(r, d, st, lease, w, t.rpc);
            && DeviceInv(t.device, r', Entry(t.cache, st.device))
            && t.device.lease == d.lease
            && SoundRequest(Joined(d, st.device, lease, w), t, r', st.device, w)
  {
    var j := Joined(d, st.device, lease, w);
    var r1 := NoteReply(r, d, st.device, lease, w);
    JoiningKeepsDeviceInv(d, r, Entry(c, st.device), st.device, lease, w);
    if Stale(j, st) {
      StaleStatusShowsNothing(j, r1, Entry(c, st.device), st);
    } else {
      ObservingIsPoised(j, r1, Entry(c, st.device), pin, st, w);
      var (state, action) := Observed(j.state, Seen(st, lease, pin, w));
      ActingKeepsDeviceInv(j.(state := state, busyWarned := st.configuring), c, action, NoteStatus(r1, st), st.device,
        w);
    }
  }

  lemma StaleStatusShowsNothing(j: DeviceView, r: Record, cached: Option<Hash>, st: Status)
    requires DeviceInv(j, r, cached) && Stale(j, st)
    ensures DeviceInv(j, NoteStatus(r, st), cached)
  {
  }

  /** The coupling needs nothing of the cache or the record: no reply, timeout, save or edit breaks it. */
  lemma TurnKeepsCoupling(d: DeviceView, c: Cache, pin: Hash, st: Status, lease: Lease, w: World)
    requires lease == d.lease && (Coupled(d) || Unseen(d))
    ensures var t := DeviceTurn(d, c, pin, st, lease, w);
            && Coupled(t.device)
            && (t.rpc.Some? ==> Joined(d, st.device, lease, w).task.None? && t.device.task.Some?)
  {
    var j := Joined(d, st.device, lease, w);
    if !Stale(j, st) {
      ObservingKeepsCoupling(j, Seen(st, lease, pin, w));
    }
  }

  lemma ObservingKeepsCoupling(j: DeviceView, o: Observation)
    requires o.lease == Some(j.lease) && (Coupled(j) || Unseen(j))
    ensures var (state, action) := Observed(j.state, o);
            && state.lease == Some(j.lease)
            && match action
               case Some(Register) => state.pending == Some(Registering) && !state.registered && j.task.None?
               case Some(Apply(hash)) =>
                 state.pending == Some(Requested(hash)) && state.registered && state.saved.None? && j.task.None?
               case _ => Coupled(j.(state := state))
  {
    if Unseen(j) {
      assert Noticed(j.state, o).pending.None?;
    } else {
      match j.state.pending
      case None =>
      case Some(Registering) =>
      case Some(Requested(_)) =>
      case Some(Applying(_, _)) =>
    }
  }

  // ----- a whole tick -----

  /** A snapshot gives no device two leases. */
  predicate OneLease(statuses: seq<Status>) {
    forall st <- statuses, su <- statuses ::
      st.device == su.device && st.lease.Some? && su.lease.Some? ==> st.lease == su.lease
  }

  /** Every entry's lease is shown by some status. */
  predicate AllHeld(devices: map<string, DeviceView>, statuses: seq<Status>) {
    forall d <- devices :: Held(statuses, d, devices[d].lease)
  }

  lemma HeldMeetsLease(v: SyncView, statuses: seq<Status>, st: Status)
    requires AllHeld(v.devices, statuses) && OneLease(statuses) && st in statuses && st.lease.Some?
    ensures EntryFor(v, st.device, st.lease.value).lease == st.lease.value
  {
    if st.device in v.devices {
      assert Held(statuses, st.device, v.devices[st.device].lease);
    }
  }

  lemma LeaseKept(d: DeviceView, c: Cache, pin: Hash, st: Status, lease: Lease, w: World)
    ensures DeviceTurn(d, c, pin, st, lease, w).device.lease == d.lease
  {
  }

  lemma TurnKeepsHeld(v: SyncView, pin: Hash, statuses: seq<Status>, i: nat, w: World)
    requires i < |statuses| && OneLease(statuses) && AllHeld(v.devices, statuses)
    ensures AllHeld(StatusTurn(v, pin, statuses[i], w).0.devices, statuses)
  {
    var st := statuses[i];
    if st.lease.Some? {
      assert Held(statuses, st.device, st.lease.value);
      LeaseKept(EntryFor(v, st.device, st.lease.value), v.cache, pin, st, st.lease.value, w);
    }
  }

  lemma {:induction false} TurnsKeepHeld(v: SyncView, pin: Hash, statuses: seq<Status>, worlds: seq<World>, n: nat)
    requires |statuses| == |worlds| && n <= |statuses| && OneLease(statuses) && AllHeld(v.devices, statuses)
    ensures AllHeld(Turns(v, pin, statuses, worlds, n).0.devices, statuses)
  {
    if n == 0 {
    } else {
      TurnsKeepHeld(v, pin, statuses, worlds, n - 1);
      TurnKeepsHeld(Turns(v, pin, statuses, worlds, n - 1).0, pin, statuses, n - 1, worlds[n - 1]);
    }
  }

  /**
   After a tick has dropped the entries whose lease is gone, every status reaches an entry of its own
   lease (or a new one), so the single-status results apply to each turn of the tick.
   */
  lemma TurnsMeetTheirLease(v: SyncView, pin: Hash, statuses: seq<Status>, worlds: seq<World>, n: nat)
    requires |statuses| == |worlds| && n <= |statuses| && OneLease(statuses) && AllHeld(v.devices, statuses)
    ensures AllHeld(Turns(v, pin, statuses, worlds, n).0.devices, statuses)
    ensures n < |statuses| && statuses[n].lease.Some? ==>
              EntryFor(Turns(v, pin, statuses, worlds, n).0, statuses[n].device, statuses[n].lease.value).lease
              == statuses[n].lease.value
  {
    TurnsKeepHeld(v, pin, statuses, worlds, n);
    if n < |statuses| && statuses[n].lease.Some? {
      HeldMeetsLease(Turns(v, pin, statuses, worlds, n).0, statuses, statuses[n]);
    }
  }

  // ----- when a request overwrites a running task -----

  /** The turn hands out a request although the reply to an earlier one has not been joined. */
  predicate Overwrites(d: DeviceView, c: Cache, pin: Hash, st: Status, lease: Lease, w: World) {
    Joined(d, st.device, lease, w).task.Some? && DeviceTurn(d, c, pin, st, lease, w).rpc.Some?
  }

  /**
   A coupled entry's running task is overwritten exactly by an idle status past the barrier that shows the
   device on another lease while that task has not finished.
   */
  lemma TaskIsOverwrittenExactlyWhen(d: DeviceView, c: Cache, pin: Hash, st: Status, lease: Lease, w: World)
    requires Coupled(d) || Unseen(d)
    ensures Overwrites(d, c, pin, st, lease, w) <==>
      && lease != d.lease && d.task.Some? && w.finished.None?
      && (d.afterSequence.Some? ==> d.afterSequence.value < st.sequence) && !st.configuring
  {
    match d.state.pending
    case None =>
    case Some(Registering) =>
    case Some(Requested(_)) =>
    case Some(Applying(_, _)) =>
  }

  predicate AllCoupled(v: SyncView) {
    forall d <- v.devices :: Coupled(v.devices[d]) || Unseen(v.devices[d])
  }

  /** A snapshot that gives each device one lease never makes a tick overwrite a task. */
  lemma {:induction false} OneLeaseOverwritesNothing(v: SyncView, pin: Hash, statuses: seq<Status>,
      worlds: seq<World>, n: nat)
    requires |statuses| == |worlds| && n <= |statuses| && OneLease(statuses) && AllCoupled(v)
    requires AllHeld(v.devices, statuses)
    ensures AllCoupled(Turns(v, pin, statuses, worlds, n).0)
    ensures var u := Turns(v, pin, statuses, worlds, n).0;
      n < |statuses| && statuses[n].lease.Some? ==>
        !Overwrites(EntryFor(u, statuses[n].device, statuses[n].lease.value), u.cache, pin, statuses[n],
                    statuses[n].lease.value, worlds[n])
  {
    if n == 0 {
    } else {
      OneLeaseOverwritesNothing(v, pin, statuses, worlds, n - 1);
      TurnsMeetTheirLease(v, pin, statuses, worlds, n - 1);
      TurnKeepsAllCoupled(Turns(v, pin, statuses, worlds, n - 1).0, pin, statuses[n - 1], worlds[n - 1]);
    }
    TurnsMeetTheirLease(v, pin, statuses, worlds, n);
    var u := Turns(v, pin, statuses, worlds, n).0;
    if n < |statuses| && statuses[n].lease.Some? {
      var lease := statuses[n].lease.value;
      TaskIsOverwrittenExactlyWhen(EntryFor(u, statuses[n].device, lease), u.cache, pin, statuses[n], lease, worlds[n]);
    }
  }

  lemma TurnKeepsAllCoupled(v: SyncView, pin: Hash, st: Status, w: World)
    requires AllCoupled(v) && (st.lease.Some? ==> EntryFor(v, st.device, st.lease.value).lease == st.lease.value)
    ensures AllCoupled(StatusTurn(v, pin, st, w).0)
  {
    if st.lease.Some? {
      TurnKeepsCoupling(EntryFor(v, st.device, st.lease.value), v.cache, pin, st, st.lease.value, w);
    }
  }

  /** With two leases for one device in one snapshot, the second status spawns over the first one's task. */
  lemma TwoLeasesOverwriteATask(hash: Hash, w1: World, w2: World)
    requires w1.id != w2.id && w2.finished.None?
    ensures var a := Status("roto", Some("a"), 1, false, None, None);
            var b := a.(lease := Some("b"));
            var (v, sent) := Turns(SyncView(map[], Cache(map[], map[])), hash, [a, b], [w1, w2], 2);
            && sent == [Rpc(w1.id, "roto", "a", Register), Rpc(w2.id, "roto", "b", Register)]
            && v.devices["roto"].task == Some(Task(w2.id, Register))
  {
    var a := Status("roto", Some("a"), 1, false, None, None);
    var b := a.(lease := Some("b"));
    var v0 := SyncView(map[], Cache(map[], map[]));
    var (v1, sent1) := StatusTurn(v0, hash, a, w1);
    assert v1.devices["roto"].task == Some(Task(w1.id, Register)) && sent1 == [Rpc(w1.id, "roto", "a", Register)];
    var (v2, sent2) := StatusTurn(v1, hash, b, w2);
    assert v2.devices["roto"].task == Some(Task(w2.id, Register)) && sent2 == [Rpc(w2.id, "roto", "b", Register)];
    assert Turns(v0, hash, [a, b], [w1, w2], 0) == (v0, []);
    assert [] + sent1 == sent1;
    assert Turns(v0, hash, [a, b], [w1, w2], 1) == (v1, sent1);
    assert sent1 + sent2 == [Rpc(w1.id, "roto", "a", Register), Rpc(w2.id, "roto", "b", Register)];
  }
}
