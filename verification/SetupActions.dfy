/**
 What one observation and one turn do, field by field and without the functions that compute it: which action is
 asked for exactly when (crates/vantage-point/src/roto_setup_state.rs:51-126), which statuses the barrier lets
 through, which replies count, and when a request leaves (crates/vantage-point/src/roto_setup_sync.rs:88-170).
 */
module SetupActions {
  import opened Prelude
  import opened SetupState
  import opened SetupFiles
  import opened SetupSync
  import opened SetupCoupling

  // ----- one observation -----

  /** No write and no registration starts while the device is being written. */
  lemma NothingIsAskedWhileConfiguring(s: StateView, o: Observation)
    ensures o.configuring ==> Observed(s, o).1.None?
  {
  }

  /** On a lease already held, the device idle and the content shown before, not failed and not saved. */
  lemma WriteIsAskedExactlyWhen(s: StateView, o: Observation, hash: Hash)
    ensures Observed(s, o).1 == Some(Apply(hash)) <==>
      && o.lease.Some? && s.lease == o.lease && s.registered && !o.configuring && s.pending.None?
      && hash == o.hash && s.desired == hash && s.failedHash != Some(hash) && s.saved != Some(hash) && s.due <= o.now
  {
  }

  /** At once on a new lease, otherwise when the back-off is over and this content has not failed. */
  lemma RegistrationIsAskedExactlyWhen(s: StateView, o: Observation)
    ensures Observed(s, o).1 == Some(Register) <==>
      && o.lease.Some? && !o.configuring
      && (s.lease == o.lease ==>
            && !s.registered && s.pending.None? && s.retryAt <= o.now
            && !(s.desired == o.hash && s.failedHash == Some(o.hash)))
  {
  }

  /** A running write whose busy phase was seen is over when the device is idle: confirmed or failed, as it tells. */
  lemma WriteEndsExactlyWhen(s: StateView, o: Observation, hash: Hash)
    ensures Observed(s, o).1 == Some(Confirm(hash)) <==>
      o.lease.Some? && s.lease == o.lease && s.pending == Some(Applying(hash, true)) && !o.configuring && !o.error
    ensures Observed(s, o).1 == Some(Action.Failed) <==>
      && o.lease.Some? && s.lease == o.lease && s.pending.Some? && s.pending.value.Applying? && s.pending.value.busySeen
      && !o.configuring && o.error
  {
  }

  lemma BeliefsAfterObservation(s: StateView, o: Observation)
    ensures var (n, action) := Observed(s, o);
      && n.desired == o.hash && n.lease == o.lease && n.registered == (s.registered && s.lease == o.lease)
      && n.saved == (match action
                     case Some(Confirm(hash)) => Some(hash)
                     case Some(Apply(_)) => None
                     case _ => s.saved)
      && n.failedHash == (if action == Some(Action.Failed) then Some(s.pending.value.hash)
                          else if s.lease == o.lease && s.desired == o.hash then s.failedHash else None)
  {
  }

  lemma PendingAfterObservation(s: StateView, o: Observation)
    ensures var (n, action) := Observed(s, o);
      n.pending == match action
                   case Some(Register) => Some(Registering)
                   case Some(Apply(hash)) => Some(Requested(hash))
                   case Some(_) => None
                   case None =>
                     if s.lease != o.lease then None
                     else if o.lease.Some? && o.configuring && s.pending.Some? && s.pending.value.Applying? then
                       Some(Applying(s.pending.value.hash, true))
                     else s.pending
  {
  }

  /** A failure ends what was pending: a registration waits, twice as long the next time, up to the limit. */
  lemma AfterFailure(s: StateView, now: nat)
    ensures var n := FailedOf(s, now);
      && n.pending.None? && n.lease == s.lease && n.desired == s.desired && n.due == s.due && n.saved == s.saved
      && n.registered == s.registered
      && (if s.pending == Some(Registering) then
            && n.retryAt == now + s.backoff && n.failedHash == s.failedHash
            && (s.backoff <= 15000 ==> n.backoff == 2 * s.backoff) && (s.backoff >= 15000 ==> n.backoff == 30000)
          else
            && n.retryAt == s.retryAt && n.backoff == s.backoff
            && n.failedHash == if s.pending.Some? then Some(s.pending.value.hash) else s.failedHash)
  {
  }

  /** Only a request comes to run by being accepted, and only a pending registration by being answered. */
  lemma AfterAnswers(s: StateView, configuring: bool)
    ensures AcceptedOf(s, configuring) == s.(pending := match s.pending
                                                        case Some(Requested(hash)) => Some(Applying(hash, configuring))
                                                        case _ => None)
    ensures RegisteredOf(s) ==
      if s.pending == Some(Registering) then s.(registered := true, pending := None) else s
  {
  }

  // ----- one reply -----

  /** A reply counts if it is about this device on this lease, and shows the device busy if it answers a write. */
  predicate Answers(reply: Status, action: Action, device: string, lease: Lease) {
    reply.device == device && reply.lease == Some(lease) && (action.Apply? ==> reply.configuring)
  }

  /** An answered registration registers, an answered write runs; both set the barrier to the reply's number. */
  lemma AnswerIsTaken(d: DeviceView, device: string, w: World, reply: Status)
    requires Coupled(d) && d.task.Some? && w.finished == Some(Replied(reply))
    requires Answers(reply, d.task.value.action, device, d.lease)
    ensures var j := Joined(d, device, d.lease, w);
      && j.task.None? && j.afterSequence == Some(reply.sequence) && j.lease == d.lease
      && (d.task.value.action == Register ==> j.state == d.state.(registered := true, pending := None))
      && (d.task.value.action.Apply? ==>
            j.state == d.state.(pending := Some(Applying(d.task.value.action.hash, true))))
  {
  }

  /** Any other end of the request fails it: a registration waits, a write is not tried again with this content. */
  lemma NoAnswerFails(d: DeviceView, device: string, w: World)
    requires Coupled(d) && d.task.Some? && w.finished.Some?
    requires w.finished.value.Replied? ==> !Answers(w.finished.value.reply, d.task.value.action, device, d.lease)
    ensures var j := Joined(d, device, d.lease, w);
      && j.task.None? && j.afterSequence == d.afterSequence && j.lease == d.lease
      && (d.task.value.action == Register ==>
            && j.state.pending.None? && !j.state.registered && j.state.retryAt == w.repliedAt + d.state.backoff
            && j.state.failedHash == d.state.failedHash)
      && (d.task.value.action.Apply? ==>
            j.state == d.state.(pending := None, failedHash := Some(d.task.value.action.hash)))
  {
  }

  lemma RunningRequestIsLeftAlone(d: DeviceView, device: string, lease: Lease, w: World)
    requires d.task.None? || w.finished.None?
    ensures Joined(d, device, lease, w) == d
  {
  }

  // ----- one turn -----

  /** A status newer than the last reply is looked at; any other one changes nothing but the join. */
  lemma BarrierStopsExactlyTheOld(d: DeviceView, c: Cache, pin: Hash, st: Status, lease: Lease, w: World)
    ensures var j, t := Joined(d, st.device, lease, w), DeviceTurn(d, c, pin, st, lease, w);
      if j.afterSequence.None? || j.afterSequence.value < st.sequence then
        t.device.state.desired == pin && t.device.state.lease == Some(lease) && t.device.busyWarned == st.configuring
      else t == Turn(j, c, None)
  {
    var j := Joined(d, st.device, lease, w);
    var (state, action) := Observed(j.state, Seen(st, lease, pin, w));
    BeliefsAfterObservation(j.state, Seen(st, lease, pin, w));
    ActingKeepsTheRest(j.(state := state, busyWarned := st.configuring), c, action, st.device, lease, w);
  }

  lemma ActingKeepsTheRest(d: DeviceView, c: Cache, action: Option<Action>, device: string, lease: Lease, w: World)
    ensures var e := Acted(d, c, action, device, lease, w).device;
      && e.state.desired == d.state.desired && e.state.lease == d.state.lease && e.busyWarned == d.busyWarned
      && e.lease == d.lease && e.afterSequence == d.afterSequence && e.state.saved == d.state.saved
  {
  }

  /** No request leaves on a status that shows the device configuring. */
  lemma NothingLeavesWhileConfiguring(d: DeviceView, c: Cache, pin: Hash, st: Status, lease: Lease, w: World)
    ensures st.configuring ==> DeviceTurn(d, c, pin, st, lease, w).rpc.None?
  {
    NothingIsAskedWhileConfiguring(Joined(d, st.device, lease, w).state, Seen(st, lease, pin, w));
  }

  /** What both requests need: a status of the idle device that is newer than the last reply, and no other request. */
  predicate Clear(j: DeviceView, st: Status) {
    (j.afterSequence.Some? ==> j.afterSequence.value < st.sequence) && !st.configuring && j.state.pending.None?
  }

  /**
   A write leaves exactly when, after the join, nothing is under way on the registered lease, this content was shown
   before, is neither saved nor failed, its debounce is over, and the old hash could be taken out of the file.
   */
  lemma ApplyLeavesExactlyWhen(d: DeviceView, c: Cache, pin: Hash, st: Status, w: World)
    requires Coupled(d) || Unseen(d)
    ensures var j, t := Joined(d, st.device, d.lease, w), DeviceTurn(d, c, pin, st, d.lease, w);
      t.rpc == Some(Rpc(w.id, st.device, d.lease, Apply(pin))) <==>
        && Clear(j, st) && j.state.lease == Some(d.lease) && j.state.registered && j.state.desired == pin
        && j.state.failedHash != Some(pin) && j.state.saved != Some(pin) && j.state.due <= w.observedAt
        && (st.device in c.values ==> w.saves)
  {
    WriteIsAskedExactlyWhen(Joined(d, st.device, d.lease, w).state, Seen(st, d.lease, pin, w), pin);
  }

  lemma RegisterLeavesExactlyWhen(d: DeviceView, c: Cache, pin: Hash, st: Status, w: World)
    requires Coupled(d) || Unseen(d)
    ensures var j, t := Joined(d, st.device, d.lease, w), DeviceTurn(d, c, pin, st, d.lease, w);
      t.rpc == Some(Rpc(w.id, st.device, d.lease, Register)) <==>
        && Clear(j, st) && !j.state.registered
        && (Coupled(j) ==>
              j.state.retryAt <= w.observedAt && !(j.state.desired == pin && j.state.failedHash == Some(pin)))
  {
    RegistrationIsAskedExactlyWhen(Joined(d, st.device, d.lease, w).state, Seen(st, d.lease, pin, w));
  }

  /** The status is past the barrier and shows that a running write has ended well. */
  predicate EndsWell(d: DeviceView, st: Status) {
    && d.state.pending.Some? && d.state.pending.value.Applying?
    && (d.afterSequence.Some? ==> d.afterSequence.value < st.sequence) && !st.configuring && st.error.None?
  }

  /**
   The hash of a write that has ended well, perhaps answered only in this turn, is in memory at once, and in the file
   if it can be saved; with the request for a write the device is taken out of both; no other turn touches the cache,
   and none another device.
   */
  lemma CacheAfterTurn(d: DeviceView, c: Cache, pin: Hash, st: Status, w: World)
    requires Coupled(d) && FileWithinMemory(c)
    ensures var j, t := Joined(d, st.device, d.lease, w), DeviceTurn(d, c, pin, st, d.lease, w);
      && (EndsWell(j, st) ==>
            && Entry(t.cache, st.device) == Some(j.state.pending.value.hash)
            && t.device.state.saved == Entry(t.cache, st.device) && (w.saves ==> t.cache.file == t.cache.values))
      && (t.rpc.Some? && t.rpc.value.action.Apply? ==> st.device !in t.cache.values && st.device !in t.cache.file)
      && (!EndsWell(j, st) && !(t.rpc.Some? && t.rpc.value.action.Apply?) ==> t.cache == c)
      && (forall other :: other != st.device ==> Entry(t.cache, other) == Entry(c, other))
  {
    var j := Joined(d, st.device, d.lease, w);
    var o := Seen(st, d.lease, pin, w);
    var (state, action) := Observed(j.state, o);
    CacheAfterAction(j.(state := state, busyWarned := st.configuring), c, action, st.device, d.lease, w);
    ActingKeepsTheRest(j.(state := state, busyWarned := st.configuring), c, action, st.device, d.lease, w);
    if j.afterSequence.Some? && st.sequence <= j.afterSequence.value {
      return;
    }
    JoinedWritesAreBusy(d, st.device, w);
    ConfirmationEndsWell(j, pin, st, d.lease, w);
  }

  lemma JoinedWritesAreBusy(d: DeviceView, device: string, w: World)
    requires Coupled(d)
    ensures var s := Joined(d, device, d.lease, w).state;
      s.lease == Some(d.lease) && (s.pending.Some? && s.pending.value.Applying? ==> s.pending.value.busySeen)
  {
  }

  lemma ConfirmationEndsWell(j: DeviceView, pin: Hash, st: Status, lease: Lease, w: World)
    requires j.state.lease == Some(lease)
    requires j.state.pending.Some? && j.state.pending.value.Applying? ==> j.state.pending.value.busySeen
    requires j.afterSequence.Some? ==> j.afterSequence.value < st.sequence
    ensures var (state, action) := Observed(j.state, Seen(st, lease, pin, w));
      && (EndsWell(j, st) <==> action.Some? && action.value.Confirm?)
      && (EndsWell(j, st) ==>
            action == Some(Confirm(j.state.pending.value.hash)) && state.saved == Some(action.value.hash))
  {
    var o := Seen(st, lease, pin, w);
    BeliefsAfterObservation(j.state, o);
    if EndsWell(j, st) {
      WriteEndsExactlyWhen(j.state, o, j.state.pending.value.hash);
    }
  }

  lemma CacheAfterAction(d: DeviceView, c: Cache, action: Option<Action>, device: string, lease: Lease, w: World)
    requires FileWithinMemory(c)
    ensures var t := Acted(d, c, action, device, lease, w);
      && (forall other :: other != device ==> Entry(t.cache, other) == Entry(c, other))
      && (match action
          case Some(Confirm(hash)) =>
            Entry(t.cache, device) == Some(hash) && (w.saves ==> t.cache.file == t.cache.values)
          case Some(Apply(_)) =>
            if t.rpc.Some? then device !in t.cache.values && device !in t.cache.file else t.cache == c
          case _ => t.cache == c)
  {
  }

  // ----- one tick -----

  /** What a turn does to its entry, and what it sends, depends on the cache only through the device's own hash. */
  lemma TurnIsLocal(d: DeviceView, c: Cache, c': Cache, pin: Hash, st: Status, lease: Lease, w: World)
    requires Entry(c, st.device) == Entry(c', st.device)
    ensures var t, t' := DeviceTurn(d, c, pin, st, lease, w), DeviceTurn(d, c', pin, st, lease, w);
      t.device == t'.device && t.rpc == t'.rpc && Entry(t.cache, st.device) == Entry(t'.cache, st.device)
  {
  }

  lemma OthersAreUntouched(v: SyncView, pin: Hash, st: Status, w: World, device: string)
    requires st.device != device
    ensures var n := StatusTurn(v, pin, st, w).0; SameOf(v, n, device)
  {
  }

  /** Both states hold the same of the device. */
  predicate SameOf(v: SyncView, n: SyncView, device: string) {
    && (device in v.devices <==> device in n.devices)
    && (device in v.devices ==> n.devices[device] == v.devices[device])
    && Entry(v.cache, device) == Entry(n.cache, device)
  }

  lemma SameOfChain(u: SyncView, v: SyncView, n: SyncView, device: string)
    requires SameOf(u, v, device) && SameOf(v, n, device)
    ensures SameOf(u, n, device)
  {
  }

  lemma OneTurnOn(v: SyncView, pin: Hash, statuses: seq<Status>, worlds: seq<World>, n: nat, device: string)
    requires |statuses| == |worlds| && n < |statuses| && statuses[n].device != device
    ensures SameOf(Turns(v, pin, statuses, worlds, n).0, Turns(v, pin, statuses, worlds, n + 1).0, device)
    ensures Turns(v, pin, statuses, worlds, n).1 <= Turns(v, pin, statuses, worlds, n + 1).1
  {
    OthersAreUntouched(Turns(v, pin, statuses, worlds, n).0, pin, statuses[n], worlds[n], device);
  }

  lemma {:induction false} UntouchedBetween(v: SyncView, pin: Hash, statuses: seq<Status>, worlds: seq<World>,
      i: nat, n: nat, device: string)
    requires |statuses| == |worlds| && i <= n <= |statuses|
    requires forall j :: i <= j < n ==> statuses[j].device != device
    ensures SameOf(Turns(v, pin, statuses, worlds, i).0, Turns(v, pin, statuses, worlds, n).0, device)
    ensures Turns(v, pin, statuses, worlds, i).1 <= Turns(v, pin, statuses, worlds, n).1
    decreases n
  {
    if i == n {
    } else {
      var m := n - 1;
      var first, before, after := Turns(v, pin, statuses, worlds, i), Turns(v, pin, statuses, worlds, m),
        Turns(v, pin, statuses, worlds, n);
      UntouchedBetween(v, pin, statuses, worlds, i, m, device);
      OneTurnOn(v, pin, statuses, worlds, m, device);
      SameOfChain(first.0, before.0, after.0, device);
    }
  }

  /** The entry a leased status finds: the old one if it is on that lease, else a new one with the cached hash. */
  function Found(v: SyncView, device: string, lease: Lease): DeviceView {
    if device in v.devices && v.devices[device].lease == lease then v.devices[device]
    else Fresh(lease, Entry(v.cache, device))
  }

  /** The device's entry and hash, and what was sent, are as the turn left them. */
  predicate HasTaken(n: (SyncView, seq<Rpc>), device: string, t: Turn) {
    && device in n.0.devices && n.0.devices[device] == t.device
    && Entry(n.0.cache, device) == Entry(t.cache, device) && (t.rpc.Some? ==> t.rpc.value in n.1)
  }

  lemma TakenStays(m: (SyncView, seq<Rpc>), n: (SyncView, seq<Rpc>), device: string, t: Turn)
    requires HasTaken(m, device, t) && SameOf(m.0, n.0, device) && m.1 <= n.1
    ensures HasTaken(n, device, t)
  {
  }

  lemma TurnTaken(v: SyncView, pin: Hash, statuses: seq<Status>, worlds: seq<World>, i: nat) returns (t: Turn)
    requires |statuses| == |worlds| && i < |statuses| && statuses[i].lease.Some?
    ensures HasTaken(Turns(v, pin, statuses, worlds, i + 1), statuses[i].device, t)
    ensures var before, st, lease := Turns(v, pin, statuses, worlds, i).0, statuses[i], statuses[i].lease.value;
      t == DeviceTurn(EntryFor(before, st.device, lease), before.cache, pin, st, lease, worlds[i])
  {
    var before, st, lease := Turns(v, pin, statuses, worlds, i).0, statuses[i], statuses[i].lease.value;
    t := DeviceTurn(EntryFor(before, st.device, lease), before.cache, pin, st, lease, worlds[i]);
  }

  /** And so they stay if no later status lists the device. */
  lemma TurnStands(v: SyncView, pin: Hash, statuses: seq<Status>, worlds: seq<World>, i: nat) returns (t: Turn)
    requires |statuses| == |worlds| && i < |statuses| && statuses[i].lease.Some?
    requires forall j :: i < j < |statuses| ==> statuses[j].device != statuses[i].device
    ensures HasTaken(Turns(v, pin, statuses, worlds, |statuses|), statuses[i].device, t)
    ensures var before, st, lease := Turns(v, pin, statuses, worlds, i).0, statuses[i], statuses[i].lease.value;
      t == DeviceTurn(EntryFor(before, st.device, lease), before.cache, pin, st, lease, worlds[i])
  {
    var device, next, last := statuses[i].device, Turns(v, pin, statuses, worlds, i + 1),
      Turns(v, pin, statuses, worlds, |statuses|);
    t := TurnTaken(v, pin, statuses, worlds, i);
    UntouchedBetween(v, pin, statuses, worlds, i + 1, |statuses|, device);
    TakenStays(next, last, device, t);
  }

  lemma KeptIsFound(v: SyncView, kept: SyncView, before: SyncView, statuses: seq<Status>, st: Status, lease: Lease)
    requires kept == v.(devices := Retained(v.devices, statuses)) && SameOf(kept, before, st.device)
    requires st in statuses && st.lease == Some(lease)
    requires forall su <- statuses :: su.device == st.device ==> su == st
    ensures EntryFor(before, st.device, lease) == Found(v, st.device, lease)
  {
    assert Held(statuses, st.device, lease) by {
      var i :| 0 <= i < |statuses| && statuses[i] == st;
    }
  }

  /**
   A tick over a snapshot that lists the device once treats it as if it were alone: its entry, its cached hash and
   the request it sends are those of one turn, whatever the other statuses are.
   */
  lemma TickTreatsDevicesApart(v: SyncView, pin: Hash, statuses: seq<Status>, worlds: seq<World>, i: nat)
    requires |statuses| == |worlds| && i < |statuses| && statuses[i].lease.Some?
    requires forall j :: 0 <= j < |statuses| && j != i ==> statuses[j].device != statuses[i].device
    ensures var (n, rpcs) := Ticked(v, Some(pin), statuses, worlds);
      var st, lease := statuses[i], statuses[i].lease.value;
      var t := DeviceTurn(Found(v, st.device, lease), v.cache, pin, st, lease, worlds[i]);
      && st.device in n.devices && n.devices[st.device] == t.device
      && Entry(n.cache, st.device) == Entry(t.cache, st.device) && (t.rpc.Some? ==> t.rpc.value in rpcs)
  {
    var st, lease := statuses[i], statuses[i].lease.value;
    var kept := v.(devices := Retained(v.devices, statuses));
    var before := Turns(kept, pin, statuses, worlds, i).0;
    UntouchedBetween(kept, pin, statuses, worlds, 0, i, st.device);
    var t := TurnStands(kept, pin, statuses, worlds, i);
    KeptIsFound(v, kept, before, statuses, st, lease);
    TurnIsLocal(Found(v, st.device, lease), v.cache, before.cache, pin, st, lease, worlds[i]);
  }

  /** An entry outlives a tick only under a status that shows its device leased; without a pin on that very lease. */
  lemma EntriesGoWithTheirLease(v: SyncView, pin: Option<Hash>, statuses: seq<Status>, worlds: seq<World>,
      device: string)
    requires |statuses| == |worlds|
    ensures var (n, rpcs) := Ticked(v, pin, statuses, worlds);
      && (device in n.devices ==> exists st <- statuses :: st.device == device && st.lease.Some?)
      && (pin.None? ==>
            && n.cache == v.cache && rpcs == []
            && (device in n.devices <==>
                  && device in v.devices
                  && exists st <- statuses :: st.device == device && st.lease == Some(v.devices[device].lease))
            && (device in n.devices ==> n.devices[device] == v.devices[device]))
  {
    if device in v.devices {
      HeldMeans(statuses, device, v.devices[device].lease);
    }
    if pin.Some? {
      EntriesAreListed(v.(devices := Retained(v.devices, statuses)), pin.value, statuses, worlds, |statuses|, device);
    }
  }

  lemma HeldMeans(statuses: seq<Status>, device: string, lease: Lease)
    ensures Held(statuses, device, lease) <==> exists st <- statuses :: st.device == device && st.lease == Some(lease)
  {
    if st :| st in statuses && st.device == device && st.lease == Some(lease) {
      var i :| 0 <= i < |statuses| && statuses[i] == st;
    }
  }

  lemma {:induction false} EntriesAreListed(v: SyncView, pin: Hash, statuses: seq<Status>, worlds: seq<World>, n: nat,
      device: string)
    requires |statuses| == |worlds| && n <= |statuses|
    ensures device in Turns(v, pin, statuses, worlds, n).0.devices ==>
      device in v.devices || exists st <- statuses :: st.device == device && st.lease.Some?
  {
    if n == 0 {
    } else {
      EntriesAreListed(v, pin, statuses, worlds, n - 1, device);
      assert statuses[n - 1] in statuses;
    }
  }
}
