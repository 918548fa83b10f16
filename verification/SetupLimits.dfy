/**
 Why the conditions on the cache theorems of SetupProtocol and SetupBarrier are there: a request that times out
 at the client and is delivered late, and a hash file that cannot be read when it is loaded.
 */
module SetupLimits {
  import opened Prelude
  import opened SetupState
  import opened SetupFiles
  import opened SetupSync
  import opened SetupProtocol

  /** One device on one lease; `broken` tells whether its last write ended with an error. */
  datatype Subject = Subject(device: string, lease: Lease, broken: bool)

  function At(x: Subject, n: nat, busy: bool): Status {
    Status(x.device, Some(x.lease), n, busy, None, if x.broken && !busy then Some("") else None)
  }

  function Answered(reply: Status, now: nat, id: nat): World {
    World(Some(Replied(reply)), now, now, now, true, id)
  }

  // ----- the device's entry along the way -----

  function Asking(x: Subject, saved: Option<Hash>, pin: Hash, id: nat): DeviceView {
    DeviceView(x.lease, StateView(Some(x.lease), pin, 0, saved, false, 0, REGISTER_BACKOFF, Some(Registering), None),
               Some(Task(id, Register)), None, false)
  }

  function Writing1(x: Subject, pin: Hash, due: nat, id: nat, barrier: nat): DeviceView {
    DeviceView(x.lease, StateView(Some(x.lease), pin, due, None, true, 0, REGISTER_BACKOFF, Some(Requested(pin)), None),
               Some(Task(id, Apply(pin))), Some(barrier), false)
  }

  function Idle(x: Subject, pin: Hash, due: nat, saved: Option<Hash>, failed: Option<Hash>, barrier: nat): DeviceView {
    DeviceView(x.lease, StateView(Some(x.lease), pin, due, saved, true, 0, REGISTER_BACKOFF, None, failed),
               None, Some(barrier), false)
  }

  function Silent(now: nat, id: nat): World {
    World(None, now, now, now, true, id)
  }

  lemma TurnAsks(x: Subject, c: Cache, pin: Hash, n: nat, id: nat)
    ensures DeviceTurn(Fresh(x.lease, Entry(c, x.device)), c, pin, At(x, n, false), x.lease, Silent(0, id))
            == Turn(Asking(x, Entry(c, x.device), pin, id), c, Some(Rpc(id, x.device, x.lease, Register)))
  {
  }

  lemma TurnWrites(x: Subject, c: Cache, pin: Hash, n: nat, old_id: nat, id: nat)
    requires n > 0 && Entry(c, x.device) != Some(pin)
    ensures DeviceTurn(Asking(x, Entry(c, x.device), pin, old_id), c, pin, At(x, n, false), x.lease,
                       Answered(At(x, n - 1, false), 0, id))
            == Turn(Writing1(x, pin, 0, id, n - 1), Invalidated(c, x.device, true).0,
                    Some(Rpc(id, x.device, x.lease, Apply(pin))))
  {
  }

  lemma TurnConfirms(x: Subject, c: Cache, pin: Hash, due: nat, n: nat, reply: nat, old_id: nat, barrier: nat, id: nat)
    requires reply < n && !x.broken
    ensures DeviceTurn(Writing1(x, pin, due, old_id, barrier), c, pin, At(x, n, false), x.lease,
                       Answered(At(x, reply, true), due, id))
            == Turn(Idle(x, pin, due, Some(pin), None, reply), Confirmed(c, x.device, pin, true), None)
  {
  }

  lemma TurnTimesOut(x: Subject, c: Cache, pin: Hash, n: nat, old_id: nat, barrier: nat, id: nat)
    requires barrier < n
    ensures DeviceTurn(Writing1(x, pin, 0, old_id, barrier), c, pin, At(x, n, false), x.lease,
                       World(Some(NoReply), 0, 0, 0, true, id))
            == Turn(Idle(x, pin, 0, None, Some(pin), barrier), c, None)
  {
  }

  lemma TurnSeesEdit(x: Subject, c: Cache, pin: Hash, edited: Hash, n: nat, barrier: nat, id: nat)
    requires pin != edited && barrier < n
    ensures DeviceTurn(Idle(x, pin, 0, None, Some(pin), barrier), c, edited, At(x, n, false), x.lease, Silent(0, id))
            == Turn(Idle(x, edited, DEBOUNCE, None, None, barrier), c, None)
  {
  }

  lemma TurnWritesEdit(x: Subject, c: Cache, pin: Hash, n: nat, barrier: nat, id: nat)
    requires barrier < n && Entry(c, x.device).None?
    ensures DeviceTurn(Idle(x, pin, DEBOUNCE, None, None, barrier), c, pin, At(x, n, false), x.lease,
      Silent(DEBOUNCE, id))
            == Turn(Writing1(x, pin, DEBOUNCE, id, barrier), c, Some(Rpc(id, x.device, x.lease, Apply(pin))))
  {
  }

  // ----- moves of the whole system -----

  /** The newest snapshot shows the leased device idle. */
  predicate Quiet(s: System, x: Subject) {
    && s.history != []
    && var seat := SeatOf(Now(s), x.device);
       && seat.lease == Some(x.lease) && !Busy(seat)
       && (x.broken <==> seat.last.Some? && seat.last.value.phase.Broken?)
  }

  predicate Numbered(s: System) {
    forall id <- s.sent :: id < s.nextId
  }

  lemma Show(o: System, s: System, x: Subject, pin: Hash, w: World) returns (s': System)
    requires LeadsTo(o, s, true) && Quiet(s, x) && w.id == s.nextId
    requires var d := EntryFor(s.sync, x.device, x.lease); d.lease == x.lease && PossibleOutcome(s, d, w)
    ensures LeadsTo(o, s', true) && s'.history == s.history && s'.replies == s.replies && s'.nextId == s.nextId + 1
    ensures var t := DeviceTurn(EntryFor(s.sync, x.device, x.lease), s.sync.cache, pin, At(x, |s.history| - 1, false),
      x.lease, w);
            && s'.sync == SyncView(s.sync.devices[x.device := t.device], t.cache)
            && s'.wire == s.wire + (if t.rpc.Some? then {t.rpc.value} else {})
            && s'.sent == if t.rpc.Some? then s.sent[w.id := t.rpc.value] else s.sent
    ensures Numbered(s) ==> Numbered(s')
  {
    var st := At(x, |s.history| - 1, false);
    LeadStep(o, s, Process(st, pin, w), true);
    s' := Next(s, Process(st, pin, w));
  }

  lemma Take(o: System, s: System, x: Subject, rpc: Rpc) returns (s': System)
    requires LeadsTo(o, s, true) && Quiet(s, x) && rpc in s.wire && rpc.device == x.device && rpc.lease == x.lease
    ensures LeadsTo(o, s', true) && s'.sync == s.sync && s'.nextId == s.nextId && s'.sent == s.sent
    ensures s'.wire == s.wire - {rpc}
    ensures s'.history == s.history + [Accepting(s, rpc)]
    ensures s'.replies == s.replies[rpc.id := At(x, |s.history|, rpc.action.Apply?)]
  {
    var reply := At(x, |s.history|, rpc.action.Apply?);
    LeadStep(o, s, Accept(rpc, reply), true);
    s' := Next(s, Accept(rpc, reply));
  }

  lemma Finish(o: System, s: System, device: string) returns (s': System)
    requires LeadsTo(o, s, true) && s.history != [] && Busy(SeatOf(Now(s), device))
    ensures LeadsTo(o, s', true) && s'.sync == s.sync && s'.nextId == s.nextId && s'.sent == s.sent
    ensures s'.wire == s.wire && s'.replies == s.replies
    ensures var seat := SeatOf(Now(s), device);
            s'.history == s.history + [Now(s)[device := seat.(last := Some(seat.last.value.(phase := Written)))]]
  {
    LeadStep(o, s, EndWrite(device, true), true);
    s' := Next(s, EndWrite(device, true));
  }

  lemma Lends(o: System, s: System, device: string, lease: Lease) returns (s': System)
    requires LeadsTo(o, s, true) && s.history != []
    ensures LeadsTo(o, s', true) && s'.sync == s.sync && s'.nextId == s.nextId && s'.sent == s.sent
    ensures s'.wire == s.wire && s'.replies == s.replies
    ensures s'.history == s.history + [Now(s)[device := SeatOf(Now(s), device).(lease := Some(lease))]]
  {
    LeadStep(o, s, SetLease(device, Some(lease)), true);
    s' := Next(s, SetLease(device, Some(lease)));
  }

  /** A fresh entry registers; the reply is there, and one newer snapshot. */
  lemma RunToRegistered(o: System, s: System, x: Subject, pin: Hash) returns (s': System)
    requires LeadsTo(o, s, true) && Quiet(s, x) && x.device !in s.sync.devices
    ensures LeadsTo(o, s', true) && Quiet(s', x) && |s'.history| == |s.history| + 2
    ensures SeatOf(Now(s'), x.device) == SeatOf(Now(s), x.device)
    ensures s'.sync == SyncView(s.sync.devices[x.device := Asking(x, Entry(s.sync.cache, x.device), pin, s.nextId)],
      s.sync.cache)
    ensures s'.nextId == s.nextId + 1 && s.nextId in s'.replies && s'.replies[s.nextId] == At(x, |s.history|, false)
    ensures Numbered(s) ==> Numbered(s')
  {
    var s1 := Show(o, s, x, pin, Silent(0, s.nextId));
    TurnAsks(x, s.sync.cache, pin, |s.history| - 1, s.nextId);
    var s2 := Take(o, s1, x, Rpc(s.nextId, x.device, x.lease, Register));
    s' := Lends(o, s2, x.device, x.lease);
  }

  /** ... and asks for its first write. */
  lemma RunToFirstWrite(o: System, s: System, x: Subject, pin: Hash) returns (s': System, n: nat, id: nat)
    requires LeadsTo(o, s, true) && Quiet(s, x) && x.device !in s.sync.devices
      && Entry(s.sync.cache, x.device) != Some(pin)
    ensures LeadsTo(o, s', true) && Quiet(s', x) && n + 2 == |s'.history| && id + 1 == s'.nextId
    ensures SeatOf(Now(s'), x.device) == SeatOf(Now(s), x.device)
    ensures x.device in s'.sync.devices && s'.sync.devices[x.device] == Writing1(x, pin, 0, id, n)
    ensures s'.sync.cache == Invalidated(s.sync.cache, x.device, true).0
    ensures var rpc := Rpc(id, x.device, x.lease, Apply(pin)); rpc in s'.wire && id in s'.sent && s'.sent[id] == rpc
    ensures Numbered(s) ==> Numbered(s')
  {
    var s1 := RunToRegistered(o, s, x, pin);
    n, id := |s.history|, s1.nextId;
    TurnWrites(x, s1.sync.cache, pin, n + 1, s.nextId, id);
    s' := Show(o, s1, x, pin, Answered(At(x, n, false), 0, id));
  }

  /** The requested write is accepted, ends well and is confirmed. */
  lemma RunToConfirmed(o: System, s: System, x: Subject, pin: Hash, due: nat, id: nat, barrier: nat)
    returns (s': System)
    requires LeadsTo(o, s, true) && Quiet(s, x) && !x.broken && x.device in s.sync.devices
    requires s.sync.devices[x.device] == Writing1(x, pin, due, id, barrier)
    requires Rpc(id, x.device, x.lease, Apply(pin)) in s.wire
    ensures LeadsTo(o, s', true) && Quiet(s', x) && s'.sent == s.sent
    ensures s'.wire == s.wire - {Rpc(id, x.device, x.lease, Apply(pin))}
    ensures s'.sync.cache == Confirmed(s.sync.cache, x.device, pin, true)
  {
    var rpc := Rpc(id, x.device, x.lease, Apply(pin));
    var s1 := Take(o, s, x, rpc);
    var s2 := Finish(o, s1, x.device);
    var n := |s.history|;
    assert s2.replies[id] == At(x, n, true) && |s2.history| - 1 == n + 1;
    TurnConfirms(x, s2.sync.cache, pin, due, n + 1, n, id, barrier, s2.nextId);
    s' := Show(o, s2, x, pin, Answered(At(x, n, true), due, s2.nextId));
  }

  /** The first write times out at the client, the pins are edited, and the edited ones are asked for. */
  lemma RunToSecondWrite(o: System, s: System, x: Subject, pin: Hash, edited: Hash, n: nat, id: nat)
    returns (s': System)
    requires LeadsTo(o, s, true) && Quiet(s, x) && n + 2 == |s.history| && x.device in s.sync.devices && pin != edited
    requires s.sync.devices[x.device] == Writing1(x, pin, 0, id, n) && Entry(s.sync.cache, x.device).None?
    ensures LeadsTo(o, s', true) && Quiet(s', x) && s'.history == s.history && s.nextId + 3 == s'.nextId
    ensures x.device in s'.sync.devices && s'.sync.devices[x.device] == Writing1(x, edited, DEBOUNCE, s.nextId + 2, n)
    ensures s'.wire == s.wire + {Rpc(s.nextId + 2, x.device, x.lease, Apply(edited))}
    ensures s'.sync.cache == s.sync.cache
  {
    TurnTimesOut(x, s.sync.cache, pin, n + 1, id, n, s.nextId);
    var s2 := Show(o, s, x, pin, World(Some(NoReply), 0, 0, 0, true, s.nextId));
    TurnSeesEdit(x, s2.sync.cache, pin, edited, n + 1, n, s2.nextId);
    var s3 := Show(o, s2, x, edited, Silent(0, s2.nextId));
    TurnWritesEdit(x, s3.sync.cache, edited, n + 1, n, s3.nextId);
    s' := Show(o, s3, x, edited, Silent(DEBOUNCE, s3.nextId));
  }

  // ----- a late request -----

  /**
   From every state in which a device is leased, idle, without error and not yet looked at, for any two contents of
   which the first is not cached: a first Apply that times out and is delivered after a second one has been confirmed
   leaves the cache naming the second content and the device holding the first.
   */
  lemma LateApplyOvertakes(o: System, x: Subject, first: Hash, second: Hash) returns (s: System)
    requires Quiet(o, x) && !x.broken && x.device !in o.sync.devices && first != second
    requires Entry(o.sync.cache, x.device) != Some(first)
    ensures LeadsTo(o, s, true) && s.history != []
    ensures Entry(s.sync.cache, x.device) == Some(second)
    ensures Content(SeatOf(Now(s), x.device)) == Some(first)
  {
    LeadsNowhere(o, true);
    var s1, n, id := RunToFirstWrite(o, o, x, first);
    var late := Rpc(id, x.device, x.lease, Apply(first));
    var s4 := RunToSecondWrite(o, s1, x, first, second, n, id);
    var s5 := RunToConfirmed(o, s4, x, second, DEBOUNCE, s1.nextId + 2, n);
    assert late in s5.wire;
    var s6 := Take(o, s5, x, late);
    s := Finish(o, s6, x.device);
  }

  // ----- an unreadable load -----

  /** Whatever the cache names for a device is proven. */
  ghost predicate Promised(s: System) {
    forall device <- s.sync.cache.values :: LastApplyFinished(s, device, s.sync.cache.values[device])
  }

  /** And stays so on every continuation whose loads are readable. */
  ghost predicate KeepsPromise(s: System) {
    forall t :: LeadsTo(s, t, true) ==> Promised(t)
  }

  lemma SoundKeepsPromise(s: System)
    requires Inv(s)
    ensures KeepsPromise(s)
  {
    forall t | LeadsTo(s, t, true) ensures Promised(t) {
      InvIsLed(s, t);
      forall device <- t.sync.cache.values ensures LastApplyFinished(t, device, t.sync.cache.values[device]) {
        var _, _, _ := ProvenWrite(t, device, t.sync.cache.values[device]);
      }
    }
  }

  lemma NewestApplyIsLast(s: System, device: string, newest: nat, hash: Hash, newer: Hash)
    requires Numbered(s) && s.nextId == newest + 1 && newest in s.sent && hash != newer
    requires s.sent[newest].device == device && s.sent[newest].action == Apply(newer)
    ensures !LastApplyFinished(s, device, hash)
  {
    forall id: nat ensures !LastApply(s, device, id, hash) {
      assert LastApply(s, device, id, hash) ==> newest <= id < s.nextId;
    }
  }

  /** A running write ends, and the device is lent to this session. */
  lemma BecomesQuiet(o: System, s: System, device: string) returns (s': System, x: Subject)
    requires LeadsTo(o, s, true) && s.history != []
    ensures LeadsTo(o, s', true) && Quiet(s', x) && x.device == device
    ensures s'.sync == s.sync && s'.nextId == s.nextId && s'.sent == s.sent
  {
    s' := s;
    if Busy(SeatOf(Now(s), device)) {
      s' := Finish(o, s, device);
    }
    var last := SeatOf(Now(s'), device).last;
    s' := Lends(o, s', device, "");
    x := Subject(device, "", last.Some? && last.value.phase.Broken?);
  }

  /**
   With an empty memory over a file that still has an entry, a newer content is asked for without touching the
   file, and the next restart brings the old hash back.
   */
  lemma ForgottenEntryComesBack(o: System, s: System, device: string, newer: Hash) returns (s': System)
    requires LeadsTo(o, s, true) && s.history != [] && Numbered(s) && device !in s.sync.devices
    requires s.sync.cache.values == map[] && device in s.sync.cache.file && newer != s.sync.cache.file[device]
    ensures LeadsTo(o, s', true) && s'.sync.cache.values == s.sync.cache.file
    ensures !LastApplyFinished(s', device, s.sync.cache.file[device])
  {
    var s1, x := BecomesQuiet(o, s, device);
    var s2, n, id := RunToFirstWrite(o, s1, x, newer);
    LeadStep(o, s2, Restart(true), true);
    s' := Next(s2, Restart(true));
    NewestApplyIsLast(s', device, id, s.sync.cache.file[device], newer);
  }

  /**
   After any run with readable loads, one more load — at a restart, or after a crash in the middle of a write —
   keeps the cache's promise for good exactly when the hash file can be read then or has nothing in it.
   */
  lemma LoadIsSafeExactlyWhen(s: System, step: Step)
    requires Reachable(s, true) && Enabled(s, step) && (step.Restart? || step.CrashAfterInvalidate?)
    ensures KeepsPromise(Next(s, step)) <==> LoadsReadable(s, step)
  {
    var t := Next(s, step);
    ReachableIsSound(s);
    if LoadsReadable(s, step) {
      StepKeepsInv(s, step);
      SoundKeepsPromise(t);
    } else {
      var device :| device in t.sync.cache.file;
      LeadsNowhere(t, true);
      var u := ForgottenEntryComesBack(t, t, device, t.sync.cache.file[device] + "+");
      assert !Promised(u);
    }
  }
}
