/**
 The whole write protocol: the synchroniser, its hash file, the requests on their way, and the
 service that carries them out. The service numbers its snapshots; a tick may be shown any of
 them, however old. A request the client has given up on may still arrive.

 The service holds one configuration per device ("seat"). It is configuring from the moment it
 accepts a write until the write ends; nobody else writes the seat.
 */
module SetupProtocol {
  import opened Prelude
  import opened SetupState
  import opened SetupFiles
  import opened SetupSync
  import opened SetupCoupling

  datatype Phase = Writing | Written | Broken

  datatype Write = Write(id: nat, hash: Hash, phase: Phase)

  /** One device at one sequence number: `last` is the last write accepted, the `round`-th one. */
  datatype Seat = Seat(lease: Option<Lease>, last: Option<Write>, round: nat)

  type Snapshot = map<string, Seat>

  function SeatOf(snapshot: Snapshot, device: string): Seat {
    if device in snapshot then snapshot[device] else Seat(None, None, 0)
  }

  predicate Busy(seat: Seat) {
    seat.last.Some? && seat.last.value.phase.Writing?
  }

  /** What the device holds: known once its last write has ended well. */
  function Content(seat: Seat): Option<Hash> {
    if seat.last.Some? && seat.last.value.phase.Written? then Some(seat.last.value.hash) else None
  }

  /** A status cut from snapshot number `st.sequence`. */
  predicate CutFrom(history: seq<Snapshot>, st: Status) {
    && st.sequence < |history|
    && var seat := SeatOf(history[st.sequence], st.device);
       && st.lease == seat.lease
       && st.configuring == Busy(seat)
       && (st.error.Some? <==> seat.last.Some? && seat.last.value.phase.Broken?)
  }

  datatype System = System(
    history: seq<Snapshot>,
    wire: set<Rpc>,
    replies: map<nat, Status>,
    sync: SyncView,
    sent: map<nat, Rpc>,
    nextId: nat,
    records: map<string, Record>)

  function RecordOf(s: System, device: string): Record {
    if device in s.records then s.records[device] else Record(None, {})
  }

  function Now(s: System): Snapshot
    requires s.history != []
  {
    s.history[|s.history| - 1]
  }

  datatype Step =
    | Process(st: Status, pin: Hash, w: World)
    | Release(device: string)
    | Restart(readable: bool)
    | CrashAfterInvalidate(device: string, readable: bool)
    | Accept(rpc: Rpc, reply: Status)
    | Lose(rpc: Rpc)
    | EndWrite(device: string, ok: bool)
    | SetLease(device: string, lease: Option<Lease>)

  /** What a task can have come back with: the service's own reply, or an error at any time. */
  predicate PossibleOutcome(s: System, d: DeviceView, w: World) {
    d.task.Some? && w.finished.Some? && w.finished.value.Replied? ==>
      d.task.value.id in s.replies && s.replies[d.task.value.id] == w.finished.value.reply
  }

  predicate Enabled(s: System, step: Step) {
    && s.history != []
    && match step
       case Process(st, _, w) =>
         && CutFrom(s.history, st) && st.lease.Some?
         && EntryFor(s.sync, st.device, st.lease.value).lease == st.lease.value
         && PossibleOutcome(s, EntryFor(s.sync, st.device, st.lease.value), w)
         && w.id == s.nextId
       case Accept(rpc, reply) =>
         && rpc in s.wire
         && (rpc.action.Apply? ==>
           SeatOf(Now(s), rpc.device).lease == Some(rpc.lease) && !Busy(SeatOf(Now(s), rpc.device)))
         && CutFrom(s.history + [Accepting(s, rpc)], reply)
         && reply.sequence == |s.history| && reply.device == rpc.device
       case Lose(rpc) => rpc in s.wire
       case EndWrite(device, _) => Busy(SeatOf(Now(s), device))
       case Release(_) => true
       case Restart(_) => true
       case CrashAfterInvalidate(_, _) => true
       case SetLease(_, _) => true
  }

  /** The snapshot in which the service has taken a request; a registration changes no content. */
  function Accepting(s: System, rpc: Rpc): Snapshot
    requires s.history != []
  {
    if rpc.action.Apply? then
      var seat := SeatOf(Now(s), rpc.device);
      Now(s)[rpc.device := seat.(last := Some(Write(rpc.id, rpc.action.hash, Writing)), round := seat.round + 1)]
    else Now(s)
  }

  /** One status taken by the client; requests go on the wire. */
  function Processed(s: System, st: Status, pin: Hash, w: World): System
    requires st.lease.Some?
  {
    var d := EntryFor(s.sync, st.device, st.lease.value);
    var t := DeviceTurn(d, s.sync.cache, pin, st, st.lease.value, w);
    s.(sync := StatusTurn(s.sync, pin, st, w).0,
       wire := s.wire + if t.rpc.Some? then {t.rpc.value} else {},
       sent := if t.rpc.Some? then s.sent[w.id := t.rpc.value] else s.sent,
       nextId := s.nextId + 1,
       records := s.records[st.device := Noted(RecordOf(s, st.device), d, st, st.lease.value, w, t.rpc)])
  }

  function Publish(s: System, snapshot: Snapshot): System {
    s.(history := s.history + [snapshot])
  }

  function Next(s: System, step: Step): System
    requires Enabled(s, step)
  {
    match step
    case Process(st, pin, w) => Processed(s, st, pin, w)
    case Release(device) => s.(sync := s.sync.(devices := s.sync.devices - {device}))
    case Restart(readable) => s.(sync := SyncView(map[], Loaded(s.sync.cache.file, readable)))
    case CrashAfterInvalidate(device, readable) =>
      s.(sync := SyncView(map[], Loaded(Invalidated(s.sync.cache, device, true).0.file, readable)))
    case Accept(rpc, reply) =>
      Publish(s, Accepting(s, rpc)).(wire := s.wire - {rpc}, replies := s.replies[rpc.id := reply])
    case Lose(rpc) => s.(wire := s.wire - {rpc})
    case EndWrite(device, ok) =>
      var seat := SeatOf(Now(s), device);
      Publish(s, Now(s)[device := seat.(last := Some(seat.last.value.(phase := if ok then Written else Broken)))])
    case SetLease(device, lease) => Publish(s, Now(s)[device := SeatOf(Now(s), device).(lease := lease)])
  }

  /** First ever start: no hash file, no write on any device. */
  const START := System([map[]], {}, map[], SyncView(map[], Cache(map[], map[])), map[], 0, map[])

  /** If the step loads the hash file, the file can be read or has nothing in it. */
  predicate LoadsReadable(s: System, step: Step) {
    match step
    case Restart(readable) => readable || s.sync.cache.file == map[]
    case CrashAfterInvalidate(device, readable) => readable || Invalidated(s.sync.cache, device, true).0.file == map[]
    case _ => true
  }

  ghost predicate Follows(before: System, step: Step, after: System) {
    Enabled(before, step) && after == Next(before, step)
  }

  ghost predicate Path(states: seq<System>, steps: seq<Step>) {
    |states| == |steps| + 1 && forall i | 0 <= i < |steps| :: Follows(states[i], steps[i], states[i + 1])
  }

  ghost predicate Trace(states: seq<System>, steps: seq<Step>) {
    Path(states, steps) && states[0] == START
  }

  ghost predicate AllLoadsReadable(states: seq<System>, steps: seq<Step>)
    requires |states| == |steps| + 1
  {
    forall i | 0 <= i < |steps| :: LoadsReadable(states[i], steps[i])
  }

  /** Some run leads from `o` to `s`; with `readable`, one on which every load is readable. */
  ghost predicate LeadsTo(o: System, s: System, readable: bool) {
    exists states: seq<System>, steps: seq<Step> ::
      Path(states, steps) && states[0] == o && states[|steps|] == s && (readable ==> AllLoadsReadable(states, steps))
  }

  /** Some run from the first start leads here. */
  ghost predicate Reachable(s: System, readable: bool) {
    LeadsTo(START, s, readable)
  }

  // ----- the service's history -----

  predicate Progressed(a: Option<Write>, b: Option<Write>) {
    a == b || (a.Some? && b.Some? && a.value.id == b.value.id && a.value.hash == b.value.hash && a.value.phase.Writing?)
  }

  predicate Later(a: Seat, b: Seat) {
    && a.round <= b.round
    && (a.round == b.round ==> Progressed(a.last, b.last))
    && (a.last.Some? && b.last.Some? && a.last.value.id == b.last.value.id ==> a.round == b.round)
    && (a.last.Some? ==> b.last.Some?)
  }

  ghost predicate Evolving(history: seq<Snapshot>) {
    forall i, j, d :: 0 <= i <= j < |history| ==> Later(SeatOf(history[i], d), SeatOf(history[j], d))
  }

  ghost predicate Unaccepted(history: seq<Snapshot>, id: nat) {
    forall i, d :: 0 <= i < |history| && SeatOf(history[i], d).last.Some? ==> SeatOf(history[i], d).last.value.id != id
  }

  ghost predicate AcceptedIn(history: seq<Snapshot>, device: string, n: nat, id: nat, hash: Hash) {
    n < |history| && SeatOf(history[n], device).last == Some(Write(id, hash, Writing))
  }

  // ----- the invariant -----

  predicate WriteSent(s: System, device: string, write: Option<Write>) {
    write.Some? ==>
      && write.value.id in s.sent && s.sent[write.value.id].device == device
      && s.sent[write.value.id].action == Apply(write.value.hash)
  }

  /** `id` is the last Apply sent for the device. */
  predicate LastApply(s: System, device: string, id: nat, hash: Hash) {
    && id in s.sent && s.sent[id].device == device && s.sent[id].action == Apply(hash)
    && forall other <- s.sent :: s.sent[other].device == device && s.sent[other].action.Apply? ==> other <= id
  }

  /** A record names the last Apply sent for its device. */
  predicate AppliedSent(s: System) {
    forall d <- s.records :: s.records[d].applied.Some? ==>
      LastApply(s, d, s.records[d].applied.value.id, s.records[d].applied.value.hash)
  }

  /** Every request ever sent is accounted for, under its own id. */
  ghost predicate Accounted(s: System) {
    && (forall id <- s.sent :: id < s.nextId && s.sent[id].id == id)
    && (forall rpc <- s.wire :: rpc.id in s.sent && s.sent[rpc.id] == rpc && rpc.id !in s.replies)
    && (forall rpc <- s.wire :: Unaccepted(s.history, rpc.id))
    && (forall i, d :: 0 <= i < |s.history| ==> WriteSent(s, d, SeatOf(s.history[i], d).last))
  }

  /** The reply to an Apply is the snapshot in which the service accepted it. */
  ghost predicate RepliesCut(s: System) {
    forall id <- s.replies :: id in s.sent && (s.sent[id].action.Apply? ==>
      AcceptedIn(s.history, s.sent[id].device, s.replies[id].sequence, id, s.sent[id].action.hash))
  }

  ghost predicate TasksSent(s: System) {
    forall d <- s.sync.devices :: s.sync.devices[d].task.Some? ==>
      var task := s.sync.devices[d].task.value;
      task.id in s.sent && s.sent[task.id] == Rpc(task.id, d, s.sync.devices[d].lease, task.action)
  }

  ghost predicate Believes(s: System) {
    && (forall d <- s.sync.devices :: DeviceInv(s.sync.devices[d], RecordOf(s, d), Entry(s.sync.cache, d)))
    && (forall d <- s.sync.cache.values :: Proven(Some(s.sync.cache.values[d]), RecordOf(s, d)))
  }

  /** The record of a device agrees with the service's history. */
  ghost predicate RecordTrue(history: seq<Snapshot>, device: string, r: Record) {
    r.applied.Some? ==>
      var a := r.applied.value;
      match a.progress
      case AcceptedAt(n) => AcceptedIn(history, device, n, a.id, a.hash)
      case Finished(n, seen) =>
        && AcceptedIn(history, device, n, a.id, a.hash) && n < seen < |history|
        && Content(SeatOf(history[seen], device)).Some?
      case _ => true
  }

  ghost predicate Inv(s: System) {
    && s.history != []
    && Evolving(s.history) && Accounted(s) && RepliesCut(s) && TasksSent(s) && AppliedSent(s)
    && FileWithinMemory(s.sync.cache) && Believes(s)
    && (forall d <- s.records :: RecordTrue(s.history, d, s.records[d]))
  }

  // ----- the service's steps -----

  predicate SameRound(a: Seat, b: Seat) {
    a.round == b.round && Progressed(a.last, b.last)
  }

  lemma EvolvingAppend(history: seq<Snapshot>, snapshot: Snapshot)
    requires Evolving(history)
    requires forall i, d :: 0 <= i < |history| ==> Later(SeatOf(history[i], d), SeatOf(snapshot, d))
    ensures Evolving(history + [snapshot])
  {
  }

  lemma SameRoundsEvolve(h: seq<Snapshot>, snapshot: Snapshot)
    requires h != [] && Evolving(h) && forall d :: SameRound(SeatOf(h[|h| - 1], d), SeatOf(snapshot, d))
    ensures Evolving(h + [snapshot])
  {
    forall i, d | 0 <= i < |h| ensures Later(SeatOf(h[i], d), SeatOf(snapshot, d)) {
      assert Later(SeatOf(h[i], d), SeatOf(h[|h| - 1], d));
    }
    EvolvingAppend(h, snapshot);
  }

  lemma SameRoundsAppend(s: System, snapshot: Snapshot)
    requires Inv(s)
    requires forall d :: SameRound(SeatOf(Now(s), d), SeatOf(snapshot, d))
    ensures Inv(Publish(s, snapshot))
  {
    SameRoundsEvolve(s.history, snapshot);
    HistoryOnlyGrew(s, Publish(s, snapshot));
  }

  /** What the invariant says of the client survives new snapshots. */
  lemma HistoryOnlyGrew(s: System, s': System)
    requires Inv(s) && |s.history| <= |s'.history| && s'.history[..|s.history|] == s.history
    ensures forall d <- s.records :: RecordTrue(s'.history, d, s.records[d])
    ensures forall id <- s.replies :: s.sent[id].action.Apply? ==>
              AcceptedIn(s'.history, s.sent[id].device, s.replies[id].sequence, id, s.sent[id].action.hash)
  {
  }

  lemma AcceptKeepsInv(s: System, rpc: Rpc, reply: Status)
    requires Inv(s) && Enabled(s, Accept(rpc, reply))
    ensures Inv(Next(s, Accept(rpc, reply)))
  {
    var h, snapshot := s.history, Accepting(s, rpc);
    var s' := Next(s, Accept(rpc, reply));
    forall i, d | 0 <= i < |h| ensures Later(SeatOf(h[i], d), SeatOf(snapshot, d)) {
      assert Later(SeatOf(h[i], d), SeatOf(h[|h| - 1], d));
    }
    EvolvingAppend(h, snapshot);
    HistoryOnlyGrew(s, s');
    AcceptKeepsAccounts(s, rpc, reply);
  }

  lemma AcceptKeepsAccounts(s: System, rpc: Rpc, reply: Status)
    requires Inv(s) && Enabled(s, Accept(rpc, reply))
    ensures Accounted(Next(s, Accept(rpc, reply)))
  {
    var s' := Next(s, Accept(rpc, reply));
    var last := |s.history| - 1;
    forall other | other in s'.wire ensures Unaccepted(s'.history, other.id) {
      assert s.sent[other.id] == other && s.sent[rpc.id] == rpc;
      forall i, d | 0 <= i < |s'.history| && SeatOf(s'.history[i], d).last.Some?
        ensures SeatOf(s'.history[i], d).last.value.id != other.id
      {
        assert Unaccepted(s.history, other.id);
        assert SeatOf(s.history[if i <= last then i else last], d) == SeatOf(s'.history[i], d) || d == rpc.device;
      }
    }
    forall i, d | 0 <= i < |s'.history|
      ensures WriteSent(s', d, SeatOf(s'.history[i], d).last)
    {
      assert SeatOf(s.history[if i <= last then i else last], d) == SeatOf(s'.history[i], d) || d == rpc.device;
    }
  }

  // ----- the client's steps -----

  lemma TurnKeepsCache(d: DeviceView, c: Cache, r: Record, pin: Hash, st: Status, lease: Lease, w: World)
    requires DeviceInv(d, r, Entry(c, st.device)) && lease == d.lease && FileWithinMemory(c)
    ensures var c' := DeviceTurn(d, c, pin, st, lease, w).cache;
            FileWithinMemory(c') && forall e :: e != st.device ==> Entry(c', e) == Entry(c, e)
  {
    var j := Joined(d, st.device, lease, w);
    JoiningKeepsDeviceInv(d, r, Entry(c, st.device), st.device, lease, w);
    if !Stale(j, st) {
      var (state, action) := Observed(j.state, Seen(st, lease, pin, w));
      ConfirmOnlyAfterApply(j, NoteReply(r, d, st.device, lease, w), Entry(c, st.device), Seen(st, lease, pin, w));
      ActingKeepsCache(j.(state := state, busyWarned := st.configuring), c, action, st.device, lease, w);
    }
  }

  lemma ConfirmOnlyAfterApply(j: DeviceView, r: Record, cached: Option<Hash>, o: Observation)
    requires DeviceInv(j, r, cached) && o.lease == Some(j.lease)
    ensures var action := Observed(j.state, o).1; action.Some? && action.value.Confirm? ==> cached.None?
  {
  }

  lemma ActingKeepsCache(d: DeviceView, c: Cache, action: Option<Action>, device: string, lease: Lease, w: World)
    requires FileWithinMemory(c)
    requires action.Some? && action.value.Confirm? ==> Entry(c, device).None?
    ensures var c' := Acted(d, c, action, device, lease, w).cache;
            FileWithinMemory(c') && forall e :: e != device ==> Entry(c', e) == Entry(c, e)
  {
  }

  /** The bystander's notes about a status are true of the service's history. */
  lemma NotesAreTrue(s: System, st: Status, pin: Hash, w: World)
    requires Inv(s) && Enabled(s, Process(st, pin, w))
    ensures var lease := st.lease.value; var d := EntryFor(s.sync, st.device, lease);
            forall rpc :: RecordTrue(s.history, st.device, Noted(RecordOf(s, st.device), d, st, lease, w, rpc))
  {
    var lease := st.lease.value;
    var d, r := EntryFor(s.sync, st.device, lease), RecordOf(s, st.device);
    EntryIsSound(s, st.device, lease);
    var r1 := NoteReply(r, d, st.device, lease, w);
    assert RecordTrue(s.history, st.device, r);
    assert RecordTrue(s.history, st.device, r1);
    if r1.applied.Some? && r1.applied.value.progress.AcceptedAt? {
      var n := r1.applied.value.progress.reply;
      if n < st.sequence {
        assert Later(SeatOf(s.history[n], st.device), SeatOf(s.history[st.sequence], st.device));
      }
    }
  }

  /** The entry a status reaches, old or new, satisfies the single-device invariant. */
  lemma EntryIsSound(s: System, device: string, lease: Lease)
    requires Inv(s)
    ensures var d := EntryFor(s.sync, device, lease);
            && DeviceInv(d, RecordOf(s, device), Entry(s.sync.cache, device))
            && (d.task.Some? ==> d.task.value.id in s.sent &&
                                 s.sent[d.task.value.id] == Rpc(d.task.value.id, device, d.lease, d.task.value.action))
  {
  }

  lemma ProcessKeepsBeliefs(s: System, st: Status, pin: Hash, w: World)
    requires Inv(s) && Enabled(s, Process(st, pin, w))
    ensures var s' := Next(s, Process(st, pin, w));
            Believes(s') && FileWithinMemory(s'.sync.cache) && TasksSent(s')
    ensures var t := DeviceTurn(EntryFor(s.sync, st.device, st.lease.value), s.sync.cache, pin, st, st.lease.value, w);
            t.rpc.Some? ==> t.rpc.value.id == s.nextId
  {
    var lease := st.lease.value;
    var d, r := EntryFor(s.sync, st.device, lease), RecordOf(s, st.device);
    var t := DeviceTurn(d, s.sync.cache, pin, st, lease, w);
    var r' := Noted(r, d, st, lease, w, t.rpc);
    EntryIsSound(s, st.device, lease);
    TurnKeepsDeviceInv(d, s.sync.cache, r, pin, st, lease, w);
    TurnKeepsCache(d, s.sync.cache, r, pin, st, lease, w);
    TaskAfterTurn(d, s.sync.cache, pin, st, lease, w);
    OneBeliefReplaced(s, Next(s, Process(st, pin, w)), st.device, t.device, t.cache, r');
    OneTaskReplaced(s, Next(s, Process(st, pin, w)), st.device, t, w.id);
  }

  /** Replacing one device's entry, record and hash leaves what is believed of the others. */
  lemma OneBeliefReplaced(s: System, s': System, device: string, d: DeviceView, c: Cache, r: Record)
    requires Inv(s)
    requires s'.sync == SyncView(s.sync.devices[device := d], c) && s'.records == s.records[device := r]
    requires forall e :: e != device ==> Entry(c, e) == Entry(s.sync.cache, e)
    requires DeviceInv(d, r, Entry(c, device))
    ensures Believes(s')
  {
    forall e | e in c.values ensures Proven(Some(c.values[e]), RecordOf(s', e)) {
      assert Entry(c, e) == Some(c.values[e]);
      if e != device {
        assert Entry(s.sync.cache, e) == Some(c.values[e]);
      }
    }
  }

  lemma OneTaskReplaced(s: System, s': System, device: string, t: Turn, id: nat)
    requires Inv(s)
    requires s'.sync == SyncView(s.sync.devices[device := t.device], t.cache)
    requires id == s.nextId && s'.sent == if t.rpc.Some? then s.sent[id := t.rpc.value] else s.sent
    requires t.rpc.Some? ==>
      && t.rpc.value == Rpc(id, device, t.device.lease, t.rpc.value.action)
      && t.device.task == Some(Task(id, t.rpc.value.action))
    requires t.rpc.None? && t.device.task.Some? ==>
               t.device.task.value.id in s.sent &&
               s.sent[t.device.task.value.id] == Rpc(t.device.task.value.id, device, t.device.lease,
                 t.device.task.value.action)
    ensures TasksSent(s')
  {
  }

  lemma ProcessKeepsInv(s: System, st: Status, pin: Hash, w: World)
    requires Inv(s) && Enabled(s, Process(st, pin, w))
    ensures Inv(Next(s, Process(st, pin, w)))
  {
    ProcessKeepsBeliefs(s, st, pin, w);
    ProcessKeepsRecords(s, st, pin, w);
    ProcessKeepsAccounts(s, st, pin, w);
  }

  /** A request to the service is the only thing that changes which Apply a record names. */
  lemma NotesNameTheRequest(r: Record, d: DeviceView, st: Status, lease: Lease, w: World, rpc: Option<Rpc>)
    ensures var a, b := r.applied, Noted(r, d, st, lease, w, rpc).applied;
            if rpc.Some? && rpc.value.action.Apply? then b == Some(Applied(rpc.value.id, rpc.value.action.hash, Issued))
            else a.Some? == b.Some? && (a.Some? ==> a.value.id == b.value.id && a.value.hash == b.value.hash)
  {
  }

  lemma ProcessKeepsRecords(s: System, st: Status, pin: Hash, w: World)
    requires Inv(s) && Enabled(s, Process(st, pin, w))
    ensures var s' := Next(s, Process(st, pin, w));
            AppliedSent(s') && forall d <- s'.records :: RecordTrue(s'.history, d, s'.records[d])
  {
    var lease := st.lease.value;
    var d, r := EntryFor(s.sync, st.device, lease), RecordOf(s, st.device);
    var t := DeviceTurn(d, s.sync.cache, pin, st, lease, w);
    EntryIsSound(s, st.device, lease);
    TurnKeepsDeviceInv(d, s.sync.cache, r, pin, st, lease, w);
    NotesAreTrue(s, st, pin, w);
    NotesNameTheRequest(r, d, st, lease, w, t.rpc);
    OneRecordReplaced(s, Next(s, Process(st, pin, w)), st.device, Noted(r, d, st, lease, w, t.rpc), t.rpc, w.id);
  }

  lemma OneRecordReplaced(s: System, s': System, device: string, r: Record, rpc: Option<Rpc>, id: nat)
    requires Inv(s) && id == s.nextId && s'.sent == if rpc.Some? then s.sent[id := rpc.value] else s.sent
    requires s'.history == s.history && s'.records == s.records[device := r] && RecordTrue(s.history, device, r)
    requires rpc.Some? ==> rpc.value.device == device && rpc.value.id == id
    requires var a := RecordOf(s, device).applied;
             if rpc.Some? && rpc.value.action.Apply? then r.applied == Some(Applied(id, rpc.value.action.hash, Issued))
             else a.Some? == r.applied.Some? && (a.Some? ==>
               a.value.id == r.applied.value.id && a.value.hash == r.applied.value.hash)
    ensures AppliedSent(s') && forall d <- s'.records :: RecordTrue(s'.history, d, s'.records[d])
  {
    forall d | d in s'.records && s'.records[d].applied.Some?
      ensures LastApply(s', d, s'.records[d].applied.value.id, s'.records[d].applied.value.hash)
    {
      if d != device || !(rpc.Some? && rpc.value.action.Apply?) {
        assert LastApply(s, d, s'.records[d].applied.value.id, s'.records[d].applied.value.hash);
      }
    }
  }

  lemma TaskAfterTurn(d: DeviceView, c: Cache, pin: Hash, st: Status, lease: Lease, w: World)
    ensures var t := DeviceTurn(d, c, pin, st, lease, w);
            t.rpc.None? && t.device.task.Some? ==> t.device.task == d.task
  {
  }

  lemma ProcessKeepsAccounts(s: System, st: Status, pin: Hash, w: World)
    requires Inv(s) && Enabled(s, Process(st, pin, w))
    requires var t := DeviceTurn(EntryFor(s.sync, st.device, st.lease.value), s.sync.cache, pin, st, st.lease.value, w);
             t.rpc.Some? ==> t.rpc.value.id == s.nextId
    ensures Accounted(Next(s, Process(st, pin, w))) && RepliesCut(Next(s, Process(st, pin, w)))
  {
    var t := DeviceTurn(EntryFor(s.sync, st.device, st.lease.value), s.sync.cache, pin, st, st.lease.value, w);
    if t.rpc.Some? {
      OneMoreRequest(s, Next(s, Process(st, pin, w)), t.rpc.value);
    }
  }

  /** A request under the next id disturbs no account of the earlier ones. */
  lemma OneMoreRequest(s: System, s': System, rpc: Rpc)
    requires Accounted(s) && RepliesCut(s) && rpc.id == s.nextId && s'.nextId == s.nextId + 1
    requires s'.history == s.history && s'.replies == s.replies
    requires s'.wire == s.wire + {rpc} && s'.sent == s.sent[rpc.id := rpc]
    ensures Accounted(s') && RepliesCut(s')
  {
  }

  lemma ServiceStepKeepsInv(s: System, step: Step)
    requires Inv(s) && Enabled(s, step) && (step.EndWrite? || step.SetLease?)
    ensures Inv(Next(s, step))
  {
    var seat := SeatOf(Now(s), step.device);
    var seat' := if step.SetLease? then seat.(lease := step.lease)
                 else seat.(last := Some(seat.last.value.(phase := if step.ok then Written else Broken)));
    SameRoundsAppend(s, Now(s)[step.device := seat']);
  }

  /** A start with hashes that were believed before, and no entries, is sound. */
  lemma StartingOverKeepsInv(s: System, c: Cache)
    requires Inv(s) && FileWithinMemory(c)
    requires forall d <- c.values :: d in s.sync.cache.values && c.values[d] == s.sync.cache.values[d]
    ensures Inv(s.(sync := SyncView(map[], c)))
  {
  }

  lemma LoadKeepsInv(s: System, step: Step)
    requires Inv(s) && Enabled(s, step) && LoadsReadable(s, step) && (step.Restart? || step.CrashAfterInvalidate?)
    ensures Inv(Next(s, step))
  {
    match step {
      case CrashAfterInvalidate(device, readable) =>
        InvalidationReachesTheFile(s.sync.cache, device, true);
        StartingOverKeepsInv(s, Loaded(Invalidated(s.sync.cache, device, true).0.file, readable));
      case Restart(readable) => StartingOverKeepsInv(s, Loaded(s.sync.cache.file, readable));
    }
  }

  lemma ReleaseKeepsInv(s: System, device: string)
    requires Inv(s)
    ensures Inv(Next(s, Release(device)))
  {
  }

  lemma LossKeepsInv(s: System, rpc: Rpc)
    requires Inv(s) && rpc in s.wire
    ensures Inv(Next(s, Lose(rpc)))
  {
  }

  lemma StepKeepsInv(s: System, step: Step)
    requires Inv(s) && Enabled(s, step) && LoadsReadable(s, step)
    ensures Inv(Next(s, step))
  {
    match step
    case Process(st, pin, w) => ProcessKeepsInv(s, st, pin, w);
    case Accept(rpc, reply) => AcceptKeepsInv(s, rpc, reply);
    case EndWrite(_, _) => ServiceStepKeepsInv(s, step);
    case SetLease(_, _) => ServiceStepKeepsInv(s, step);
    case Release(device) => ReleaseKeepsInv(s, device);
    case Restart(_) => LoadKeepsInv(s, step);
    case CrashAfterInvalidate(_, _) => LoadKeepsInv(s, step);
    case Lose(rpc) => LossKeepsInv(s, rpc);
  }

  lemma StartKeepsInv()
    ensures Inv(START)
  {
  }

  lemma {:induction false} PathKeepsInv(states: seq<System>, steps: seq<Step>, n: nat)
    requires Path(states, steps) && n <= |steps| && AllLoadsReadable(states, steps) && Inv(states[0])
    ensures Inv(states[n])
  {
    if n == 0 {
    } else {
      PathKeepsInv(states, steps, n - 1);
      assert Follows(states[n - 1], steps[n - 1], states[n]) && LoadsReadable(states[n - 1], steps[n - 1]);
      StepKeepsInv(states[n - 1], steps[n - 1]);
    }
  }

  lemma TraceKeepsInv(states: seq<System>, steps: seq<Step>, n: nat)
    requires Trace(states, steps) && n <= |steps| && AllLoadsReadable(states, steps)
    ensures Inv(states[n])
  {
    StartKeepsInv();
    PathKeepsInv(states, steps, n);
  }

  lemma InvIsLed(o: System, s: System)
    requires LeadsTo(o, s, true) && Inv(o)
    ensures Inv(s)
  {
    var states: seq<System>, steps: seq<Step> :|
      Path(states, steps) && states[0] == o && states[|steps|] == s && AllLoadsReadable(states, steps);
    PathKeepsInv(states, steps, |steps|);
  }

  lemma ReachableIsSound(s: System)
    requires Reachable(s, true)
    ensures Inv(s)
  {
    StartKeepsInv();
    InvIsLed(START, s);
  }

  lemma LeadStep(o: System, s: System, step: Step, readable: bool)
    requires LeadsTo(o, s, readable) && Enabled(s, step) && (readable ==> LoadsReadable(s, step))
    ensures LeadsTo(o, Next(s, step), readable)
  {
    var states: seq<System>, steps: seq<Step> :|
      Path(states, steps) && states[0] == o && states[|steps|] == s && (readable ==> AllLoadsReadable(states, steps));
    var next := Next(s, step);
    assert Follows(s, step, next);
    assert Path(states + [next], steps + [step]);
  }

  lemma LeadsNowhere(o: System, readable: bool)
    ensures LeadsTo(o, o, readable)
  {
    assert Path([o], []);
  }

  // ----- what the cache promises -----

  /** The hash is that of the last Apply sent for the device, and a snapshot showed that Apply ended without error. */
  ghost predicate LastApplyFinished(s: System, device: string, hash: Hash) {
    exists id: nat, n: nat, seen: nat ::
      && LastApply(s, device, id, hash)
      && AcceptedIn(s.history, device, n, id, hash)
      && n < seen < |s.history| && Content(SeatOf(s.history[seen], device)).Some?
  }

  /** The write behind a proven hash, as the invariant knows it. */
  lemma ProvenWrite(s: System, device: string, hash: Hash) returns (id: nat, n: nat, seen: nat)
    requires Inv(s) && Proven(Some(hash), RecordOf(s, device))
    ensures LastApply(s, device, id, hash) && AcceptedIn(s.history, device, n, id, hash)
    ensures n < seen < |s.history| && Content(SeatOf(s.history[seen], device)).Some?
    ensures LastApplyFinished(s, device, hash)
  {
    var a := s.records[device].applied.value;
    id, n, seen := a.id, a.progress.reply, a.progress.seen;
  }

  /**
   Crash-safe cache: after any run of ticks, service steps, lost and late requests, failed saves,
   lease changes, crashes and restarts in which the hash file can be read whenever it is loaded,
   every hash held in memory, in the file or as a device's `saved` content is proven.
   */
  lemma CachedHashIsProven(s: System, device: string, hash: Hash)
    requires Reachable(s, true)
    requires || (device in s.sync.cache.values && s.sync.cache.values[device] == hash)
             || (device in s.sync.cache.file && s.sync.cache.file[device] == hash)
             || (device in s.sync.devices && s.sync.devices[device].state.saved == Some(hash))
    ensures LastApplyFinished(s, device, hash)
  {
    ReachableIsSound(s);
    var _, _, _ := ProvenWrite(s, device, hash);
  }

  /** A write seen to have ended well after its acceptance still stands if nothing was accepted since. */
  lemma FinishedWriteStands(history: seq<Snapshot>, device: string, id: nat, hash: Hash, n: nat, seen: nat)
    requires Evolving(history) && AcceptedIn(history, device, n, id, hash)
    requires n < seen < |history| && Content(SeatOf(history[seen], device)).Some?
    ensures SeatOf(history[|history| - 1], device).last.Some?
    ensures SeatOf(history[|history| - 1], device).last.value.id == id ==>
              Content(SeatOf(history[|history| - 1], device)) == Some(hash)
  {
    var end := |history| - 1;
    assert Later(SeatOf(history[n], device), SeatOf(history[seen], device));
    assert Later(SeatOf(history[seen], device), SeatOf(history[end], device));
    assert Later(SeatOf(history[n], device), SeatOf(history[end], device));
  }

  /**
   Sequence barrier: if the service has accepted nothing after the last Apply sent, a held hash is
   the device's content, however old the snapshots shown on the way were.
   */
  lemma CachedHashIsTheContent(s: System, device: string, id: nat, hash: Hash)
    requires Reachable(s, true) && device in s.sync.cache.values && hash == s.sync.cache.values[device]
    requires s.history != [] && SeatOf(Now(s), device).last.Some? && SeatOf(Now(s), device).last.value.id == id
    requires LastApply(s, device, id, hash)
    ensures Content(SeatOf(Now(s), device)) == Some(hash)
  {
    ReachableIsSound(s);
    var _, n, seen := ProvenWrite(s, device, hash);
    FinishedWriteStands(s.history, device, id, hash, n, seen);
  }

  /**
   What can make a held hash differ from the content: only an older request of this client, given up on and
   accepted late. Unless that one asked for the same content, the hash is the content exactly when the last
   write the service accepted is the last Apply sent.
   */
  lemma CachedHashIsTheContentExactlyWhen(s: System, device: string)
    requires Reachable(s, true) && device in s.sync.cache.values && s.history != []
    ensures var hash, seat := s.sync.cache.values[device], SeatOf(Now(s), device);
            && seat.last.Some?
            && (LastApply(s, device, seat.last.value.id, hash)
                || exists id :: LastApply(s, device, id, hash) && seat.last.value.id < id)
            && (seat.last.value.hash != hash || LastApply(s, device, seat.last.value.id, hash) ==>
                  (Content(seat) == Some(hash) <==> LastApply(s, device, seat.last.value.id, hash)))
  {
    ReachableIsSound(s);
    var hash := s.sync.cache.values[device];
    var id, n, seen := ProvenWrite(s, device, hash);
    FinishedWriteStands(s.history, device, id, hash, n, seen);
    assert WriteSent(s, device, SeatOf(Now(s), device).last);
  }
}
