/**
 The sequence barrier over whole runs: if the service never accepts an Apply after a newer one was sent for
 the same device, a held hash is always the device's content, however old the snapshots and replies shown on
 the way were (crates/vantage-point/src/roto_setup_sync.rs:88-125).
 */
module SetupBarrier {
  import opened Prelude
  import opened SetupState
  import opened SetupProtocol

  /** An Apply is accepted only while it is the newest one sent for its device. */
  predicate Prompt(s: System, step: Step) {
    step.Accept? && step.rpc.action.Apply? ==> LastApply(s, step.rpc.device, step.rpc.id, step.rpc.action.hash)
  }

  ghost predicate PromptTrace(states: seq<System>, steps: seq<Step>) {
    Trace(states, steps) && AllLoadsReadable(states, steps)
      && forall i | 0 <= i < |steps| :: Prompt(states[i], steps[i])
  }

  ghost predicate AcceptedEver(history: seq<Snapshot>, device: string, id: nat) {
    exists i :: 0 <= i < |history| && SeatOf(history[i], device).last.Some?
      && SeatOf(history[i], device).last.value.id == id
  }

  predicate Stands(s: System, device: string, id: nat) {
    s.history != [] && SeatOf(Now(s), device).last.Some? && SeatOf(Now(s), device).last.value.id == id
  }

  /** Once the newest Apply of a device has been accepted, it is the last write of its seat. */
  ghost predicate NewestStands(s: System) {
    forall d: string, id: nat, hash: Hash :: LastApply(s, d, id, hash) && AcceptedEver(s.history, d, id) ==>
      Stands(s, d, id)
  }

  lemma SameSnapshotStands(s: System, s': System)
    requires NewestStands(s) && s'.sent == s.sent && s'.history == s.history
    ensures NewestStands(s')
  {
    forall d: string, id: nat, hash: Hash | LastApply(s', d, id, hash) && AcceptedEver(s'.history, d, id)
      ensures Stands(s', d, id)
    {
      assert LastApply(s, d, id, hash) && AcceptedEver(s.history, d, id);
      assert Stands(s, d, id);
    }
  }

  predicate SameLast(a: Seat, b: Seat) {
    a.last.Some? == b.last.Some? && (a.last.Some? ==> a.last.value.id == b.last.value.id)
  }

  lemma AcceptedBefore(history: seq<Snapshot>, snapshot: Snapshot, device: string, id: nat)
    requires AcceptedEver(history + [snapshot], device, id)
    ensures AcceptedEver(history, device, id)
      || (SeatOf(snapshot, device).last.Some? && SeatOf(snapshot, device).last.value.id == id)
  {
    var all := history + [snapshot];
    var i :| 0 <= i < |all| && SeatOf(all[i], device).last.Some? && SeatOf(all[i], device).last.value.id == id;
    assert i < |history| ==> all[i] == history[i];
  }

  /** A new snapshot in which every seat has its last write, or the newest Apply of its device. */
  lemma PublishedStands(s: System, s': System, snapshot: Snapshot, device: string)
    requires s.history != [] && NewestStands(s) && s'.sent == s.sent && s'.history == s.history + [snapshot]
    requires forall d: string :: d != device ==> SameLast(SeatOf(Now(s), d), SeatOf(snapshot, d))
    requires var seat := SeatOf(snapshot, device);
      SameLast(SeatOf(Now(s), device), seat)
        || (seat.last.Some? && exists hash :: LastApply(s, device, seat.last.value.id, hash))
    ensures NewestStands(s')
  {
    forall d: string, id: nat, hash: Hash | LastApply(s', d, id, hash) && AcceptedEver(s'.history, d, id)
      ensures Stands(s', d, id)
    {
      assert LastApply(s, d, id, hash);
      AcceptedBefore(s.history, snapshot, d, id);
      if AcceptedEver(s.history, d, id) {
        assert Stands(s, d, id);
      }
      assert Now(s') == snapshot;
    }
  }

  lemma LastBefore(s: System, s': System, device: string, id: nat, hash: Hash)
    requires forall other <- s.sent :: other in s'.sent && s'.sent[other] == s.sent[other]
    requires LastApply(s', device, id, hash) && id in s.sent
    ensures LastApply(s, device, id, hash)
  {
  }

  /** A request just sent cannot have been accepted yet, and those before it stay what they were. */
  lemma SentStands(s: System, s': System)
    requires Inv(s) && NewestStands(s) && s'.history == s.history
    requires forall other <- s.sent :: other in s'.sent && s'.sent[other] == s.sent[other]
    ensures NewestStands(s')
  {
    forall d: string, id: nat, hash: Hash | LastApply(s', d, id, hash) && AcceptedEver(s'.history, d, id)
      ensures Stands(s', d, id)
    {
      var i :| 0 <= i < |s.history| && SeatOf(s.history[i], d).last.Some?
        && SeatOf(s.history[i], d).last.value.id == id;
      assert WriteSent(s, d, SeatOf(s.history[i], d).last);
      LastBefore(s, s', d, id, hash);
      assert Stands(s, d, id);
    }
  }

  lemma StepStands(s: System, step: Step)
    requires Inv(s) && NewestStands(s) && Enabled(s, step) && Prompt(s, step)
    ensures NewestStands(Next(s, step))
  {
    var s' := Next(s, step);
    match step
    case Process(_, _, _) => SentStands(s, s');
    case Accept(rpc, _) => PublishedStands(s, s', Accepting(s, rpc), rpc.device);
    case EndWrite(device, _) => PublishedStands(s, s', Now(s'), device);
    case SetLease(device, _) => PublishedStands(s, s', Now(s'), device);
    case _ => SameSnapshotStands(s, s');
  }

  lemma {:induction false} NewestAlwaysStands(states: seq<System>, steps: seq<Step>, n: nat)
    requires PromptTrace(states, steps) && n <= |steps|
    ensures NewestStands(states[n])
  {
    if n == 0 {
    } else {
      NewestAlwaysStands(states, steps, n - 1);
      TraceKeepsInv(states, steps, n - 1);
      assert Follows(states[n - 1], steps[n - 1], states[n]) && Prompt(states[n - 1], steps[n - 1]);
      StepStands(states[n - 1], steps[n - 1]);
    }
  }

  /**
   On every run of ticks, crashes, restarts, losses and failed saves in which the hash file is readable when
   loaded and no abandoned request is accepted after a newer one was sent, each held hash is what the device
   holds. LateApplyOvertakes shows a run in which one such request is all that goes wrong.
   */
  lemma HeldHashIsTheContent(states: seq<System>, steps: seq<Step>, n: nat, device: string)
    requires PromptTrace(states, steps) && n <= |steps| && device in states[n].sync.cache.values
    ensures states[n].history != [] && Content(SeatOf(Now(states[n]), device)) ==
      Some(states[n].sync.cache.values[device])
  {
    var s := states[n];
    TraceKeepsInv(states, steps, n);
    NewestAlwaysStands(states, steps, n);
    var hash := s.sync.cache.values[device];
    var id, accepted, seen := ProvenWrite(s, device, hash);
    assert AcceptedEver(s.history, device, id);
    assert Stands(s, device, id);
    FinishedWriteStands(s.history, device, id, hash, accepted, seen);
  }
}
