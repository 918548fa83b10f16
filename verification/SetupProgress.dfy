/**
 Progress of one device towards its desired content: with the lease and the content fixed, every
 request answered and every write ending without an error, at most five turns that find the device
 idle after its due times are enough (crates/vantage-point/src/roto_setup_state.rs:51-126).
 */
module SetupProgress {
  import opened Prelude
  import opened SetupState
  import SetupTiming
  import opened SetupFiles
  import opened SetupSync
  import opened SetupCoupling

  datatype Input = Input(st: Status, w: World)

  /** The lease and the content are noticed, and this content has not failed on this lease. */
  predicate OnCourse(d: DeviceView, lease: Lease, pin: Hash) {
    && d.lease == lease && Coupled(d)
    && d.state.desired == pin && d.state.failedHash != Some(pin)
  }

  /** Nothing goes wrong: a finished task was answered well, a save succeeds, the snapshot shows no error. */
  predicate Benign(d: DeviceView, device: string, lease: Lease, i: Input) {
    && i.st.device == device && i.st.lease == Some(lease) && i.st.error.None? && i.w.saves
    && (d.task.Some? && i.w.finished.Some? ==> Good(d.task.value.action, i.w.finished.value, device, lease))
  }

  /** The status is newer than the last reply. */
  predicate Newer(st: Status, d: DeviceView) {
    d.afterSequence.Some? ==> d.afterSequence.value < st.sequence
  }

  /**
   Moreover the request in flight is answered, and an idle snapshot
   newer than that answer arrives after the due times.
   */
  predicate Favourable(d: DeviceView, device: string, lease: Lease, i: Input) {
    && Benign(d, device, lease, i)
    && (d.task.Some? ==> i.w.finished.Some?)
    && Newer(i.st, Joined(d, device, lease, i.w)) && !i.st.configuring
    && d.state.due <= i.w.observedAt && d.state.retryAt <= i.w.observedAt
  }

  predicate Timely(j: DeviceView, i: Input) {
    !i.st.configuring && j.task.None? && j.state.due <= i.w.observedAt && j.state.retryAt <= i.w.observedAt
  }

  /** How many favourable turns may still be needed. */
  function Rank(d: DeviceView, pin: Hash): nat {
    if d.state.saved == Some(pin) then 0
    else
      match d.state.pending
      case Some(Applying(hash, _)) => if hash == pin then 1 else 4
      case Some(Requested(hash)) => if hash == pin then 2 else 5
      case Some(Registering) => 4
      case None => if d.state.registered then 3 else 5
  }

  lemma JoinKeepsCourse(d: DeviceView, device: string, lease: Lease, pin: Hash, i: Input)
    requires OnCourse(d, lease, pin) && Benign(d, device, lease, i)
    ensures var j := Joined(d, device, lease, i.w);
            && OnCourse(j, lease, pin) && Rank(j, pin) <= Rank(d, pin)
            && j.state.due == d.state.due && j.state.retryAt == d.state.retryAt
            && (Favourable(d, device, lease, i) ==> j.task.None?)
            && (j.task.None? && d.task.Some? && d.state.saved != Some(pin) ==> Rank(j, pin) < Rank(d, pin))
  {
  }

  lemma ObservationKeepsCourse(j: DeviceView, c: Cache, device: string, lease: Lease, pin: Hash, i: Input)
    requires OnCourse(j, lease, pin) && i.st.error.None? && i.w.saves
    ensures var (state, action) := Observed(j.state, Seen(i.st, lease, pin, i.w));
            var t := Acted(j.(state := state, busyWarned := i.st.configuring), c, action, device, lease, i.w);
            && t.device.state.failedHash != Some(pin) && t.device.state.desired == pin
            && Rank(t.device, pin) <= Rank(j, pin)
            && (Timely(j, i) && Rank(j, pin) > 0 ==> Rank(t.device, pin) < Rank(j, pin))
  {
    match j.state.pending
    case None =>
    case Some(Registering) =>
    case Some(Requested(_)) =>
    case Some(Applying(_, _)) =>
  }

  /** A benign turn never loses ground; a favourable one gains some unless the content is already saved. */
  lemma TurnGains(d: DeviceView, c: Cache, device: string, lease: Lease, pin: Hash, i: Input)
    requires OnCourse(d, lease, pin) && Benign(d, device, lease, i)
    ensures var t := DeviceTurn(d, c, pin, i.st, lease, i.w);
            && OnCourse(t.device, lease, pin)
            && Rank(t.device, pin) <= Rank(d, pin)
            && (Favourable(d, device, lease, i) && Rank(d, pin) > 0 ==> Rank(t.device, pin) < Rank(d, pin))
  {
    JoinKeepsCourse(d, device, lease, pin, i);
    TurnKeepsCoupling(d, c, pin, i.st, lease, i.w);
    LeaseKept(d, c, pin, i.st, lease, i.w);
    var j := Joined(d, device, lease, i.w);
    if !Stale(j, i.st) {
      ObservationKeepsCourse(j, c, device, lease, pin, i);
    }
  }

  // ----- runs -----

  function After(d: DeviceView, c: Cache, lease: Lease, pin: Hash, inputs: seq<Input>): (DeviceView, Cache)
    decreases |inputs|
  {
    if inputs == [] then (d, c)
    else
      var t := DeviceTurn(d, c, pin, inputs[0].st, lease, inputs[0].w);
      After(t.device, t.cache, lease, pin, inputs[1..])
  }

  predicate AllBenign(d: DeviceView, c: Cache, device: string, lease: Lease, pin: Hash, inputs: seq<Input>)
    decreases |inputs|
  {
    inputs == [] ||
    (&& Benign(d, device, lease, inputs[0])
     && var t := DeviceTurn(d, c, pin, inputs[0].st, lease, inputs[0].w);
        AllBenign(t.device, t.cache, device, lease, pin, inputs[1..]))
  }

  function FavourableTurns(d: DeviceView, c: Cache, device: string, lease: Lease, pin: Hash, inputs: seq<Input>): nat
    decreases |inputs|
  {
    if inputs == [] then 0
    else
      var t := DeviceTurn(d, c, pin, inputs[0].st, lease, inputs[0].w);
      (if Favourable(d, device, lease, inputs[0]) then 1 else 0) +
      FavourableTurns(t.device, t.cache, device, lease, pin, inputs[1..])
  }

  lemma {:induction false} ReachesDesired(d: DeviceView, c: Cache, device: string, lease: Lease, pin: Hash,
      inputs: seq<Input>)
    requires OnCourse(d, lease, pin) && AllBenign(d, c, device, lease, pin, inputs)
    requires FavourableTurns(d, c, device, lease, pin, inputs) >= Rank(d, pin)
    ensures After(d, c, lease, pin, inputs).0.state.saved == Some(pin)
    decreases |inputs|
  {
    if inputs == [] {
    } else {
      TurnGains(d, c, device, lease, pin, inputs[0]);
      var t := DeviceTurn(d, c, pin, inputs[0].st, lease, inputs[0].w);
      ReachesDesired(t.device, t.cache, device, lease, pin, inputs[1..]);
    }
  }

  /** Whatever else happens in between, five favourable turns save the desired content. */
  lemma FiveFavourableTurnsSave(d: DeviceView, c: Cache, device: string, lease: Lease, pin: Hash, inputs: seq<Input>)
    requires OnCourse(d, lease, pin) && AllBenign(d, c, device, lease, pin, inputs)
    requires FavourableTurns(d, c, device, lease, pin, inputs) >= 5
    ensures After(d, c, lease, pin, inputs).0.state.saved == Some(pin)
  {
    ReachesDesired(d, c, device, lease, pin, inputs);
  }

  lemma LookSetsDesired(s: StateView, o: Observation)
    ensures Observed(s, o).0.desired == o.hash
  {
  }

  lemma ActionKeepsDesired(d: DeviceView, c: Cache, action: Option<Action>, device: string, lease: Lease, w: World)
    ensures Acted(d, c, action, device, lease, w).device.state.desired == d.state.desired
  {
  }

  /**
   Any turn that is not stopped by the barrier puts a coupled entry,
   old or new, on course or finds its content failed.
   */
  lemma FirstLookSetsCourse(d: DeviceView, c: Cache, lease: Lease, pin: Hash, st: Status, w: World)
    requires d.lease == lease && (Coupled(d) || Unseen(d)) && Newer(st, Joined(d, st.device, lease, w))
    ensures var e := DeviceTurn(d, c, pin, st, lease, w).device;
            OnCourse(e, lease, pin) || (e.lease == lease && e.state.desired == pin && e.state.failedHash == Some(pin))
  {
    TurnKeepsCoupling(d, c, pin, st, lease, w);
    LeaseKept(d, c, pin, st, lease, w);
    var j := Joined(d, st.device, lease, w);
    var (state, action) := Observed(j.state, Seen(st, lease, pin, w));
    LookSetsDesired(j.state, Seen(st, lease, pin, w));
    ActionKeepsDesired(j.(state := state, busyWarned := st.configuring), c, action, st.device, lease, w);
  }

  // ----- no write loops: any inputs at all -----

  function ApplyRequests(d: DeviceView, c: Cache, lease: Lease, pin: Hash, inputs: seq<Input>): nat
    decreases |inputs|
  {
    if inputs == [] then 0
    else
      var t := DeviceTurn(d, c, pin, inputs[0].st, lease, inputs[0].w);
      (if t.rpc.Some? && t.rpc.value.action.Apply? then 1 else 0)
      + ApplyRequests(t.device, t.cache, lease, pin, inputs[1..])
  }

  /** The content was asked for on this lease; its outcome, good or bad, is not forgotten. */
  predicate SpentOn(d: DeviceView, lease: Lease, pin: Hash) {
    d.lease == lease && Coupled(d) && SetupTiming.Spent(d.state, lease, pin)
  }

  lemma SpentJoined(d: DeviceView, device: string, lease: Lease, pin: Hash, w: World)
    requires SpentOn(d, lease, pin)
    ensures SetupTiming.Spent(Joined(d, device, lease, w).state, lease, pin)
  {
    match d.state.pending
    case None =>
    case Some(Registering) =>
    case Some(Requested(_)) =>
    case Some(Applying(_, _)) =>
  }

  lemma SpentObserved(s: StateView, o: Observation, lease: Lease, pin: Hash)
    requires SetupTiming.Spent(s, lease, pin) && o.lease == Some(lease) && o.hash == pin
    ensures var (state, action) := Observed(s, o);
            SetupTiming.Spent(state, lease, pin) && (action.Some? ==> action.value.Confirm? || action.value.Failed?)
  {
    match s.pending
    case None =>
    case Some(Requested(_)) =>
    case Some(Applying(_, _)) =>
  }

  lemma SpentTurn(d: DeviceView, c: Cache, lease: Lease, pin: Hash, i: Input)
    requires SpentOn(d, lease, pin)
    ensures var t := DeviceTurn(d, c, pin, i.st, lease, i.w);
            SpentOn(t.device, lease, pin) && !(t.rpc.Some? && t.rpc.value.action.Apply?)
  {
    TurnKeepsCoupling(d, c, pin, i.st, lease, i.w);
    LeaseKept(d, c, pin, i.st, lease, i.w);
    SpentJoined(d, i.st.device, lease, pin, i.w);
    SpentObserved(Joined(d, i.st.device, lease, i.w).state, Seen(i.st, lease, pin, i.w), lease, pin);
  }

  lemma ApplyTurnSpends(d: DeviceView, c: Cache, lease: Lease, pin: Hash, i: Input)
    requires d.lease == lease && (Coupled(d) || Unseen(d))
    requires var t := DeviceTurn(d, c, pin, i.st, lease, i.w); t.rpc.Some? && t.rpc.value.action.Apply?
    ensures SpentOn(DeviceTurn(d, c, pin, i.st, lease, i.w).device, lease, pin)
  {
    TurnKeepsCoupling(d, c, pin, i.st, lease, i.w);
    LeaseKept(d, c, pin, i.st, lease, i.w);
  }

  lemma {:induction false} SpentForGood(d: DeviceView, c: Cache, lease: Lease, pin: Hash, inputs: seq<Input>)
    requires SpentOn(d, lease, pin)
    ensures ApplyRequests(d, c, lease, pin, inputs) == 0
    decreases |inputs|
  {
    if inputs == [] {
    } else {
      SpentTurn(d, c, lease, pin, inputs[0]);
      var t := DeviceTurn(d, c, pin, inputs[0].st, lease, inputs[0].w);
      SpentForGood(t.device, t.cache, lease, pin, inputs[1..]);
    }
  }

  /**
   While an entry keeps its lease and the content does not change, at most one Apply leaves, whatever
   replies, errors, timeouts, failed saves and snapshots the turns bring.
   */
  lemma {:induction false} OneApplyPerStretch(d: DeviceView, c: Cache, lease: Lease, pin: Hash, inputs: seq<Input>)
    requires d.lease == lease && (Coupled(d) || Unseen(d))
    ensures ApplyRequests(d, c, lease, pin, inputs) <= 1
    decreases |inputs|
  {
    if inputs == [] {
    } else {
      var i := inputs[0];
      var t := DeviceTurn(d, c, pin, i.st, lease, i.w);
      TurnKeepsCoupling(d, c, pin, i.st, lease, i.w);
      LeaseKept(d, c, pin, i.st, lease, i.w);
      if t.rpc.Some? && t.rpc.value.action.Apply? {
        ApplyTurnSpends(d, c, lease, pin, i);
        SpentForGood(t.device, t.cache, lease, pin, inputs[1..]);
      } else {
        OneApplyPerStretch(t.device, t.cache, lease, pin, inputs[1..]);
      }
    }
  }
}
