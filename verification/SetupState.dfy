/**
 The per-device setup reconciler (crates/vantage-point/src/roto_setup_state.rs).
 Durations are milliseconds, content hashes and lease tokens are strings.

 `State` is the record the source updates in place; each of its methods is proved against a
 function on `StateView`, and the promises are proved about those functions over whole runs.
 */
module SetupState {
  import opened Prelude

  type Hash = string
  type Lease = string

  const DEBOUNCE: nat := 2000
  const REGISTER_BACKOFF: nat := 1000
  const MAX_REGISTER_BACKOFF: nat := 30000

  datatype Action = Register | Apply(hash: Hash) | Confirm(hash: Hash) | Failed

  datatype Observation =
    Observation(lease: Option<Lease>, hash: Hash, configuring: bool, error: bool, now: nat)

  datatype Pending = Registering | Requested(hash: Hash) | Applying(hash: Hash, busySeen: bool)

  datatype StateView = StateView(
    lease: Option<Lease>,
    desired: Hash,
    due: nat,
    saved: Option<Hash>,
    registered: bool,
    retryAt: nat,
    backoff: nat,
    pending: Option<Pending>,
    failedHash: Option<Hash>)

  function Initial(saved: Option<Hash>): StateView {
    StateView(None, "", 0, saved, false, 0, 0, None, None)
  }

  // ----- what each method does to the state -----

  /** The state once an edit and a change of lease have been noticed, in that order. */
  function Noticed(s: StateView, o: Observation): StateView {
    var edited := if s.desired == o.hash then s
                  else s.(desired := o.hash, due := o.now + DEBOUNCE, failedHash := None);
    if edited.lease == o.lease then edited
    else edited.(lease := o.lease, registered := false, retryAt := o.now, backoff := REGISTER_BACKOFF,
                 pending := None, failedHash := None, due := o.now)
  }

  /** A write whose busy phase was seen is over. */
  predicate Ended(s: StateView, o: Observation) {
    s.pending.Some? && s.pending.value.Applying? && s.pending.value.busySeen && !o.configuring
  }

  predicate Blocked(s: StateView, o: Observation) {
    o.configuring || s.pending.Some? || s.failedHash == Some(o.hash)
  }

  function Settle(s: StateView, o: Observation): (StateView, Option<Action>)
    requires Ended(s, o)
  {
    var hash := s.pending.value.hash;
    if o.error then (s.(pending := None, failedHash := Some(hash)), Some(Action.Failed))
    else (s.(pending := None, saved := Some(hash)), Some(Confirm(hash)))
  }

  function Start(s: StateView, o: Observation): (StateView, Option<Action>) {
    if Blocked(s, o) then (s, None)
    else if !s.registered then
      if o.now < s.retryAt then (s, None)
      else (s.(pending := Some(Registering)), Some(Register))
    else if s.saved != Some(o.hash) && s.due <= o.now then
      (s.(saved := None, pending := Some(Requested(o.hash))), Some(Apply(o.hash)))
    else (s, None)
  }

  function BusyNoted(s: StateView, o: Observation): StateView {
    if s.pending.Some? && s.pending.value.Applying? && o.configuring
    then s.(pending := Some(Applying(s.pending.value.hash, true)))
    else s
  }

  function Observed(s: StateView, o: Observation): (StateView, Option<Action>) {
    var n := Noticed(s, o);
    if o.lease.None? then (n, None)
    else if Ended(n, o) then Settle(n, o)
    else Start(BusyNoted(n, o), o)
  }

  function RegisteredOf(s: StateView): StateView {
    if s.pending == Some(Registering) then s.(registered := true, pending := None) else s
  }

  function AcceptedOf(s: StateView, configuring: bool): StateView {
    if s.pending.Some? && s.pending.value.Requested?
    then s.(pending := Some(Applying(s.pending.value.hash, configuring)))
    else s.(pending := None)
  }

  function FailedOf(s: StateView, now: nat): StateView {
    match s.pending
    case None => s
    case Some(Registering) =>
      s.(pending := None, retryAt := now + s.backoff,
         backoff := if s.backoff * 2 < MAX_REGISTER_BACKOFF then s.backoff * 2 else MAX_REGISTER_BACKOFF)
    case Some(Requested(hash)) => s.(pending := None, failedHash := Some(hash))
    case Some(Applying(hash, _)) => s.(pending := None, failedHash := Some(hash))
  }

  class State {
    var lease: Option<Lease>
    var desired: Hash
    var due: nat
    var saved: Option<Hash>
    var registered: bool
    var registerRetryAt: nat
    var registerBackoff: nat
    var pending: Option<Pending>
    var failedHash: Option<Hash>

    ghost function View(): StateView
      reads this
    {
      StateView(lease, desired, due, saved, registered, registerRetryAt, registerBackoff, pending, failedHash)
    }

    constructor (saved: Option<Hash>)
      ensures View() == Initial(saved)
    {
      lease, desired, due, this.saved := None, "", 0, saved;
      registered, registerRetryAt, registerBackoff := false, 0, 0;
      pending, failedHash := None, None;
    }

    method Observe(o: Observation) returns (action: Option<Action>)
      modifies this
      ensures (View(), action) == Observed(old(View()), o)
    {
      if desired != o.hash {
        desired := o.hash;
        due := o.now + DEBOUNCE;
        failedHash := None;
      }
      if lease != o.lease {
        lease := o.lease;
        registered := false;
        registerRetryAt := o.now;
        registerBackoff := REGISTER_BACKOFF;
        pending := None;
        failedHash := None;
        due := o.now;
      }
      if o.lease.None? {
        return None;
      }
      if pending.Some? && pending.value.Applying? {
        pending := Some(Applying(pending.value.hash, pending.value.busySeen || o.configuring));
        if !o.configuring && pending.value.busySeen {
          var hash := pending.value.hash;
          pending := None;
          if o.error {
            failedHash := Some(hash);
            return Some(Action.Failed);
          }
          saved := Some(hash);
          return Some(Confirm(hash));
        }
      }
      if o.configuring || pending.Some? || failedHash == Some(o.hash) {
        return None;
      }
      if !registered {
        if o.now < registerRetryAt {
          return None;
        }
        pending := Some(Registering);
        return Some(Register);
      }
      if saved != Some(o.hash) && o.now >= due {
        saved := None;
        pending := Some(Requested(o.hash));
        return Some(Apply(o.hash));
      }
      return None;
    }

    method Registered()
      modifies this
      ensures View() == RegisteredOf(old(View()))
    {
      if pending == Some(Registering) {
        registered := true;
        pending := None;
      }
    }

    method Accepted(configuring: bool)
      modifies this
      ensures View() == AcceptedOf(old(View()), configuring)
    {
      var taken := pending;
      pending := None;
      match taken
      case Some(Requested(hash)) => pending := Some(Applying(hash, configuring));
      case _ =>
    }

    method Failed(now: nat)
      modifies this
      ensures View() == FailedOf(old(View()), now)
    {
      var taken := pending;
      pending := None;
      match taken
      case Some(Registering) =>
        registerRetryAt := now + registerBackoff;
        registerBackoff := if registerBackoff * 2 < MAX_REGISTER_BACKOFF then registerBackoff * 2
                           else MAX_REGISTER_BACKOFF;
      case Some(Requested(hash)) => failedHash := Some(hash);
      case Some(Applying(hash, _)) => failedHash := Some(hash);
      case None =>
    }
  }
}
