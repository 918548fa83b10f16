/**
 When the reconciler of SetupState asks for a registration or a write, over every sequence of
 calls: the debounce of edits, the back-off of registrations, and the absence of write loops.

 The calling discipline of roto_setup_sync.rs is that `accepted` follows only an Apply request.
 */
module SetupTiming {
  import opened Prelude
  import opened SetupState

  datatype Event =
    | Observes(o: Observation)
    | RegisterDone
    | ApplyAccepted(configuring: bool)
    | RequestFailed(now: nat)

  function Step(s: StateView, e: Event): (StateView, Option<Action>) {
    match e
    case Observes(o) => Observed(s, o)
    case RegisterDone => (RegisteredOf(s), None)
    case ApplyAccepted(configuring) => (AcceptedOf(s, configuring), None)
    case RequestFailed(now) => (FailedOf(s, now), None)
  }

  predicate Disciplined(s: StateView, e: Event) {
    e.ApplyAccepted? ==> s.pending.Some? && s.pending.value.Requested?
  }

  // ----- runs read backwards: the state after the first n calls -----

  function After(saved: Option<Hash>, es: seq<Event>, n: nat): StateView
    requires n <= |es|
  {
    if n == 0 then Initial(saved) else Step(After(saved, es, n - 1), es[n - 1]).0
  }

  /** What call n asks for. */
  function Emitted(saved: Option<Hash>, es: seq<Event>, n: nat): Option<Action>
    requires n < |es|
  {
    Step(After(saved, es, n), es[n]).1
  }

  lemma DueOfStep(s: StateView, e: Event)
    ensures Step(s, e).0.due ==
            if !e.Observes? then s.due
            else if e.o.lease != s.lease then e.o.now
            else if e.o.hash != s.desired then e.o.now + DEBOUNCE
            else s.due
  {
  }

  lemma ShownByStep(s: StateView, e: Event)
    ensures Step(s, e).0.desired == if e.Observes? then e.o.hash else s.desired
    ensures Step(s, e).0.lease == if e.Observes? then e.o.lease else s.lease
  {
    match e
    case Observes(o) => assert Noticed(s, o).desired == o.hash && Noticed(s, o).lease == o.lease;
    case _ =>
  }

  lemma BackoffOfStep(s: StateView, e: Event)
    ensures var n := Step(s, e).0;
            if e.Observes? && e.o.lease != s.lease then
              n.backoff == REGISTER_BACKOFF && n.retryAt == e.o.now
            else if e.RequestFailed? && s.pending == Some(Registering) then
              && n.backoff == (if s.backoff * 2 < MAX_REGISTER_BACKOFF then s.backoff * 2 else MAX_REGISTER_BACKOFF)
              && n.retryAt == e.now + s.backoff
            else n.backoff == s.backoff && n.retryAt == s.retryAt
  {
  }

  // ----- facts of the call sequence alone -----

  /** The content last shown before call n; the empty hash before the first observation. */
  function HashBefore(es: seq<Event>, n: nat): Hash
    requires n <= |es|
  {
    if n == 0 then "" else if es[n - 1].Observes? then es[n - 1].o.hash else HashBefore(es, n - 1)
  }

  function LeaseBefore(es: seq<Event>, n: nat): Option<Lease>
    requires n <= |es|
  {
    if n == 0 then None else if es[n - 1].Observes? then es[n - 1].o.lease else LeaseBefore(es, n - 1)
  }

  predicate EditAt(es: seq<Event>, n: nat)
    requires n < |es|
  {
    es[n].Observes? && es[n].o.hash != HashBefore(es, n)
  }

  predicate LeaseChangeAt(es: seq<Event>, n: nat)
    requires n < |es|
  {
    es[n].Observes? && es[n].o.lease != LeaseBefore(es, n)
  }

  // ----- debounce -----

  lemma {:induction false} RemembersShown(saved: Option<Hash>, es: seq<Event>, n: nat)
    requires n <= |es|
    ensures After(saved, es, n).desired == HashBefore(es, n)
    ensures After(saved, es, n).lease == LeaseBefore(es, n)
  {
    if n == 0 {
    } else {
      ShownByStep(After(saved, es, n - 1), es[n - 1]);
      RemembersShown(saved, es, n - 1);
    }
  }

  lemma {:induction false} DueAfterEdit(saved: Option<Hash>, es: seq<Event>, edit: nat, n: nat)
    requires edit < n <= |es| && EditAt(es, edit)
    requires forall j :: edit < j < n ==> !EditAt(es, j)
    requires forall j :: edit <= j < n ==> !LeaseChangeAt(es, j)
    ensures After(saved, es, n).due == es[edit].o.now + DEBOUNCE
  {
    DueOfStep(After(saved, es, n - 1), es[n - 1]);
    RemembersShown(saved, es, n - 1);
    assert !LeaseChangeAt(es, n - 1);
    if edit < n - 1 {
      assert !EditAt(es, n - 1);
      DueAfterEdit(saved, es, edit, n - 1);
    }
  }

  /** No write starts within two seconds of the last edit, unless a lease change came with or after it. */
  lemma {:induction false} WritesWaitForTheLastEdit(saved: Option<Hash>, es: seq<Event>, edit: nat, n: nat)
    requires edit <= n < |es| && EditAt(es, edit)
    requires forall j :: edit < j <= n ==> !EditAt(es, j)
    requires forall j :: edit <= j <= n ==> !LeaseChangeAt(es, j)
    requires Emitted(saved, es, n).Some? && Emitted(saved, es, n).value.Apply?
    ensures edit < n
    ensures es[n].o.now >= es[edit].o.now + DEBOUNCE
    ensures Emitted(saved, es, n) == Some(Apply(es[edit].o.hash))
  {
    RemembersShown(saved, es, n);
    if edit < n {
      DueAfterEdit(saved, es, edit, n);
      SameHashSince(es, edit, n);
    }
  }

  lemma {:induction false} SameHashSince(es: seq<Event>, edit: nat, n: nat)
    requires edit < n <= |es| && es[edit].Observes?
    requires forall j :: edit < j < n ==> !EditAt(es, j)
    ensures HashBefore(es, n) == es[edit].o.hash
  {
    if edit < n - 1 {
      assert !EditAt(es, n - 1);
      SameHashSince(es, edit, n - 1);
    }
  }

  lemma {:induction false} DueAfterLeaseChange(saved: Option<Hash>, es: seq<Event>, change: nat, n: nat)
    requires change < n <= |es| && LeaseChangeAt(es, change)
    requires forall j :: change < j < n ==> !EditAt(es, j) && !LeaseChangeAt(es, j)
    ensures After(saved, es, n).due == es[change].o.now
  {
    DueOfStep(After(saved, es, n - 1), es[n - 1]);
    RemembersShown(saved, es, n - 1);
    if change < n - 1 {
      assert !EditAt(es, n - 1) && !LeaseChangeAt(es, n - 1);
      DueAfterLeaseChange(saved, es, change, n - 1);
    }
  }

  /**
   The debounce does not outlive the lease: after a lease change, with no later edit, every observation of a
   registered idle entry whose content has not failed asks for the write at once, unless that content is saved.
   */
  lemma LeaseChangeLiftsDebounce(saved: Option<Hash>, es: seq<Event>, change: nat, n: nat)
    requires change < n < |es| && LeaseChangeAt(es, change)
    requires forall j :: change < j <= n ==> !EditAt(es, j) && !LeaseChangeAt(es, j)
    requires es[n].Observes? && es[n].o.lease.Some? && !es[n].o.configuring && es[change].o.now <= es[n].o.now
    requires var s := After(saved, es, n); s.registered && s.pending.None? && s.failedHash != Some(es[n].o.hash)
    ensures Emitted(saved, es, n) ==
      if After(saved, es, n).saved == Some(es[n].o.hash) then None else Some(Apply(es[n].o.hash))
  {
    DueAfterLeaseChange(saved, es, change, n);
    RemembersShown(saved, es, n);
    assert !EditAt(es, n) && !LeaseChangeAt(es, n);
  }

  // ----- registration back-off -----

  function Pow2(n: nat): nat {
    if n == 0 then 1 else 2 * Pow2(n - 1)
  }

  /** The wait after n earlier failures: 1, 2, 4, 8, 16 seconds, then 30 seconds. */
  function Wait(failures: nat): nat {
    if 1000 * Pow2(failures) < 30000 then 1000 * Pow2(failures) else 30000
  }

  lemma WaitDoubles(k: nat)
    ensures Wait(0) == REGISTER_BACKOFF
    ensures Wait(k + 1) == if Wait(k) * 2 < MAX_REGISTER_BACKOFF then Wait(k) * 2 else MAX_REGISTER_BACKOFF
  {
    assert Pow2(k + 1) == 2 * Pow2(k);
  }

  predicate RegisterFailsAt(saved: Option<Hash>, es: seq<Event>, n: nat)
    requires n < |es|
  {
    es[n].RequestFailed? && After(saved, es, n).pending == Some(Registering)
  }

  /** Failed registrations since the last lease change before call n. */
  function Failures(saved: Option<Hash>, es: seq<Event>, n: nat): nat
    requires n <= |es|
  {
    if n == 0 || LeaseChangeAt(es, n - 1) then 0
    else Failures(saved, es, n - 1) + if RegisterFailsAt(saved, es, n - 1) then 1 else 0
  }

  /** The moment the back-off counts from: the lease change, or the last failure after it. */
  function WaitsFrom(saved: Option<Hash>, es: seq<Event>, n: nat): nat
    requires n <= |es|
  {
    if n == 0 then 0
    else if LeaseChangeAt(es, n - 1) then es[n - 1].o.now
    else if RegisterFailsAt(saved, es, n - 1) then es[n - 1].now
    else WaitsFrom(saved, es, n - 1)
  }

  predicate Leased(es: seq<Event>, n: nat)
    requires n <= |es|
  {
    exists j | 0 <= j < n :: LeaseChangeAt(es, j)
  }

  predicate BackedOff(s: StateView, failures: nat, from: nat) {
    s.backoff == Wait(failures) && s.retryAt == from + if failures == 0 then 0 else Wait(failures - 1)
  }

  lemma BackoffStep(s: StateView, e: Event, failures: nat, from: nat)
    requires BackedOff(s, failures, from) || (e.Observes? && e.o.lease != s.lease)
    ensures var n := Step(s, e).0;
            if e.Observes? && e.o.lease != s.lease then BackedOff(n, 0, e.o.now)
            else if e.RequestFailed? && s.pending == Some(Registering) then BackedOff(n, failures + 1, e.now)
            else BackedOff(n, failures, from)
  {
    BackoffOfStep(s, e);
    WaitDoubles(failures);
  }

  lemma {:induction false} Backoff(saved: Option<Hash>, es: seq<Event>, n: nat)
    requires n <= |es| && Leased(es, n)
    ensures BackedOff(After(saved, es, n), Failures(saved, es, n), WaitsFrom(saved, es, n))
  {
    RemembersShown(saved, es, n - 1);
    var s, failures, from := After(saved, es, n - 1), Failures(saved, es, n - 1), WaitsFrom(saved, es, n - 1);
    if LeaseChangeAt(es, n - 1) {
      BackoffStep(s, es[n - 1], failures, from);
    } else {
      assert Leased(es, n - 1);
      Backoff(saved, es, n - 1);
      BackoffStep(s, es[n - 1], failures, from);
    }
  }

  /**
   With the device idle, unregistered and free, a lease held since before call n is registered
   exactly when the wait that follows its k-th failure in a row has passed; an edit does not shorten it.
   */
  lemma {:induction false} RegistersExactlyAfterBackoff(saved: Option<Hash>, es: seq<Event>, n: nat)
    requires n < |es| && es[n].Observes? && es[n].o.lease.Some? && !es[n].o.configuring
    requires !LeaseChangeAt(es, n) && Leased(es, n)
    requires var s := After(saved, es, n); s.pending.None? && !s.registered && s.failedHash.None?
    ensures var k := Failures(saved, es, n);
            Emitted(saved, es, n) ==
            if es[n].o.now >= WaitsFrom(saved, es, n) + (if k == 0 then 0 else Wait(k - 1))
            then Some(Register) else None
  {
    RemembersShown(saved, es, n);
    Backoff(saved, es, n);
  }

  // ----- no write loops -----

  predicate OnStretch(s: StateView, lease: Lease, hash: Hash) {
    s.lease == Some(lease) && s.desired == hash
  }

  /** This content has been asked for on this lease, and whatever became of it is remembered. */
  predicate Spent(s: StateView, lease: Lease, hash: Hash) {
    && OnStretch(s, lease, hash)
    && s.registered
    && match s.pending
       case Some(Requested(h)) => h == hash
       case Some(Applying(h, _)) => h == hash
       case Some(Registering) => false
       case None => s.failedHash == Some(hash) || s.saved == Some(hash)
  }

  function Applies(s: StateView, es: seq<Event>): nat
    decreases |es|
  {
    if es == [] then 0
    else
      var (next, action) := Step(s, es[0]);
      (if action.Some? && action.value.Apply? then 1 else 0) + Applies(next, es[1..])
  }

  predicate Uninterrupted(s: StateView, es: seq<Event>, lease: Lease, hash: Hash)
    decreases |es|
  {
    es == [] ||
    (&& Disciplined(s, es[0])
     && (es[0].Observes? ==> es[0].o.lease == Some(lease) && es[0].o.hash == hash)
     && Uninterrupted(Step(s, es[0]).0, es[1..], lease, hash))
  }

  lemma {:induction false} SpentStaysSpent(s: StateView, es: seq<Event>, lease: Lease, hash: Hash)
    requires Spent(s, lease, hash) && Uninterrupted(s, es, lease, hash)
    ensures Applies(s, es) == 0
    decreases |es|
  {
    if es == [] {
    } else {
      SpentStaysSpent(Step(s, es[0]).0, es[1..], lease, hash);
    }
  }

  /** From any state, one stretch with one lease and one content asks for at most one write. */
  lemma {:induction false} OneWritePerStretch(s: StateView, es: seq<Event>, lease: Lease, hash: Hash)
    requires Uninterrupted(s, es, lease, hash)
    ensures Applies(s, es) <= 1
    decreases |es|
  {
    if es == [] {
    } else {
      var (next, action) := Step(s, es[0]);
      if action.Some? && action.value.Apply? {
        SpentStaysSpent(next, es[1..], lease, hash);
      } else {
        OneWritePerStretch(next, es[1..], lease, hash);
      }
    }
  }

  /** The discipline is needed: a second `accepted` forgets the running write, and it is asked for again. */
  lemma StrayAcceptanceRepeatsTheWrite(s: StateView, o: Observation)
    requires s.registered && s.pending.Some? && s.pending.value.Applying? && s.pending.value.hash == o.hash
    requires s.saved.None? && s.failedHash.None? && s.desired == o.hash && o.lease.Some? && s.lease == o.lease
    requires !o.configuring && s.due <= o.now
    ensures Step(Step(s, ApplyAccepted(true)).0, Observes(o)).1 == Some(Apply(o.hash))
  {
  }
}
