/**
 When a worker can come to remove the directory of another job (scripts/mise/swap_detached.rb:23-81 and 171-179):
 after any run on which launchd and the submitters agree, which single step more, agreed or not, leaves that
 impossible for good.
 */
module SwapOwnership {
  import opened Prelude
  import opened SwapAdmission
  import opened SwapLimits

  /** The next operation of the job's worker takes away the owner file of another job. */
  predicate Robs(s: Swap, job: Label) {
    && job in s.jobs && s.jobs[job].Running? && s.jobs[job].worker.Removing?
    && s.directory.Owned? && s.directory.job != job
  }

  /** On no orderly continuation does a worker come to that. */
  ghost predicate KeepsOwnership(s: Swap) {
    forall t, job :: LeadsTo(s, t, true, true) ==> !Robs(t, job)
  }

  // ----- the conditions -----

  /** The submitter is going to take away a directory without an owner, or may find out that it can. */
  predicate Finishing(sub: Submitter, job: Label) {
    || (sub.Asking? && sub.previous != job)
    || sub.Clearing? || sub.ClearingDirectory? || sub.Retracting? || sub.RetractingDirectory?
  }

  /**
   The job still owns the directory and nobody is taking it away; or the directory has no owner, and nobody but
   the job itself will ever take it away.
   */
  predicate StartIsHarmless(s: Swap, job: Label) {
    || (s.directory == Owned(job)
        && forall sid <- s.submitters :: !s.submitters[sid].Clearing? && !s.submitters[sid].Retracting?)
    || (s.directory == Ownerless
        && (forall sid <- s.submitters :: !Finishing(s.submitters[sid], job))
        && (forall other <- s.jobs :: !HalfRemoving(s.jobs[other])))
  }

  /** A start is harmless as above; a "no" is, if the job's worker has come past its removal of the owner file. */
  predicate Harmless(s: Swap, step: Step) {
    match step
    case Bootstrap(job) => StartIsHarmless(s, job)
    case Advance(sid, ok, _) =>
      sid in s.submitters && s.submitters[sid].Launching? && s.submitters[sid].job in s.jobs ==>
        ok || !Unfinished(s.jobs[s.submitters[sid].job])
    case _ => true
  }

  // ----- every lock has a holder -----

  predicate LocksHeld(s: Swap) {
    && (s.admission.Some? ==> s.admission.value in s.submitters)
    && match s.worker
       case None => true
       case Some(BySubmitter(sid)) => sid in s.submitters
       case Some(ByJob(job)) => Open(s.jobs, job) || Kids(s.kids, job) > 0
  }

  lemma LocksHeldByDecide(s: Swap, sid: Sid, ok: bool)
    requires LocksHeld(s) && sid in s.submitters && Deciding(s.submitters[sid])
    ensures LocksHeld(Decide(s, sid, ok))
  {
    match s.submitters[sid] {
      case Started =>
      case Admitted =>
      case Asking(_) =>
      case _ =>
    }
  }

  lemma LocksHeldByLaunch(s: Swap, sid: Sid, ok: bool, job: Label)
    requires LocksHeld(s) && sid in s.submitters && !Deciding(s.submitters[sid])
    requires s.submitters[sid].Published? ==> s.submitters[sid].job !in s.jobs
    ensures LocksHeld(Launch(s, sid, ok, job))
  {
    match s.submitters[sid] {
      case Published(_) =>
      case ClosingLease =>
      case ClosingAdmission =>
      case _ =>
    }
  }

  lemma LocksHeldByWork(s: Swap, job: Label, ok: bool)
    requires LocksHeld(s) && Enabled(s, Work(job, ok))
    ensures LocksHeld(WorkStep(s, job, ok))
  {
    match s.jobs[job].worker {
      case Waiting =>
      case Preparing =>
      case Closing(_) =>
      case _ =>
    }
  }

  lemma LocksHeldKept(s: Swap, step: Step, t: Swap)
    requires LocksHeld(s) && Inv(s, true) && Follows(s, step, t)
    ensures LocksHeld(t)
  {
    match step {
      case Advance(sid, ok, job) =>
        if Deciding(s.submitters[sid]) {
          LocksHeldByDecide(s, sid, ok);
        } else {
          LocksHeldByLaunch(s, sid, ok, job);
        }
      case Work(job, ok) => LocksHeldByWork(s, job, ok);
      case _ =>
    }
  }

  predicate Sound(s: Swap) {
    Inv(s, true) && Leases(s.worker, s.submitters, s.jobs, s.kids) && LocksHeld(s)
  }

  lemma LocksHeldAtNext(states: seq<Swap>, steps: seq<Step>, n: nat)
    requires Trace(states, steps) && AllOrderly(states, steps) && n < |steps| && LocksHeld(states[n])
    ensures LocksHeld(states[n + 1])
  {
    InvHolds(states, steps, n, true);
    LocksHeldKept(states[n], steps[n], states[n + 1]);
  }

  lemma {:induction false} LocksStayHeld(states: seq<Swap>, steps: seq<Step>, n: nat)
    requires Trace(states, steps) && AllOrderly(states, steps) && n <= |steps|
    ensures LocksHeld(states[n])
  {
    if n == 0 {
    } else {
      LocksStayHeld(states, steps, n - 1);
      LocksHeldAtNext(states, steps, n - 1);
    }
  }

  lemma ReachableIsSound(s: Swap)
    requires Reachable(s, true, true)
    ensures Sound(s)
  {
    var states: seq<Swap>, steps: seq<Step> :|
      && Path(states, steps) && states[0] == START && states[|steps|] == s
      && forall i | 0 <= i < |steps| :: Prompt(states[i], steps[i]) && Truthful(states[i], steps[i]);
    InvHolds(states, steps, |steps|, true);
    LeasesHold(states, steps, |steps|);
    LocksStayHeld(states, steps, |steps|);
  }

  // ----- a harmless step leaves nothing to fear -----

  /** A late worker in front of a directory without an owner, which nobody else will take away. */
  predicate Alone(s: Swap, job: Label) {
    && s.directory == Ownerless && job in s.jobs && Unfinished(s.jobs[job])
    && (forall other <- s.jobs :: other != job ==> !Unfinished(s.jobs[other]) && !HalfRemoving(s.jobs[other]))
    && AdmissionHeld(s.admission, s.submitters)
    && Fresh(s.directory, s.jobs, s.submitters, s.used)
    && (forall sid <- s.submitters :: Waits(s.submitters[sid], s.jobs, job))
  }

  /** The submitter will not touch the directory. */
  predicate Waits(sub: Submitter, jobs: Jobs, job: Label) {
    match sub
    case Asking(previous) => previous == job
    case Launching(mine) => mine in jobs && !jobs[mine].Requested?
    case _ => sub.Started? || sub.Admitted? || sub.Leased? || sub.Found? || sub.ClosingLease? || sub.ClosingAdmission?
  }

  predicate Spared(s: Swap, job: Label) {
    Inv(s, false) || Alone(s, job)
  }

  lemma AloneByWork(s: Swap, worked: Label, ok: bool, job: Label)
    requires Alone(s, job) && Enabled(s, Work(worked, ok))
    ensures Spared(WorkStep(s, worked, ok), job)
  {
    if worked == job {
      if s.jobs[job].worker.Removing? {
        AloneRemoves(s, job, ok);
      } else {
        AloneWorks(s, job, ok);
      }
    } else {
      OthersWork(s, worked, ok, job);
    }
  }

  /** Its removal finds nothing to take away, and what is left of it can do no harm. */
  lemma AloneRemoves(s: Swap, job: Label, ok: bool)
    requires Alone(s, job) && s.jobs[job].worker.Removing?
    ensures Inv(WorkStep(s, job, ok), false)
  {
  }

  lemma AloneWorks(s: Swap, job: Label, ok: bool)
    requires Alone(s, job) && Enabled(s, Work(job, ok)) && !s.jobs[job].worker.Removing?
    ensures Alone(WorkStep(s, job, ok), job)
  {
  }

  lemma OthersWork(s: Swap, worked: Label, ok: bool, job: Label)
    requires Alone(s, job) && Enabled(s, Work(worked, ok)) && worked != job
    ensures Alone(WorkStep(s, worked, ok), job)
  {
  }

  lemma AloneByAdvance(s: Swap, sid: Sid, ok: bool, later: Label, job: Label)
    requires Alone(s, job) && Enabled(s, Advance(sid, ok, later)) && Truthful(s, Advance(sid, ok, later))
    ensures Alone(Next(s, Advance(sid, ok, later)), job)
  {
    if Deciding(s.submitters[sid]) {
      AloneByDecide(s, sid, ok, job);
    } else {
      AloneByLaunch(s, sid, ok, later, job);
    }
  }

  lemma AloneByDecide(s: Swap, sid: Sid, ok: bool, job: Label)
    requires Alone(s, job) && sid in s.submitters && Deciding(s.submitters[sid])
    ensures Alone(Decide(s, sid, ok), job)
  {
  }

  lemma AloneByLaunch(s: Swap, sid: Sid, ok: bool, later: Label, job: Label)
    requires Alone(s, job) && sid in s.submitters && !Deciding(s.submitters[sid])
    requires s.submitters[sid].Launching? ==> ok
    ensures Alone(Launch(s, sid, ok, later), job)
  {
  }

  lemma AloneKept(s: Swap, step: Step, t: Swap, job: Label)
    requires Alone(s, job) && Follows(s, step, t) && Orderly(s, step)
    ensures Spared(t, job)
  {
    match step {
      case Advance(sid, ok, later) => AloneByAdvance(s, sid, ok, later, job);
      case Work(worked, ok) => AloneByWork(s, worked, ok, job);
      case _ =>
    }
  }

  lemma {:induction false} StaysSpared(states: seq<Swap>, steps: seq<Step>, n: nat, job: Label)
    requires Path(states, steps) && AllOrderly(states, steps) && n <= |steps| && Spared(states[0], job)
    ensures Spared(states[n], job)
  {
    if n == 0 {
    } else {
      StaysSpared(states, steps, n - 1, job);
      if Inv(states[n - 1], false) {
        InvKept(states[n - 1], steps[n - 1], states[n], false);
      } else {
        AloneKept(states[n - 1], steps[n - 1], states[n], job);
      }
    }
  }

  lemma SparedKeepsOwnership(s: Swap, job: Label)
    requires Spared(s, job)
    ensures KeepsOwnership(s)
  {
    forall t, robber | LeadsTo(s, t, true, true) ensures !Robs(t, robber) {
      var states: seq<Swap>, steps: seq<Step> :|
        && Path(states, steps) && states[0] == s && states[|steps|] == t
        && forall i | 0 <= i < |steps| :: Prompt(states[i], steps[i]) && Truthful(states[i], steps[i]);
      StaysSpared(states, steps, |steps|, job);
    }
  }

  lemma HarmlessStart(s: Swap, job: Label)
    requires Inv(s, true) && Enabled(s, Bootstrap(job)) && StartIsHarmless(s, job)
    ensures Spared(At(s, job, Waiting), job)
  {
  }

  lemma HarmlessAnswer(s: Swap, sid: Sid, ok: bool)
    requires Inv(s, true) && sid in s.submitters && s.submitters[sid].Launching?
    requires ok || !Unfinished(s.jobs[s.submitters[sid].job])
    ensures Inv(To(s, sid, if ok then ClosingLease else Retracting(s.submitters[sid].job)), false)
  {
    KnowledgeOfOne(s, sid, if ok then ClosingLease else Retracting(s.submitters[sid].job), s.directory, s.jobs, false);
  }

  lemma HarmlessKeepsOwnership(s: Swap, step: Step)
    requires Sound(s) && Enabled(s, step) && Harmless(s, step)
    ensures KeepsOwnership(Next(s, step))
  {
    if step.Bootstrap? {
      HarmlessStart(s, step.job);
      SparedKeepsOwnership(Next(s, step), step.job);
    } else {
      if step.Advance? && s.submitters[step.sid].Launching? {
        HarmlessAnswer(s, step.sid, step.ok);
      } else {
        InvKept(s, step, Next(s, step), false);
      }
      SparedKeepsOwnership(Next(s, step), 0);
    }
  }

  // ----- any other step leads to a robbery -----

  lemma Dismisses(o: Swap, s: Swap, sids: set<Sid>) returns (t: Swap)
    requires LeadsTo(o, s, true, true) && LocksHeld(s) && sids == s.submitters.Keys
    ensures LeadsTo(o, t, true, true) && LocksHeld(t)
    ensures t == s.(submitters := map[], admission := t.admission, worker := t.worker)
    decreases sids
  {
    t := s;
    if sids == {} {
      assert s.submitters == map[];
    } else {
      var sid :| sid in sids;
      t := Take(o, s, SubmitterCrashes(sid), true, true);
      t := Dismisses(o, t, sids - {sid});
    }
  }

  /** The command's processes end, and the last of them gives the worker lock back. */
  lemma KidsLeave(o: Swap, s: Swap, job: Label) returns (t: Swap)
    requires LeadsTo(o, s, true, true) && s.worker == Some(ByJob(job)) && !Open(s.jobs, job) && Kids(s.kids, job) > 0
    ensures LeadsTo(o, t, true, true) && t == s.(kids := t.kids, worker := None)
    decreases Kids(s.kids, job)
  {
    t := Take(o, s, KidExits(job), true, true);
    if Kids(t.kids, job) > 0 {
      t := KidsLeave(o, t, job);
    }
  }

  lemma GivesWorkerBack(o: Swap, s: Swap, late: Label) returns (t: Swap)
    requires LeadsTo(o, s, true, true) && LocksHeld(s) && s.submitters == map[]
    requires late in s.jobs && !Open(s.jobs, late)
    ensures LeadsTo(o, t, true, true) && t == s.(jobs := t.jobs, kids := t.kids, worker := None)
    ensures late in t.jobs && t.jobs[late] == s.jobs[late]
  {
    t := s;
    if t.worker.Some? {
      var job := t.worker.value.job;
      if Open(t.jobs, job) {
        t := Take(o, t, WorkerCrashes(job), true, true);
      }
      if t.worker.Some? {
        t := KidsLeave(o, t, job);
      }
    }
  }

  /** Whoever holds a lock may crash, and the late worker stays where it is. */
  lemma ComesFree(o: Swap, s: Swap, late: Label) returns (t: Swap)
    requires LeadsTo(o, s, true, true) && LocksHeld(s) && late in s.jobs && !Open(s.jobs, late)
    ensures LeadsTo(o, t, true, true) && Free(t) && t.directory == s.directory && t.used == s.used
    ensures late in t.jobs && t.jobs[late] == s.jobs[late]
  {
    t := Dismisses(o, s, s.submitters.Keys);
    t := GivesWorkerBack(o, t, late);
  }

  predicate Late(jobs: Jobs, job: Label) {
    job in jobs && (jobs[job] == Running(Waiting) || jobs[job] == Running(Removing(false)))
  }

  /** A waiting worker that does not get the lock comes to its removal, whoever owns the directory by then. */
  lemma Strikes(o: Swap, s: Swap, late: Label) returns (t: Swap)
    requires LeadsTo(o, s, true, true) && Late(s.jobs, late) && s.directory.Owned? && s.directory.job != late
    ensures LeadsTo(o, t, true, true) && Robs(t, late)
  {
    t := s;
    if s.jobs[late].worker.Waiting? {
      t := Take(o, s, Work(late, false), true, true);
    }
  }

  /** With the directory gone the next submission publishes its job, and the late worker strikes. */
  lemma NextIsRobbed(o: Swap, s: Swap, late: Label) returns (t: Swap)
    requires LeadsTo(o, s, true, true) && LocksHeld(s) && s.directory.Absent? && Late(s.jobs, late) && late in s.used
    ensures LeadsTo(o, t, true, true) && Robs(t, late)
  {
    t := ComesFree(o, s, late);
    var next := Above(t.used);
    t := ComesToPublish(o, t, 0, next, true, true);
    t := Publishes(o, t, 0, next, true, true);
    t := Strikes(o, t, late);
  }

  /** A submitter that has begun to take the directory away ends it. */
  lemma SweepEnds(o: Swap, s: Swap, sid: Sid) returns (t: Swap)
    requires LeadsTo(o, s, true, true) && sid in s.submitters && s.directory.Ownerless?
    requires s.submitters[sid].ClearingDirectory? || s.submitters[sid].RetractingDirectory?
    ensures LeadsTo(o, t, true, true) && t == s.(submitters := t.submitters, directory := Absent)
    ensures t.submitters.Keys == s.submitters.Keys
  {
    var later := Above(s.used);
    t := Take(o, s, Advance(sid, true, later), true, true);
  }

  lemma SweepRuns(o: Swap, s: Swap, sid: Sid) returns (t: Swap)
    requires LeadsTo(o, s, true, true) && sid in s.submitters && !s.directory.Absent?
    requires s.submitters[sid].Clearing? || s.submitters[sid].Retracting?
    ensures LeadsTo(o, t, true, true) && t == s.(submitters := t.submitters, directory := Absent)
    ensures t.submitters.Keys == s.submitters.Keys
  {
    var later := Above(s.used);
    t := Take(o, s, Advance(sid, true, later), true, true);
    t := SweepEnds(o, t, sid);
  }

  /** The worker of a job crashes, if there is one. */
  lemma WorkerEnds(o: Swap, s: Swap, job: Label) returns (t: Swap)
    requires LeadsTo(o, s, true, true) && LocksHeld(s)
    ensures LeadsTo(o, t, true, true) && LocksHeld(t) && t == s.(jobs := t.jobs, worker := t.worker)
    ensures job in t.jobs ==> !t.jobs[job].Running?
    ensures forall other <- s.jobs :: other != job ==> other in t.jobs && t.jobs[other] == s.jobs[other]
  {
    t := s;
    if job in t.jobs && t.jobs[job].Running? {
      t := Take(o, t, WorkerCrashes(job), true, true);
    }
  }

  /** A submitter is told that the job it asks about has ended. */
  lemma HearsOfTheEnd(o: Swap, s: Swap, sid: Sid, job: Label) returns (t: Swap)
    requires LeadsTo(o, s, true, true) && LocksHeld(s) && sid in s.submitters && s.submitters[sid] == Asking(job)
    requires job in s.jobs ==> !s.jobs[job].Running?
    ensures LeadsTo(o, t, true, true) && LocksHeld(t)
    ensures t == s.(submitters := s.submitters[sid := Clearing(job)], jobs := Unload(s.jobs, job))
  {
    var later := Above(s.used);
    t := Take(o, s, Advance(sid, true, later), true, true);
    LocksHeldByDecide(s, sid, true);
  }

  /** A submitter that asks about another job than the late one may be told that it has ended. */
  lemma AskingSweeps(o: Swap, s: Swap, sid: Sid, late: Label) returns (t: Swap)
    requires LeadsTo(o, s, true, true) && LocksHeld(s) && sid in s.submitters && !s.directory.Absent?
    requires s.submitters[sid].Asking? && s.submitters[sid].previous != late && late in s.jobs
    ensures LeadsTo(o, t, true, true) && LocksHeld(t) && t.directory.Absent? && t.used == s.used
    ensures late in t.jobs && t.jobs[late] == s.jobs[late]
  {
    var previous := s.submitters[sid].previous;
    t := WorkerEnds(o, s, previous);
    t := HearsOfTheEnd(o, t, sid, previous);
    t := SweepRuns(o, t, sid);
  }

  /** Whoever is on the way to take the directory away does it. */
  lemma SomeoneFinishes(o: Swap, s: Swap, late: Label) returns (t: Swap)
    requires LeadsTo(o, s, true, true) && LocksHeld(s) && s.directory.Ownerless? && late in s.jobs
    requires (exists sid <- s.submitters :: Finishing(s.submitters[sid], late))
      || (exists other <- s.jobs :: other != late && HalfRemoving(s.jobs[other]))
    ensures LeadsTo(o, t, true, true) && LocksHeld(t) && t.directory.Absent? && t.used == s.used
    ensures late in t.jobs && t.jobs[late] == s.jobs[late]
  {
    if other :| other in s.jobs && other != late && HalfRemoving(s.jobs[other]) {
      t := Take(o, s, Work(other, true), true, true);
    } else {
      var sid :| sid in s.submitters && Finishing(s.submitters[sid], late);
      match s.submitters[sid] {
        case Asking(_) => t := AskingSweeps(o, s, sid, late);
        case Clearing(_) => t := SweepRuns(o, s, sid);
        case Retracting(_) => t := SweepRuns(o, s, sid);
        case _ => t := SweepEnds(o, s, sid);
      }
    }
  }

  lemma HarmfulStart(s: Swap, job: Label) returns (t: Swap)
    requires Sound(s) && Enabled(s, Bootstrap(job)) && !StartIsHarmless(s, job)
    ensures LeadsTo(At(s, job, Waiting), t, true, true) && Robs(t, job)
  {
    var o := At(s, job, Waiting);
    Stays(o, true, true);
    LocksHeldKept(s, Bootstrap(job), o);
    match s.directory {
      case Absent => t := NextIsRobbed(o, o, job);
      case Owned(owner) =>
        if owner == job {
          var sid :| sid in s.submitters && (s.submitters[sid].Clearing? || s.submitters[sid].Retracting?);
          t := SweepRuns(o, o, sid);
          t := NextIsRobbed(o, t, job);
        } else {
          t := Strikes(o, o, job);
        }
      case Ownerless =>
        assert forall other <- s.jobs :: HalfRemoving(s.jobs[other]) ==> other != job && o.jobs[other] == s.jobs[other];
        t := SomeoneFinishes(o, o, job);
        t := NextIsRobbed(o, t, job);
    }
  }

  lemma HarmfulAnswer(s: Swap, sid: Sid, job: Label) returns (t: Swap)
    requires Sound(s) && sid in s.submitters && s.submitters[sid] == Launching(job)
    requires job in s.jobs && Unfinished(s.jobs[job])
    ensures LeadsTo(To(s, sid, Retracting(job)), t, true, true) && Robs(t, job)
  {
    var o := To(s, sid, Retracting(job));
    Stays(o, true, true);
    t := SweepRuns(o, o, sid);
    t := NextIsRobbed(o, t, job);
  }

  /**
   After any run on which launchd and the submitters agree, and for any step whatever: no worker will ever come to
   remove another job's directory, unless they disagree again, exactly when the step is harmless.
   */
  lemma OwnershipIsKeptExactlyWhen(s: Swap, step: Step)
    requires Reachable(s, true, true) && Enabled(s, step)
    ensures KeepsOwnership(Next(s, step)) <==> Harmless(s, step)
  {
    ReachableIsSound(s);
    if Harmless(s, step) {
      HarmlessKeepsOwnership(s, step);
    } else if step.Bootstrap? {
      var t := HarmfulStart(s, step.job);
      assert Robs(t, step.job);
    } else {
      var job := s.submitters[step.sid].job;
      var t := HarmfulAnswer(s, step.sid, job);
      assert Robs(t, job);
    }
  }

  // ----- before a submission -----

  /** However the next submissions go, a start that launchd owes now does no harm when it comes. */
  ghost predicate OwedStartsAreHarmless(s: Swap) {
    forall t, job ::
      LeadsTo(s, t, true, true) && job in s.jobs && s.jobs[job].Requested? && Enabled(t, Bootstrap(job)) ==>
        KeepsOwnership(Next(t, Bootstrap(job)))
  }

  /** In a free state that would admit a submission, owed starts are harmless exactly when there is none. */
  lemma OwedStartsAreHarmlessExactlyWhen(s: Swap)
    requires Reachable(s, true, true) && Free(s) && !s.directory.Ownerless?
    requires s.directory.Owned? ==> NotRunning(s.jobs, s.directory.job)
    ensures OwedStartsAreHarmless(s) <==> forall job <- s.jobs :: !s.jobs[job].Requested?
  {
    if job :| job in s.jobs && s.jobs[job].Requested? {
      var next := Above(s.used);
      Stays(s, true, true);
      var t := ComesToPublish(s, s, 0, next, true, true);
      var u := ComesToPublish(START, s, 0, next, true, true);
      assert t == u && !StartIsHarmless(t, job);
      OwnershipIsKeptExactlyWhen(t, Bootstrap(job));
    }
  }
}
