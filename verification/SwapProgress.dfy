/**
 What the swap protocol does when it gets its way (scripts/mise/swap_detached.rb:13-81 and 136-182): a worker that
 gets the lock runs the command, a job comes to its end and leaves nothing behind, and a submission on its own is
 published or refused, exactly as the locks and the directory stand.
 */
module SwapProgress {
  import opened Prelude
  import opened SwapAdmission
  import opened SwapLimits

  // ----- the command -----

  /** With the worker lock free, a waiting worker takes it, prepares and runs the command; nothing else changes. */
  lemma CommandRuns(o: Swap, s: Swap, job: Label) returns (t: Swap)
    requires LeadsTo(o, s, true, true) && s.worker.None? && job in s.jobs && s.jobs[job] == Running(Waiting)
    ensures LeadsTo(o, t, true, true) && Kids(t.kids, job) == Kids(s.kids, job) + 1
    ensures t == s.(worker := Some(ByJob(job)), jobs := s.jobs[job := Running(Commanding)],
                    kids := s.kids[job := Kids(s.kids, job) + 1])
  {
    t := Take(o, s, Work(job, true), true, true);
    t := Take(o, t, Work(job, true), true, true);
    assert t.jobs == s.jobs[job := Running(Commanding)];
  }

  /** A process of a command comes from one more of them, or from a worker that has prepared with the lock. */
  lemma CommandsComeFromPreparedWorkers(s: Swap, step: Step, t: Swap, job: Label)
    requires Follows(s, step, t) && Kids(t.kids, job) > Kids(s.kids, job)
    ensures Kids(t.kids, job) == Kids(s.kids, job) + 1
    ensures || (step == KidForks(job) && Kids(s.kids, job) > 0)
            || (step == Work(job, true) && job in s.jobs && s.jobs[job] == Running(Preparing)
                && t.jobs[job] == Running(Commanding))
  {
    match step {
      case Advance(sid, ok, later) => AdvanceKeepsKids(s, sid, ok, later);
      case _ =>
    }
  }

  lemma AdvanceKeepsKids(s: Swap, sid: Sid, ok: bool, job: Label)
    requires Enabled(s, Advance(sid, ok, job))
    ensures Next(s, Advance(sid, ok, job)).kids == s.kids
  {
  }

  /** A fork is one process more with the lock's descriptor, an exit one less; no other job's count changes. */
  lemma ProcessesForkAndExit(s: Swap, job: Label, other: Label)
    requires Kids(s.kids, job) > 0
    ensures var t := Next(s, KidForks(job)); t == s.(kids := t.kids) && Kids(t.kids, job) == Kids(s.kids, job) + 1
    ensures var t := Next(s, KidExits(job));
      t == s.(kids := t.kids, worker := t.worker) && Kids(t.kids, job) == Kids(s.kids, job) - 1
    ensures other != job ==>
      && Kids(Next(s, KidForks(job)).kids, other) == Kids(s.kids, other)
      && Kids(Next(s, KidExits(job)).kids, other) == Kids(s.kids, other)
  {
  }

  /** A worker turns to its removal after the command, after a failed preparation, or without the lock. */
  lemma RemovalComesAfter(s: Swap, step: Step, t: Swap, job: Label)
    requires Follows(s, step, t) && job in s.jobs && s.jobs[job].Running? && !s.jobs[job].worker.Removing?
    requires job in t.jobs && t.jobs[job].Running? && t.jobs[job].worker.Removing?
    ensures || (s.jobs[job].worker == Commanding && step.Work? && t.jobs[job].worker.leased)
            || (s.jobs[job].worker == Preparing && step == Work(job, false) && t.jobs[job].worker.leased)
            || (s.jobs[job].worker == Waiting && step == Work(job, false) && !t.jobs[job].worker.leased)
  {
    match step {
      case Advance(sid, ok, later) => AdvanceKeepsWorkers(s, sid, ok, later, job);
      case _ =>
    }
  }

  lemma AdvanceKeepsWorkers(s: Swap, sid: Sid, ok: bool, later: Label, job: Label)
    requires Enabled(s, Advance(sid, ok, later)) && job in s.jobs && s.jobs[job].Running?
    ensures var t := Next(s, Advance(sid, ok, later));
      job in t.jobs && (t.jobs[job].Running? ==> t.jobs[job] == s.jobs[job])
  {
  }

  /** From the start an orderly run brings any job to its command. */
  lemma FirstCommandRuns(job: Label, later: Label) returns (t: Swap)
    requires job != later
    ensures Reachable(t, true, true) && Kids(t.kids, job) > 0 && t.worker == Some(ByJob(job))
    ensures t.jobs == map[job := Running(Commanding)] && t.directory == Owned(job)
    ensures t.submitters == map[] && t.admission.None?
  {
    t := FirstLaunches(0, job, later);
    t := Leaves(START, t, 0, job, later, true, true);
    var u := t;
    t := CommandRuns(START, u, job);
    assert t.jobs == map[job := Running(Commanding)];
  }

  // ----- the end of a job -----

  /** A worker whose command and all its processes are over removes its directory, gives the lock back and goes. */
  lemma JobEnds(o: Swap, s: Swap, job: Label) returns (t: Swap)
    requires LeadsTo(o, s, true, true) && job in s.jobs && s.jobs[job] == Running(Commanding)
    requires s.worker == Some(ByJob(job)) && Kids(s.kids, job) == 0 && s.directory == Owned(job)
    ensures LeadsTo(o, t, true, true)
    ensures t == s.(worker := None, directory := Absent, jobs := s.jobs[job := Unloaded])
  {
    t := Take(o, s, Work(job, true), true, true);
    t := Take(o, t, Work(job, true), true, true);
    t := Take(o, t, Work(job, true), true, true);
    assert t == s.(directory := Absent, jobs := s.jobs[job := Running(Closing(true))]);
    t := Take(o, t, Work(job, true), true, true);
    t := Take(o, t, Work(job, true), true, true);
    assert t.jobs == s.jobs[job := Unloaded];
  }

  /** While a process of the command is left, the worker's end does not give the lock back; the last one does. */
  lemma LastProcessGivesTheLockBack(s: Swap, job: Label)
    requires Kids(s.kids, job) > 0 && s.worker == Some(ByJob(job)) && job in s.jobs && s.jobs[job].Running?
    ensures Enabled(s, WorkerCrashes(job)) && Next(s, WorkerCrashes(job)).worker == s.worker
    ensures s.jobs[job].worker.Closing? ==> WorkStep(s, job, true).worker == s.worker
    ensures Enabled(s, KidExits(job))
    ensures !LeaseOpen(s.jobs[job].worker) ==>
      Next(s, KidExits(job)).worker == if Kids(s.kids, job) == 1 then None else s.worker
  {
  }

  /** From the start a whole job: published, started, run, removed; the locks are free and the directory is gone. */
  lemma FirstJobRunsThrough(job: Label, later: Label) returns (t: Swap)
    requires job != later
    ensures Reachable(t, true, true) && Free(t) && t.directory == Absent && t.jobs == map[job := Unloaded]
  {
    t := FirstCommandRuns(job, later);
    t := ProcessesEnd(START, t, job);
    t := JobEnds(START, t, job);
    assert t.jobs == map[job := Unloaded];
  }

  lemma ProcessesEnd(o: Swap, s: Swap, job: Label) returns (t: Swap)
    requires LeadsTo(o, s, true, true) && Open(s.jobs, job)
    ensures LeadsTo(o, t, true, true) && t == s.(kids := t.kids) && Kids(t.kids, job) == 0
    decreases Kids(s.kids, job)
  {
    t := s;
    if Kids(s.kids, job) > 0 {
      t := Take(o, s, KidExits(job), true, true);
      t := ProcessesEnd(o, t, job);
    }
  }

  // ----- a submission on its own -----

  predicate OwnStep(step: Step, sid: Sid) {
    step == Submit(sid) || (step.Advance? && step.sid == sid)
  }

  predicate OwnPath(states: seq<Swap>, steps: seq<Step>, sid: Sid) {
    Path(states, steps) && forall step <- steps :: OwnStep(step, sid)
  }

  /** Nobody else moves, and the submission, given true or false answers, comes to publish the job. */
  ghost predicate Publishable(s: Swap, sid: Sid, job: Label) {
    exists states: seq<Swap>, steps: seq<Step> ::
      && OwnPath(states, steps, sid) && states[0] == s
      && sid in states[|steps|].submitters && states[|steps|].submitters[sid] == Published(job)
  }

  /** The directory is gone, or belongs to a job of which launchd knows no running worker. */
  predicate Unoccupied(s: Swap) {
    s.directory == Absent || (s.directory.Owned? && (s.directory.job in s.jobs ==> !s.jobs[s.directory.job].Running?))
  }

  /** The submission has not got past the directory, and has changed nothing. */
  predicate KeptOut(s: Swap, t: Swap, sid: Sid) {
    && t == s.(submitters := t.submitters, admission := t.admission, worker := t.worker)
    && (sid in t.submitters ==>
          match t.submitters[sid]
          case Asking(previous) => s.directory == Owned(previous)
          case Started => true
          case Admitted => true
          case Leased => true
          case Found => true
          case ClosingLease => true
          case ClosingAdmission => true
          case _ => false)
  }

  lemma StaysOut(s: Swap, t: Swap, step: Step, u: Swap, sid: Sid)
    requires !Unoccupied(s) && KeptOut(s, t, sid) && Follows(t, step, u) && OwnStep(step, sid)
    ensures KeptOut(s, u, sid)
  {
    if step.Advance? {
      match t.submitters[sid] {
        case Asking(_) =>
        case Leased =>
        case _ =>
      }
    }
  }

  lemma {:induction false} OwnPathStaysOut(states: seq<Swap>, steps: seq<Step>, n: nat, sid: Sid)
    requires OwnPath(states, steps, sid) && n <= |steps| && sid !in states[0].submitters && !Unoccupied(states[0])
    ensures KeptOut(states[0], states[n], sid)
  {
    if n == 0 {
    } else {
      OwnPathStaysOut(states, steps, n - 1, sid);
      assert Follows(states[n - 1], steps[n - 1], states[n]) && steps[n - 1] in steps;
      StaysOut(states[0], states[n - 1], steps[n - 1], states[n], sid);
    }
  }

  /** The submission's own steps lead from `o` to `s`. */
  ghost predicate LeadsAlone(o: Swap, s: Swap, sid: Sid) {
    exists states: seq<Swap>, steps: seq<Step> ::
      OwnPath(states, steps, sid) && states[0] == o && states[|steps|] == s
  }

  lemma Moves(o: Swap, s: Swap, step: Step, sid: Sid) returns (t: Swap)
    requires LeadsAlone(o, s, sid) && Enabled(s, step) && OwnStep(step, sid)
    ensures t == Next(s, step) && LeadsAlone(o, t, sid)
  {
    t := Next(s, step);
    var states: seq<Swap>, steps: seq<Step> :|
      OwnPath(states, steps, sid) && states[0] == o && states[|steps|] == s;
    assert Follows(s, step, t);
    assert OwnPath(states + [t], steps + [step], sid);
  }

  lemma AloneAtFirst(o: Swap, sid: Sid)
    ensures LeadsAlone(o, o, sid)
  {
    assert OwnPath([o], [], sid);
  }

  /** It takes both locks and looks at the directory. */
  lemma EntersAlone(s: Swap, sid: Sid, job: Label) returns (t: Swap)
    requires Free(s) && job !in s.used
    ensures LeadsAlone(s, t, sid)
    ensures t == s.(admission := Some(sid), worker := Some(BySubmitter(sid)),
                    submitters := map[sid := if s.directory.Absent? then Publishing else Found])
  {
    AloneAtFirst(s, sid);
    t := Moves(s, s, Submit(sid), sid);
    t := Moves(s, t, Advance(sid, true, job), sid);
    t := Moves(s, t, Advance(sid, true, job), sid);
    t := Moves(s, t, Advance(sid, true, job), sid);
    assert t.submitters == map[sid := if s.directory.Absent? then Publishing else Found];
  }

  /** It asks about the owner and hears that no worker is running; an ended job is unloaded. */
  lemma HearsAlone(o: Swap, s: Swap, sid: Sid, job: Label) returns (t: Swap)
    requires LeadsAlone(o, s, sid) && s.submitters == map[sid := Found] && job !in s.used
    requires s.directory.Owned? && Unoccupied(s)
    ensures LeadsAlone(o, t, sid)
    ensures t == s.(submitters := map[sid := Clearing(s.directory.job)], jobs := Unload(s.jobs, s.directory.job))
  {
    t := Moves(o, s, Advance(sid, true, job), sid);
    assert t.submitters == map[sid := Asking(s.directory.job)];
    t := Moves(o, t, Advance(sid, true, job), sid);
    assert t.submitters == map[sid := Clearing(s.directory.job)];
  }

  /** It then takes the directory away. */
  lemma ClearsAlone(o: Swap, s: Swap, sid: Sid, job: Label) returns (t: Swap)
    requires LeadsAlone(o, s, sid) && s.submitters == map[sid := Found] && job !in s.used
    requires s.directory.Owned? && Unoccupied(s)
    ensures LeadsAlone(o, t, sid)
    ensures t == s.(submitters := map[sid := Publishing], directory := Absent, jobs := Unload(s.jobs, s.directory.job))
  {
    t := HearsAlone(o, s, sid, job);
    t := Moves(o, t, Advance(sid, true, job), sid);
    t := Moves(o, t, Advance(sid, true, job), sid);
    assert t.submitters == map[sid := Publishing];
  }

  /**
   With both locks free, a submission on its own is published exactly when the directory is gone or belongs to a job
   of which launchd knows no running worker; otherwise it ends without having changed anything.
   */
  lemma SubmissionIsPublishedExactlyWhen(s: Swap, sid: Sid, job: Label)
    requires Free(s) && job !in s.used
    ensures Publishable(s, sid, job) <==> Unoccupied(s)
  {
    if Unoccupied(s) {
      var t := EntersAlone(s, sid, job);
      if s.directory.Owned? {
        t := ClearsAlone(s, t, sid, job);
      }
      t := Moves(s, t, Advance(sid, true, job), sid);
      assert sid in t.submitters && t.submitters[sid] == Published(job);
    } else {
      forall states: seq<Swap>, steps: seq<Step> | OwnPath(states, steps, sid) && states[0] == s
        ensures !(sid in states[|steps|].submitters && states[|steps|].submitters[sid] == Published(job))
      {
        OwnPathStaysOut(states, steps, |steps|, sid);
      }
    }
  }

  /** While another submission has the first lock, or a command the second, a submission ends with nothing changed. */
  lemma LockedOut(s: Swap, sid: Sid, job: Label) returns (t: Swap)
    requires sid !in s.submitters && job !in s.used && s.worker != Some(BySubmitter(sid))
    requires (s.admission.Some? && s.admission != Some(sid)) || (s.admission.None? && s.worker.Some?)
    ensures LeadsAlone(s, t, sid) && t == s
  {
    AloneAtFirst(s, sid);
    t := Moves(s, s, Submit(sid), sid);
    t := Moves(s, t, Advance(sid, true, job), sid);
    if s.admission.None? {
      t := Moves(s, t, Advance(sid, true, job), sid);
      t := Moves(s, t, Advance(sid, true, job), sid);
    }
    assert t.submitters == s.submitters;
  }

  // ----- after publication -----

  /** A published submission asks launchd to start its job, hears yes, and leaves with both locks free. */
  lemma SubmissionLeaves(o: Swap, s: Swap, sid: Sid, mine: Label, later: Label) returns (t: Swap)
    requires LeadsTo(o, s, true, true) && s.submitters == map[sid := Published(mine)] && Holds(s, sid)
    requires later !in s.used && s.directory == Owned(mine)
    ensures LeadsTo(o, t, true, true)
    ensures t == s.(submitters := map[], admission := None, worker := None, jobs := s.jobs[mine := Running(Waiting)])
  {
    t := Take(o, s, Advance(sid, true, later), true, true);
    assert t.submitters == map[sid := Launching(mine)];
    var u := t;
    t := Leaves(o, u, sid, mine, later, true, true);
    assert t.jobs == s.jobs[mine := Running(Waiting)];
  }

  /** Told no, it takes its own directory away again before it leaves. */
  lemma SubmissionRetracts(o: Swap, s: Swap, sid: Sid, mine: Label, later: Label) returns (t: Swap)
    requires LeadsTo(o, s, true, true) && s.submitters == map[sid := Launching(mine)] && Holds(s, sid)
    requires later !in s.used && s.directory == Owned(mine) && mine in s.jobs && s.jobs[mine].Requested?
    ensures LeadsTo(o, t, true, true)
    ensures t == s.(submitters := map[], admission := None, worker := None, directory := Absent)
  {
    t := Take(o, s, Advance(sid, false, later), true, true);
    t := Take(o, t, Advance(sid, true, later), true, true);
    t := Take(o, t, Advance(sid, true, later), true, true);
    assert t.submitters == map[sid := ClosingLease];
    t := Closes(o, t, sid, later, true, true);
  }

  // ----- what any step can do to the directory and the locks -----

  /** The submission or the worker is at the point where it takes the owner's file out of the directory. */
  predicate Empties(s: Swap, step: Step) {
    || (step.Advance? && step.sid in s.submitters
        && (s.submitters[step.sid].Clearing? || s.submitters[step.sid].Retracting?))
    || (step.Work? && step.job in s.jobs && s.jobs[step.job].Running? && s.jobs[step.job].worker.Removing?)
  }

  /** It is at the point where it takes the emptied directory away. */
  predicate Unlinks(s: Swap, step: Step) {
    || (step.Advance? && step.sid in s.submitters
        && (s.submitters[step.sid].ClearingDirectory? || s.submitters[step.sid].RetractingDirectory?))
    || (step.Work? && step.job in s.jobs && s.jobs[step.job].Running? && s.jobs[step.job].worker.RemovingDirectory?)
  }

  predicate Publishes(s: Swap, step: Step) {
    step.Advance? && step.sid in s.submitters && s.submitters[step.sid].Publishing?
  }

  /** A directory with an owner only loses its file, one without only goes or gets an owner, in one step each. */
  lemma DirectoryChangesExactlyBy(s: Swap, step: Step, t: Swap)
    requires Follows(s, step, t)
    ensures t.directory ==
      if Publishes(s, step) && !s.directory.Owned? then Owned(step.job)
      else if Empties(s, step) && s.directory.Owned? then Ownerless
      else if Unlinks(s, step) && s.directory.Ownerless? then Absent
      else s.directory
  {
    match step {
      case Advance(sid, ok, job) => DirectoryByAdvance(s, sid, ok, job);
      case _ =>
    }
  }

  lemma DirectoryByAdvance(s: Swap, sid: Sid, ok: bool, job: Label)
    requires Enabled(s, Advance(sid, ok, job))
    ensures var t, step := Next(s, Advance(sid, ok, job)), Advance(sid, ok, job);
      t.directory ==
        if Publishes(s, step) && !s.directory.Owned? then Owned(job)
        else if Empties(s, step) && s.directory.Owned? then Ownerless
        else if Unlinks(s, step) && s.directory.Ownerless? then Absent
        else s.directory
  {
    match s.submitters[sid] {
      case Publishing =>
      case Clearing(_) =>
      case ClearingDirectory =>
      case Retracting(_) =>
      case RetractingDirectory =>
      case _ =>
    }
  }

  /** The submission goes on to close its locks, and has changed nothing else. */
  predicate Refused(s: Swap, t: Swap, sid: Sid) {
    t == s.(submitters := s.submitters[sid := ClosingLease])
  }

  /**
   A status that cannot be told or shows a worker running, a directory that is gone when it is to be taken away, and
   one that has an owner when it is to be put up, each refuse the submission.
   */
  lemma FailuresRefuse(s: Swap, sid: Sid, ok: bool, job: Label)
    requires Enabled(s, Advance(sid, ok, job))
    requires match s.submitters[sid]
      case Asking(previous) => !ok || (previous in s.jobs && s.jobs[previous].Running?)
      case Found => !s.directory.Owned?
      case Clearing(_) => s.directory.Absent?
      case ClearingDirectory => !s.directory.Ownerless?
      case Publishing => s.directory.Owned?
      case _ => false
    ensures Refused(s, Next(s, Advance(sid, ok, job)), sid)
  {
  }

  /** What fails after publication, before or at the bootstrap, takes the directory back; what is gone stays gone. */
  lemma FailuresRetract(s: Swap, sid: Sid, job: Label)
    requires Enabled(s, Advance(sid, false, job))
    ensures var t := Next(s, Advance(sid, false, job));
      match s.submitters[sid]
      case Published(mine) => t == s.(submitters := s.submitters[sid := Retracting(mine)])
      case Launching(mine) => t == s.(submitters := s.submitters[sid := Retracting(mine)])
      case Retracting(_) => s.directory.Absent? ==> Refused(s, t, sid)
      case _ => true
  {
  }

  /** A worker that finds the directory gone goes on to give its lock back. */
  lemma RemovalOfNothing(s: Swap, job: Label, ok: bool)
    requires job in s.jobs && s.jobs[job].Running? && s.jobs[job].worker.Removing? && s.directory.Absent?
    ensures WorkStep(s, job, ok) == s.(jobs := s.jobs[job := Running(Closing(s.jobs[job].worker.leased))])
  {
  }

  /** Only a free lock is taken, by who takes it; a submitter gives back its own, a job's goes with its last holder. */
  lemma WorkerLockChangesExactlyBy(s: Swap, step: Step, t: Swap)
    requires Follows(s, step, t)
    ensures t.worker == s.worker
      || (s.worker.None? && step.Advance? && s.submitters[step.sid].Admitted?
          && t.worker == Some(BySubmitter(step.sid)))
      || (s.worker.None? && step.Work? && s.jobs[step.job] == Running(Waiting) && step.ok
          && t.worker == Some(ByJob(step.job)))
      || (t.worker.None? && s.worker.Some? && s.worker.value.BySubmitter?
          && ((step.Advance? && step.sid == s.worker.value.sid) || step == SubmitterCrashes(s.worker.value.sid)))
      || (t.worker.None? && s.worker.Some? && s.worker.value.ByJob?
          && Kids(t.kids, s.worker.value.job) == 0 && !Open(t.jobs, s.worker.value.job))
    ensures step.Advance? && s.submitters[step.sid].ClosingLease? && s.worker == Some(BySubmitter(step.sid)) ==>
      t.worker.None? && t.admission == s.admission && t.directory == s.directory && t.jobs == s.jobs
  {
    match step {
      case Advance(sid, ok, job) => WorkerLockByAdvance(s, sid, ok, job);
      case _ =>
    }
  }

  lemma WorkerLockByAdvance(s: Swap, sid: Sid, ok: bool, job: Label)
    requires Enabled(s, Advance(sid, ok, job))
    ensures var t := Next(s, Advance(sid, ok, job));
      || t.worker == s.worker
      || (s.worker.None? && s.submitters[sid].Admitted? && t.worker == Some(BySubmitter(sid)))
      || (t.worker.None? && s.worker == Some(BySubmitter(sid)))
  {
    if Deciding(s.submitters[sid]) {
      match s.submitters[sid] {
        case Started =>
        case Admitted =>
        case _ =>
      }
    }
  }
}
