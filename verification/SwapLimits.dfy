/**
 What a submission can and cannot get past (scripts/mise/swap_detached.rb:13-81): the exact state that admits one,
 and, from every state in which it can happen, the runs that break ownership of the directory once launchd and
 the submitter do not agree on a bootstrap.
 */
module SwapLimits {
  import opened Prelude
  import opened SwapAdmission

  lemma Stays(o: Swap, prompt: bool, truthful: bool)
    ensures LeadsTo(o, o, prompt, truthful)
  {
    assert Path([o], []);
  }

  lemma Take(o: Swap, s: Swap, step: Step, prompt: bool, truthful: bool) returns (t: Swap)
    requires LeadsTo(o, s, prompt, truthful) && Enabled(s, step)
    requires (prompt ==> Prompt(s, step)) && (truthful ==> Truthful(s, step))
    ensures t == Next(s, step) && LeadsTo(o, t, prompt, truthful)
  {
    t := Next(s, step);
    var states: seq<Swap>, steps: seq<Step> :|
      && Path(states, steps) && states[0] == o && states[|steps|] == s
      && forall i | 0 <= i < |steps| ::
        (prompt ==> Prompt(states[i], steps[i])) && (truthful ==> Truthful(states[i], steps[i]));
    assert Follows(s, step, t);
    assert Path(states + [t], steps + [step]);
  }

  // ----- a submission, piece by piece -----

  predicate Free(s: Swap) {
    s.admission.None? && s.worker.None? && s.submitters == map[]
  }

  /** A submitter takes both locks and looks at the directory. */
  lemma Enters(o: Swap, s: Swap, sid: Sid, job: Label, prompt: bool, truthful: bool) returns (t: Swap)
    requires LeadsTo(o, s, prompt, truthful) && Free(s) && job !in s.used
    ensures LeadsTo(o, t, prompt, truthful)
    ensures t == s.(admission := Some(sid), worker := Some(BySubmitter(sid)),
                    submitters := map[sid := if s.directory.Absent? then Publishing else Found])
  {
    t := Take(o, s, Submit(sid), prompt, truthful);
    t := Take(o, t, Advance(sid, true, job), prompt, truthful);
    t := Take(o, t, Advance(sid, true, job), prompt, truthful);
    t := Take(o, t, Advance(sid, true, job), prompt, truthful);
    assert t.submitters == map[sid := if s.directory.Absent? then Publishing else Found];
  }

  predicate NotRunning(jobs: Jobs, job: Label) {
    job in jobs ==> !jobs[job].Running?
  }

  function Unload(jobs: Jobs, job: Label): Jobs {
    if job in jobs && jobs[job].Exited? then jobs[job := Unloaded] else jobs
  }

  /** It finds the directory of a job that is not running, is told so, and unloads it if need be. */
  lemma Judges(o: Swap, s: Swap, sid: Sid, job: Label, prompt: bool, truthful: bool) returns (t: Swap)
    requires LeadsTo(o, s, prompt, truthful) && s.submitters == map[sid := Found] && job !in s.used
    requires s.directory.Owned? && NotRunning(s.jobs, s.directory.job)
    ensures LeadsTo(o, t, prompt, truthful)
    ensures t == s.(submitters := map[sid := Clearing(s.directory.job)], jobs := Unload(s.jobs, s.directory.job))
  {
    t := Take(o, s, Advance(sid, true, job), prompt, truthful);
    assert t.submitters == map[sid := Asking(s.directory.job)];
    t := Take(o, t, Advance(sid, true, job), prompt, truthful);
    assert t.submitters == map[sid := Clearing(s.directory.job)];
  }

  /** It takes the directory away in two operations. */
  lemma Sweeps(o: Swap, s: Swap, sid: Sid, job: Label, prompt: bool, truthful: bool) returns (t: Swap)
    requires LeadsTo(o, s, prompt, truthful) && sid in s.submitters && s.submitters[sid].Clearing?
    requires s.submitters == map[sid := s.submitters[sid]] && s.directory.Owned? && job !in s.used
    ensures LeadsTo(o, t, prompt, truthful) && t == s.(directory := Absent, submitters := map[sid := Publishing])
  {
    t := Take(o, s, Advance(sid, true, job), prompt, truthful);
    t := Take(o, t, Advance(sid, true, job), prompt, truthful);
    assert t.submitters == map[sid := Publishing];
  }

  /** From a free state whose directory is whole, or not there, to a submitter about to publish. */
  lemma ComesToPublish(o: Swap, s: Swap, sid: Sid, job: Label, prompt: bool, truthful: bool) returns (t: Swap)
    requires LeadsTo(o, s, prompt, truthful) && Free(s) && job !in s.used
    requires !s.directory.Ownerless? && (s.directory.Owned? ==> NotRunning(s.jobs, s.directory.job))
    ensures LeadsTo(o, t, prompt, truthful)
    ensures t == s.(admission := Some(sid), worker := Some(BySubmitter(sid)), directory := Absent,
                    submitters := map[sid := Publishing], jobs := t.jobs)
    ensures t.jobs == if s.directory.Owned? then Unload(s.jobs, s.directory.job) else s.jobs
  {
    t := Enters(o, s, sid, job, prompt, truthful);
    if s.directory.Owned? {
      t := Judges(o, t, sid, job, prompt, truthful);
      t := Sweeps(o, t, sid, job, prompt, truthful);
    }
  }

  lemma Publishes(o: Swap, s: Swap, sid: Sid, job: Label, prompt: bool, truthful: bool) returns (t: Swap)
    requires LeadsTo(o, s, prompt, truthful) && s.submitters == map[sid := Publishing] && !s.directory.Owned?
      && job !in s.used
    ensures LeadsTo(o, t, prompt, truthful)
    ensures t == s.(submitters := map[sid := Published(job)], directory := Owned(job), used := s.used + {job})
  {
    t := Take(o, s, Advance(sid, true, job), prompt, truthful);
    assert t.submitters == map[sid := Published(job)];
  }

  /** It publishes itself and asks launchd to bootstrap the job. */
  lemma Launches(o: Swap, s: Swap, sid: Sid, job: Label, later: Label, prompt: bool, truthful: bool) returns (t: Swap)
    requires LeadsTo(o, s, prompt, truthful) && s.submitters == map[sid := Publishing] && !s.directory.Owned?
    requires job !in s.used && later !in s.used && job != later
    ensures LeadsTo(o, t, prompt, truthful)
    ensures t == s.(submitters := map[sid := Launching(job)], directory := Owned(job), used := s.used + {job},
                    jobs := s.jobs[job := Requested])
  {
    t := Publishes(o, s, sid, job, prompt, truthful);
    t := Take(o, t, Advance(sid, true, later), prompt, truthful);
    assert t.submitters == map[sid := Launching(job)];
  }

  predicate Holds(s: Swap, sid: Sid) {
    s.admission == Some(sid) && s.worker == Some(BySubmitter(sid))
  }

  /** A submitter closes both its locks. */
  lemma Closes(o: Swap, s: Swap, sid: Sid, later: Label, prompt: bool, truthful: bool) returns (t: Swap)
    requires LeadsTo(o, s, prompt, truthful) && s.submitters == map[sid := ClosingLease] && Holds(s, sid)
      && later !in s.used
    ensures LeadsTo(o, t, prompt, truthful)
    ensures t == s.(submitters := map[], admission := None, worker := None)
  {
    t := Take(o, s, Advance(sid, true, later), prompt, truthful);
    t := Take(o, t, Advance(sid, true, later), prompt, truthful);
    assert t.submitters == map[];
  }

  /** launchd starts the job while its submitter waits. */
  lemma Starts(o: Swap, s: Swap, sid: Sid, job: Label, prompt: bool, truthful: bool) returns (t: Swap)
    requires LeadsTo(o, s, prompt, truthful) && s.submitters == map[sid := Launching(job)]
    requires job in s.jobs && s.jobs[job].Requested?
    ensures LeadsTo(o, t, prompt, truthful) && t == s.(jobs := s.jobs[job := Running(Waiting)])
  {
    assert s.submitters[sid] == Launching(job);
    t := Take(o, s, Bootstrap(job), prompt, truthful);
  }

  /** launchd starts the job, the submitter is told so and leaves. */
  lemma Leaves(o: Swap, s: Swap, sid: Sid, job: Label, later: Label, prompt: bool, truthful: bool) returns (t: Swap)
    requires LeadsTo(o, s, prompt, truthful) && s.submitters == map[sid := Launching(job)] && later !in s.used
      && Holds(s, sid)
    requires job in s.jobs && s.jobs[job].Requested?
    ensures LeadsTo(o, t, prompt, truthful)
    ensures t == s.(submitters := map[], admission := None, worker := None, jobs := s.jobs[job := Running(Waiting)])
  {
    t := Starts(o, s, sid, job, prompt, truthful);
    t := Take(o, t, Advance(sid, true, later), prompt, truthful);
    assert t.submitters == map[sid := ClosingLease];
    t := Closes(o, t, sid, later, prompt, truthful);
  }

  /** A waiting worker takes the lock, cannot prepare, and comes to its removal. */
  lemma ComesToRemoval(o: Swap, s: Swap, job: Label, prompt: bool, truthful: bool) returns (t: Swap)
    requires LeadsTo(o, s, prompt, truthful) && s.worker.None? && job in s.jobs && s.jobs[job] == Running(Waiting)
    ensures LeadsTo(o, t, prompt, truthful)
    ensures t == s.(worker := Some(ByJob(job)), jobs := s.jobs[job := Running(Removing(true))])
  {
    t := Take(o, s, Work(job, true), prompt, truthful);
    t := Take(o, t, Work(job, false), prompt, truthful);
    assert t.jobs == s.jobs[job := Running(Removing(true))];
  }

  // ----- when a submission is admitted -----

  /** No job has anything left to do. */
  predicate Settled(s: Swap) {
    forall job <- s.jobs :: s.jobs[job].Exited? || s.jobs[job].Unloaded?
  }

  ghost predicate Admits(s: Swap, job: Label) {
    exists t, sid :: LeadsTo(s, t, true, true) && sid in t.submitters && t.submitters[sid] == Published(job)
  }

  lemma StuckAdmitsNone(s: Swap, job: Label)
    requires Stuck(s)
    ensures !Admits(s, job)
  {
    forall t, sid | LeadsTo(s, t, true, true) && sid in t.submitters ensures t.submitters[sid] != Published(job) {
      var states: seq<Swap>, steps: seq<Step> :| Path(states, steps) && states[0] == s && states[|steps|] == t;
      HalfRemovedDirectoryRefusesAll(states, steps, 0, |steps|);
    }
  }

  /**
   With both locks free, nobody submitting and every job at its end, an orderly run publishes any unused job exactly
   when the directory was not left half removed.
   */
  lemma AdmitsExactlyWhen(s: Swap, job: Label)
    requires Free(s) && Settled(s) && job !in s.used
    ensures Admits(s, job) <==> !s.directory.Ownerless?
  {
    if s.directory.Ownerless? {
      StuckAdmitsNone(s, job);
    } else {
      Stays(s, true, true);
      var t := ComesToPublish(s, s, 0, job, true, true);
      t := Publishes(s, t, 0, job, true, true);
      assert 0 in t.submitters && t.submitters[0] == Published(job);
    }
  }

  // ----- bootstraps that launchd and the submitter do not agree on -----

  /** A worker at its removal in front of a directory that belongs to another, waiting job. */
  predicate AboutToRemoveAnothers(s: Swap, mine: Label, anothers: Label) {
    && mine in s.jobs && s.jobs[mine] == Running(Removing(true))
    && s.directory == Owned(anothers) && anothers in s.jobs && s.jobs[anothers] == Running(Waiting) && mine != anothers
  }

  /** The next job is published and waits; then the first one's worker comes to its removal. */
  lemma NextLosesItsDirectory(o: Swap, s: Swap, sid: Sid, first: Label, next: Label, later: Label, prompt: bool,
      truthful: bool)
    returns (t: Swap)
    requires LeadsTo(o, s, prompt, truthful) && s.submitters == map[sid := Publishing] && !s.directory.Owned?
      && Holds(s, sid)
    requires first in s.jobs && s.jobs[first] == Running(Waiting) && first != next
    requires next !in s.used && later !in s.used && next != later
    ensures LeadsTo(o, t, prompt, truthful) && AboutToRemoveAnothers(t, first, next)
  {
    t := Launches(o, s, sid, next, later, prompt, truthful);
    t := Leaves(o, t, sid, next, later, prompt, truthful);
    t := ComesToRemoval(o, t, first, prompt, truthful);
  }

  /**
   From every free state in which launchd still owes the start of a job, and in which a submission would be admitted:
   if the job starts after all, its worker may come to remove the directory of any next job, though every answer
   to a submitter is true.
   */
  lemma LateBootstrapRemovesAnothers(s: Swap, first: Label, next: Label, later: Label) returns (t: Swap)
    requires Free(s) && first in s.jobs && s.jobs[first].Requested? && !s.directory.Ownerless?
    requires s.directory.Owned? ==> NotRunning(s.jobs, s.directory.job)
    requires next !in s.used && later !in s.used && next != later && next != first
    ensures LeadsTo(s, t, false, true) && AboutToRemoveAnothers(t, first, next)
  {
    Stays(s, false, true);
    t := ComesToPublish(s, s, 0, next, false, true);
    t := Take(s, t, Bootstrap(first), false, true);
    t := NextLosesItsDirectory(s, t, 0, first, next, later, false, true);
  }

  /** The submitter is told that its job did not start, takes its directory away and leaves. */
  lemma Retracts(o: Swap, s: Swap, sid: Sid, job: Label, later: Label) returns (t: Swap)
    requires LeadsTo(o, s, true, false) && s.submitters == map[sid := Launching(job)] && Holds(s, sid)
    requires s.directory == Owned(job) && later !in s.used
    ensures LeadsTo(o, t, true, false)
      && t == s.(submitters := map[], admission := None, worker := None, directory := Absent)
  {
    t := Take(o, s, Advance(sid, false, later), true, false);
    t := Take(o, t, Advance(sid, true, later), true, false);
    t := Take(o, t, Advance(sid, true, later), true, false);
    assert t.submitters == map[sid := ClosingLease];
    t := Closes(o, t, sid, later, true, false);
  }

  /**
   From every state in which a single submitter waits for launchd's answer: if the job starts but the answer is no,
   its worker may come to remove the directory of any next job, though every start is prompt.
   */
  lemma FalseAnswerRemovesAnothers(s: Swap, sid: Sid, first: Label, next: Label, later: Label) returns (t: Swap)
    requires s.submitters == map[sid := Launching(first)] && Holds(s, sid) && s.directory == Owned(first)
    requires first in s.jobs && s.jobs[first].Requested?
    requires next !in s.used && later !in s.used && next != later && next != first
    ensures LeadsTo(s, t, true, false) && AboutToRemoveAnothers(t, first, next)
  {
    Stays(s, true, false);
    t := Starts(s, s, sid, first, true, false);
    t := Retracts(s, t, sid, first, later);
    t := Enters(s, t, sid, next, true, false);
    t := NextLosesItsDirectory(s, t, sid, first, next, later, true, false);
  }

  // ----- such states are reached -----

  /** From the start an orderly run brings any job to the point where its submitter waits for the answer. */
  lemma FirstLaunches(sid: Sid, job: Label, later: Label) returns (t: Swap)
    requires job != later
    ensures Reachable(t, true, true) && Holds(t, sid) && t.kids == map[] && t.used == {job}
    ensures t.submitters == map[sid := Launching(job)] && t.directory == Owned(job) && t.jobs == map[job := Requested]
  {
    Stays(START, true, true);
    t := ComesToPublish(START, START, sid, job, true, true);
    t := Launches(START, t, sid, job, later, true, true);
  }

  /** Its submitter may crash there, which leaves a free state with a start still owed. */
  lemma FirstIsAbandoned(sid: Sid, job: Label, later: Label) returns (t: Swap)
    requires job != later
    ensures Reachable(t, true, true) && Free(t) && t.directory == Owned(job) && t.jobs == map[job := Requested]
      && t.used == {job}
  {
    t := FirstLaunches(sid, job, later);
    t := Take(START, t, SubmitterCrashes(sid), true, true);
    assert t.submitters == map[];
  }

  /** An orderly run in which the worker crashes inside its removal. */
  lemma RemovalCanBeCutInHalf(job: Label, later: Label) returns (t: Swap)
    requires job != later
    ensures Reachable(t, true, true) && Free(t) && Settled(t) && t.directory.Ownerless? && Stuck(t)
  {
    t := FirstLaunches(0, job, later);
    t := Leaves(START, t, 0, job, later, true, true);
    t := ComesToRemoval(START, t, job, true, true);
    t := Take(START, t, Work(job, true), true, true);
    t := Take(START, t, WorkerCrashes(job), true, true);
  }
}
