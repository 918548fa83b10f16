/**
 Admission of one-shot swap jobs (scripts/mise/swap_detached.rb:13-81 and 136-182): any number of
 submitters and launchd-owned workers, each of which may crash between any two operations.

 Two advisory file locks and one directory carry the protocol. `admission` serializes submitters.
 `worker` is held through an open file description: by a submitter while it decides, or by a worker,
 whose command and the command's descendants inherit the descriptor and keep the lock after the worker
 is gone. The directory active.lock names its owner; it appears by one rename, and is removed in two
 operations, the file inside first.
 */
module SwapAdmission {
  import opened Prelude

  type Sid = nat
  type Label = nat

  datatype Owner = BySubmitter(sid: Sid) | ByJob(job: Label)

  datatype Directory = Absent | Ownerless | Owned(job: Label)

  /** Where a submitter stands; one that has returned, raised or crashed is not in the map. */
  datatype Submitter =
    | Started
    | Admitted
    | Leased
    | Found
    | Asking(previous: Label)
    | Clearing(previous: Label)
    | ClearingDirectory
    | Publishing
    | Published(job: Label)
    | Launching(job: Label)
    | Retracting(job: Label)
    | RetractingDirectory
    | ClosingLease
    | ClosingAdmission

  /** Where a worker stands. `leased`: it has the worker lock's descriptor open. */
  datatype Worker =
    | Waiting
    | Preparing
    | Commanding
    | Removing(leased: bool)
    | RemovingDirectory(leased: bool)
    | Closing(leased: bool)
    | Leaving

  /** What launchd knows of a label it was asked to bootstrap. */
  datatype Job = Requested | Running(worker: Worker) | Exited | Unloaded

  datatype Status = JobAbsent | JobRunning | JobExited | JobUnknown

  type Submitters = map<Sid, Submitter>

  type Jobs = map<Label, Job>

  /** `kids`: per label, the live processes that hold the descriptor its worker passed on. */
  datatype Swap = Swap(
    admission: Option<Sid>,
    worker: Option<Owner>,
    directory: Directory,
    submitters: Submitters,
    jobs: Jobs,
    kids: map<Label, nat>,
    used: set<Label>)

  const START := Swap(None, None, Absent, map[], map[], map[], {})

  datatype Step =
    | Submit(sid: Sid)
    | Advance(sid: Sid, ok: bool, job: Label)
    | SubmitterCrashes(sid: Sid)
    | Bootstrap(job: Label)
    | Work(job: Label, ok: bool)
    | WorkerCrashes(job: Label)
    | KidForks(job: Label)
    | KidExits(job: Label)

  // ----- who holds what -----

  predicate HoldsAdmission(s: Submitter) {
    !s.Started?
  }

  predicate HoldsLease(s: Submitter) {
    !s.Started? && !s.Admitted? && !s.ClosingAdmission?
  }

  predicate LeaseOpen(w: Worker) {
    w.Preparing? || w.Commanding? || ((w.Removing? || w.RemovingDirectory? || w.Closing?) && w.leased)
  }

  function Kids(kids: map<Label, nat>, job: Label): nat {
    if job in kids then kids[job] else 0
  }

  predicate Open(jobs: Jobs, job: Label) {
    job in jobs && jobs[job].Running? && LeaseOpen(jobs[job].worker)
  }

  /** The lock goes when the last descriptor of the description that holds it is closed. */
  function Unheld(worker: Option<Owner>, jobs: Jobs, kids: map<Label, nat>, job: Label): Option<Owner> {
    if worker == Some(ByJob(job)) && !Open(jobs, job) && Kids(kids, job) == 0 then None else worker
  }

  /** What an accurate query reports of a label; a query may also fail to tell. */
  function StatusOf(jobs: Jobs, job: Label): Status {
    if job !in jobs || jobs[job].Requested? || jobs[job].Unloaded? then JobAbsent
    else if jobs[job].Running? then JobRunning
    else JobExited
  }

  // ----- steps -----

  predicate Enabled(s: Swap, step: Step) {
    match step
    case Submit(sid) => sid !in s.submitters
    case Advance(sid, _, job) => sid in s.submitters && job !in s.used
    case SubmitterCrashes(sid) => sid in s.submitters
    case Bootstrap(job) => job in s.jobs && s.jobs[job].Requested?
    case Work(job, ok) =>
      && job in s.jobs && s.jobs[job].Running?
      && (s.jobs[job].worker.Waiting? && ok ==> s.worker.None?)
    case WorkerCrashes(job) => job in s.jobs && s.jobs[job].Running?
    case KidForks(job) => Kids(s.kids, job) > 0
    case KidExits(job) => Kids(s.kids, job) > 0
  }

  function To(s: Swap, sid: Sid, next: Submitter): Swap {
    s.(submitters := s.submitters[sid := next])
  }

  /** Both descriptors of a submitter that is no more are closed. */
  function Gone(s: Swap, sid: Sid): Swap {
    s.(submitters := s.submitters - {sid},
       admission := if s.admission == Some(sid) then None else s.admission,
       worker := if s.worker == Some(BySubmitter(sid)) then None else s.worker)
  }

  /** First operation of a removal: the file inside, if the directory is there. */
  function Emptied(directory: Directory): Directory {
    if directory.Owned? then Ownerless else directory
  }

  /** Second operation of a removal: only an empty directory goes. */
  function Unlinked(directory: Directory): Directory {
    if directory.Ownerless? then Absent else directory
  }

  function Emptying(s: Swap, sid: Sid, next: Submitter): Swap {
    s.(submitters := s.submitters[sid := next], directory := Emptied(s.directory))
  }

  function Unlinking(s: Swap, sid: Sid, next: Submitter): Swap {
    s.(submitters := s.submitters[sid := next], directory := Unlinked(s.directory))
  }

  function Decide(s: Swap, sid: Sid, ok: bool): Swap
    requires sid in s.submitters
  {
    match s.submitters[sid]
    case Started =>
      if s.admission.None? then s.(submitters := s.submitters[sid := Admitted], admission := Some(sid))
      else Gone(s, sid)
    case Admitted =>
      if s.worker.None? then s.(submitters := s.submitters[sid := Leased], worker := Some(BySubmitter(sid)))
      else To(s, sid, ClosingAdmission)
    case Leased => To(s, sid, if s.directory.Absent? then Publishing else Found)
    case Found => To(s, sid, if s.directory.Owned? then Asking(s.directory.job) else ClosingLease)
    case Asking(previous) =>
      var status := if ok then StatusOf(s.jobs, previous) else JobUnknown;
      if status.JobAbsent? then To(s, sid, Clearing(previous))
      else if status.JobExited? then
        s.(submitters := s.submitters[sid := Clearing(previous)], jobs := s.jobs[previous := Unloaded])
      else To(s, sid, ClosingLease)
    case Clearing(_) => Emptying(s, sid, if s.directory.Absent? then ClosingLease else ClearingDirectory)
    case ClearingDirectory => Unlinking(s, sid, if s.directory.Ownerless? then Publishing else ClosingLease)
    case _ => s
  }

  function Launch(s: Swap, sid: Sid, ok: bool, job: Label): Swap
    requires sid in s.submitters
  {
    match s.submitters[sid]
    case Publishing =>
      if s.directory.Owned? then To(s, sid, ClosingLease)
      else s.(submitters := s.submitters[sid := Published(job)], directory := Owned(job), used := s.used + {job})
    case Published(mine) =>
      if ok then s.(submitters := s.submitters[sid := Launching(mine)], jobs := s.jobs[mine := Requested])
      else To(s, sid, Retracting(mine))
    case Launching(mine) => To(s, sid, if ok then ClosingLease else Retracting(mine))
    case Retracting(_) => Emptying(s, sid, if s.directory.Absent? then ClosingLease else RetractingDirectory)
    case RetractingDirectory => Unlinking(s, sid, ClosingLease)
    case ClosingLease =>
      s.(submitters := s.submitters[sid := ClosingAdmission],
         worker := if s.worker == Some(BySubmitter(sid)) then None else s.worker)
    case ClosingAdmission => Gone(s, sid)
    case _ => s
  }

  predicate Deciding(s: Submitter) {
    s.Started? || s.Admitted? || s.Leased? || s.Found? || s.Asking? || s.Clearing? || s.ClearingDirectory?
  }

  function At(s: Swap, job: Label, next: Worker): Swap {
    s.(jobs := s.jobs[job := Running(next)])
  }

  function WorkStep(s: Swap, job: Label, ok: bool): Swap
    requires job in s.jobs && s.jobs[job].Running?
  {
    match s.jobs[job].worker
    case Waiting =>
      if ok then s.(jobs := s.jobs[job := Running(Preparing)], worker := Some(ByJob(job)))
      else At(s, job, Removing(false))
    case Preparing =>
      if ok then s.(jobs := s.jobs[job := Running(Commanding)], kids := s.kids[job := Kids(s.kids, job) + 1])
      else At(s, job, Removing(true))
    case Commanding => At(s, job, Removing(true))
    case Removing(leased) =>
      s.(jobs := s.jobs[job := Running(if s.directory.Absent? then Closing(leased) else RemovingDirectory(leased))],
         directory := Emptied(s.directory))
    case RemovingDirectory(leased) =>
      s.(jobs := s.jobs[job := Running(Closing(leased))], directory := Unlinked(s.directory))
    case Closing(_) =>
      var jobs := s.jobs[job := Running(Leaving)];
      s.(jobs := jobs, worker := Unheld(s.worker, jobs, s.kids, job))
    case Leaving => s.(jobs := s.jobs[job := Unloaded])
  }

  function Next(s: Swap, step: Step): Swap
    requires Enabled(s, step)
  {
    match step
    case Submit(sid) => To(s, sid, Started)
    case Advance(sid, ok, job) => if Deciding(s.submitters[sid]) then Decide(s, sid, ok) else Launch(s, sid, ok, job)
    case SubmitterCrashes(sid) => Gone(s, sid)
    case Bootstrap(job) => At(s, job, Waiting)
    case Work(job, ok) => WorkStep(s, job, ok)
    case WorkerCrashes(job) =>
      var jobs := s.jobs[job := Exited];
      s.(jobs := jobs, worker := Unheld(s.worker, jobs, s.kids, job))
    case KidForks(job) => s.(kids := s.kids[job := Kids(s.kids, job) + 1])
    case KidExits(job) =>
      var kids := s.kids[job := Kids(s.kids, job) - 1];
      s.(kids := kids, worker := Unheld(s.worker, s.jobs, kids, job))
  }

  /** The job starts only while its submitter waits for the answer. */
  predicate Prompt(s: Swap, step: Step) {
    step.Bootstrap? ==> exists sid <- s.submitters :: s.submitters[sid] == Launching(step.job)
  }

  /** The answer to a submitter is yes exactly when its job has been started. */
  predicate Truthful(s: Swap, step: Step) {
    step.Advance? && step.sid in s.submitters && s.submitters[step.sid].Launching? ==>
      var job := s.submitters[step.sid].job; job in s.jobs && (step.ok <==> !s.jobs[job].Requested?)
  }

  predicate Orderly(s: Swap, step: Step) {
    Prompt(s, step) && Truthful(s, step)
  }

  predicate Follows(s: Swap, step: Step, t: Swap) {
    Enabled(s, step) && t == Next(s, step)
  }

  predicate Path(states: seq<Swap>, steps: seq<Step>) {
    |states| == |steps| + 1 && forall i | 0 <= i < |steps| :: Follows(states[i], steps[i], states[i + 1])
  }

  predicate Trace(states: seq<Swap>, steps: seq<Step>) {
    Path(states, steps) && states[0] == START
  }

  predicate AllOrderly(states: seq<Swap>, steps: seq<Step>)
    requires |states| == |steps| + 1
  {
    forall i | 0 <= i < |steps| :: Orderly(states[i], steps[i])
  }

  /**
   Some run leads from `o` to `s`, on which every bootstrap is prompt,
   or every answer truthful, where that is asked.
   */
  ghost predicate LeadsTo(o: Swap, s: Swap, prompt: bool, truthful: bool) {
    exists states: seq<Swap>, steps: seq<Step> ::
      && Path(states, steps) && states[0] == o && states[|steps|] == s
      && forall i | 0 <= i < |steps| ::
        (prompt ==> Prompt(states[i], steps[i])) && (truthful ==> Truthful(states[i], steps[i]))
  }

  ghost predicate Reachable(s: Swap, prompt: bool, truthful: bool) {
    LeadsTo(START, s, prompt, truthful)
  }

  // ----- the worker lock: holds in every run -----

  predicate Leases(worker: Option<Owner>, submitters: Submitters, jobs: Jobs, kids: map<Label, nat>) {
    && (forall sid <- submitters :: HoldsLease(submitters[sid]) ==> worker == Some(BySubmitter(sid)))
    && (forall job <- jobs :: Open(jobs, job) ==> worker == Some(ByJob(job)))
    && (forall job <- kids :: kids[job] > 0 ==> worker == Some(ByJob(job)))
  }

  /** One submitter moves, and keeps, takes or gives up the lock; jobs only change where nothing is open. */
  lemma LeasesBySubmitter(s: Swap, sid: Sid, submitters: Submitters, worker: Option<Owner>, jobs: Jobs)
    requires Leases(s.worker, s.submitters, s.jobs, s.kids) && sid in s.submitters
    requires forall other <- submitters ::
      other == sid || (other in s.submitters && submitters[other] == s.submitters[other])
    requires sid in submitters && HoldsLease(submitters[sid]) ==> worker == Some(BySubmitter(sid))
    requires worker == s.worker || s.worker.None? || (s.worker == Some(BySubmitter(sid)) && worker.None?)
    requires forall job <- jobs :: Open(jobs, job) ==> Open(s.jobs, job)
    ensures Leases(worker, submitters, jobs, s.kids)
  {
  }

  lemma LeasesByDecide(s: Swap, sid: Sid, ok: bool)
    requires Leases(s.worker, s.submitters, s.jobs, s.kids) && sid in s.submitters && Deciding(s.submitters[sid])
    ensures var t := Decide(s, sid, ok); Leases(t.worker, t.submitters, t.jobs, t.kids)
  {
    var t := Decide(s, sid, ok);
    match s.submitters[sid] {
      case Started => LeasesBySubmitter(s, sid, t.submitters, t.worker, s.jobs);
      case Admitted => LeasesBySubmitter(s, sid, t.submitters, t.worker, s.jobs);
      case Asking(_) => LeasesBySubmitter(s, sid, t.submitters, s.worker, t.jobs);
      case _ => LeasesBySubmitter(s, sid, t.submitters, s.worker, s.jobs);
    }
  }

  lemma LeasesByLaunch(s: Swap, sid: Sid, ok: bool, job: Label)
    requires Leases(s.worker, s.submitters, s.jobs, s.kids) && sid in s.submitters && !Deciding(s.submitters[sid])
    ensures var t := Launch(s, sid, ok, job); Leases(t.worker, t.submitters, t.jobs, t.kids)
  {
    var t := Launch(s, sid, ok, job);
    match s.submitters[sid] {
      case ClosingLease => LeasesBySubmitter(s, sid, t.submitters, t.worker, s.jobs);
      case ClosingAdmission => LeasesBySubmitter(s, sid, t.submitters, t.worker, s.jobs);
      case Published(_) => LeasesBySubmitter(s, sid, t.submitters, s.worker, t.jobs);
      case _ => LeasesBySubmitter(s, sid, t.submitters, s.worker, s.jobs);
    }
  }

  lemma LeasesByClosing(s: Swap, job: Label, jobs: Jobs)
    requires Leases(s.worker, s.submitters, s.jobs, s.kids) && job in s.jobs
    requires jobs == s.jobs[job := Running(Leaving)] || jobs == s.jobs[job := Exited]
    ensures Leases(Unheld(s.worker, jobs, s.kids, job), s.submitters, jobs, s.kids)
  {
  }

  lemma LeasesByWork(s: Swap, job: Label, ok: bool)
    requires Leases(s.worker, s.submitters, s.jobs, s.kids) && Enabled(s, Work(job, ok))
    ensures var t := WorkStep(s, job, ok); Leases(t.worker, t.submitters, t.jobs, t.kids)
  {
    match s.jobs[job].worker {
      case Closing(_) => LeasesByClosing(s, job, s.jobs[job := Running(Leaving)]);
      case Waiting =>
      case Preparing =>
      case _ =>
    }
  }

  lemma LeasesKept(s: Swap, step: Step, t: Swap)
    requires Leases(s.worker, s.submitters, s.jobs, s.kids) && Follows(s, step, t)
    ensures Leases(t.worker, t.submitters, t.jobs, t.kids)
  {
    match step {
      case Advance(sid, ok, job) =>
        if Deciding(s.submitters[sid]) {
          LeasesByDecide(s, sid, ok);
        } else {
          LeasesByLaunch(s, sid, ok, job);
        }
      case Work(job, ok) => LeasesByWork(s, job, ok);
      case WorkerCrashes(job) => LeasesByClosing(s, job, s.jobs[job := Exited]);
      case _ =>
    }
  }

  lemma {:induction false} LeasesHold(states: seq<Swap>, steps: seq<Step>, n: nat)
    requires Trace(states, steps) && n <= |steps|
    ensures var s := states[n]; Leases(s.worker, s.submitters, s.jobs, s.kids)
  {
    if n == 0 {
    } else {
      LeasesHold(states, steps, n - 1);
      LeasesKept(states[n - 1], steps[n - 1], states[n]);
    }
  }

  /** In every run, whatever crashes, processes of two swap commands never live side by side. */
  lemma OneSwapAtATime(states: seq<Swap>, steps: seq<Step>, n: nat, a: Label, b: Label)
    requires Trace(states, steps) && n <= |steps| && Kids(states[n].kids, a) > 0 && Kids(states[n].kids, b) > 0
    ensures a == b
  {
    LeasesHold(states, steps, n);
  }

  /** While any process of a swap command lives, no submitter decides, clears, publishes or launches. */
  lemma NoAdmissionDuringASwap(states: seq<Swap>, steps: seq<Step>, n: nat, job: Label, sid: Sid)
    requires Trace(states, steps) && n <= |steps| && Kids(states[n].kids, job) > 0 && sid in states[n].submitters
    ensures !HoldsLease(states[n].submitters[sid])
  {
    LeasesHold(states, steps, n);
  }

  // ----- the owner directory: holds in orderly runs -----

  predicate Unfinished(job: Job) {
    job.Running? && (job.worker.Waiting? || job.worker.Preparing? || job.worker.Commanding? || job.worker.Removing?)
  }

  predicate HalfRemoving(job: Job) {
    job.Running? && job.worker.RemovingDirectory?
  }

  /** No worker, or at most that of `except`, has its removal of the directory still to do; `strict`: or to end. */
  predicate Quiet(jobs: Jobs, except: Option<Label>, strict: bool) {
    forall job <- jobs :: Unfinished(jobs[job]) || (strict && HalfRemoving(jobs[job])) ==> except == Some(job)
  }

  predicate AdmissionHeld(admission: Option<Sid>, submitters: Submitters) {
    forall sid <- submitters :: HoldsAdmission(submitters[sid]) ==> admission == Some(sid)
  }

  /** A worker that has not come to its removal still owns the directory; `strict`: and only one ends a removal. */
  predicate WorkersOwn(directory: Directory, jobs: Jobs, strict: bool) {
    && (forall job <- jobs :: Unfinished(jobs[job]) ==> directory == Owned(job))
    && (strict ==>
          && (forall job <- jobs :: HalfRemoving(jobs[job]) ==> directory == Ownerless)
          && (forall a <- jobs, b <- jobs :: HalfRemoving(jobs[a]) && HalfRemoving(jobs[b]) ==> a == b))
  }

  /** What a submitter at this point knows of the directory and the jobs. */
  predicate Knows(sub: Submitter, directory: Directory, jobs: Jobs, strict: bool) {
    match sub
    case Asking(previous) => Quiet(jobs, Some(previous), strict) && (directory.Owned? ==> directory.job == previous)
    case Clearing(previous) => Quiet(jobs, None, strict) && (directory.Owned? ==> directory.job == previous)
    case ClearingDirectory => Quiet(jobs, None, strict) && !directory.Owned?
    case Publishing => directory == Absent
    case Published(job) => directory == Owned(job) && job !in jobs
    case Launching(job) =>
      && job in jobs && (directory.Owned? ==> directory.job == job)
      && (jobs[job].Requested? ==> directory == Owned(job))
    case Retracting(job) => Quiet(jobs, None, strict) && (directory.Owned? ==> directory.job == job)
    case RetractingDirectory => Quiet(jobs, None, strict) && !directory.Owned?
    case _ => true
  }

  predicate AllKnow(submitters: Submitters, directory: Directory, jobs: Jobs, strict: bool) {
    forall sid <- submitters :: Knows(submitters[sid], directory, jobs, strict)
  }

  predicate Fresh(directory: Directory, jobs: Jobs, submitters: Submitters, used: set<Label>) {
    && (directory.Owned? ==> directory.job in used)
    && (forall job <- jobs :: job in used)
    && (forall sid <- submitters :: submitters[sid].Published? ==> submitters[sid].job in used)
  }

  predicate Inv(s: Swap, strict: bool) {
    && AdmissionHeld(s.admission, s.submitters)
    && WorkersOwn(s.directory, s.jobs, strict)
    && AllKnow(s.submitters, s.directory, s.jobs, strict)
    && Fresh(s.directory, s.jobs, s.submitters, s.used)
  }

  /** Only the holder of admission knows anything, so a step of its own touches no other submitter's knowledge. */
  lemma KnowledgeOfOne(s: Swap, sid: Sid, next: Submitter, directory: Directory, jobs: Jobs, strict: bool)
    requires Inv(s, strict) && sid in s.submitters && HoldsAdmission(s.submitters[sid])
    requires Knows(next, directory, jobs, strict)
    ensures AllKnow(s.submitters[sid := next], directory, jobs, strict)
  {
    forall other <- s.submitters | other != sid ensures s.submitters[other].Started? {
      assert HoldsAdmission(s.submitters[other]) ==> s.admission == Some(other);
    }
  }

  lemma InvByEntering(s: Swap, sid: Sid, ok: bool, strict: bool)
    requires Inv(s, strict) && sid in s.submitters
    requires s.submitters[sid].Started? || s.submitters[sid].Admitted? || s.submitters[sid].Leased?
    ensures Inv(Decide(s, sid, ok), strict)
  {
    if !s.submitters[sid].Started? {
      KnowledgeOfOne(s, sid, Decide(s, sid, ok).submitters[sid], s.directory, s.jobs, strict);
    }
  }

  lemma InvByAsking(s: Swap, sid: Sid, ok: bool, strict: bool)
    requires Inv(s, strict) && sid in s.submitters && (s.submitters[sid].Found? || s.submitters[sid].Asking?)
    ensures Inv(Decide(s, sid, ok), strict)
  {
    var t := Decide(s, sid, ok);
    KnowledgeOfOne(s, sid, t.submitters[sid], t.directory, t.jobs, strict);
  }

  lemma InvByClearing(s: Swap, sid: Sid, ok: bool, strict: bool)
    requires Inv(s, strict) && sid in s.submitters
    requires s.submitters[sid].Clearing? || s.submitters[sid].ClearingDirectory?
    ensures Inv(Decide(s, sid, ok), strict)
  {
    var t := Decide(s, sid, ok);
    KnowledgeOfOne(s, sid, t.submitters[sid], t.directory, t.jobs, strict);
  }

  lemma InvByDecide(s: Swap, sid: Sid, ok: bool, strict: bool)
    requires Inv(s, strict) && sid in s.submitters && Deciding(s.submitters[sid])
    ensures Inv(Decide(s, sid, ok), strict)
  {
    match s.submitters[sid] {
      case Found => InvByAsking(s, sid, ok, strict);
      case Asking(_) => InvByAsking(s, sid, ok, strict);
      case Clearing(_) => InvByClearing(s, sid, ok, strict);
      case ClearingDirectory => InvByClearing(s, sid, ok, strict);
      case _ => InvByEntering(s, sid, ok, strict);
    }
  }

  lemma InvByPublishing(s: Swap, sid: Sid, ok: bool, job: Label, strict: bool)
    requires Inv(s, strict) && sid in s.submitters && job !in s.used
      && (s.submitters[sid].Publishing? || s.submitters[sid].Published?)
    ensures Inv(Launch(s, sid, ok, job), strict)
  {
    var t := Launch(s, sid, ok, job);
    KnowledgeOfOne(s, sid, t.submitters[sid], t.directory, t.jobs, strict);
  }

  lemma InvByRetracting(s: Swap, sid: Sid, ok: bool, job: Label, strict: bool)
    requires Inv(s, strict) && sid in s.submitters
    requires s.submitters[sid].Retracting? || s.submitters[sid].RetractingDirectory?
    ensures Inv(Launch(s, sid, ok, job), strict)
  {
    var t := Launch(s, sid, ok, job);
    KnowledgeOfOne(s, sid, t.submitters[sid], t.directory, t.jobs, strict);
  }

  lemma InvByLaunch(s: Swap, sid: Sid, ok: bool, job: Label, strict: bool)
    requires Inv(s, strict) && sid in s.submitters && job !in s.used && Orderly(s, Advance(sid, ok, job))
      && !Deciding(s.submitters[sid])
    ensures Inv(Launch(s, sid, ok, job), strict)
  {
    match s.submitters[sid] {
      case Publishing => InvByPublishing(s, sid, ok, job, strict);
      case Published(_) => InvByPublishing(s, sid, ok, job, strict);
      case Launching(job) =>
        KnowledgeOfOne(s, sid, if ok then ClosingLease else Retracting(job), s.directory, s.jobs, strict);
      case Retracting(_) => InvByRetracting(s, sid, ok, job, strict);
      case RetractingDirectory => InvByRetracting(s, sid, ok, job, strict);
      case _ =>
    }
  }

  lemma InvByJob(s: Swap, job: Label, next: Job, strict: bool)
    requires Inv(s, strict) && job in s.jobs && !s.jobs[job].Requested? && !next.Requested?
    requires (Unfinished(next) ==> Unfinished(s.jobs[job])) && !HalfRemoving(next)
    ensures Inv(s.(jobs := s.jobs[job := next]), strict)
  {
  }

  lemma InvByRemoving(s: Swap, job: Label, ok: bool, strict: bool)
    requires Inv(s, strict) && Enabled(s, Work(job, ok)) && (HalfRemoving(s.jobs[job]) || s.jobs[job].worker.Removing?)
    ensures Inv(WorkStep(s, job, ok), strict)
  {
  }

  lemma InvByWork(s: Swap, job: Label, ok: bool, strict: bool)
    requires Inv(s, strict) && Enabled(s, Work(job, ok))
    ensures Inv(WorkStep(s, job, ok), strict)
  {
    if HalfRemoving(s.jobs[job]) || s.jobs[job].worker.Removing? {
      InvByRemoving(s, job, ok, strict);
    } else {
      InvByJob(s, job, WorkStep(s, job, ok).jobs[job], strict);
    }
  }

  lemma InvByBootstrap(s: Swap, job: Label, strict: bool)
    requires Inv(s, strict) && Enabled(s, Bootstrap(job)) && Orderly(s, Bootstrap(job))
    ensures Inv(At(s, job, Waiting), strict)
  {
  }

  lemma InvKept(s: Swap, step: Step, t: Swap, strict: bool)
    requires Inv(s, strict) && Follows(s, step, t) && Orderly(s, step)
    ensures Inv(t, strict)
  {
    match step {
      case Advance(sid, ok, job) =>
        if Deciding(s.submitters[sid]) {
          InvByDecide(s, sid, ok, strict);
        } else {
          InvByLaunch(s, sid, ok, job, strict);
        }
      case Bootstrap(job) => InvByBootstrap(s, job, strict);
      case Work(job, ok) => InvByWork(s, job, ok, strict);
      case WorkerCrashes(job) => InvByJob(s, job, Exited, strict);
      case _ =>
    }
  }

  lemma {:induction false} InvHolds(states: seq<Swap>, steps: seq<Step>, n: nat, strict: bool)
    requires Trace(states, steps) && AllOrderly(states, steps) && n <= |steps|
    ensures Inv(states[n], strict)
  {
    if n == 0 {
    } else {
      InvHolds(states, steps, n - 1, strict);
      InvKept(states[n - 1], steps[n - 1], states[n], strict);
    }
  }

  /** A job's worker owns the directory up to its own removal, so it never takes away another job's. */
  lemma WorkersRemoveTheirOwn(states: seq<Swap>, steps: seq<Step>, n: nat, job: Label)
    requires Trace(states, steps) && AllOrderly(states, steps) && n <= |steps| && job in states[n].jobs
    ensures Unfinished(states[n].jobs[job]) ==> states[n].directory == Owned(job)
    ensures HalfRemoving(states[n].jobs[job]) ==> states[n].directory == Ownerless
  {
    InvHolds(states, steps, n, true);
  }

  /** A submission publishes itself only when no worker has its removal still to do. */
  lemma PublishingWaitsForRemovals(states: seq<Swap>, steps: seq<Step>, n: nat, sid: Sid, job: Label)
    requires Trace(states, steps) && AllOrderly(states, steps) && n <= |steps| && job in states[n].jobs
    requires sid in states[n].submitters && states[n].submitters[sid].Publishing?
    ensures !Unfinished(states[n].jobs[job]) && !HalfRemoving(states[n].jobs[job]) && states[n].directory == Absent
  {
    InvHolds(states, steps, n, true);
  }

  /** A running job that has not come to its removal owns the directory, so there is only one. */
  lemma OneJobAtATime(states: seq<Swap>, steps: seq<Step>, n: nat, a: Label, b: Label)
    requires Trace(states, steps) && AllOrderly(states, steps) && n <= |steps| && a in states[n].jobs
      && b in states[n].jobs
    requires Unfinished(states[n].jobs[a]) && (Unfinished(states[n].jobs[b]) || HalfRemoving(states[n].jobs[b]))
    ensures a == b
  {
    InvHolds(states, steps, n, true);
  }

  // ----- a removal cut in half -----

  /** A crash between the two operations of a removal, with nobody left on the way to finish it. */
  predicate Stuck(s: Swap) {
    && s.directory == Ownerless
    && (forall job <- s.jobs ::
          s.jobs[job].Exited? || s.jobs[job].Unloaded?
          || (s.jobs[job].Running? && (s.jobs[job].worker.Closing? || s.jobs[job].worker.Leaving?)))
    && (forall sid <- s.submitters ::
          s.submitters[sid].Started? || s.submitters[sid].Admitted? || s.submitters[sid].Leased?
          || s.submitters[sid].Found?
          || s.submitters[sid].ClosingLease? || s.submitters[sid].ClosingAdmission?)
  }

  lemma StuckStaysStuck(s: Swap, step: Step, t: Swap)
    requires Stuck(s) && Follows(s, step, t)
    ensures Stuck(t)
  {
  }

  /** From there on no submission is ever admitted: the directory stays, and its owner cannot be read. */
  lemma {:induction false} HalfRemovedDirectoryRefusesAll(states: seq<Swap>, steps: seq<Step>, i: nat, j: nat)
    requires Path(states, steps) && i <= j <= |steps| && Stuck(states[i])
    ensures Stuck(states[j]) && states[j].used == states[i].used
    decreases j
  {
    if i == j {
    } else {
      HalfRemovedDirectoryRefusesAll(states, steps, i, j - 1);
      StuckStaysStuck(states[j - 1], steps[j - 1], states[j]);
    }
  }
}
