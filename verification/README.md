# Vantage Point: protocols and encoders

A Dafny model of the parts of Vantage Point that keep state across steps, with proofs of what they promise.

- **ROTO setup writes** (`SetupState`, `SetupFiles`, `SetupSync`: the code; `SetupActions`, `SetupTiming`,
  `SetupCoupling`, `SetupProgress`, `SetupProtocol`, `SetupTicks`, `SetupBarrier`, `SetupLimits`: what is
  proved). A per-device reconciler with lease, debounce, backoff and a cache of written hashes drives a
  service through requests that may be lost, time out or arrive late. The service is an abstract one: it
  numbers its snapshots, and it is configuring from the moment it accepts a write until that write ends.
- **MIDI hand-off** (`MidiAccess`, `MidiHandoff`, `MidiProgress`, `MidiAborts`). Listener starts and stops,
  listener tasks, output sends, snapshot application and fleet release interleave between awaits. The
  session's task, the discovery's task and a release may be cut off at an await; a cut is clean if no task the
  cut call was joining is still alive, and tidy if, moreover, a release cut off before it took the listeners
  found none alive and none about to start. Of the three, the discovery's task has no caller but its own
  lifecycle test (devices.rs:1840-1846).
- **Swap admission** (`SwapAdmission`, `SwapProgress`, `SwapLimits`, `SwapOwnership`). Submitters and workers
  with two file locks and an owner directory, each free to crash at any step.
- **Controllers** (`Midi`, `XTouch`, `Lpd8`, `Roto`, `Knobs`, `Surface`). Profiles with shadow state against a
  model of the device that receives their messages, and positions through the matching input parsers.
- **App state and text** (`AppPanes`, `Board`, `DebugLog`, `LogFormat`).

Where the code updates an object in place, the model has a class whose methods are proved equal to a function
of the old state; the results are lemmas about that function: what it does in plain fields, and what holds
over all runs. Concurrent code is a state machine whose steps are the stretches between awaits; besides what
it never does, `MidiProgress` and `SwapProgress` prove what each call achieves. `f32` values are reals, so
rounding of `f32` itself is not part of the model. `dafny verify dfyconfig.toml` checks the project.

Results where the code promises less than its prose suggests; each has an exact condition, or the inputs that fail:

- An Apply that timed out at the client and reaches the service late overwrites newer content while the cache
  keeps naming the newer one, from every state with an idle leased device (`SetupLimits.LateApplyOvertakes`). A held
  hash differs from the content exactly through such a late acceptance
  (`SetupProtocol.CachedHashIsTheContentExactlyWhen`, `SetupBarrier.HeldHashIsTheContent`).
- A load of the hash file keeps the cache's promise for good exactly when the file can be read or holds nothing
  (`SetupLimits.LoadIsSafeExactlyWhen`).
- A tick overwrites a running task exactly when an idle status past the barrier shows the device on another lease while
  its request runs (`SetupCoupling.TaskIsOverwrittenExactlyWhen`). Since a tick first drops entries of other leases, that
  takes a snapshot listing a device twice with two leases. The code does not check for that; the service lists each
  device once, so the input is outside its promise and no other input does it
  (`SetupCoupling.OneLeaseOverwritesNothing`).
- Cutting off a call that joins a listener lets the listener outlive later releases and acknowledgements exactly when
  it is still alive at the cut (`MidiAborts`, one result for each of the three calls that can be cut off). A release cut
  off before it took the listeners leaves them without a grant exactly when one is alive or about to start
  (`MidiAborts.CutReleaseKeepsGrantsExactlyWhen`).
- A worker can come to remove the owner directory of another job once launchd starts a job after its submitter is gone,
  or starts it and reports that it did not. After any run without that, one step more lets it happen exactly when it is
  a start before which the job has lost the directory, or is losing it, or a "no" about a job whose worker has its
  removal still to do (`SwapOwnership.OwnershipIsKeptExactlyWhen`). Before a submission that would be admitted, starts
  that launchd still owes are harmless exactly when it owes none (`SwapOwnership.OwedStartsAreHarmlessExactlyWhen`).
- A crash between the two operations of a removal refuses every later submission; a settled state admits one exactly
  when that did not happen (`SwapLimits.AdmitsExactlyWhen`).
- ROTO: a taught parameter is read back whole exactly up to 16 steps with a name and step names that display as at most
  13 bytes (`Roto.LearnRoundTrip`), with the right number of steps exactly below 128
  (`Roto.StepsAreReadExactlyWhen`), and not at all exactly from 129 to 144, whose announced labels are not sent
  (`Roto.LearnIsUnreadableExactlyWhen`).
- LEDs: a change of the hardware between two ready ticks, or a lost message, is never repaired
  (`Surface.UnseenChangesStay`); one ready tick converges exactly when the switches left out were in step
  (`Surface.TickConvergesExactlyWhen`).
- Panes: a visit to a pane without a scene ends the visit but leaves the visited layout up
  (`AppPanes.VisitIsUndoneExactlyWhen`, `AppPanes.UnknownPaneEndsTheVisit`). Boards: a repo name holding NUL can share
  the board of another repo (`Board.KeyIsSafeExactlyWhen`).
- Panes: a floating pane is in front of a tiled one exactly when that one's attention is not ten or more higher
  (`AppPanes.FloatingIsInFrontExactlyWhen`); the prose says always.
- Log tail: a display rebuilt from the backlog of a file, at the start or after a rotation, shows the complete lines
  since the start of the backlog exactly when the file ended with a line feed, or the backlog lies inside a single line
  that has not ended yet; any other line the file ends in is broken in two (`DebugLog.DisplayIsProperExactlyWhen`,
  `DebugLog.RotationStartsOverExactlyWhen`).

## Model

| member | source | states |
|---|---|---|
| SetupState.State.Observe | crates/vantage-point/src/roto_setup_state.rs:51-96 | one observation moves the whole state and asks for exactly the action of the specification: edits, lease change, end of a write, registration, write |
| SetupState.State.Registered | crates/vantage-point/src/roto_setup_state.rs:98-103 | only a pending registration becomes a registration |
| SetupState.State.Accepted | crates/vantage-point/src/roto_setup_state.rs:105-112 | a pending request becomes a running write; anything else pending is dropped |
| SetupState.State.Failed | crates/vantage-point/src/roto_setup_state.rs:114-125 | a failed registration backs off, a failed write is remembered |
| SetupActions.NothingIsAskedWhileConfiguring | crates/vantage-point/src/roto_setup_state.rs:67-82 | no observation of a configuring device asks for anything |
| SetupActions.WriteIsAskedExactlyWhen | crates/vantage-point/src/roto_setup_state.rs:51-95 | a write is asked for exactly on a lease already held and registered, the device idle, nothing pending, this content shown before, neither failed nor saved, and its debounce over |
| SetupActions.RegistrationIsAskedExactlyWhen | crates/vantage-point/src/roto_setup_state.rs:57-89 | a registration is asked for exactly when the device is idle and the lease is new, or is held unregistered with nothing pending, the back-off over and this content not failed |
| SetupActions.WriteEndsExactlyWhen | crates/vantage-point/src/roto_setup_state.rs:67-79 | a write is confirmed, or seen failed, exactly when its busy phase was seen on this lease and the device is idle without, or with, an error |
| SetupActions.BeliefsAfterObservation | crates/vantage-point/src/roto_setup_state.rs:51-96 | desired content, lease, registration, saved and failed hash after any observation |
| SetupActions.PendingAfterObservation | crates/vantage-point/src/roto_setup_state.rs:51-96 | what is pending after any observation |
| SetupActions.AfterFailure | crates/vantage-point/src/roto_setup_state.rs:114-125 | whatever was pending is over: a registration waits by the back-off, which doubles up to 30 seconds, and the content of a write has failed |
| SetupActions.AfterAnswers | crates/vantage-point/src/roto_setup_state.rs:98-112 | only a pending request comes to run by an acceptance, and only a pending registration registers |
| SetupTiming.DueAfterEdit | crates/vantage-point/src/roto_setup_state.rs:52-56 | in any run, after the last edit with no lease change since, the due time is two seconds after that edit |
| SetupTiming.WritesWaitForTheLastEdit | crates/vantage-point/src/roto_setup_state.rs:51-95 | no write is asked for before two seconds after the last edit unless the lease came later, and it is for that edit's content |
| SetupTiming.LeaseChangeLiftsDebounce | crates/vantage-point/src/roto_setup_state.rs:57-65 | after a lease change with no later edit, a registered idle entry is asked to write at every observation unless the content is saved or has failed: the debounce does not hold it back |
| SetupTiming.Backoff | crates/vantage-point/src/roto_setup_state.rs:114-119 | after n registration failures in a row the wait, counted from the last of them, is min(2^(n-1), 30) seconds |
| SetupTiming.RegistersExactlyAfterBackoff | crates/vantage-point/src/roto_setup_state.rs:80-89 | an unregistered idle entry registers at an observation exactly when that wait is over |
| SetupTiming.OneWritePerStretch | crates/vantage-point/src/roto_setup_state.rs:51-125 | on a stretch with one lease and one content at most one write is asked for, from any state |
| SetupTiming.StrayAcceptanceRepeatsTheWrite | crates/vantage-point/src/roto_setup_state.rs:105-112 | an acceptance out of turn drops the running write and the content is asked for again |
| SetupFiles.Hashes.Load | crates/vantage-point/src/roto_setup_files.rs:107-116 | memory starts as the file, or empty when the file cannot be read |
| SetupFiles.Hashes.Invalidate | crates/vantage-point/src/roto_setup_files.rs:120-128 | the entry goes from memory and file together, or stays in memory and the call fails |
| SetupFiles.Hashes.Confirm | crates/vantage-point/src/roto_setup_files.rs:129-132 | memory takes the hash at once; the file only if saving works |
| SetupFiles.Hashes.Save | crates/vantage-point/src/roto_setup_files.rs:133-142 | the file becomes the memory, or stays as it was |
| SetupFiles.InvalidationReachesTheFile | crates/vantage-point/src/roto_setup_files.rs:120-128 | with the file within memory, an invalidation reported as done leaves no trace of the device in either, also across a crash |
| SetupFiles.ConfirmationKeepsFileWithinMemory | crates/vantage-point/src/roto_setup_files.rs:129-132 | a confirmation, saved or not, keeps the file within memory if the device was invalidated before |
| SetupFiles.ConfirmationIsKept | crates/vantage-point/src/roto_setup_files.rs:129-142 | a confirmed hash is in memory at once and, once saved, in the file, which then equals memory |
| SetupFiles.LoadIsFaithfulExactlyWhen | crates/vantage-point/src/roto_setup_files.rs:107-116 | a load keeps the file within memory exactly when the file can be read or has no entries |
| SetupFiles.UnreadableLoadHidesEntries | crates/vantage-point/src/roto_setup_files.rs:107-128 | after an unreadable load an invalidation reports success and leaves the old entry in the file |
| SetupSync.DeviceSync.Process | crates/vantage-point/src/roto_setup_sync.rs:88-169 | one status for one entry: reply joined, barrier, observation, cache and request as the turn function says |
| SetupSync.Sync.Retain | crates/vantage-point/src/roto_setup_sync.rs:66-70 | exactly the entries whose device and lease a status still shows stay |
| SetupSync.Sync.Tick | crates/vantage-point/src/roto_setup_sync.rs:63-171 | the whole tick equals dropping lost leases and then taking the statuses in order, requests included |
| SetupActions.AnswerIsTaken | crates/vantage-point/src/roto_setup_sync.rs:88-102 | a reply about this device on this lease, busy if it answers a write, registers or starts the write and sets the barrier to its number |
| SetupActions.NoAnswerFails | crates/vantage-point/src/roto_setup_sync.rs:103-107 | any other end of a request leaves the barrier, makes a registration wait and marks a write's content failed |
| SetupActions.BarrierStopsExactlyTheOld | crates/vantage-point/src/roto_setup_sync.rs:109-125 | a status newer than the last reply is observed: its content and lease are noticed; any other one changes nothing but the join |
| SetupActions.NothingLeavesWhileConfiguring | crates/vantage-point/src/roto_setup_sync.rs:109-166 | no request leaves on a status that shows the device configuring |
| SetupActions.ApplyLeavesExactlyWhen | crates/vantage-point/src/roto_setup_sync.rs:88-166 | a write leaves exactly when, after the join, nothing is under way on the registered lease, the status is newer and idle, the content shown, due, not saved and not failed, and the old hash could be invalidated |
| SetupActions.RegisterLeavesExactlyWhen | crates/vantage-point/src/roto_setup_sync.rs:88-166 | a registration leaves exactly on a newer idle status with nothing pending and, unless the entry is new, the back-off over and this content not failed |
| SetupActions.CacheAfterTurn | crates/vantage-point/src/roto_setup_sync.rs:126-147 | a write seen to end well is in memory, and in the file if saved; a write sent is in neither; no other turn and no other device changes the cache |
| SetupActions.TickTreatsDevicesApart | crates/vantage-point/src/roto_setup_sync.rs:63-171 | a tick over a snapshot that lists a device once does to its entry, its hash and its request what one turn does, on the old entry if it is on that lease and on a new one otherwise, whatever the other statuses are |
| SetupActions.EntriesGoWithTheirLease | crates/vantage-point/src/roto_setup_sync.rs:63-74 | an entry outlives a tick only under a leased status of its device; without valid pins exactly on its own lease, unchanged, and nothing else happens |
| SetupCoupling.TurnKeepsCoupling | crates/vantage-point/src/roto_setup_sync.rs:78-169 | a task is in flight exactly while a registration or request is pending, and a request never overwrites a task, whatever the replies, saves and statuses |
| SetupCoupling.TurnKeepsDeviceInv | crates/vantage-point/src/roto_setup_sync.rs:88-167 | beliefs about the last write follow from the requests sent and answers seen; an Apply is only sent on a lease whose registration was answered |
| SetupCoupling.TurnsMeetTheirLease | crates/vantage-point/src/roto_setup_sync.rs:66-87 | in a tick with one lease per device every status meets an entry of its own lease |
| SetupCoupling.TwoLeasesOverwriteATask | crates/vantage-point/src/roto_setup_sync.rs:74-166 | with two leases for one device in a snapshot the second registration replaces the first one's running task |
| SetupCoupling.TaskIsOverwrittenExactlyWhen | crates/vantage-point/src/roto_setup_sync.rs:88-166 | a turn hands out a request over an unfinished task exactly when that task runs on and an idle status past the barrier shows another lease |
| SetupCoupling.OneLeaseOverwritesNothing | crates/vantage-point/src/roto_setup_sync.rs:63-171 | in a tick with one lease per device no turn overwrites a task, whatever the replies and saves |
| SetupProgress.TurnGains | crates/vantage-point/src/roto_setup_state.rs:51-126 | a turn in which nothing goes wrong never raises the rank towards saved content, and a favourable one lowers it |
| SetupProgress.ReachesDesired | crates/vantage-point/src/roto_setup_sync.rs:88-170 | as many favourable turns as the rank says reach saved = desired, with any harmless turns between them |
| SetupProgress.FiveFavourableTurnsSave | crates/vantage-point/src/roto_setup_sync.rs:88-170 | five favourable turns are always enough |
| SetupProgress.FirstLookSetsCourse | crates/vantage-point/src/roto_setup_sync.rs:109-125 | any entry, old or new, is on course after its first status past the barrier unless this content has failed |
| SetupProgress.OneApplyPerStretch | crates/vantage-point/src/roto_setup_sync.rs:63-171 | an entry that keeps lease and content sends at most one Apply, whatever the outside world does |
| SetupProtocol.StepKeepsInv | crates/vantage-point/src/roto_setup_sync.rs:63-171 | every step of ticks, service, network, crash and restart keeps the protocol invariant |
| SetupTicks.TickIsARun | crates/vantage-point/src/roto_setup_sync.rs:63-171 | a tick over statuses with one lease per device is a run of protocol steps to the same client state, wire and requests, so every run theorem covers ticks |
| SetupProtocol.CachedHashIsProven | crates/vantage-point/src/roto_setup_sync.rs:63-170 | after any run with readable loads, a hash in memory, file or state is that of the last Apply ever sent, and that Apply was seen to end without error |
| SetupProtocol.FinishedWriteStands | crates/vantage-point/src/roto_setup_state.rs:67-79 | a write seen finished after its acceptance is still the content while nothing else was accepted |
| SetupProtocol.CachedHashIsTheContent | crates/vantage-point/src/roto_setup_sync.rs:109-125 | if the last accepted write is the last Apply sent, a held hash is the content, however old the shown snapshots were |
| SetupProtocol.CachedHashIsTheContentExactlyWhen | crates/vantage-point/src/roto_setup_sync.rs:109-125 | otherwise the last accepted write is an older request delivered late, and the hash is not the content unless that one asked for the same |
| SetupBarrier.HeldHashIsTheContent | crates/vantage-point/src/roto_setup_sync.rs:88-132 | on every run in which no Apply is accepted after a newer one was sent, each held hash is the device's content |
| SetupLimits.LateApplyOvertakes | crates/vantage-point/src/roto_setup_sync.rs:148-165 | from every state with an idle, leased, new device and for any two contents, a timed-out Apply delivered late leaves the cache naming the second and the device holding the first |
| SetupLimits.LoadIsSafeExactlyWhen | crates/vantage-point/src/roto_setup_files.rs:107-116 | after any run with readable loads, one more load keeps the cache naming only last, finished Applies on all readable continuations exactly when the file can be read or is empty |
| MidiAccess.PhysicalFollowsTheFirstSeparator | crates/vantage-point/src/midi_access.rs:36-38 | the display name is what follows the first separator, and is missing exactly if there is none |
| MidiAccess.PhysicalIsTheSuffix | crates/vantage-point/src/midi_access.rs:34-39 | in plain characters: what follows the first bar between blanks |
| MidiAccess.FindIn | crates/vantage-point/src/midi_access.rs:30-41 | the name found is in the list and answers; none is found only if none answers |
| MidiAccess.Resolve | crates/vantage-point/src/midi_access.rs:24-41 | a name resolves to a permitted port, and to none only if no granted port answers |
| MidiAccess.FirstAnswerIsTaken | crates/vantage-point/src/midi_access.rs:30-41 | among the granted names in table order the first that is the name, or has it as its suffix, is taken |
| MidiAccess.NothingAnswers | crates/vantage-point/src/midi_access.rs:30-41 | nothing is found if no granted name of that kind is the name or has it as its suffix |
| MidiAccess.Released | crates/vantage-point/src/midi_access.rs:14-23 | exactly the devices of grants that the next table does not hold unchanged |
| MidiAccess.Access.Replace | crates/vantage-point/src/midi_access.rs:14-23 | the table becomes the next one and the released devices are reported |
| MidiAccess.SparedPortKeepsItsGrant | crates/vantage-point/src/devices.rs:1016-1039 | a permitted port that is not revoked lies in a grant equal in device, token and ports in both tables |
| MidiAccess.GrantsAreThisSessions | crates/vantage-point/src/devices.rs:993-1014 | the table holds exactly the devices active on a lease of this very session, under their tokens, and nothing with the switch off |
| MidiAccess.AwaitingAreThisSessions | crates/vantage-point/src/midi_use.rs:176-182 | the service waits for exactly the devices shown releasing on a lease of this very session |
| MidiAccess.SnapshotPorts | crates/vantage-point/src/devices.rs:148-185 | the shown names are exactly the non-empty suffixes of this session's granted ports, with their directions |
| MidiAccess.ShownNamesResolve | crates/vantage-point/src/devices.rs:148-185 | every shown name resolves in the grant table of the same snapshot |
| MidiHandoff.StepKeepsInv | crates/vantage-point/src/devices.rs:320-369 | every interleaved step, clean cuts included, keeps the lock, map and task invariant; every tidy one the grants as well |
| MidiHandoff.PortIsFree | crates/vantage-point/src/devices.rs:331-352 | when a start is about to spawn, no task that could hold its port is alive, though a release joins outside the lock |
| MidiHandoff.OneListenerPerPort | crates/vantage-point/src/devices.rs:320-369 | in every interleaving with clean cuts two live tasks never share a native port |
| MidiHandoff.EachAttemptIsChecked | crates/vantage-point/src/devices.rs:409-424 | before each attempt, and after the attempt before it, the listener found the switch on and then its port permitted, in two loads; on any run, cuts of any kind included |
| MidiHandoff.AcknowledgedReleaseHolds | crates/vantage-point/src/midi_use.rs:176-195 | on runs with clean cuts, while a release may be acknowledged, and until a snapshot grants the device again, no live listener and no open output is on its ports |
| MidiHandoff.AppliedIsClear | crates/vantage-point/src/devices.rs:1015-1056 | in every state of the invariant, when a snapshot has been applied, every device it leaves out is clear of listeners, outputs and started calls |
| MidiHandoff.OneGrantPerListener | crates/vantage-point/src/devices.rs:1016-1047 | on runs with tidy cuts, a listener alive at two moments lives on one grant, equal in device, token and ports, in the table at both |
| MidiHandoff.ReleasedStaysEmpty | crates/vantage-point/src/devices.rs:814-843 | on runs with clean cuts, after a release the map is empty, no task lives and no output is open until a snapshot with a grant, even with the switch on |
| MidiProgress.StartStarts | crates/vantage-point/src/devices.rs:320-355 | with the switch on, the map lock free and an answering granted port, a start's own steps end with a live listener on it in the map: the old one if it lives, else a new one with a grant of the port |
| MidiProgress.StartIsRefused | crates/vantage-point/src/devices.rs:320-341 | with the switch off, or without such a port, they end with nothing changed |
| MidiProgress.ListenerOpens | crates/vantage-point/src/devices.rs:405-430 | a fresh listener with the switch on and its port granted passes both checks and comes to hold the port |
| MidiProgress.StopStops | crates/vantage-point/src/devices.rs:358-369 | with the map lock free a stop takes the port's listener out of the map, sees its end and changes nothing else |
| MidiProgress.StopFindsNothing | crates/vantage-point/src/devices.rs:358-369 | without such a listener it changes nothing |
| MidiProgress.SendSends | crates/vantage-point/src/devices.rs:641-681 | a send opens the answering granted output, or drops it when sending fails, and touches no other |
| MidiProgress.ApplicationTakesEffect | crates/vantage-point/src/devices.rs:987-1056 | with registry and map lock free, an application makes the snapshot's grants the table, keeps exactly the listeners and outputs whose port is still granted and not revoked, has seen the others end, and frees exactly the awaited devices for acknowledgement |
| MidiProgress.ReleaseTakesEffect | crates/vantage-point/src/devices.rs:814-843 | a release turns the switch off and ends with no grant, no listener alive that was in the map, and no output |
| MidiProgress.SwitchTurnsOn | crates/vantage-point/src/devices.rs:789-800 | turning MIDI access on is always possible while unclaimed, sets the switch and nothing else |
| MidiProgress.OnlyThisSessionsPorts | crates/vantage-point/src/devices.rs:993-1056 | on runs with clean cuts, from the end of an application until the next one begins, no live listener and no open output is on a port of a device the snapshot does not show active on a lease of this session |
| MidiProgress.AppliedSnapshotIsInForce | crates/vantage-point/src/devices.rs:987-1056 | when an application ends, in any interleaving, the table is that snapshot's grants and exactly its releasing devices of this session may be acknowledged |
| MidiAborts.CutApplyIsHarmlessExactlyWhen | crates/vantage-point/src/midi_use.rs:31-49 | after an abort of the session task while it applies a snapshot, completed releases leave nothing held, and acknowledged devices are clear, exactly when no task it was joining is alive |
| MidiAborts.CutStopIsHarmlessExactlyWhen | crates/vantage-point/src/devices.rs:358-369 | likewise for an abort of the discovery task inside a stop, whatever is applied, released or waiting at that moment: exactly when the stopped task is over |
| MidiAborts.CutReleaseIsHarmlessExactlyWhen | crates/vantage-point/src/devices.rs:814-843 | likewise for a release cut off at any of its awaits: exactly when no task it was joining is alive |
| MidiAborts.CutReleaseKeepsGrantsExactlyWhen | crates/vantage-point/src/devices.rs:814-843 | after a run with tidy cuts, a cut release leaves every later listener on a grant of the table exactly when the cut is tidy |
| SwapAdmission.OneSwapAtATime | scripts/mise/swap_detached.rb:136-160 | in every run, with any crashes, processes of two swap commands never live together |
| SwapAdmission.NoAdmissionDuringASwap | scripts/mise/swap_detached.rb:19-31 | while a process of a swap command lives, no submitter gets past the worker lock |
| SwapProgress.CommandRuns | scripts/mise/swap_detached.rb:141-153 | with the worker lock free a waiting worker's two successful steps take the lock and run the command: one process more, nothing else changed |
| SwapProgress.CommandsComeFromPreparedWorkers | scripts/mise/swap_detached.rb:153 | a process of a command comes only from another one or from a prepared worker, one at a time |
| SwapProgress.ProcessesForkAndExit | scripts/mise/swap_detached.rb:153 | a fork is one holder more, an exit one less |
| SwapProgress.RemovalComesAfter | scripts/mise/swap_detached.rb:153-172 | a worker comes to its removal only after the command, after a failed preparation, or without the lock |
| SwapProgress.FirstCommandRuns | scripts/mise/swap_detached.rb:13-153 | from the start an orderly run brings any job to its command |
| SwapProgress.JobEnds | scripts/mise/swap_detached.rb:153-179 | a worker whose command is over removes its directory, gives the lock back and is unloaded |
| SwapProgress.LastProcessGivesTheLockBack | scripts/mise/swap_detached.rb:153-178 | while a process of the command is left the worker's end keeps the lock; the last process gives it back |
| SwapProgress.FirstJobRunsThrough | scripts/mise/swap_detached.rb:13-182 | from the start any job runs through and leaves both locks free and no directory |
| SwapProgress.SubmissionIsPublishedExactlyWhen | scripts/mise/swap_detached.rb:19-38 | with both locks free a submission on its own is published exactly when the directory is gone or belongs to a job without a running worker; otherwise it changes nothing |
| SwapProgress.LockedOut | scripts/mise/swap_detached.rb:18-21 | while another submission holds the first lock, or anyone the second, a submission ends with nothing changed |
| SwapProgress.SubmissionLeaves | scripts/mise/swap_detached.rb:38-81 | a published submission has its job started and leaves with both locks free |
| SwapProgress.SubmissionRetracts | scripts/mise/swap_detached.rb:72-81 | told no, it takes its directory away again and leaves |
| SwapProgress.DirectoryChangesExactlyBy | scripts/mise/swap_detached.rb:30-38 | in any step a directory with an owner can only lose its file to who is removing it, one without only go or get an owner, and none appears but by publication |
| SwapProgress.FailuresRefuse | scripts/mise/swap_detached.rb:24-38 | an unknown or running status, a directory gone when it is to be cleared, and one with an owner when it is to be published, refuse the submission without any other change |
| SwapProgress.FailuresRetract | scripts/mise/swap_detached.rb:39-81 | a failure after publication turns to taking the directory back |
| SwapProgress.RemovalOfNothing | scripts/mise/swap_detached.rb:171-177 | a worker that finds the directory gone goes on to give its lock back |
| SwapProgress.WorkerLockChangesExactlyBy | scripts/mise/swap_detached.rb:20-21 | in any step the worker lock is taken only when free, by an admitted submitter or a waiting worker, and given up only by its submitter or with the job's last holder |
| SwapAdmission.WorkersRemoveTheirOwn | scripts/mise/swap_detached.rb:171-179 | in orderly runs a job owns the directory until its own removal, so a worker never removes another's |
| SwapAdmission.PublishingWaitsForRemovals | scripts/mise/swap_detached.rb:23-38 | a submission publishes itself only when no worker has its removal still to do |
| SwapAdmission.OneJobAtATime | scripts/mise/swap_detached.rb:13-81 | in orderly runs an unfinished job is the only one with its removal still to do |
| SwapAdmission.HalfRemovedDirectoryRefusesAll | scripts/mise/swap_detached.rb:24-31 | on every run, from a removal cut in half no label is ever published |
| SwapLimits.AdmitsExactlyWhen | scripts/mise/swap_detached.rb:19-38 | with locks free, no submitter and every job at its end, an orderly run publishes any unused job exactly when the directory is not half removed |
| SwapLimits.LateBootstrapRemovesAnothers | scripts/mise/swap_detached.rb:71-76 | from every free state that owes a start and would admit a submission, truthful answers and that late start bring its worker before another job's directory |
| SwapLimits.FalseAnswerRemovesAnothers | scripts/mise/swap_detached.rb:72-76 | from every state whose single submitter waits for the answer, prompt starts and one false answer do the same |
| SwapLimits.RemovalCanBeCutInHalf | scripts/mise/swap_detached.rb:171-179 | for every job, an orderly run from the start reaches a settled state with the half-removed directory |
| SwapLimits.FirstIsAbandoned | scripts/mise/swap_detached.rb:23-81 | for every job, an orderly run from the start reaches a free state in which launchd owes its start |
| SwapOwnership.OwnershipIsKeptExactlyWhen | scripts/mise/swap_detached.rb:23-81 | after any orderly run, any step whatever keeps workers from ever coming to remove another job's directory on all orderly continuations exactly when it is harmless: a start while the job owns the directory and nobody takes it away, or of a directory without owner that nobody else will take away; a "no" only about a job past its removal |
| SwapOwnership.OwedStartsAreHarmlessExactlyWhen | scripts/mise/swap_detached.rb:19-76 | in a free state that would admit a submission, starts owed now do no harm whenever they come exactly when none is owed |
| Midi.FindClosest | crates/midistage-profiles/src/device_profile.rs:96-112 | the loop finds the first of the nearest palette entries |
| Midi.ClosestIndex | crates/midistage-profiles/src/roto_palette.rs:32-49 | no entry is nearer and no earlier one as near |
| Midi.Position14IsNear | crates/midistage-profiles/src/device_profile.rs:208-215 | a 14-bit position reads back within 1/32766 of the clamped value |
| XTouch.StripCell | crates/midistage-profiles/src/device_profile.rs:177-187 | seven bytes: cut or blank-filled, unprintable characters replaced |
| XTouch.Profile.ProjectTrack | crates/midistage-profiles/src/device_profile.rs:266-287 | shadow and batch as specified; a strip out of range changes and sends nothing |
| XTouch.Profile.LearnParameter | crates/midistage-profiles/src/device_profile.rs:290-308 | likewise for the lower line, the fader and the ring |
| XTouch.ScreenShowsLatest | crates/midistage-profiles/src/device_profile.rs:234-308 | after any calls the device shows on each strip its latest name and colour, or the default |
| XTouch.FadersFollowLatest | crates/midistage-profiles/src/device_profile.rs:290-308 | fader and ring of a strip stand where its latest parameter put them |
| XTouch.RingShowsPosition | crates/midistage-profiles/src/device_profile.rs:219-228 | the ring byte gives the position within half a step, the mode and the centre light |
| XTouch.CallsAreWellFormed | crates/midistage-profiles/src/device_profile.rs:190-231 | every message is well-formed System Exclusive or a channel message, for any name |
| XTouch.FaderRoundTrip | crates/midistage-profiles/src/device_input.rs:229-256 | a fader position sent to a channel reads back as that fader within 1/32766 exactly when the channel is below 9 |
| XTouch.FaderMessageHoldsThePosition | crates/midistage-profiles/src/device_profile.rs:205-214 | for any channel and value: the channel's lower four bits, then the two data bytes of a position within half a step, low byte first |
| XTouch.FaderIsRead | crates/midistage-profiles/src/device_input.rs:229-243 | a pitch bend of a channel below nine is that fader at high byte times 128 plus the low byte's seven bits |
| XTouch.TouchIsRead | crates/midistage-profiles/src/device_input.rs:244-252 | on any channel, a Note On of a fader's note is its touch, pressed exactly with a velocity, and a Note Off its release |
| XTouch.EventsAreReadExactlyFrom | crates/midistage-profiles/src/device_input.rs:229-256 | a message is an event exactly when it is one of these |
| Lpd8.Profile.ProjectTrack | crates/midistage-profiles/src/device_profile.rs:474-486 | the pad's colour is set and all eight are sent; a pad out of range does nothing |
| Lpd8.Profile.Feedback | crates/vantage-point/src/devices.rs:616-636 | the shadow takes every pad, and the messages of the last in-range one are sent |
| Lpd8.DeviceShowsShadow | crates/midistage-profiles/src/device_profile.rs:429-460 | one message sets the whole device to the shadow |
| Lpd8.LastMessageSuffices | crates/vantage-point/src/devices.rs:620-636 | sending the last message leaves the device as sending all, and every pad shows its latest colour |
| Lpd8.PadMessageIsWellFormed | crates/midistage-profiles/src/device_profile.rs:449-460 | the pad message is well-formed System Exclusive |
| Roto.ToAsciiDisplay | crates/midistage-profiles/src/device_profile.rs:588-608 | the loop keeps printable ASCII, replaces the listed Latin letters and drops the rest |
| Roto.NameRoundTrip | crates/midistage-profiles/src/device_profile.rs:611-629 | a state name reads back as its first twelve displayable bytes, is zero-terminated and holds data bytes only |
| Roto.DisplayNameRoundTrip | crates/midistage-profiles/src/device_profile.rs:611-619 | a display name reads back as its first thirteen displayable bytes, so whole exactly when it has no more |
| Roto.PlainNameIsKept | crates/midistage-profiles/src/device_profile.rs:588-608 | a printable ASCII name is displayed unchanged |
| Roto.MarksAreDropped | crates/midistage-profiles/src/device_profile.rs:588-608 | for every character: printable ASCII stays, listed letters lose their mark, sharp s becomes two, the rest is dropped |
| Roto.Profile.ProjectTrack | crates/midistage-profiles/src/device_profile.rs:760-795 | slot, count and the framed batch as specified; a slot out of range does nothing |
| Roto.FrameIsShown | crates/midistage-profiles/src/device_profile.rs:685-795 | a frame makes the device show exactly the shadow's first tracks, whatever came before |
| Roto.ScreenShowsLatest | crates/midistage-profiles/src/device_profile.rs:760-795 | after any projections the device shows each slot's latest track, its name cut after twelve displayed bytes, up to the highest slot used, the black default elsewhere |
| Roto.LearnParameter | crates/midistage-profiles/src/device_profile.rs:799-828 | the taught message with its labels |
| Roto.LearnRoundTrip | crates/midistage-profiles/src/device_profile.rs:799-828 | identifier, flags, steps, the value within half a step of the scale, the displayed name and every displayed step name are read back exactly when there are at most 16 steps and each of these names displays as at most 13 bytes |
| Roto.StepsAreReadExactlyWhen | crates/midistage-profiles/src/device_profile.rs:799-828 | the number of steps is read back exactly below 128; identifier, flags and position with it, names cut after 13 displayed bytes, step names only for 1 to 16 steps |
| Roto.LearnIsUnreadableExactlyWhen | crates/midistage-profiles/src/device_profile.rs:799-828 | a receiver that believes the number of steps finds the message malformed exactly from 129 to 144 |
| Roto.ProjectionsAreWellFormed | crates/midistage-profiles/src/device_profile.rs:709-795 | every message of every frame is well-formed System Exclusive, for any name |
| Roto.LearnMessageIsWellFormed | crates/midistage-profiles/src/device_profile.rs:799-828 | so is every parameter message |
| Knobs.Input.Parse | crates/midistage-profiles/src/device_input.rs:78-111 | the next memory and the event of one message |
| Knobs.KnobMessagesAreWellFormed | crates/midistage-profiles/src/device_profile.rs:663-672 | both messages of a knob position are channel messages with data bytes |
| Knobs.KnobRoundTrip | crates/midistage-profiles/src/device_profile.rs:663-672 | in any stream, a knob's high and low message with no other high of that knob between report that knob within 1/32766 |
| Knobs.LowUsesLatestHigh | crates/midistage-profiles/src/device_input.rs:86-98 | each knob's memory is its own latest high byte, or zero before the first |
| Knobs.TouchIsRead | crates/midistage-profiles/src/device_input.rs:98-102 | a touch message is that knob's touch, pressed when its lower seven bits are 64 or more |
| Knobs.ButtonIsRead | crates/midistage-profiles/src/device_input.rs:103-107 | a button message is that button, pressed when its lower seven bits are 64 or more |
| Knobs.EventsAreReadExactlyFrom | crates/midistage-profiles/src/device_input.rs:78-111 | only low bytes, touches and buttons on channel 16 are events, and only high bytes change the memory |
| Surface.SwitchLedRoundTrip | crates/vantage-point/src/roto_midi.rs:26-61 | a message parses to a switch and state exactly if it is the one that lights it so |
| Surface.Parse | crates/vantage-point/src/roto_midi.rs:41-61 | the search through the button list finds the index |
| Surface.LedsForPins | crates/vantage-point/src/roto_surface.rs:38-62 | a pin is lit exactly when some lane at its address needs the user |
| Surface.RotoSurface.Reconcile | crates/vantage-point/src/roto_surface.rs:73-90 | messages and memory as specified; not ready forgets and sends nothing |
| Surface.MessageMeansChange | crates/vantage-point/src/roto_surface.rs:78-87 | a switch gets a message exactly when its shown state is unknown or differs |
| Surface.TickConvergesExactlyWhen | crates/vantage-point/src/roto_surface.rs:73-90 | a ready tick ends with the desired pattern exactly when the switches left out were in step |
| Surface.ReadyTicksConverge | crates/vantage-point/src/roto_surface.rs:73-90 | if sends succeed and hardware changes only next to an unready tick, every ready tick leaves the desired pattern |
| Surface.UnseenChangesStay | crates/vantage-point/src/roto_surface.rs:78-89 | a change between ready ticks, or a lost message, stays |
| AppPanes.PrimaryAppPane | crates/vp-app/webview/app-panes.ts:101-113 | the loop finds the visible pane in front, the last of equals |
| AppPanes.Front | crates/vp-app/webview/app-panes.ts:101-113 | nothing visible is in front of it and nothing after it is level with it |
| AppPanes.FloatingIsInFrontExactlyWhen | crates/vp-app/webview/app-panes.ts:96-113 | a floating pane is in front of a tiled one exactly when that one is not ten deeper |
| AppPanes.Panes.VisitAppPane | crates/vp-app/webview/app-panes.ts:171-181 | the first visit remembers where it started; the visit lasts only for a known scene |
| AppPanes.Panes.CloseAppPaneVisit | crates/vp-app/webview/app-panes.ts:184-199 | back to the start of the visit, or to the lane scene |
| AppPanes.Panes.SaveAppStateFor | crates/vp-app/webview/app-panes.ts:226-243 | the lane keeps the shape from before the visit, if a real pane is in front |
| AppPanes.Panes.RestoreAppStateFor | crates/vp-app/webview/app-panes.ts:246-256 | the lane's shape, or the lane scene, and no visit |
| AppPanes.ApplyShowsTheScene | crates/vp-app/webview/app-panes.ts:145-156 | a known scene is shown, an unknown one changes nothing shown, and any visit is over |
| AppPanes.VisitShowsThePane | crates/vp-app/webview/app-panes.ts:171-181 | a visit shows the pane's scene; only the first of a row remembers what was shown |
| AppPanes.CloseShowsTheStartOrTheLane | crates/vp-app/webview/app-panes.ts:184-199 | closing shows what was up before the visit, or the lane scene |
| AppPanes.RestoreShowsTheLane | crates/vp-app/webview/app-panes.ts:246-256 | a remembered lane shows its shape, any other one the lane scene |
| AppPanes.SaveRemembersTheLane | crates/vp-app/webview/app-panes.ts:226-243 | the lane is remembered by the shape from before any visit exactly when a pane other than the placeholder is in front of it; no other lane changes |
| AppPanes.CycleShowsTheNeighbour | crates/vp-app/webview/app-panes.ts:202-206 | the neighbouring preset in the ring; with no preset up the first one forwards and the last but one backwards |
| AppPanes.VisitsAreTransparent | crates/vp-app/webview/app-panes.ts:171-199 | any visits to known panes, with dragging and saving between, then closing, restore layout and scene |
| AppPanes.VisitIsUndoneExactlyWhen | crates/vp-app/webview/app-panes.ts:145-199 | one visit is undone by closing exactly when the pane has a scene or the lane scene was up anyway |
| AppPanes.UnknownPaneEndsTheVisit | crates/vp-app/webview/app-panes.ts:145-181 | a visit to an unknown pane lets a lane remember the visited layout |
| AppPanes.MemoryHoldsNoVisit | crates/vp-app/webview/app-panes.ts:223-256 | every remembered layout was up at a moment without a visit, with a real pane in front |
| AppPanes.LaneRoundTrip | crates/vp-app/webview/app-panes.ts:226-256 | leaving a lane and coming back restores its shape and not the visit, whatever happened between |
| AppPanes.PreviousUndoesNext | crates/vp-app/webview/app-panes.ts:202-206 | next and previous preset undo each other |
| Board.KeyIsIdentity | crates/vp-app/webview/board-handler.ts:81-83 | for NUL-free repo names keys are equal exactly for the same repo and lane, absent ones read as empty and lead |
| Board.KeyIsSafeExactlyWhen | crates/vp-app/webview/board-handler.ts:74-83 | a repo name is safe from sharing a key exactly when it holds no NUL |
| Board.ComputeUnread | crates/vp-app/webview/board-handler.ts:318-332 | old marks still listed and new arrivals, without the cursor |
| Board.FreshNewIds | crates/vp-app/webview/board-handler.ts:303-307 | exactly the unknown ids of items born after start |
| Board.Canvas.ApplyBoardUpdated | crates/vp-app/webview/board-handler.ts:334-352 | the board of the message's pair is replaced; other scopes are ignored |
| Board.Canvas.SetCursor | crates/vp-app/webview/board-handler.ts:258-269 | a listed item becomes the cursor and is no longer unread |
| Board.ListedItemBecomesTheCursor | crates/vp-app/webview/board-handler.ts:258-269 | a listed id becomes the cursor of the active board and is unread no more; an unlisted one, and any other board, changes nothing |
| Board.UpdateIsShown | crates/vp-app/webview/board-handler.ts:334-352 | a lane update shows its items and cursor; any other scope changes nothing |
| Board.UpdatesStayApart | crates/vp-app/webview/board-handler.ts:334-352 | an update leaves the board of every other pair as it is |
| Board.UnreadMeans | crates/vp-app/webview/board-handler.ts:311-352 | after any run an item is unread exactly when it arrived live, stayed listed and has not been the cursor since |
| DebugLog.First | crates/vp-app/src/debug_log.rs:129-137 | one character or one replaced piece, never reaching past a byte below 0x80 |
| DebugLog.Tail.DrainCompleteLines | crates/vp-app/src/debug_log.rs:129-137 | the lines up to the last line feed, and exactly the bytes after it stay |
| DebugLog.Tail.Poll | crates/vp-app/src/debug_log.rs:95-124 | one poll of any file: absent or unreadable shows nothing, shorter starts over from the backlog, longer adds the new complete lines |
| DebugLog.LinesOfSplits | crates/vp-app/src/debug_log.rs:126-137 | decoding and splitting distribute over a cut after a line feed, for any bytes |
| DebugLog.LinesRoundTrip | crates/vp-app/src/debug_log.rs:133-136 | lines written with line feeds are read back as they were |
| DebugLog.ChunksDoNotMatter | crates/vp-app/src/debug_log.rs:106-137 | for any polls the lines shown are those of the stream up to its last line feed and the buffer is the rest |
| DebugLog.StreamIsTheFile | crates/vp-app/src/debug_log.rs:106-124 | what was read is the file from the start offset on, nothing twice and nothing left out |
| DebugLog.RotationIsReadWhole | crates/vp-app/src/debug_log.rs:102-110 | a file that has become shorter and fits the backlog replaces the display with all its lines |
| DebugLog.DisplayContinues | crates/vp-app/src/debug_log.rs:95-124 | from any rebuilt display on, whatever polls fail or find no file, the display is the backlog and the complete lines read since, and the buffer is the rest |
| DebugLog.DisplayIsProperExactlyWhen | crates/vp-app/src/debug_log.rs:74-137 | from any rebuilt display on it shows the complete lines since the start of the backlog exactly when the file ended with a line feed or the backlog lies inside one unended line |
| DebugLog.RotationStartsOverExactlyWhen | crates/vp-app/src/debug_log.rs:102-124 | in any run of polls a rotation rebuilds the display from the backlog, and from then on it is right under that same condition |
| DebugLog.TextIsShownWhole | crates/vp-app/src/debug_log.rs:92-137 | if the stream encodes a text, its lines are shown uncut, however it was split |
| LogFormat.KdlString | crates/vp-app/src/log_format.rs:156-176 | the loop yields the literal |
| LogFormat.LiteralRoundTrip | crates/vp-app/src/log_format.rs:156-176 | a reader that stops at the first unescaped quote finds the string and exactly what follows |
| LogFormat.LiteralIsInjective | crates/vp-app/src/log_format.rs:156-176 | different strings have different literals |
| LogFormat.LiteralIsOneLine | crates/vp-app/src/log_format.rs:155-176 | no character below 0x20 |

## Left out

- Real MIDI, QUIC, launchd and file-system calls: each is a step that may succeed or fail; the hash of a generated setup is an abstract value.
- Parsing and validating the pins file: a tick takes the hash of the pins, and a tick without valid pins only drops entries.
- Other writers of a device's setup: the service model has one writer per seat.
- Event bus payloads, logging texts and the Devices pane: no modelled state depends on them.
- Listener retry timing and the hold-state messages: a task only asks whether it may open before each attempt.
- The substring match of `open_output` against system port names: an output is identified by its granted native name.
- MidiHandoff.AcknowledgedReleaseHolds: native port names are assumed distinct across devices and a snapshot to list a device once, as the service promises, and cuts are clean.
- Of the handlers of client requests only the switch-off is cut off, inside its release; the others run to completion.
- MidiHandoff.ReleasedStaysEmpty: stated for clean cuts; MidiAborts has the exact condition for one cut that is not.
- MidiHandoff.OneGrantPerListener: stated for tidy cuts; MidiAborts has the exact condition for one that is not.
- Closing the client session after a local release, and the feedback cache `last_feedback`.
- SwapAdmission.WorkersRemoveTheirOwn: needs launchd and the submitter to agree on each bootstrap; SwapOwnership has the exact condition for one step that does not.
- In SwapAdmission an operation that raises before publication is a crash: both close the same descriptors.
- A failing unload of an exited job counts as an unknown status: both refuse the submission.
- NaN values and rounding of 32-bit floats.
- XTouch handshakes, ROTO ping and handshake bytes, LPD8 and program codecs: fixed bytes.
- SHA-1 in parameter identifiers: the digest is an argument.
- Layout resolution of creo-ui-layout: a layout carries its resolved panes.
- A file that changes between the two accesses of one poll; a rotation that leaves the file no shorter than before.
- Rendering, IPC and the repo's answer to a cursor move: a later board update is any update.
