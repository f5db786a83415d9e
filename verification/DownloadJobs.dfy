/** The download job protocol as a state machine: one step per SQL statement,
    per region under the manager's lock and per channel event.  Runs, API calls
    and process restarts interleave freely. */
module DownloadJobs {
  import opened Basics

  // ---------- Job and file rows ----------

  datatype JobState = Queued | Running | Paused | Cancelled | Failed | Completed

  datatype File = File(size: nat, completed: nat, state: JobState)

  datatype Job = Job(state: JobState, files: map<string, File>)

  type Rows = map<string, Job>

  predicate Transitions(rows: Rows, id: string, from: set<JobState>) {
    id in rows && rows[id].state in from
  }

  /** The compare-and-set of a job's state. */
  function Transitioned(rows: Rows, id: string, to: JobState, from: set<JobState>): Rows {
    if Transitions(rows, id, from) then rows[id := rows[id].(state := to)] else rows
  }

  function WithFile(rows: Rows, id: string, path: string, file: File): Rows {
    if id in rows && path in rows[id].files then rows[id := rows[id].(files := rows[id].files[path := file])] else rows
  }

  function EachFile(rows: Rows, id: string, change: File -> File): Rows {
    if id in rows then rows[id := rows[id].(files := MapFiles(rows[id].files, change))] else rows
  }

  function MapFiles(files: map<string, File>, change: File -> File): map<string, File> {
    map path | path in files :: change(files[path])
  }

  function FailedIfUnfinished(f: File): File { if f.state in {Queued, Running} then f.(state := Failed) else f }

  function QueuedIfUnfinished(f: File): File { if f.state != Completed then f.(state := Queued) else f }

  function AllDone(f: File): File { f.(state := Completed, completed := f.size) }

  function QueuedIfRunning(f: File): File { if f.state == Running then f.(state := Queued) else f }

  function Requeued(rows: Rows): Rows {
    map id | id in rows :: RequeuedJob(rows[id])
  }

  function RequeuedJob(job: Job): Job {
    Job(if job.state == Running then Queued else job.state, MapFiles(job.files, QueuedIfRunning))
  }

  // ---------- Runs, calls and the whole system ----------

  /** Where the worker of one pending file is. */
  datatype Work = Pending | Starting | Downloading | Verified | Finished | Broken

  datatype Phase =
    | Waiting                               // for the previous run's done channel
    | Selecting                             // inside manager.run: semaphore or cancellation
    | Holding                               // a slot taken, the job not yet started
    | Started                               // the job is running, its row not yet read
    | Transferring(work: map<string, Work>)
    | Succeeded
    | Erred
    | Completing                            // completed in the job row, not yet in the file rows
    | Failing                               // failed in the job row, not yet in the file rows
    | Releasing                             // about to free the slot
    | Finishing                             // manager.run has returned
    | Unregistering(sawCancelled: bool)
    | Removing                              // out of the running map, about to remove staging
    | Closing
    | Done

  datatype Run = Run(job: string, previous: Option<nat>, phase: Phase, cancelled: bool)

  datatype Call =
    | PauseCancels(id: string)
    | ResumeResets(id: string)
    | StartsRun(id: string)
    | CancelLooks(id: string)
    | CancelSignals(id: string, run: nat)
    | CancelRemoves(id: string)

  datatype Boot = Recovering | Restarting(todo: set<string>) | Serving

  datatype System = System(
    capacity: nat,              // concurrent jobs
    rows: Rows,
    used: set<string>,          // every job identifier ever handed out
    running: map<string, nat>,  // the registered run of each job
    runs: seq<Run>,             // since the process started, oldest first
    slots: nat,                 // tokens in the semaphore channel
    calls: map<nat, Call>,
    starter: map<string, nat>,  // the run that made the latest queued-to-running change
    lost: set<string>,          // jobs whose latest starter left them by a failed statement
    staging: set<string>,       // jobs with a staging directory
    closed: bool,
    boot: Boot)

  datatype Step =
    | Proceed | Acquire | GiveUp | TryStart | StartFails | ReadJob | ReadFails
    | Launch(path: string) | MarkRunning(path: string, bytes: nat) | Report(path: string, bytes: nat)
    | Verify(path: string) | MarkCompleted(path: string) | Break(path: string)
    | TransferOk | TransferErr
    | TryComplete | CompleteFails | CompleteFiles | TryFail | FailFails | SkipFail | FailFiles | FilesStay
    | Release | ReadRow | ReadRowFails | Unregister | RemoveStaging | CloseDone

  datatype Event =
    | Create(id: string, sizes: map<string, nat>, call: nat)
    | Pause(id: string, call: nat)
    | Resume(id: string, call: nat)
    | Cancel(id: string, call: nat)
    | Advance(call: nat)
    | Drop(call: nat)
    | Close
    | Restart
    | Prune(ids: set<string>)
    | RemoveOrphan(id: string)
    | Requeue
    | RequeueFails
    | StartNext(id: string)
    | Serve
    | RunStep(run: nat, step: Step)

  predicate InRun(p: Phase) {
    p.Selecting? || HoldsSlot(p)
  }

  predicate HoldsSlot(p: Phase) {
    p.Holding? || Owns(p) || p.Completing? || p.Failing? || p.Releasing?
  }

  /** The run has started the job and not yet made the job's final change. */
  predicate Owns(p: Phase) {
    p.Started? || p.Transferring? || p.Succeeded? || p.Erred?
  }

  predicate Exited(p: Phase) {
    p.Removing? || p.Closing? || p.Done?
  }

  predicate Stopped(s: System, r: nat)
    requires r < |s.runs|
  {
    s.runs[r].cancelled || s.closed
  }

  predicate Idle(w: Work) {
    w != Starting && w != Downloading && w != Verified
  }

  // ---------- The regions under the manager's lock ----------

  function Start(s: System, id: string): System {
    if s.closed then s
    else
      var previous := if id in s.running then Some(s.running[id]) else None;
      s.(runs := s.runs + [Run(id, previous, Waiting, false)], running := s.running[id := |s.runs|])
  }

  function Signalled(s: System, r: nat): System {
    if r < |s.runs| then s.(runs := s.runs[r := s.runs[r].(cancelled := true)]) else s
  }

  function CancelRun(s: System, id: string): System {
    if id in s.running then Signalled(s, s.running[id]) else s
  }

  function Unregistered(s: System, r: nat): map<string, nat>
    requires r < |s.runs|
  {
    var id := s.runs[r].job;
    if id in s.running && s.running[id] == r then s.running - {id} else s.running
  }

  // ---------- The steps of a run ----------

  predicate StepEnabled(s: System, r: nat, k: Step)
    requires r < |s.runs|
  {
    var run := s.runs[r];
    var p := run.phase;
    match k
    case Proceed => p.Waiting? && (run.previous.Some? ==> run.previous.value < |s.runs| && s.runs[run.previous.value].phase.Done?)
    case Acquire => p.Selecting? && s.slots < s.capacity
    case GiveUp => p.Selecting? && Stopped(s, r)
    case TryStart => p.Holding?
    case StartFails => p.Holding?
    case ReadJob => p.Started? && run.job in s.rows
    case ReadFails => p.Started?
    case Launch(f) => p.Transferring? && f in p.work && p.work[f] == Pending
    case MarkRunning(f, _) => p.Transferring? && f in p.work && p.work[f] == Starting
    case Report(f, _) => p.Transferring? && f in p.work && p.work[f] == Downloading
    case Verify(f) => p.Transferring? && f in p.work && p.work[f] == Downloading
    case MarkCompleted(f) => p.Transferring? && f in p.work && p.work[f] == Verified
    case Break(f) => p.Transferring? && f in p.work && !Idle(p.work[f])
    case TransferOk => p.Transferring? && forall f | f in p.work :: p.work[f] == Finished
    case TransferErr => p.Transferring? && forall f | f in p.work :: Idle(p.work[f])
    case TryComplete => p.Succeeded?
    case CompleteFails => p.Succeeded?
    case CompleteFiles => p.Completing?
    case TryFail => p.Erred?
    case FailFails => p.Erred?
    case SkipFail => p.Erred? && s.closed
    case FailFiles => p.Failing?
    case FilesStay => p.Completing? || p.Failing?
    case Release => p.Releasing?
    case ReadRow => p.Finishing?
    case ReadRowFails => p.Finishing?
    case Unregister => p.Unregistering?
    case RemoveStaging => p.Removing?
    case CloseDone => p.Closing?
  }

  function PendingWork(files: map<string, File>): map<string, Work> {
    map f | f in files && files[f].state != Completed :: Pending
  }

  function NextPhase(s: System, r: nat, k: Step): Phase
    requires r < |s.runs| && StepEnabled(s, r, k)
  {
    var id := s.runs[r].job;
    var p := s.runs[r].phase;
    match k
    case Proceed => Selecting
    case Acquire => Holding
    case GiveUp => Finishing
    case TryStart => if Transitions(s.rows, id, {Queued}) then Started else Releasing
    case StartFails => Releasing
    case ReadJob => Transferring(PendingWork(s.rows[id].files))
    case ReadFails => Erred
    case Launch(f) => Transferring(p.work[f := Starting])
    case MarkRunning(f, _) => Transferring(p.work[f := Downloading])
    case Report(_, _) => p
    case Verify(f) => Transferring(p.work[f := Verified])
    case MarkCompleted(f) => Transferring(p.work[f := Finished])
    case Break(f) => Transferring(p.work[f := Broken])
    case TransferOk => Succeeded
    case TransferErr => Erred
    case TryComplete => if Transitions(s.rows, id, {Running}) then Completing else Releasing
    case CompleteFails => Releasing
    case CompleteFiles => Releasing
    case FailFails => Releasing
    case TryFail => if Transitions(s.rows, id, {Running}) then Failing else Releasing
    case SkipFail => Releasing
    case FailFiles => Releasing
    case FilesStay => Releasing
    case Release => Finishing
    case ReadRowFails => Unregistering(false)
    case ReadRow => Unregistering(id in s.rows && s.rows[id].state == Cancelled)
    case Unregister => if p.sawCancelled then Removing else Closing
    case RemoveStaging => Closing
    case CloseDone => Done
  }

  function FileOf(s: System, id: string, path: string): File {
    if id in s.rows && path in s.rows[id].files then s.rows[id].files[path] else File(0, 0, Queued)
  }

  function NextRows(s: System, r: nat, k: Step): Rows
    requires r < |s.runs| && StepEnabled(s, r, k)
  {
    var id := s.runs[r].job;
    match k
    case TryStart => Transitioned(s.rows, id, Running, {Queued})
    case TryComplete => Transitioned(s.rows, id, Completed, {Running})
    case TryFail => Transitioned(s.rows, id, Failed, {Running})
    case CompleteFiles => EachFile(s.rows, id, AllDone)
    case FailFiles => EachFile(s.rows, id, FailedIfUnfinished)
    case MarkRunning(f, n) => WithFile(s.rows, id, f, FileOf(s, id, f).(state := Running, completed := n))
    case Report(f, n) => WithFile(s.rows, id, f, FileOf(s, id, f).(completed := n))
    case MarkCompleted(f) => WithFile(s.rows, id, f, AllDone(FileOf(s, id, f)))
    case _ => s.rows
  }

  function StepOf(s: System, r: nat, k: Step): System
    requires r < |s.runs| && StepEnabled(s, r, k)
  {
    var id := s.runs[r].job;
    s.(
      rows := NextRows(s, r, k),
      runs := s.runs[r := s.runs[r].(phase := NextPhase(s, r, k))],
      slots := if k.Acquire? then s.slots + 1 else if k.Release? && s.slots > 0 then s.slots - 1 else s.slots,
      running := if k.Unregister? then Unregistered(s, r) else s.running,
      starter := if k.TryStart? && Transitions(s.rows, id, {Queued}) then s.starter[id := r] else s.starter,
      lost := if k.TryStart? && Transitions(s.rows, id, {Queued}) then s.lost - {id}
              else if k.CompleteFails? || k.FailFails? then s.lost + {id} else s.lost,
      staging := if k.Launch? then s.staging + {id}
                 else if k.TransferOk? || k.RemoveStaging? then s.staging - {id} else s.staging)
  }

  // ---------- All events ----------

  predicate Enabled(s: System, e: Event) {
    match e
    case Create(id, sizes, c) => s.boot.Serving? && id !in s.used && c !in s.calls && |sizes| > 0
    case Pause(id, c) => s.boot.Serving? && c !in s.calls && Transitions(s.rows, id, {Queued, Running})
    case Resume(id, c) => s.boot.Serving? && c !in s.calls && Transitions(s.rows, id, {Paused, Failed})
    case Cancel(id, c) => s.boot.Serving? && c !in s.calls && Transitions(s.rows, id, {Queued, Running, Paused, Failed})
    case Advance(c) => c in s.calls
    case Drop(c) => c in s.calls && (s.calls[c].ResumeResets? || s.calls[c].StartsRun?)
    case Close => true
    case Restart => true
    case Prune(ids) => s.boot.Recovering? && forall id | id in ids :: Transitions(s.rows, id, {Completed, Failed, Cancelled})
    case RemoveOrphan(id) => s.boot.Recovering? && (id !in s.rows || s.rows[id].state in {Completed, Cancelled})
    case Requeue => s.boot.Recovering?
    case RequeueFails => s.boot.Recovering?
    case StartNext(id) => s.boot.Restarting? && id in s.boot.todo
    case Serve => s.boot.Restarting? && s.boot.todo == {}
    case RunStep(r, k) => r < |s.runs| && StepEnabled(s, r, k)
  }

  function Advanced(s: System, c: nat): System
    requires c in s.calls
  {
    var rest := s.(calls := s.calls - {c});
    match s.calls[c]
    case PauseCancels(id) => CancelRun(rest, id)
    case ResumeResets(id) => s.(rows := EachFile(s.rows, id, QueuedIfUnfinished), calls := s.calls[c := StartsRun(id)])
    case StartsRun(id) => Start(rest, id)
    case CancelLooks(id) =>
      s.(calls := s.calls[c := if id in s.running then CancelSignals(id, s.running[id]) else CancelRemoves(id)])
    case CancelSignals(id, r) => Signalled(rest, r)
    case CancelRemoves(id) => rest.(staging := s.staging - {id})
  }

  function Apply(s: System, e: Event): System
    requires Enabled(s, e)
  {
    match e
    case Create(id, sizes, c) =>
      s.(rows := s.rows[id := Job(Queued, map f | f in sizes :: File(sizes[f], 0, Queued))],
         used := s.used + {id}, calls := s.calls[c := StartsRun(id)])
    case Pause(id, c) =>
      s.(rows := Transitioned(s.rows, id, Paused, {Queued, Running}), calls := s.calls[c := PauseCancels(id)])
    case Resume(id, c) =>
      s.(rows := Transitioned(s.rows, id, Queued, {Paused, Failed}), calls := s.calls[c := ResumeResets(id)])
    case Cancel(id, c) =>
      s.(rows := Transitioned(s.rows, id, Cancelled, {Queued, Running, Paused, Failed}), calls := s.calls[c := CancelLooks(id)])
    case Advance(c) => Advanced(s, c)
    case Drop(c) => s.(calls := s.calls - {c})
    case Close => s.(closed := true)
    case Restart =>
      s.(running := map[], runs := [], slots := 0, calls := map[], starter := map[], lost := {}, closed := false, boot := Recovering)
    case Prune(ids) => s.(rows := s.rows - ids)
    case RemoveOrphan(id) => s.(staging := s.staging - {id})
    case Requeue =>
      s.(rows := Requeued(s.rows), boot := Restarting(set id | id in s.rows && s.rows[id].state in {Queued, Running}))
    case RequeueFails => s.(boot := Serving, lost := set id | id in s.rows && s.rows[id].state == Running)
    case StartNext(id) => Start(s.(boot := Restarting(s.boot.todo - {id})), id)
    case Serve => s.(boot := Serving)
    case RunStep(r, k) => StepOf(s, r, k)
  }

  predicate Possible(s: System, events: seq<Event>)
    decreases |events|
  {
    events == [] || (Enabled(s, events[0]) && Possible(Apply(s, events[0]), events[1..]))
  }

  function After(s: System, events: seq<Event>): System
    requires Possible(s, events)
    decreases |events|
  {
    if events == [] then s else After(Apply(s, events[0]), events[1..])
  }

  function Initial(capacity: nat): System {
    System(capacity, map[], {}, map[], [], 0, map[], map[], {}, {}, false, Recovering)
  }

  // ---------- The invariant ----------

  /** Runs of one job enter manager.run one after the other. */
  ghost predicate Chained(runs: seq<Run>) {
    && (forall a, b | 0 <= a < b < |runs| && runs[a].job == runs[b].job :: runs[b].phase.Waiting? || Exited(runs[a].phase))
    && (forall b | 0 <= b < |runs| && runs[b].phase.Waiting? :: WaitsForLatest(runs, b))
  }

  ghost predicate WaitsForLatest(runs: seq<Run>, b: nat)
    requires b < |runs|
  {
    match runs[b].previous
    case None => forall a | 0 <= a < b && runs[a].job == runs[b].job :: Exited(runs[a].phase)
    case Some(p) => p < b && runs[p].job == runs[b].job && forall a | p < a < b :: runs[a].job != runs[b].job
  }

  /** The running map holds the latest run of a job until that run leaves. */
  ghost predicate Registered(running: map<string, nat>, runs: seq<Run>) {
    && (forall id | id in running :: IsLatest(runs, running[id], id))
    && (forall r | 0 <= r < |runs| && !Exited(runs[r].phase) :: runs[r].job in running)
  }

  ghost predicate IsLatest(runs: seq<Run>, r: nat, id: string) {
    && r < |runs| && runs[r].job == id && !Exited(runs[r].phase)
    && forall b | r < b < |runs| :: runs[b].job != id
  }

  ghost function Holders(runs: seq<Run>): set<nat> {
    set r: nat | r < |runs| && HoldsSlot(runs[r].phase)
  }

  /** A run past its start is the latest starter of its job. */
  ghost predicate StartersOwn(starter: map<string, nat>, runs: seq<Run>) {
    forall r | 0 <= r < |runs| && Owns(runs[r].phase) :: runs[r].job in starter && starter[runs[r].job] == r
  }

  /** The job's latest starter still has it in hand. */
  ghost predicate InHand(starter: map<string, nat>, runs: seq<Run>, id: string) {
    id in starter && starter[id] < |runs| && runs[starter[id]].job == id && Owns(runs[starter[id]].phase)
  }

  /** Until `Close`, a running job has its starter at work, unless a statement failed that was to end its work. */
  ghost predicate RunningInHand(s: System) {
    forall id | id in s.rows && s.rows[id].state == Running && !s.boot.Recovering? && !s.closed && id !in s.lost ::
      InHand(s.starter, s.runs, id)
  }

  ghost predicate LostLeft(s: System) {
    forall id | id in s.lost :: !InHand(s.starter, s.runs, id)
  }

  predicate FileSound(f: File) {
    f.state == Completed ==> f.completed == f.size
  }

  predicate AllCompleted(files: map<string, File>) {
    forall f | f in files :: files[f].state == Completed
  }

  predicate Tracks(files: map<string, File>, work: map<string, Work>) {
    && work.Keys <= files.Keys
    && forall f | f in files :: files[f].state == Completed <==> (f in work ==> work[f] == Finished)
  }

  predicate JobSound(job: Job) {
    && (forall f | f in job.files :: FileSound(job.files[f]))
    && (job.state == Completed ==> AllCompleted(job.files))
  }

  predicate PhaseTracked(rows: Rows, id: string, p: Phase) {
    match p
    case Transferring(work) => id in rows && Tracks(rows[id].files, work)
    case Succeeded => id in rows && AllCompleted(rows[id].files)
    case _ => true
  }

  ghost predicate FilesTracked(rows: Rows, runs: seq<Run>) {
    && (forall id | id in rows :: JobSound(rows[id]))
    && (forall r | 0 <= r < |runs| :: PhaseTracked(rows, runs[r].job, runs[r].phase))
  }

  /** No run of this job has its files in hand, and none can start it again. */
  ghost predicate Dead(s: System, id: string) {
    && id in s.used
    && (id in s.rows ==> s.rows[id].state in {Cancelled, Completed})
    && forall r | 0 <= r < |s.runs| && s.runs[r].job == id :: !Owns(s.runs[r].phase)
  }

  ghost predicate KnownJobs(s: System) {
    && s.rows.Keys <= s.used
    && (forall r | 0 <= r < |s.runs| :: s.runs[r].job in s.rows)
    && (forall c | c in s.calls :: s.calls[c].id in s.rows)
    && (s.boot.Restarting? ==> s.boot.todo <= s.rows.Keys)
    && (s.boot.Recovering? ==> s.runs == [] && s.calls == map[] && s.running == map[])
  }

  predicate CallSound(rows: Rows, c: Call) {
    c.CancelLooks? || c.CancelSignals? || c.CancelRemoves? ==> c.id in rows && rows[c.id].state == Cancelled
  }

  predicate LeavingSound(rows: Rows, run: Run) {
    run.phase == Unregistering(true) || run.phase.Removing? ==> run.job in rows && rows[run.job].state == Cancelled
  }

  /** Whoever is about to remove a staging directory found the job dead. */
  ghost predicate RemovesOnlyDead(s: System) {
    && (forall c | c in s.calls :: CallSound(s.rows, s.calls[c]))
    && (forall c | c in s.calls && s.calls[c].CancelRemoves? :: Dead(s, s.calls[c].id))
    && (forall r | 0 <= r < |s.runs| :: LeavingSound(s.rows, s.runs[r]))
    && (forall r | 0 <= r < |s.runs| && s.runs[r].phase.Removing? :: Dead(s, s.runs[r].job))
  }

  ghost predicate Inv(s: System) {
    && KnownJobs(s) && Chained(s.runs) && Registered(s.running, s.runs)
    && s.slots == |Holders(s.runs)| && s.slots <= s.capacity
    && StartersOwn(s.starter, s.runs) && RunningInHand(s) && LostLeft(s)
    && FilesTracked(s.rows, s.runs) && RemovesOnlyDead(s)
  }

  // ---------- Every step of a run keeps the invariant ----------

  /** What a step may do to the phase of its run. */
  predicate PhaseMove(p: Phase, q: Phase, proceed: bool, leave: bool, acquire: bool, release: bool, start: bool) {
    && !q.Waiting? && (p.Waiting? <==> proceed)
    && (Exited(q) <==> Exited(p) || leave) && (leave ==> !InRun(p) && !p.Waiting?)
    && (HoldsSlot(q) <==> (HoldsSlot(p) && !release) || acquire) && (acquire ==> p.Selecting?) && (release ==> HoldsSlot(p))
    && (Owns(q) ==> Owns(p) || start) && (start ==> p.Holding? && q.Started?)
    && (InRun(q) ==> InRun(p) || proceed)
  }

  predicate Starts(s: System, r: nat, k: Step)
    requires r < |s.runs|
  {
    k.TryStart? && Transitions(s.rows, s.runs[r].job, {Queued})
  }

  lemma PhaseMoves(s: System, r: nat, k: Step)
    requires r < |s.runs| && StepEnabled(s, r, k)
    ensures PhaseMove(s.runs[r].phase, NextPhase(s, r, k), k.Proceed?, k.Unregister?, k.Acquire?, k.Release?, Starts(s, r, k))
  {
  }

  /** What a step may do to the rows: at most its own job changes, by one of three transitions. */
  predicate RowsMove(a: Rows, b: Rows, id: string, k: Step) {
    && b.Keys == a.Keys
    && (forall i | i in b && i != id :: b[i] == a[i])
    && (id in b && b[id].state != a[id].state ==>
          || (k.TryStart? && a[id].state == Queued && b[id].state == Running)
          || (k.TryComplete? && a[id].state == Running && b[id].state == Completed)
          || (k.TryFail? && a[id].state == Running && b[id].state == Failed))
  }

  predicate ChangesState(k: Step) {
    k.TryStart? || k.TryComplete? || k.TryFail?
  }

  predicate ChangesFiles(k: Step) {
    k.CompleteFiles? || k.FailFiles? || k.MarkRunning? || k.Report? || k.MarkCompleted?
  }

  lemma RowsMoves(s: System, r: nat, k: Step)
    requires r < |s.runs| && StepEnabled(s, r, k)
    ensures RowsMove(s.rows, NextRows(s, r, k), s.runs[r].job, k)
    ensures k.TryStart? && !Starts(s, r, k) ==> NextRows(s, r, k) == s.rows
    ensures !ChangesState(k) && !ChangesFiles(k) ==> NextRows(s, r, k) == s.rows
  {
    if ChangesState(k) {
      StateMoves(s, r, k);
    } else if ChangesFiles(k) {
      FileRowsMoves(s, r, k);
    }
  }

  lemma StateMoves(s: System, r: nat, k: Step)
    requires r < |s.runs| && StepEnabled(s, r, k) && ChangesState(k)
    ensures RowsMove(s.rows, NextRows(s, r, k), s.runs[r].job, k)
    ensures k.TryStart? && !Starts(s, r, k) ==> NextRows(s, r, k) == s.rows
  {
  }

  lemma FileRowsMoves(s: System, r: nat, k: Step)
    requires r < |s.runs| && StepEnabled(s, r, k) && ChangesFiles(k)
    ensures RowsMove(s.rows, NextRows(s, r, k), s.runs[r].job, k)
  {
    hide MapFiles, FileOf;
  }

  /** Two runs of a job are never both inside manager.run. */
  lemma OneInside(runs: seq<Run>, a: nat, b: nat)
    requires Chained(runs) && a < |runs| && b < |runs| && runs[a].job == runs[b].job
    requires InRun(runs[a].phase) && InRun(runs[b].phase)
    ensures a == b
  {
  }

  lemma ChainedKept(runs: seq<Run>, r: nat, q: Phase)
    requires Chained(runs) && r < |runs| && !q.Waiting? && (Exited(runs[r].phase) ==> Exited(q))
    requires runs[r].phase.Waiting? && runs[r].previous.Some? ==>
               runs[r].previous.value < |runs| && runs[runs[r].previous.value].phase.Done?
    ensures Chained(runs[r := runs[r].(phase := q)])
  {
  }

  lemma RegisteredKept(running: map<string, nat>, runs: seq<Run>, r: nat, q: Phase, leave: bool)
    requires Chained(runs) && Registered(running, runs) && r < |runs|
    requires Exited(q) <==> Exited(runs[r].phase) || leave
    requires leave ==> !runs[r].phase.Waiting?
    ensures var id := runs[r].job;
            var kept := if leave && id in running && running[id] == r then running - {id} else running;
            Registered(kept, runs[r := runs[r].(phase := q)])
  {
  }

  lemma HoldersMoved(runs: seq<Run>, r: nat, q: Phase)
    requires r < |runs|
    ensures Holders(runs[r := runs[r].(phase := q)]) == (Holders(runs) - {r}) + if HoldsSlot(q) then {r} else {}
    ensures r in Holders(runs) <==> HoldsSlot(runs[r].phase)
  {
    hide HoldsSlot;
  }

  lemma HoldersKept(runs: seq<Run>, r: nat, q: Phase)
    requires r < |runs|
    ensures var p := runs[r].phase;
            var t := runs[r := runs[r].(phase := q)];
            && (HoldsSlot(q) && !HoldsSlot(p) ==> |Holders(t)| == |Holders(runs)| + 1)
            && (HoldsSlot(p) && !HoldsSlot(q) ==> |Holders(t)| == |Holders(runs)| - 1 && |Holders(runs)| > 0)
            && ((HoldsSlot(p) <==> HoldsSlot(q)) ==> |Holders(t)| == |Holders(runs)|)
  {
    hide HoldsSlot, Holders;
    HoldersMoved(runs, r, q);
    var before := Holders(runs);
    if r in before {
      assert (before - {r}) + {r} == before;
    } else {
      assert before - {r} == before;
    }
  }

  lemma StartersKept(starter: map<string, nat>, runs: seq<Run>, r: nat, q: Phase, start: bool)
    requires Chained(runs) && StartersOwn(starter, runs) && r < |runs|
    requires (Owns(q) ==> Owns(runs[r].phase) || start) && (start ==> runs[r].phase.Holding? && q.Started?)
    ensures StartersOwn(if start then starter[runs[r].job := r] else starter, runs[r := runs[r].(phase := q)])
  {
  }

  lemma InHandAfterStep(s: System, r: nat, k: Step)
    requires Inv(s) && r < |s.runs| && StepEnabled(s, r, k)
    ensures RunningInHand(StepOf(s, r, k))
  {
    hide Registered, Chained, FilesTracked, RemovesOnlyDead, Holders, LostLeft, StepEnabled, NextPhase, NextRows;
    RowsMoves(s, r, k);
    var t := StepOf(s, r, k);
    forall id | id in t.rows && t.rows[id].state == Running && !t.boot.Recovering? && !t.closed && id !in t.lost
      ensures InHand(t.starter, t.runs, id)
    {
      if s.rows[id].state == Running {
        StartedNoRunning(s, r, k, id);
        assert InHand(s.starter, s.runs, id);
        if s.starter[id] == r {
          StillOwns(s, r, k);
        }
      } else {
        StartTaken(s, r, k);
      }
    }
  }

  lemma StartedNoRunning(s: System, r: nat, k: Step, id: string)
    requires r < |s.runs| && StepEnabled(s, r, k) && id in s.rows && s.rows[id].state == Running
    requires id !in StepOf(s, r, k).lost
    ensures id !in s.lost && (id == s.runs[r].job ==> !Starts(s, r, k) && !k.CompleteFails? && !k.FailFails?)
    ensures id in s.starter ==> id in StepOf(s, r, k).starter && StepOf(s, r, k).starter[id] == s.starter[id]
  {
  }

  lemma StartTaken(s: System, r: nat, k: Step)
    requires r < |s.runs| && StepEnabled(s, r, k)
    ensures k.TryStart? && Transitions(s.rows, s.runs[r].job, {Queued}) ==>
              NextPhase(s, r, k).Started? && s.runs[r].job in StepOf(s, r, k).starter && StepOf(s, r, k).starter[s.runs[r].job] == r
  {
  }

  /** A job once lost has no starter at work until it is started again. */
  lemma LostAfterStep(s: System, r: nat, k: Step)
    requires Inv(s) && r < |s.runs| && StepEnabled(s, r, k)
    ensures LostLeft(StepOf(s, r, k))
  {
    hide Registered, Chained, FilesTracked, RemovesOnlyDead, Holders, RunningInHand, StepEnabled, NextPhase, NextRows;
    PhaseMoves(s, r, k);
    var t := StepOf(s, r, k);
    forall id | id in t.lost
      ensures !InHand(t.starter, t.runs, id)
    {
      LostMoves(s, r, k, id);
    }
  }

  lemma LostMoves(s: System, r: nat, k: Step, id: string)
    requires r < |s.runs| && StepEnabled(s, r, k) && id in StepOf(s, r, k).lost
    ensures StepOf(s, r, k).starter == s.starter || id != s.runs[r].job
    ensures id != s.runs[r].job && id in s.starter ==> StepOf(s, r, k).starter[id] == s.starter[id]
    ensures id !in s.lost ==> id == s.runs[r].job && !Owns(NextPhase(s, r, k)) && Owns(s.runs[r].phase)
    ensures id == s.runs[r].job ==> !Starts(s, r, k)
  {
  }

  /** Until `Close`, a run lets go of a running job only by changing its state, or by failing to. */
  lemma StillOwns(s: System, r: nat, k: Step)
    requires r < |s.runs| && StepEnabled(s, r, k) && Owns(s.runs[r].phase) && !s.closed
    requires s.runs[r].job in s.rows && NextRows(s, r, k)[s.runs[r].job].state == Running
    requires s.rows[s.runs[r].job].state == Running && !k.CompleteFails? && !k.FailFails?
    ensures Owns(NextPhase(s, r, k)) && !Starts(s, r, k)
  {
  }

  /** The step keeps completed files completed, and every file sound. */
  predicate FilesMove(a: Job, b: Job) {
    && a.files.Keys == b.files.Keys
    && forall f | f in a.files && a.files[f].state == Completed :: b.files[f].state == Completed
  }

  lemma FilesMoves(s: System, r: nat, k: Step)
    requires r < |s.runs| && StepEnabled(s, r, k) && s.runs[r].job in s.rows
    requires JobSound(s.rows[s.runs[r].job]) && PhaseTracked(s.rows, s.runs[r].job, s.runs[r].phase)
    ensures var id := s.runs[r].job;
            var t := NextRows(s, r, k);
            id in t && JobSound(t[id]) && FilesMove(s.rows[id], t[id])
  {
    if k.MarkRunning? || k.Report? || k.MarkCompleted? {
      FileStepMoves(s, r, k);
    } else {
      OtherStepMoves(s, r, k);
    }
  }

  lemma FileStepMoves(s: System, r: nat, k: Step)
    requires r < |s.runs| && StepEnabled(s, r, k) && s.runs[r].job in s.rows
    requires JobSound(s.rows[s.runs[r].job]) && PhaseTracked(s.rows, s.runs[r].job, s.runs[r].phase)
    requires k.MarkRunning? || k.Report? || k.MarkCompleted?
    ensures var id := s.runs[r].job;
            var t := NextRows(s, r, k);
            id in t && JobSound(t[id]) && FilesMove(s.rows[id], t[id])
  {
  }

  lemma OtherStepMoves(s: System, r: nat, k: Step)
    requires r < |s.runs| && StepEnabled(s, r, k) && s.runs[r].job in s.rows
    requires JobSound(s.rows[s.runs[r].job]) && PhaseTracked(s.rows, s.runs[r].job, s.runs[r].phase)
    requires !(k.MarkRunning? || k.Report? || k.MarkCompleted?)
    ensures var id := s.runs[r].job;
            var t := NextRows(s, r, k);
            id in t && JobSound(t[id]) && FilesMove(s.rows[id], t[id])
  {
    if ChangesFiles(k) {
      AllFilesMove(s, r, k);
    } else if ChangesState(k) {
      StateKeepsFiles(s, r, k);
    } else {
      RowsMoves(s, r, k);
    }
  }

  lemma AllFilesMove(s: System, r: nat, k: Step)
    requires r < |s.runs| && StepEnabled(s, r, k) && s.runs[r].job in s.rows && JobSound(s.rows[s.runs[r].job])
    requires k.CompleteFiles? || k.FailFiles?
    ensures var id := s.runs[r].job;
            var t := NextRows(s, r, k);
            id in t && JobSound(t[id]) && FilesMove(s.rows[id], t[id])
  {
  }

  lemma StateKeepsFiles(s: System, r: nat, k: Step)
    requires r < |s.runs| && StepEnabled(s, r, k) && s.runs[r].job in s.rows && JobSound(s.rows[s.runs[r].job])
    requires PhaseTracked(s.rows, s.runs[r].job, s.runs[r].phase) && ChangesState(k)
    ensures var id := s.runs[r].job;
            var t := NextRows(s, r, k);
            id in t && JobSound(t[id]) && FilesMove(s.rows[id], t[id])
  {
  }

  lemma PhaseTrackedMoves(s: System, r: nat, k: Step)
    requires r < |s.runs| && StepEnabled(s, r, k) && s.runs[r].job in s.rows
    requires PhaseTracked(s.rows, s.runs[r].job, s.runs[r].phase)
    ensures PhaseTracked(NextRows(s, r, k), s.runs[r].job, NextPhase(s, r, k))
  {
    match k
    case ReadJob =>
    case MarkRunning(f, n) =>
    case Report(f, n) =>
    case MarkCompleted(f) =>
    case _ =>
  }

  /** Files complete only under the one run that has the job in hand. */
  lemma FilesAfterStep(s: System, r: nat, k: Step)
    requires Inv(s) && r < |s.runs| && StepEnabled(s, r, k)
    ensures FilesTracked(NextRows(s, r, k), s.runs[r := s.runs[r].(phase := NextPhase(s, r, k))])
  {
    hide Registered, StartersOwn, RunningInHand, LostLeft, RemovesOnlyDead, Holders, StepEnabled, NextPhase, NextRows;
    RowsMoves(s, r, k);
    var id := s.runs[r].job;
    assert PhaseTracked(s.rows, id, s.runs[r].phase);
    FilesMoves(s, r, k);
    PhaseTrackedMoves(s, r, k);
    var t := NextRows(s, r, k);
    forall a | 0 <= a < |s.runs| && a != r
      ensures PhaseTracked(t, s.runs[a].job, s.runs[a].phase)
    {
      assert PhaseTracked(s.rows, s.runs[a].job, s.runs[a].phase);
      if s.runs[a].job == id && Owns(s.runs[a].phase) {
        OtherRunsLeaveFiles(s, r, k, a);
      }
    }
  }

  lemma OtherRunsLeaveFiles(s: System, r: nat, k: Step, a: nat)
    requires Inv(s) && r < |s.runs| && a < |s.runs| && a != r && StepEnabled(s, r, k)
    requires s.runs[a].job == s.runs[r].job && Owns(s.runs[a].phase)
    ensures NextRows(s, r, k) == s.rows
  {
    if InRun(s.runs[r].phase) {
      OneInside(s.runs, a, r);
    }
  }

  lemma DeadAfterStep(s: System, r: nat, k: Step, id: string)
    requires r < |s.runs| && StepEnabled(s, r, k) && Dead(s, id)
    ensures Dead(StepOf(s, r, k), id)
    ensures id !in s.staging ==> id !in StepOf(s, r, k).staging
  {
    PhaseMoves(s, r, k);
    RowsMoves(s, r, k);
  }

  lemma RemovalsAfterStep(s: System, r: nat, k: Step)
    requires Inv(s) && r < |s.runs| && StepEnabled(s, r, k)
    ensures RemovesOnlyDead(StepOf(s, r, k))
  {
    hide Registered, Chained, StartersOwn, RunningInHand, FilesTracked, Holders;
    RowsMoves(s, r, k);
    var t := StepOf(s, r, k);
    forall c | c in t.calls && t.calls[c].CancelRemoves?
      ensures Dead(t, t.calls[c].id)
    {
      DeadAfterStep(s, r, k, s.calls[c].id);
    }
    forall a | 0 <= a < |t.runs|
      ensures LeavingSound(t.rows, t.runs[a]) && (t.runs[a].phase.Removing? ==> Dead(t, t.runs[a].job))
    {
      assert LeavingSound(s.rows, s.runs[a]);
      if a != r && s.runs[a].phase.Removing? {
        DeadAfterStep(s, r, k, s.runs[a].job);
      } else if a == r {
        LeavingAfterStep(s, r, k);
      }
    }
  }

  lemma LeavingMoves(s: System, r: nat, k: Step)
    requires r < |s.runs| && StepEnabled(s, r, k)
    ensures var p, q := s.runs[r].phase, NextPhase(s, r, k);
            && (q == Unregistering(true) ==>
                  NextRows(s, r, k) == s.rows && s.runs[r].job in s.rows && s.rows[s.runs[r].job].state == Cancelled)
            && (q.Removing? ==> NextRows(s, r, k) == s.rows && k.Unregister? && p == Unregistering(true))
  {
  }

  lemma LeavingAfterStep(s: System, r: nat, k: Step)
    requires Inv(s) && r < |s.runs| && StepEnabled(s, r, k)
    ensures LeavingSound(NextRows(s, r, k), s.runs[r].(phase := NextPhase(s, r, k)))
    ensures NextPhase(s, r, k).Removing? ==> Dead(StepOf(s, r, k), s.runs[r].job)
  {
    LeavingMoves(s, r, k);
    PhaseMoves(s, r, k);
    assert LeavingSound(s.rows, s.runs[r]);
    if NextPhase(s, r, k).Removing? {
      OthersIdle(s.runs, r);
    }
  }

  /** While a run is between manager.run and the lock region of finishRun, no run of its job is at work. */
  lemma OthersIdle(runs: seq<Run>, r: nat)
    requires Chained(runs) && r < |runs| && runs[r].phase.Unregistering?
    ensures forall b | 0 <= b < |runs| && runs[b].job == runs[r].job :: !InRun(runs[b].phase)
  {
  }

  lemma KnownAfterStep(s: System, r: nat, k: Step)
    requires Inv(s) && r < |s.runs| && StepEnabled(s, r, k)
    ensures KnownJobs(StepOf(s, r, k))
  {
    RowsMoves(s, r, k);
  }

  lemma RunsAfterStep(s: System, r: nat, k: Step)
    requires Inv(s) && r < |s.runs| && StepEnabled(s, r, k)
    ensures var t := StepOf(s, r, k);
            Chained(t.runs) && Registered(t.running, t.runs) && StartersOwn(t.starter, t.runs)
  {
    PhaseMoves(s, r, k);
    var q := NextPhase(s, r, k);
    ChainedKept(s.runs, r, q);
    RegisteredKept(s.running, s.runs, r, q, k.Unregister?);
    StartersKept(s.starter, s.runs, r, q, Starts(s, r, k));
  }

  lemma SlotsAfterStep(s: System, r: nat, k: Step)
    requires Inv(s) && r < |s.runs| && StepEnabled(s, r, k)
    ensures var t := StepOf(s, r, k);
            t.slots == |Holders(t.runs)| && t.slots <= t.capacity
  {
    PhaseMoves(s, r, k);
    HoldersKept(s.runs, r, NextPhase(s, r, k));
  }

  lemma InvAfterStep(s: System, r: nat, k: Step)
    requires Inv(s) && r < |s.runs| && StepEnabled(s, r, k)
    ensures Inv(StepOf(s, r, k))
  {
    RunsAfterStep(s, r, k);
    SlotsAfterStep(s, r, k);
    InHandAfterStep(s, r, k);
    LostAfterStep(s, r, k);
    FilesAfterStep(s, r, k);
    RemovalsAfterStep(s, r, k);
    KnownAfterStep(s, r, k);
  }

  // ---------- Every other event keeps the invariant ----------

  /** A change of rows made outside the runs: nothing starts running, nothing
      leaves a final state, and no file gains or loses the state completed. */
  predicate Harmless(a: Rows, b: Rows) {
    && a.Keys <= b.Keys
    && (forall id | id in b :: JobSound(b[id]) && (b[id].state == Running ==> id in a && a[id].state == Running))
    && (forall id | id in a :: FilesMove(a[id], b[id]) && FilesMove(b[id], a[id])
                               && (a[id].state in {Cancelled, Completed} ==> b[id].state == a[id].state))
  }

  lemma HarmlessKeeps(s: System, rows: Rows, used: set<string>)
    requires Inv(s) && Harmless(s.rows, rows) && used == s.used + rows.Keys
    requires s.boot.Serving?
    requires forall id | id in rows && id !in s.rows :: id !in s.used
    ensures Inv(s.(rows := rows, used := used))
  {
    var t := s.(rows := rows, used := used);
    forall r | 0 <= r < |s.runs|
      ensures PhaseTracked(rows, s.runs[r].job, s.runs[r].phase) && LeavingSound(rows, s.runs[r])
    {
      assert PhaseTracked(s.rows, s.runs[r].job, s.runs[r].phase) && LeavingSound(s.rows, s.runs[r]);
    }
    forall c | c in s.calls
      ensures CallSound(rows, s.calls[c])
    {
      assert CallSound(s.rows, s.calls[c]);
    }
    forall id | id in rows && rows[id].state == Running && !s.closed && id !in s.lost
      ensures InHand(s.starter, s.runs, id)
    {
      assert InHand(s.starter, s.runs, id);
    }
  }

  /** A new or changed call that is not about to remove anything. */
  lemma CallKeeps(s: System, c: nat, call: Call)
    requires Inv(s) && s.boot != Recovering && call.id in s.rows && CallSound(s.rows, call)
    requires call.CancelRemoves? ==> Dead(s, call.id)
    ensures Inv(s.(calls := s.calls[c := call]))
  {
    var t := s.(calls := s.calls[c := call]);
    forall d | d in t.calls
      ensures CallSound(t.rows, t.calls[d]) && (t.calls[d].CancelRemoves? ==> Dead(t, t.calls[d].id))
    {
      assert d != c ==> CallSound(s.rows, s.calls[d]);
      assert t.calls[d].CancelRemoves? ==> Dead(s, t.calls[d].id);
    }
    SameRunsKeep(s, t);
  }

  lemma DropCallKeeps(s: System, c: nat)
    requires Inv(s)
    ensures Inv(s.(calls := s.calls - {c}))
  {
    var t := s.(calls := s.calls - {c});
    forall d | d in t.calls
      ensures CallSound(t.rows, t.calls[d]) && (t.calls[d].CancelRemoves? ==> Dead(t, t.calls[d].id))
    {
      assert CallSound(s.rows, s.calls[d]);
      assert t.calls[d].CancelRemoves? ==> Dead(s, t.calls[d].id);
    }
    SameRunsKeep(s, t);
  }

  /** Only the calls, the staging set or `closed` differ. */
  lemma SameRunsKeep(s: System, t: System)
    requires Inv(s) && t == s.(calls := t.calls, staging := t.staging, closed := t.closed)
    requires s.closed ==> t.closed
    ensures Chained(t.runs) && Registered(t.running, t.runs) && t.slots == |Holders(t.runs)| && t.slots <= t.capacity
    ensures StartersOwn(t.starter, t.runs) && RunningInHand(t) && LostLeft(t) && FilesTracked(t.rows, t.runs)
    ensures forall r | 0 <= r < |t.runs| :: LeavingSound(t.rows, t.runs[r])
    ensures forall r | 0 <= r < |t.runs| && t.runs[r].phase.Removing? :: Dead(t, t.runs[r].job)
  {
    forall id | id in t.rows && t.rows[id].state == Running && !t.boot.Recovering? && !t.closed && id !in t.lost
      ensures InHand(t.starter, t.runs, id)
    {
      assert InHand(s.starter, s.runs, id);
    }
    forall r | 0 <= r < |t.runs|
      ensures LeavingSound(t.rows, t.runs[r]) && (t.runs[r].phase.Removing? ==> Dead(t, t.runs[r].job))
    {
      assert LeavingSound(s.rows, s.runs[r]);
      assert s.runs[r].phase.Removing? ==> Dead(s, s.runs[r].job);
    }
  }

  lemma SameCallsKeep(s: System, t: System)
    requires Inv(s) && t == s.(staging := t.staging, closed := t.closed) && (s.closed ==> t.closed)
    ensures Inv(t)
  {
    SameRunsKeep(s, t);
    forall c | c in t.calls
      ensures CallSound(t.rows, t.calls[c]) && (t.calls[c].CancelRemoves? ==> Dead(t, t.calls[c].id))
    {
      assert CallSound(s.rows, s.calls[c]);
      assert s.calls[c].CancelRemoves? ==> Dead(s, s.calls[c].id);
    }
  }

  lemma SignalKeeps(s: System, r: nat)
    requires Inv(s)
    ensures Inv(Signalled(s, r))
  {
    if r < |s.runs| {
      var t := Signalled(s, r);
      MarkedRunsKeep(s.running, s.runs, r);
      SameJobsKeep(s, t);
    }
  }

  lemma MarkedRunsKeep(running: map<string, nat>, runs: seq<Run>, r: nat)
    requires Chained(runs) && Registered(running, runs) && r < |runs|
    ensures var t := runs[r := runs[r].(cancelled := true)];
            Chained(t) && Registered(running, t) && Holders(t) == Holders(runs)
  {
    hide Holders, HoldsSlot, Registered;
    var t := runs[r := runs[r].(cancelled := true)];
    assert Chained(t) by {
      forall b | 0 <= b < |t| && t[b].phase.Waiting?
        ensures WaitsForLatest(t, b)
      {
        assert WaitsForLatest(runs, b);
      }
    }
    MarkedRunsRegistered(running, runs, r);
    MarkedRunsHold(runs, r);
  }

  lemma MarkedRunsHold(runs: seq<Run>, r: nat)
    requires r < |runs|
    ensures Holders(runs[r := runs[r].(cancelled := true)]) == Holders(runs)
  {
  }

  lemma MarkedRunsRegistered(running: map<string, nat>, runs: seq<Run>, r: nat)
    requires Registered(running, runs) && r < |runs|
    ensures Registered(running, runs[r := runs[r].(cancelled := true)])
  {
  }

  /** The runs agree but for cancellation marks and appended waiting runs. */
  lemma SameJobsKeep(s: System, t: System)
    requires Inv(s) && t == s.(runs := t.runs, running := t.running) && KnownJobs(t) && |t.runs| >= |s.runs|
    requires forall a | 0 <= a < |s.runs| :: t.runs[a] == s.runs[a].(cancelled := t.runs[a].cancelled)
    requires forall a | |s.runs| <= a < |t.runs| :: t.runs[a].phase.Waiting?
    ensures StartersOwn(t.starter, t.runs) && RunningInHand(t) && LostLeft(t) && FilesTracked(t.rows, t.runs) && RemovesOnlyDead(t)
  {
    forall a | 0 <= a < |t.runs|
      ensures PhaseTracked(t.rows, t.runs[a].job, t.runs[a].phase) && LeavingSound(t.rows, t.runs[a])
    {
      if a < |s.runs| {
        assert PhaseTracked(s.rows, s.runs[a].job, s.runs[a].phase) && LeavingSound(s.rows, s.runs[a]);
      }
    }
    forall id | id in t.rows && t.rows[id].state == Running && !t.boot.Recovering? && !t.closed && id !in t.lost
      ensures InHand(t.starter, t.runs, id)
    {
      assert InHand(s.starter, s.runs, id);
    }
    forall id | Dead(s, id)
      ensures Dead(t, id)
    {
    }
  }

  lemma StartKeeps(s: System, id: string)
    requires Inv(s) && id in s.rows && !s.boot.Recovering?
    ensures Inv(Start(s, id))
  {
    hide Registered, Chained, StartersOwn, RunningInHand, FilesTracked, RemovesOnlyDead, Holders;
    if !s.closed {
      var t := Start(s, id);
      StartChains(s, id);
      StartRegisters(s, id);
      StartHolds(s, id);
      SameJobsKeep(s, t);
    }
  }

  lemma StartHolds(s: System, id: string)
    requires !s.closed
    ensures Holders(Start(s, id).runs) == Holders(s.runs)
  {
  }

  lemma StartRegisters(s: System, id: string)
    requires Registered(s.running, s.runs) && !s.closed
    ensures Registered(Start(s, id).running, Start(s, id).runs)
  {
  }

  lemma StartChains(s: System, id: string)
    requires Chained(s.runs) && Registered(s.running, s.runs) && !s.closed
    ensures Chained(Start(s, id).runs)
  {
    var t := Start(s, id).runs;
    forall b | 0 <= b < |t| && t[b].phase.Waiting?
      ensures WaitsForLatest(t, b)
    {
      if b < |s.runs| {
        assert WaitsForLatest(s.runs, b);
      } else if id in s.running {
        assert IsLatest(s.runs, s.running[id], id);
      }
    }
  }

  lemma CancelRunKeeps(s: System, id: string)
    requires Inv(s)
    ensures Inv(CancelRun(s, id))
  {
    if id in s.running {
      SignalKeeps(s, s.running[id]);
    }
  }

  lemma AdvanceKeeps(s: System, c: nat)
    requires Inv(s) && c in s.calls
    ensures Inv(Advanced(s, c))
  {
    match s.calls[c]
    case ResumeResets(id) => ResumeKeeps(s, c, id);
    case CancelLooks(id) => CancelLookKeeps(s, c, id);
    case _ => LastCallKeeps(s, c);
  }

  /** The last step of a call. */
  lemma LastCallKeeps(s: System, c: nat)
    requires Inv(s) && c in s.calls && !s.calls[c].ResumeResets? && !s.calls[c].CancelLooks?
    ensures Inv(Advanced(s, c))
  {
    hide Registered, Chained, StartersOwn, RunningInHand, FilesTracked, RemovesOnlyDead, Holders;
    var rest := s.(calls := s.calls - {c});
    assert Inv(rest) by {
      DropCallKeeps(s, c);
    }
    match s.calls[c]
    case PauseCancels(id) => CancelRunKeeps(rest, id);
    case StartsRun(id) =>
      assert id in rest.rows;
      StartKeeps(rest, id);
    case CancelSignals(id, r) => SignalKeeps(rest, r);
    case CancelRemoves(id) => SameCallsKeep(rest, rest.(staging := s.staging - {id}));
  }

  lemma ResumeKeeps(s: System, c: nat, id: string)
    requires Inv(s) && c in s.calls && s.calls[c] == ResumeResets(id)
    ensures Inv(Advanced(s, c))
  {
    ResetKeeps(s, id);
    CallKeeps(s.(rows := EachFile(s.rows, id, QueuedIfUnfinished)), c, StartsRun(id));
  }

  lemma CancelLookKeeps(s: System, c: nat, id: string)
    requires Inv(s) && c in s.calls && s.calls[c] == CancelLooks(id)
    ensures Inv(Advanced(s, c))
  {
    assert CallSound(s.rows, s.calls[c]);
    if id !in s.running {
      NoneLeft(s, id);
      CallKeeps(s, c, CancelRemoves(id));
    } else {
      CallKeeps(s, c, CancelSignals(id, s.running[id]));
    }
  }

  /** A cancelled job without a registered run is dead. */
  lemma NoneLeft(s: System, id: string)
    requires Inv(s) && id !in s.running && id in s.rows && s.rows[id].state == Cancelled
    ensures Dead(s, id)
  {
  }

  lemma ResetHarmless(rows: Rows, id: string)
    requires id in rows && forall i | i in rows :: JobSound(rows[i])
    ensures Harmless(rows, EachFile(rows, id, QueuedIfUnfinished))
  {
  }

  lemma ResetKeeps(s: System, id: string)
    requires Inv(s) && id in s.rows && !s.boot.Recovering?
    ensures Inv(s.(rows := EachFile(s.rows, id, QueuedIfUnfinished)))
  {
    ResetHarmless(s.rows, id);
    HarmlessKeepsAnyBoot(s, EachFile(s.rows, id, QueuedIfUnfinished));
  }

  lemma HarmlessKeepsAnyBoot(s: System, rows: Rows)
    requires Inv(s) && Harmless(s.rows, rows) && rows.Keys == s.rows.Keys && !s.boot.Recovering?
    ensures Inv(s.(rows := rows))
  {
    var t := s.(boot := Serving);
    assert Inv(t) by {
      BootKeeps(s, Serving);
    }
    assert s.used + rows.Keys == s.used;
    HarmlessKeeps(t, rows, s.used);
    BootKeeps(t.(rows := rows), s.boot);
  }

  lemma BootKeeps(s: System, boot: Boot)
    requires Inv(s) && !s.boot.Recovering? && !boot.Recovering? && (boot.Restarting? ==> boot.todo <= s.rows.Keys)
    ensures Inv(s.(boot := boot))
  {
    var t := s.(boot := boot);
    forall id | Dead(s, id)
      ensures Dead(t, id)
    {
    }
    forall id | id in t.rows && t.rows[id].state == Running && !t.closed && id !in t.lost
      ensures InHand(t.starter, t.runs, id)
    {
      assert InHand(s.starter, s.runs, id);
    }
  }

  lemma TransitionHarmless(rows: Rows, id: string, to: JobState, from: set<JobState>)
    requires (forall i | i in rows :: JobSound(rows[i])) && to !in {Running, Completed} && from !! {Completed, Cancelled}
    ensures Harmless(rows, Transitioned(rows, id, to, from))
  {
  }

  lemma TransitionKeeps(s: System, id: string, to: JobState, from: set<JobState>, c: nat, call: Call)
    requires Inv(s) && s.boot.Serving? && to !in {Running, Completed} && from !! {Completed, Cancelled}
    requires Transitions(s.rows, id, from) && call.id == id && !call.CancelRemoves? && !call.CancelSignals?
    requires call.CancelLooks? ==> to == Cancelled
    ensures Inv(s.(rows := Transitioned(s.rows, id, to, from), calls := s.calls[c := call]))
  {
    var rows := Transitioned(s.rows, id, to, from);
    TransitionHarmless(s.rows, id, to, from);
    HarmlessKeepsAnyBoot(s, rows);
    CallKeeps(s.(rows := rows), c, call);
  }

  lemma CreateHarmless(s: System, id: string, sizes: map<string, nat>, c: nat)
    requires Inv(s) && Enabled(s, Create(id, sizes, c))
    ensures s.rows.Keys <= s.used
    ensures Harmless(s.rows, s.rows[id := Job(Queued, map f | f in sizes :: File(sizes[f], 0, Queued))])
  {
    hide Registered, Chained, StartersOwn, RunningInHand, RemovesOnlyDead, Holders, PhaseTracked;
  }

  lemma CreateKeeps(s: System, id: string, sizes: map<string, nat>, c: nat)
    requires Inv(s) && Enabled(s, Create(id, sizes, c))
    ensures Inv(Apply(s, Create(id, sizes, c)))
  {
    hide Registered, Chained, StartersOwn, RunningInHand, FilesTracked, RemovesOnlyDead, Holders;
    var rows := s.rows[id := Job(Queued, map f | f in sizes :: File(sizes[f], 0, Queued))];
    CreateHarmless(s, id, sizes, c);
    assert s.used + rows.Keys == s.used + {id};
    HarmlessKeeps(s, rows, s.used + {id});
    CallKeeps(s.(rows := rows, used := s.used + {id}), c, StartsRun(id));
  }

  lemma RestartKeeps(s: System)
    requires Inv(s)
    ensures Inv(Apply(s, Restart))
  {
    var t := Apply(s, Restart);
    assert Holders(t.runs) == {};
  }

  lemma RecoveryKeeps(s: System, e: Event)
    requires Inv(s) && Enabled(s, e) && (e.Prune? || e.RemoveOrphan? || e.Requeue? || e.RequeueFails?)
    ensures Inv(Apply(s, e))
  {
    var t := Apply(s, e);
    assert Holders(t.runs) == Holders(s.runs);
    forall id | id in t.rows
      ensures JobSound(t.rows[id])
    {
      assert JobSound(s.rows[id]);
    }
  }

  /** The invariant survives every event. */
  lemma InvKept(s: System, e: Event)
    requires Inv(s) && Enabled(s, e)
    ensures Inv(Apply(s, e))
  {
    hide Registered, Chained, StartersOwn, RunningInHand, LostLeft, FilesTracked, RemovesOnlyDead, Holders, StepOf, Advanced, Start;
    match e
    case Create(id, sizes, c) => CreateKeeps(s, id, sizes, c);
    case Pause(id, c) => TransitionKeeps(s, id, Paused, {Queued, Running}, c, PauseCancels(id));
    case Resume(id, c) => TransitionKeeps(s, id, Queued, {Paused, Failed}, c, ResumeResets(id));
    case Cancel(id, c) => TransitionKeeps(s, id, Cancelled, {Queued, Running, Paused, Failed}, c, CancelLooks(id));
    case Advance(c) => AdvanceKeeps(s, c);
    case Drop(c) => DropCallKeeps(s, c);
    case Close => SameCallsKeep(s, s.(closed := true));
    case Restart => RestartKeeps(s);
    case Prune(ids) => RecoveryKeeps(s, e);
    case RemoveOrphan(id) => RecoveryKeeps(s, e);
    case Requeue => RecoveryKeeps(s, e);
    case RequeueFails => RecoveryKeeps(s, e);
    case StartNext(id) =>
      BootKeeps(s, Restarting(s.boot.todo - {id}));
      StartKeeps(s.(boot := Restarting(s.boot.todo - {id})), id);
    case Serve => BootKeeps(s, Serving);
    case RunStep(r, k) => InvAfterStep(s, r, k);
  }

  lemma {:induction false} InvAlways(s: System, events: seq<Event>)
    requires Inv(s) && Possible(s, events)
    ensures Inv(After(s, events))
    decreases |events|
  {
    if events != [] {
      InvKept(s, events[0]);
      InvAlways(Apply(s, events[0]), events[1..]);
    }
  }

  lemma InvReached(capacity: nat, events: seq<Event>)
    requires Possible(Initial(capacity), events)
    ensures Inv(After(Initial(capacity), events))
  {
    assert Holders(Initial(capacity).runs) == {};
    InvAlways(Initial(capacity), events);
  }

  // ---------- What holds over whole histories ----------

  /** At most one run of a job is inside manager.run. */
  lemma OneRunPerJob(capacity: nat, events: seq<Event>, a: nat, b: nat)
    requires Possible(Initial(capacity), events)
    requires var s := After(Initial(capacity), events);
             && a < |s.runs| && b < |s.runs| && s.runs[a].job == s.runs[b].job
             && InRun(s.runs[a].phase) && InRun(s.runs[b].phase)
    ensures a == b
  {
    InvReached(capacity, events);
    OneInside(After(Initial(capacity), events).runs, a, b);
  }

  /** Whoever completes or fails a running job made its latest change from queued to running. */
  lemma FinalChangeByStarter(capacity: nat, events: seq<Event>, r: nat, k: Step)
    requires Possible(Initial(capacity), events)
    requires Enabled(After(Initial(capacity), events), RunStep(r, k))
    requires k.TryComplete? || k.TryFail?
    requires NextRows(After(Initial(capacity), events), r, k) != After(Initial(capacity), events).rows
    ensures var s := After(Initial(capacity), events);
            var id := s.runs[r].job;
            id in s.starter && s.starter[id] == r && s.rows[id].state == Running
  {
    InvReached(capacity, events);
    OwnerStarted(After(Initial(capacity), events), r, k);
  }

  lemma OwnerStarted(s: System, r: nat, k: Step)
    requires StartersOwn(s.starter, s.runs) && r < |s.runs| && StepEnabled(s, r, k) && (k.TryComplete? || k.TryFail?)
    ensures s.runs[r].job in s.starter && s.starter[s.runs[r].job] == r
    ensures NextRows(s, r, k) != s.rows ==> s.runs[r].job in s.rows && s.rows[s.runs[r].job].state == Running
  {
  }

  /** Until `Close`, a running job has exactly one run inside manager.run, and that run
      holds a slot, unless the job was lost to a failed statement. */
  lemma RunningHasOneRun(capacity: nat, events: seq<Event>, id: string) returns (r: nat)
    requires Possible(Initial(capacity), events)
    requires var s := After(Initial(capacity), events);
             id in s.rows && s.rows[id].state == Running && !s.closed && !s.boot.Recovering? && id !in s.lost
    ensures var s := After(Initial(capacity), events);
            && r < |s.runs| && s.runs[r].job == id && HoldsSlot(s.runs[r].phase)
            && forall b | 0 <= b < |s.runs| && s.runs[b].job == id && InRun(s.runs[b].phase) :: b == r
  {
    InvReached(capacity, events);
    r := WorkerOf(After(Initial(capacity), events), id);
  }

  lemma WorkerOf(s: System, id: string) returns (r: nat)
    requires Chained(s.runs) && RunningInHand(s)
    requires id in s.rows && s.rows[id].state == Running && !s.closed && !s.boot.Recovering? && id !in s.lost
    ensures r < |s.runs| && s.runs[r].job == id && HoldsSlot(s.runs[r].phase)
    ensures forall b | 0 <= b < |s.runs| && s.runs[b].job == id && InRun(s.runs[b].phase) :: b == r
  {
    assert InHand(s.starter, s.runs, id);
    r := s.starter[id];
    forall b | 0 <= b < |s.runs| && s.runs[b].job == id && InRun(s.runs[b].phase)
      ensures b == r
    {
      OneInside(s.runs, b, r);
    }
  }

  ghost predicate AtWork(s: System, id: string) {
    exists r :: 0 <= r < |s.runs| && s.runs[r].job == id && Owns(s.runs[r].phase)
  }

  /** Until `Close`, a running job has a run at work on it exactly when it was not lost. */
  lemma LostExactly(capacity: nat, events: seq<Event>, id: string)
    requires Possible(Initial(capacity), events)
    requires var s := After(Initial(capacity), events);
             id in s.rows && s.rows[id].state == Running && !s.closed && !s.boot.Recovering?
    ensures var s := After(Initial(capacity), events); AtWork(s, id) <==> id !in s.lost
  {
    var s := After(Initial(capacity), events);
    InvReached(capacity, events);
    if r :| 0 <= r < |s.runs| && s.runs[r].job == id && Owns(s.runs[r].phase) {
      assert InHand(s.starter, s.runs, id);
    }
    if id !in s.lost {
      assert InHand(s.starter, s.runs, id);
    }
  }

  lemma {:induction false} AfterBoth(s: System, a: seq<Event>, b: seq<Event>)
    requires Possible(s, a) && Possible(After(s, a), b)
    ensures Possible(s, a + b) && After(s, a + b) == After(After(s, a), b)
    decreases |a|
  {
    hide Enabled, Apply;
    if a == [] {
      assert a + b == b;
    } else {
      assert (a + b)[0] == a[0] && (a + b)[1..] == a[1..] + b;
      AfterBoth(Apply(s, a[0]), a[1..], b);
    }
  }

  lemma AfterOne(s: System, e: Event)
    requires Enabled(s, e)
    ensures Possible(s, [e]) && After(s, [e]) == Apply(s, e)
  {
    assert [e][1..] == [];
    assert After(Apply(s, e), []) == Apply(s, e);
  }

  lemma OneMore(s: System, events: seq<Event>, e: Event)
    requires Possible(s, events) && Enabled(After(s, events), e)
    ensures Possible(s, events + [e]) && After(s, events + [e]) == Apply(After(s, events), e)
  {
    hide Enabled, Apply, Possible, After;
    AfterOne(After(s, events), e);
    AfterBoth(s, events, [e]);
  }

  /** A system with one job and its one run. */
  ghost predicate OneJob(s: System, phase: Phase, state: JobState) {
    && s.capacity == 1 && s.boot.Serving? && !s.closed
    && s.runs == [Run("j", None, phase, false)] && "j" in s.rows && s.rows["j"].state == state
  }

  /** A manager for one job at a time that has created one and given it a run. */
  lemma JobWithRun() returns (events: seq<Event>)
    ensures Possible(Initial(1), events)
    ensures OneJob(After(Initial(1), events), Waiting, Queued) && After(Initial(1), events).slots == 0
  {
    hide Possible, After, Apply, Enabled;
    events := [];
    NoEvents(Initial(1));
    Boots(Initial(1));
    OneMore(Initial(1), events, Requeue);
    events := events + [Requeue];
    Serves(After(Initial(1), events));
    OneMore(Initial(1), events, Serve);
    events := events + [Serve];
    var create := Create("j", map["f" := 1], 0);
    Creates(After(Initial(1), events), create);
    OneMore(Initial(1), events, create);
    events := events + [create];
    Begins(After(Initial(1), events));
    OneMore(Initial(1), events, Advance(0));
    events := events + [Advance(0)];
  }

  lemma NoEvents(s: System)
    ensures Possible(s, []) && After(s, []) == s
  {
  }

  lemma Boots(s: System)
    requires s == Initial(1)
    ensures Enabled(s, Requeue) && Apply(s, Requeue) == s.(boot := Restarting({}))
  {
    assert s.rows == map[] && Requeued(s.rows) == map[];
    assert Apply(s, Requeue).boot.todo == {};
  }

  lemma Serves(s: System)
    requires s == Initial(1).(boot := Restarting({}))
    ensures Enabled(s, Serve) && Apply(s, Serve) == Initial(1).(boot := Serving)
  {
  }

  lemma Creates(s: System, e: Event)
    requires s == Initial(1).(boot := Serving) && e == Create("j", map["f" := 1], 0)
    ensures Enabled(s, e)
    ensures var t := Apply(s, e);
            t == s.(rows := t.rows, used := {"j"}, calls := map[0 := StartsRun("j")]) && "j" in t.rows && t.rows["j"].state == Queued
  {
    assert s.calls == map[];
    assert |map["f" := 1]| > 0;
  }

  lemma Begins(s: System)
    requires s.calls == map[0 := StartsRun("j")] && s.runs == [] && s.running == map[] && s.slots == 0
    requires s.capacity == 1 && s.boot.Serving? && !s.closed && "j" in s.rows && s.rows["j"].state == Queued
    ensures Enabled(s, Advance(0)) && OneJob(Apply(s, Advance(0)), Waiting, Queued) && Apply(s, Advance(0)).slots == 0
  {
  }

  /** From there the run starts the job, cannot read it, and then cannot set it to failed. */
  lemma RunLoses(s: System, events: seq<Event>) returns (all: seq<Event>)
    requires Possible(s, events) && OneJob(After(s, events), Waiting, Queued) && After(s, events).slots == 0
    ensures Possible(s, all) && OneJob(After(s, all), Releasing, Running) && "j" in After(s, all).lost
  {
    hide Possible, After, Apply, Enabled, OneJob;
    all := events;
    TakesSlot(After(s, all));
    OneMore(s, all, RunStep(0, Proceed));
    all := all + [RunStep(0, Proceed)];
    OneMore(s, all, RunStep(0, Step.Acquire));
    all := all + [RunStep(0, Step.Acquire)];
    StartsJob(After(s, all));
    OneMore(s, all, RunStep(0, TryStart));
    all := all + [RunStep(0, TryStart)];
    CannotRead(After(s, all));
    OneMore(s, all, RunStep(0, ReadFails));
    all := all + [RunStep(0, ReadFails)];
    CannotFail(After(s, all));
    OneMore(s, all, RunStep(0, FailFails));
    all := all + [RunStep(0, FailFails)];
  }

  lemma TakesSlot(s: System)
    requires OneJob(s, Waiting, Queued) && s.slots == 0
    ensures Enabled(s, RunStep(0, Proceed))
    ensures var t := Apply(s, RunStep(0, Proceed));
            Enabled(t, RunStep(0, Step.Acquire)) && OneJob(Apply(t, RunStep(0, Step.Acquire)), Holding, Queued)
  {
  }

  lemma StartsJob(s: System)
    requires OneJob(s, Holding, Queued)
    ensures Enabled(s, RunStep(0, TryStart)) && OneJob(Apply(s, RunStep(0, TryStart)), Started, Running)
  {
  }

  lemma CannotRead(s: System)
    requires OneJob(s, Started, Running)
    ensures Enabled(s, RunStep(0, ReadFails)) && OneJob(Apply(s, RunStep(0, ReadFails)), Erred, Running)
  {
  }

  lemma CannotFail(s: System)
    requires OneJob(s, Erred, Running)
    ensures Enabled(s, RunStep(0, FailFails))
    ensures var t := Apply(s, RunStep(0, FailFails)); OneJob(t, Releasing, Running) && "j" in t.lost
  {
  }

  /** The input that shows it: a job whose row cannot be read once it is running, nor
      then be set to failed, stays running with no run at work on it. */
  lemma LostReached() returns (events: seq<Event>)
    ensures Possible(Initial(1), events)
    ensures var s := After(Initial(1), events);
            && "j" in s.rows && s.rows["j"].state == Running && "j" in s.lost
            && !s.closed && s.boot.Serving? && !AtWork(s, "j")
  {
    hide Possible, After, Initial;
    var before := JobWithRun();
    events := RunLoses(Initial(1), before);
  }

  /** The statements whose failure loses a job. */
  predicate Loses(e: Event) {
    e.RequeueFails? || (e.RunStep? && (e.step.CompleteFails? || e.step.FailFails?))
  }

  lemma {:induction false} NothingLost(s: System, events: seq<Event>)
    requires Possible(s, events) && s.lost == {} && forall e | e in events :: !Loses(e)
    ensures After(s, events).lost == {}
    decreases |events|
  {
    if events != [] {
      assert !Loses(events[0]);
      KeepsLost(s, events[0]);
      NothingLost(Apply(s, events[0]), events[1..]);
    }
  }

  lemma KeepsLost(s: System, e: Event)
    requires Enabled(s, e) && !Loses(e)
    ensures Apply(s, e).lost <= s.lost
  {
    if e.Advance? {
      assert Advanced(s, e.call).lost == s.lost;
    }
  }

  ghost function RunningJobs(s: System): set<string> {
    set id | id in s.rows && s.rows[id].state == Running
  }

  lemma {:induction false} InjectedInto(ids: set<string>, starter: map<string, nat>, holders: set<nat>)
    requires forall id | id in ids :: id in starter && starter[id] in holders
    requires forall i, j | i in ids && j in ids && starter[i] == starter[j] :: i == j
    ensures |ids| <= |holders|
    decreases |ids|
  {
    if id :| id in ids {
      InjectedInto(ids - {id}, starter, holders - {starter[id]});
    }
  }

  /** Until `Close`, no more jobs are running than the configuration allows, not counting lost ones. */
  lemma RunningJobsBounded(capacity: nat, events: seq<Event>)
    requires Possible(Initial(capacity), events)
    requires var s := After(Initial(capacity), events); !s.closed && !s.boot.Recovering?
    ensures var s := After(Initial(capacity), events); |RunningJobs(s) - s.lost| <= s.slots <= capacity
  {
    var s := After(Initial(capacity), events);
    InvReached(capacity, events);
    CapacityFixed(Initial(capacity), events);
    forall id | id in RunningJobs(s) - s.lost
      ensures id in s.starter && s.starter[id] in Holders(s.runs) && s.runs[s.starter[id]].job == id
    {
      assert InHand(s.starter, s.runs, id);
    }
    InjectedInto(RunningJobs(s) - s.lost, s.starter, Holders(s.runs));
  }

  lemma {:induction false} CapacityFixed(s: System, events: seq<Event>)
    requires Possible(s, events)
    ensures After(s, events).capacity == s.capacity
    decreases |events|
  {
    if events != [] {
      CapacityFixed(Apply(s, events[0]), events[1..]);
    }
  }

  /** What any event may do to the rows: final states and completed files stay,
      and a row that appears is new. */
  ghost predicate RowsEvolve(s: System, t: System) {
    && s.used <= t.used
    && (forall id | id in t.rows && id !in s.rows :: id !in s.used)
    && (forall id | id in t.rows && id in s.rows ::
          && FilesMove(s.rows[id], t.rows[id])
          && (s.rows[id].state in {Completed, Cancelled} ==> t.rows[id].state == s.rows[id].state))
  }

  lemma RowsAfterCall(s: System, c: nat)
    requires Inv(s) && c in s.calls
    ensures RowsEvolve(s, Advanced(s, c))
  {
    hide Registered, Chained, StartersOwn, RunningInHand, LostLeft, RemovesOnlyDead, Holders, EachFile, JobSound, FilesMove, Harmless;
    var id := s.calls[c].id;
    CallRows(s, c);
    if s.calls[c].ResumeResets? {
      ResetHarmless(s.rows, id);
      HarmlessEvolves(s, Advanced(s, c));
    } else {
      SameRowsEvolve(s, Advanced(s, c));
    }
  }

  lemma CallRows(s: System, c: nat)
    requires c in s.calls
    ensures var t := Advanced(s, c);
            t.used == s.used && t.rows == if s.calls[c].ResumeResets? then EachFile(s.rows, s.calls[c].id, QueuedIfUnfinished) else s.rows
    ensures Advanced(s, c).rows.Keys == s.rows.Keys
  {
  }

  lemma HarmlessEvolves(s: System, t: System)
    requires Harmless(s.rows, t.rows) && t.rows.Keys == s.rows.Keys && t.used == s.used
    ensures RowsEvolve(s, t)
  {
  }

  lemma RowsAfterStep(s: System, r: nat, k: Step)
    requires Inv(s) && r < |s.runs| && StepEnabled(s, r, k)
    ensures RowsEvolve(s, StepOf(s, r, k))
  {
    RowsMoves(s, r, k);
    assert PhaseTracked(s.rows, s.runs[r].job, s.runs[r].phase) && JobSound(s.rows[s.runs[r].job]);
    FilesMoves(s, r, k);
  }

  lemma RowsAfterRequeue(s: System)
    requires s.boot.Recovering?
    ensures RowsEvolve(s, Apply(s, Requeue))
  {
    hide Start, StepOf, Advanced;
  }

  lemma RowsAfterRequest(s: System, id: string, to: JobState, from: set<JobState>, t: System)
    requires Inv(s) && from !! {Completed, Cancelled}
    requires t.rows == Transitioned(s.rows, id, to, from) && t.used == s.used
    ensures RowsEvolve(s, t)
  {
  }

  lemma SameRowsEvolve(s: System, t: System)
    requires t.used == s.used && t.rows.Keys <= s.rows.Keys && forall id | id in t.rows :: t.rows[id] == s.rows[id]
    ensures RowsEvolve(s, t)
  {
  }

  lemma RowsAfterOther(s: System, e: Event)
    requires Inv(s) && Enabled(s, e) && !e.RunStep? && !e.Advance? && !e.Requeue?
    ensures RowsEvolve(s, Apply(s, e))
  {
    hide Registered, Chained, StartersOwn, RunningInHand, LostLeft, FilesTracked, RemovesOnlyDead, Holders, StepOf, Advanced;
    var t := Apply(s, e);
    if e.Pause? {
      RowsAfterRequest(s, e.id, Paused, {Queued, Running}, t);
    } else if e.Resume? {
      RowsAfterRequest(s, e.id, Queued, {Paused, Failed}, t);
    } else if e.Cancel? {
      RowsAfterRequest(s, e.id, Cancelled, {Queued, Running, Paused, Failed}, t);
    } else if !e.Create? {
      SameRowsEvolve(s, t);
    }
  }

  lemma RowsAfterEvent(s: System, e: Event)
    requires Inv(s) && Enabled(s, e)
    ensures RowsEvolve(s, Apply(s, e))
  {
    match e
    case RunStep(r, k) => RowsAfterStep(s, r, k);
    case Advance(c) => RowsAfterCall(s, c);
    case Requeue => RowsAfterRequeue(s);
    case _ => RowsAfterOther(s, e);
  }

  /** Completed and cancelled are absorbing. */
  lemma {:induction false} FinalStatesStay(s: System, events: seq<Event>, id: string)
    requires Inv(s) && Possible(s, events) && id in s.used
    requires id in s.rows ==> s.rows[id].state in {Completed, Cancelled}
    ensures var t := After(s, events);
            id in t.used && (id in t.rows ==> id in s.rows && t.rows[id].state == s.rows[id].state)
    decreases |events|
  {
    if events != [] {
      RowsAfterEvent(s, events[0]);
      InvKept(s, events[0]);
      FinalStatesStay(Apply(s, events[0]), events[1..], id);
    }
  }

  /** A call leaves the phases of the runs alone; at most a waiting run joins them. */
  lemma RunsAfterCall(s: System, c: nat)
    requires c in s.calls
    ensures var t := Advanced(s, c);
            && t.staging <= s.staging
            && forall r | 0 <= r < |t.runs| && Owns(t.runs[r].phase) ::
                 r < |s.runs| && t.runs[r].job == s.runs[r].job && t.runs[r].phase == s.runs[r].phase
  {
    hide EachFile;
    match s.calls[c]
    case PauseCancels(id) =>
    case ResumeResets(id) =>
    case StartsRun(id) =>
    case CancelLooks(id) =>
    case CancelSignals(id, r) =>
    case CancelRemoves(id) =>
  }

  lemma DeadAfterCall(s: System, c: nat, id: string)
    requires Inv(s) && c in s.calls && Dead(s, id)
    ensures Dead(Advanced(s, c), id)
    ensures id !in s.staging ==> id !in Advanced(s, c).staging
  {
    RowsAfterCall(s, c);
    RunsAfterCall(s, c);
  }

  lemma DeadStep(s: System, e: Event, id: string)
    requires Inv(s) && Enabled(s, e) && Dead(s, id)
    ensures Dead(Apply(s, e), id)
    ensures id !in s.staging ==> id !in Apply(s, e).staging
  {
    hide Registered, Chained, StartersOwn, RunningInHand, LostLeft, RemovesOnlyDead, FilesTracked, Holders, StepOf, Advanced;
    if e.RunStep? {
      DeadAfterStep(s, e.run, e.step, id);
    } else if e.Advance? {
      DeadAfterCall(s, e.call, id);
    } else {
      RowsAfterEvent(s, e);
    }
  }

  lemma {:induction false} DeadForever(s: System, events: seq<Event>, id: string)
    requires Inv(s) && Possible(s, events) && Dead(s, id)
    ensures Dead(After(s, events), id)
    ensures id !in s.staging ==> id !in After(s, events).staging
    decreases |events|
  {
    if events != [] {
      DeadStep(s, events[0], id);
      InvKept(s, events[0]);
      DeadForever(Apply(s, events[0]), events[1..], id);
    }
  }

  /** The events by which `Cancel`, finishRun and recovery remove a job's staging directory. */
  predicate Removes(s: System, e: Event, id: string) {
    match e
    case Advance(c) => c in s.calls && s.calls[c] == CancelRemoves(id)
    case RunStep(r, k) => k.RemoveStaging? && r < |s.runs| && s.runs[r].job == id
    case RemoveOrphan(i) => i == id && id in s.used
    case _ => false
  }

  lemma RemovedWhenDead(s: System, e: Event, id: string)
    requires Inv(s) && Enabled(s, e) && Removes(s, e, id)
    ensures Dead(s, id) && id !in Apply(s, e).staging
  {
    match e
    case RunStep(r, k) => RemovesOwn(s, r);
    case Advance(c) => assert Dead(s, s.calls[c].id);
    case RemoveOrphan(_) => assert s.runs == [];
  }

  lemma RemovesOwn(s: System, r: nat)
    requires r < |s.runs| && StepEnabled(s, r, RemoveStaging)
    ensures s.runs[r].phase.Removing? && s.runs[r].job !in StepOf(s, r, RemoveStaging).staging
  {
  }

  /** When a staging directory is removed on behalf of a finished job, no run of
      that job is transferring, none ever transfers again, and the directory
      never comes back. */
  lemma RemovalIsFinal(capacity: nat, before: seq<Event>, e: Event, later: seq<Event>, id: string)
    requires Possible(Initial(capacity), before) && Enabled(After(Initial(capacity), before), e)
    requires Removes(After(Initial(capacity), before), e, id)
    requires Possible(Apply(After(Initial(capacity), before), e), later)
    ensures Dead(After(Initial(capacity), before), id)
    ensures var t := After(Apply(After(Initial(capacity), before), e), later);
            && id !in t.staging
            && forall r | 0 <= r < |t.runs| && t.runs[r].job == id :: !t.runs[r].phase.Transferring?
  {
    var s := After(Initial(capacity), before);
    InvReached(capacity, before);
    RemovedWhenDead(s, e, id);
    DeadStep(s, e, id);
    InvKept(s, e);
    DeadForever(Apply(s, e), later, id);
  }

  ghost predicate HasCompleted(s: System, id: string, path: string) {
    id in s.rows && path in s.rows[id].files && s.rows[id].files[path].state == Completed
  }

  /** A completed file stays completed, whole, across pauses, resumes, failures
      and restarts, for as long as its job is known. */
  lemma {:induction false} CompletedFilesStay(s: System, events: seq<Event>, id: string, path: string)
    requires Inv(s) && Possible(s, events) && id in s.used
    requires id in s.rows ==> HasCompleted(s, id, path)
    ensures var t := After(s, events);
            id in t.rows ==> HasCompleted(t, id, path) && t.rows[id].files[path].completed == t.rows[id].files[path].size
    decreases |events|
  {
    if events == [] {
      assert id in s.rows ==> JobSound(s.rows[id]);
    } else {
      RowsAfterEvent(s, events[0]);
      InvKept(s, events[0]);
      CompletedFilesStay(Apply(s, events[0]), events[1..], id, path);
    }
  }

  /** A completed job has every file completed. */
  lemma CompletedJobsAreWhole(capacity: nat, events: seq<Event>, id: string)
    requires Possible(Initial(capacity), events)
    requires var s := After(Initial(capacity), events); id in s.rows && s.rows[id].state == Completed
    ensures var files := After(Initial(capacity), events).rows[id].files;
            forall f | f in files :: files[f].state == Completed && files[f].completed == files[f].size
  {
    InvReached(capacity, events);
    assert JobSound(After(Initial(capacity), events).rows[id]);
  }
}
