/** The manager's own code: the row statements, the regions under its lock and
    the calls made of them, each proved to be the corresponding events of the
    protocol in DownloadJobs. */
module DownloadManager {
  import opened Basics
  import opened DownloadJobs

  lemma AfterTwo(s: System, e: Event, f: Event)
    requires Enabled(s, e) && Enabled(Apply(s, e), f)
    ensures Possible(s, [e, f]) && After(s, [e, f]) == Apply(Apply(s, e), f)
  {
    AfterOne(s, e);
    AfterOne(Apply(s, e), f);
    AfterBoth(s, [e], [f]);
    assert [e] + [f] == [e, f];
  }

  lemma AfterThree(s: System, e: Event, f: Event, g: Event)
    requires Enabled(s, e) && Enabled(Apply(s, e), f) && Enabled(Apply(Apply(s, e), f), g)
    ensures Possible(s, [e, f, g]) && After(s, [e, f, g]) == Apply(Apply(Apply(s, e), f), g)
  {
    AfterTwo(s, e, f);
    AfterOne(Apply(Apply(s, e), f), g);
    AfterBoth(s, [e, f], [g]);
    assert [e, f] + [g] == [e, f, g];
  }

  lemma CancelEvents(s: System, cancelled: System, looked: System, t: System, id: string, c: nat)
    requires Enabled(s, Cancel(id, c)) && cancelled == Apply(s, Cancel(id, c))
    requires c in cancelled.calls && looked == Apply(cancelled, Advance(c))
    requires c in looked.calls && t == Apply(looked, Advance(c))
    ensures var events := [Cancel(id, c), Advance(c), Advance(c)]; Possible(s, events) && After(s, events) == t
  {
    AfterThree(s, Cancel(id, c), Advance(c), Advance(c));
  }

  lemma RequeueIs(s: System)
    requires s.boot.Recovering?
    ensures Enabled(s, Requeue)
    ensures Apply(s, Requeue) ==
            s.(rows := Requeued(s.rows), boot := Restarting(set id | id in s.rows && s.rows[id].state in {Queued, Running}))
  {
  }

  lemma UnregisterIs(s: System, r: nat)
    requires r < |s.runs| && s.runs[r].phase.Unregistering?
    ensures Enabled(s, RunStep(r, Unregister))
    ensures Apply(s, RunStep(r, Unregister)) ==
            s.(running := Unregistered(s, r),
               runs := s.runs[r := s.runs[r].(phase := if s.runs[r].phase.sawCancelled then Removing else Closing)])
  {
  }

  lemma TryStartIs(s: System, r: nat)
    requires r < |s.runs| && s.runs[r].phase.Holding?
    ensures Enabled(s, RunStep(r, TryStart)) && Enabled(s, RunStep(r, StartFails))
    ensures Apply(s, RunStep(r, StartFails)) == s.(runs := s.runs[r := s.runs[r].(phase := Releasing)])
    ensures var id := s.runs[r].job;
            Apply(s, RunStep(r, TryStart)) ==
              if Transitions(s.rows, id, {Queued}) then
                s.(rows := Transitioned(s.rows, id, Running, {Queued}), runs := s.runs[r := s.runs[r].(phase := Started)],
                   starter := s.starter[id := r], lost := s.lost - {id})
              else s.(runs := s.runs[r := s.runs[r].(phase := Releasing)])
  {
  }

  lemma ReadsRow(s: System, r: nat, readable: bool)
    requires r < |s.runs| && s.runs[r].phase.Finishing?
    ensures var read := RunStep(r, if readable then ReadRow else ReadRowFails); var job := s.runs[r].job;
            Enabled(s, read) && Apply(s, read).runs[r].phase ==
              Unregistering(readable && job in s.rows && s.rows[job].state == Cancelled)
  {
  }

  class Manager {
    const capacity: nat
    var rows: Rows
    var running: map<string, nat>
    var runs: seq<Run>
    var slots: nat
    var staging: set<string>
    var closed: bool
    ghost var used: set<string>
    ghost var calls: map<nat, Call>
    ghost var starter: map<string, nat>
    ghost var lost: set<string>
    ghost var boot: Boot

    ghost function State(): System
      reads this
    {
      System(capacity, rows, used, running, runs, slots, calls, starter, lost, staging, closed, boot)
    }

    constructor (capacity: nat)
      ensures State() == Initial(capacity)
    {
      this.capacity := capacity;
      rows, running, runs, slots, staging, closed := map[], map[], [], 0, {}, false;
      used, calls, starter, lost, boot := {}, map[], map[], {}, Recovering;
    }

    // ---------- Row statements ----------

    method TransitionJob(id: string, to: JobState, from: set<JobState>) returns (changed: bool)
      modifies this`rows
      ensures changed == Transitions(old(rows), id, from)
      ensures rows == Transitioned(old(rows), id, to, from)
    {
      changed := false;
      if id in rows {
        if rows[id].state in from {
          rows := rows[id := rows[id].(state := to)];
          changed := true;
        }
      }
    }

    method UpdateFile(id: string, path: string, state: JobState, completed: nat)
      modifies this`rows
      ensures id in old(rows) && path in old(rows)[id].files ==>
                rows == WithFile(old(rows), id, path, old(rows)[id].files[path].(state := state, completed := completed))
      ensures !(id in old(rows) && path in old(rows)[id].files) ==> rows == old(rows)
    {
      if id in rows && path in rows[id].files {
        var file := rows[id].files[path];
        rows := rows[id := rows[id].(files := rows[id].files[path := File(file.size, completed, state)])];
      }
    }

    method FailUnfinishedFiles(id: string)
      modifies this`rows
      ensures rows == EachFile(old(rows), id, FailedIfUnfinished)
    {
      ChangeFiles(id, FailedIfUnfinished);
    }

    method ResetUnfinishedFiles(id: string)
      modifies this`rows
      ensures rows == EachFile(old(rows), id, QueuedIfUnfinished)
    {
      ChangeFiles(id, QueuedIfUnfinished);
    }

    method CompleteAllFiles(id: string)
      modifies this`rows
      ensures rows == EachFile(old(rows), id, AllDone)
    {
      ChangeFiles(id, AllDone);
    }

    /** One UPDATE over the file rows of a job. */
    method ChangeFiles(id: string, change: File -> File)
      modifies this`rows
      ensures rows == EachFile(old(rows), id, change)
    {
      if id !in rows {
        return;
      }
      var files := rows[id].files;
      var changed: map<string, File> := map[];
      var left := files.Keys;
      while left != {}
        invariant left <= files.Keys && changed.Keys == files.Keys - left
        invariant forall p | p in changed :: changed[p] == change(files[p])
        invariant rows == old(rows)
        decreases left
      {
        var path :| path in left;
        changed := changed[path := change(files[path])];
        left := left - {path};
      }
      assert changed == MapFiles(files, change);
      rows := rows[id := rows[id].(files := changed)];
    }

    /** Requeues what a crash interrupted and returns the jobs to start again. */
    method RequeueInterrupted() returns (ids: set<string>)
      requires boot.Recovering?
      modifies this`rows, this`boot
      ensures State() == Apply(old(State()), Requeue)
      ensures boot == Restarting(ids)
    {
      hide Apply, Enabled, Requeued;
      RequeueIs(State());
      ids := RequeueRows();
      boot := Restarting(ids);
    }

    /** Both statements of the requeueing and the list of jobs before them, row by row. */
    method RequeueRows() returns (ids: set<string>)
      modifies this`rows
      ensures rows == Requeued(old(rows))
      ensures ids == set id | id in old(rows) && old(rows)[id].state in {Queued, Running}
    {
      ids := {};
      var before := rows;
      var left := rows.Keys;
      while left != {}
        invariant left <= before.Keys && rows.Keys == before.Keys
        invariant ids == set id | id in before.Keys - left && before[id].state in {Queued, Running}
        invariant forall id | id in before.Keys - left :: rows[id] == RequeuedJob(before[id])
        invariant forall id | id in left :: rows[id] == before[id]
        decreases left
      {
        hide RequeuedJob;
        var id :| id in left;
        if rows[id].state in {Queued, Running} {
          ids := ids + {id};
        }
        RequeueRow(id);
        left := left - {id};
      }
      assert rows == Requeued(before);
    }

    method RequeueRow(id: string)
      requires id in rows
      modifies this`rows
      ensures rows == old(rows)[id := RequeuedJob(old(rows)[id])]
    {
      ChangeFiles(id, QueuedIfRunning);
      var changed := TransitionJob(id, Queued, {Running});
    }

    // ---------- Regions under the lock ----------

    method StartJob(id: string) returns (ok: bool)
      modifies this`running, this`runs
      ensures ok == !closed
      ensures State() == Start(old(State()), id)
    {
      if closed {
        return false;
      }
      var previous := None;
      if id in running {
        previous := Some(running[id]);
      }
      running := running[id := |runs|];
      runs := runs + [Run(id, previous, Waiting, false)];
      return true;
    }

    method Signal(r: nat)
      modifies this`runs
      ensures State() == Signalled(old(State()), r)
    {
      if r < |runs| {
        runs := runs[r := runs[r].(cancelled := true)];
      }
    }

    method CancelCurrent(id: string)
      modifies this`runs
      ensures State() == CancelRun(old(State()), id)
    {
      if id in running {
        Signal(running[id]);
      }
    }

    /** A row that cannot be read counts as not cancelled. */
    method ReadFinalRow(r: nat, readable: bool) returns (cancelled: bool)
      requires r < |runs| && runs[r].phase.Finishing?
      modifies this`runs
      ensures var e := RunStep(r, if readable then ReadRow else ReadRowFails);
              Enabled(old(State()), e) && State() == Apply(old(State()), e)
      ensures |runs| == |old(runs)| && runs[r].phase == Unregistering(cancelled)
    {
      var id := runs[r].job;
      cancelled := readable && id in rows && rows[id].state == Cancelled;
      runs := runs[r := runs[r].(phase := Unregistering(cancelled))];
    }

    method LeaveRunning(r: nat)
      requires r < |runs| && runs[r].phase.Unregistering?
      modifies this`runs, this`running
      ensures Enabled(old(State()), RunStep(r, Unregister)) && State() == Apply(old(State()), RunStep(r, Unregister))
      ensures |runs| == |old(runs)|
      ensures runs[r].phase == if old(runs[r].phase.sawCancelled) then Removing else Closing
    {
      hide Apply, Enabled;
      UnregisterIs(State(), r);
      var id := runs[r].job;
      if id in running && running[id] == r {
        running := running - {id};
      }
      runs := runs[r := runs[r].(phase := if runs[r].phase.sawCancelled then Removing else Closing)];
    }

    method RemoveStagingOf(r: nat)
      requires r < |runs| && runs[r].phase.Removing?
      modifies this`runs, this`staging
      ensures Enabled(old(State()), RunStep(r, RemoveStaging)) && State() == Apply(old(State()), RunStep(r, RemoveStaging))
    {
      staging := staging - {runs[r].job};
      runs := runs[r := runs[r].(phase := Closing)];
    }

    /** The end of a run: reads the row, leaves the running map, removes the staging of a cancelled job. */
    method FinishRun(r: nat, readable: bool) returns (ghost events: seq<Event>)
      requires r < |runs| && runs[r].phase.Finishing?
      modifies this
      ensures Possible(old(State()), events) && State() == After(old(State()), events)
      ensures var read := RunStep(r, if readable then ReadRow else ReadRowFails);
              events == if readable && old(runs[r].job) in old(rows) && old(rows)[old(runs[r].job)].state == Cancelled
                        then [read, RunStep(r, Unregister), RunStep(r, RemoveStaging)] else [read, RunStep(r, Unregister)]
    {
      hide Enabled, Apply, After, Possible;
      ghost var read := RunStep(r, if readable then ReadRow else ReadRowFails);
      ReadsRow(old(State()), r, readable);
      var cancelled := ReadFinalRow(r, readable);
      LeaveRunning(r);
      events := [read, RunStep(r, Unregister)];
      if cancelled {
        RemoveStagingOf(r);
        events := [read, RunStep(r, Unregister), RunStep(r, RemoveStaging)];
        AfterThree(old(State()), read, RunStep(r, Unregister), RunStep(r, RemoveStaging));
      } else {
        AfterTwo(old(State()), read, RunStep(r, Unregister));
      }
    }

    // ---------- The run, when nothing interleaves ----------

    /** The select at the start of a run: a free slot or a cancellation, and when both are ready either. */
    method TakeSlot(r: nat, preferSlot: bool) returns (taken: bool)
      requires r < |runs| && runs[r].phase.Selecting? && (slots < capacity || runs[r].cancelled || closed)
      modifies this`runs, this`slots
      ensures taken == (slots != old(slots)) && |runs| == |old(runs)|
      ensures var e := RunStep(r, if taken then Acquire else GiveUp); Enabled(old(State()), e) && State() == Apply(old(State()), e)
    {
      taken := slots < capacity && (preferSlot || !(runs[r].cancelled || closed));
      if taken {
        slots := slots + 1;
      }
      runs := runs[r := runs[r].(phase := if taken then Holding else Finishing)];
    }

    /** `ok` says whether the statement succeeds. */
    method TryStartJob(r: nat, ok: bool) returns (started: bool)
      requires r < |runs| && runs[r].phase.Holding?
      modifies this`rows, this`runs, this`starter, this`lost
      ensures var e := RunStep(r, if ok then TryStart else StartFails);
              Enabled(old(State()), e) && State() == Apply(old(State()), e)
      ensures started == (ok && Transitions(old(rows), old(runs[r].job), {Queued}))
    {
      hide Apply, Enabled;
      TryStartIs(State(), r);
      var id := runs[r].job;
      started := false;
      if ok {
        started := TransitionJob(id, Running, {Queued});
      }
      if started {
        starter := starter[id := r];
        lost := lost - {id};
      }
      runs := runs[r := runs[r].(phase := if started then Started else Releasing)];
    }

    method ReleaseSlot(r: nat)
      requires r < |runs| && runs[r].phase.Releasing?
      modifies this`runs, this`slots
      ensures Enabled(old(State()), RunStep(r, Release)) && State() == Apply(old(State()), RunStep(r, Release))
    {
      if slots > 0 {
        slots := slots - 1;
      }
      runs := runs[r := runs[r].(phase := Finishing)];
    }

    /** The job's final change when its files are transferred; only the job it still has
        running is completed. `ok` and `filesOk` say whether the two statements succeed. */
    method CompleteRun(r: nat, ok: bool, filesOk: bool) returns (completed: bool, ghost events: seq<Event>)
      requires r < |runs| && runs[r].phase.Succeeded?
      modifies this`rows, this`runs, this`lost
      ensures completed == (ok && Transitions(old(rows), old(runs[r].job), {Running}))
      ensures Possible(old(State()), events) && State() == After(old(State()), events)
      ensures events == if !ok then [RunStep(r, CompleteFails)]
                        else if completed then [RunStep(r, TryComplete), RunStep(r, if filesOk then CompleteFiles else FilesStay)]
                        else [RunStep(r, TryComplete)]
    {
      completed := false;
      if !ok {
        GiveUpJob(r, CompleteFails);
        AfterOne(old(State()), RunStep(r, CompleteFails));
        return completed, [RunStep(r, CompleteFails)];
      }
      completed := FinalChange(r, Completed, TryComplete);
      events := [RunStep(r, TryComplete)];
      AfterOne(old(State()), RunStep(r, TryComplete));
      if completed {
        ghost var last := RunStep(r, if filesOk then CompleteFiles else FilesStay);
        FinalFiles(r, filesOk, AllDone);
        AfterTwo(old(State()), RunStep(r, TryComplete), last);
        events := [RunStep(r, TryComplete), last];
      }
    }

    /** The same when the transfer ended in an error. */
    method FailRunningJob(r: nat, ok: bool, filesOk: bool) returns (failed: bool, ghost events: seq<Event>)
      requires r < |runs| && runs[r].phase.Erred?
      modifies this`rows, this`runs, this`lost
      ensures failed == (ok && Transitions(old(rows), old(runs[r].job), {Running}))
      ensures Possible(old(State()), events) && State() == After(old(State()), events)
      ensures events == if !ok then [RunStep(r, FailFails)]
                        else if failed then [RunStep(r, TryFail), RunStep(r, if filesOk then FailFiles else FilesStay)]
                        else [RunStep(r, TryFail)]
    {
      failed := false;
      if !ok {
        GiveUpJob(r, FailFails);
        AfterOne(old(State()), RunStep(r, FailFails));
        return failed, [RunStep(r, FailFails)];
      }
      failed := FinalChange(r, Failed, TryFail);
      events := [RunStep(r, TryFail)];
      AfterOne(old(State()), RunStep(r, TryFail));
      if failed {
        ghost var last := RunStep(r, if filesOk then FailFiles else FilesStay);
        FinalFiles(r, filesOk, FailedIfUnfinished);
        AfterTwo(old(State()), RunStep(r, TryFail), last);
        events := [RunStep(r, TryFail), last];
      }
    }

    /** The final statement fails: the run leaves the job as it is. */
    method GiveUpJob(r: nat, ghost k: Step)
      requires r < |runs| && (if k.CompleteFails? then runs[r].phase.Succeeded? else k.FailFails? && runs[r].phase.Erred?)
      modifies this`runs, this`lost
      ensures Enabled(old(State()), RunStep(r, k)) && State() == Apply(old(State()), RunStep(r, k))
    {
      lost := lost + {runs[r].job};
      runs := runs[r := runs[r].(phase := Releasing)];
    }

    method FinalChange(r: nat, to: JobState, ghost k: Step) returns (changed: bool)
      requires r < |runs|
      requires if k.TryComplete? then runs[r].phase.Succeeded? && to == Completed else k.TryFail? && runs[r].phase.Erred? && to == Failed
      modifies this`rows, this`runs
      ensures changed == Transitions(old(rows), old(runs[r].job), {Running})
      ensures Enabled(old(State()), RunStep(r, k)) && State() == Apply(old(State()), RunStep(r, k))
      ensures |runs| == |old(runs)| && runs[r].job == old(runs[r].job)
      ensures changed ==> runs[r].phase == if to == Completed then Completing else Failing
    {
      changed := TransitionJob(runs[r].job, to, {Running});
      runs := runs[r := runs[r].(phase := if !changed then Releasing else if to == Completed then Completing else Failing)];
    }

    method FinalFiles(r: nat, ok: bool, change: File -> File)
      requires r < |runs|
      requires if runs[r].phase.Completing? then change == AllDone else runs[r].phase.Failing? && change == FailedIfUnfinished
      modifies this`rows, this`runs
      ensures var e := RunStep(r, if !ok then FilesStay else if old(runs[r].phase).Completing? then CompleteFiles else FailFiles);
              Enabled(old(State()), e) && State() == Apply(old(State()), e)
    {
      if ok {
        ChangeFiles(runs[r].job, change);
      }
      runs := runs[r := runs[r].(phase := Releasing)];
    }

    predicate Working(r: nat, path: string, work: Work)
      reads this`runs, this`rows
    {
      && r < |runs| && runs[r].phase.Transferring? && path in runs[r].phase.work && runs[r].phase.work[path] == work
      && runs[r].job in rows && path in rows[runs[r].job].files
    }

    method MarkFileRunning(r: nat, path: string, staged: nat)
      requires Working(r, path, Starting)
      modifies this`rows, this`runs
      ensures Working(r, path, Downloading)
      ensures Enabled(old(State()), RunStep(r, MarkRunning(path, staged)))
      ensures State() == Apply(old(State()), RunStep(r, MarkRunning(path, staged)))
    {
      UpdateFile(runs[r].job, path, Running, staged);
      SetWork(r, path, Downloading);
    }

    method MarkFileCompleted(r: nat, path: string)
      requires Working(r, path, Verified)
      modifies this`rows, this`runs
      ensures Enabled(old(State()), RunStep(r, MarkCompleted(path)))
      ensures State() == Apply(old(State()), RunStep(r, MarkCompleted(path)))
    {
      UpdateFile(runs[r].job, path, Completed, rows[runs[r].job].files[path].size);
      SetWork(r, path, Finished);
    }

    method EndDownload(r: nat, path: string, ok: bool)
      requires Working(r, path, Downloading)
      modifies this`runs
      ensures Working(r, path, if ok then Verified else Broken)
      ensures var e := RunStep(r, if ok then Verify(path) else Break(path)); Enabled(old(State()), e) && State() == Apply(old(State()), e)
    {
      SetWork(r, path, if ok then Verified else Broken);
    }

    method BreakFile(r: nat, path: string, ghost work: Work)
      requires !Idle(work) && Working(r, path, work)
      modifies this`runs
      ensures Enabled(old(State()), RunStep(r, Break(path))) && State() == Apply(old(State()), RunStep(r, Break(path)))
    {
      SetWork(r, path, Broken);
    }

    /** The row of one file while a worker transfers it: `staged` bytes are there at the
        start, `ok` says whether it is downloaded, verified and in place, and `marks` and
        `records` whether the two updates of its row succeed. */
    method TransferFile(r: nat, path: string, staged: nat, marks: bool, ok: bool, records: bool) returns (ghost events: seq<Event>)
      requires Working(r, path, Starting)
      modifies this`rows, this`runs
      ensures Possible(old(State()), events) && State() == After(old(State()), events)
      ensures var mark, break_ := RunStep(r, MarkRunning(path, staged)), RunStep(r, Break(path));
              events == if !marks then [break_]
                        else if !ok then [mark, break_]
                        else if !records then [mark, RunStep(r, Verify(path)), break_]
                        else [mark, RunStep(r, Verify(path)), RunStep(r, MarkCompleted(path))]
    {
      hide Enabled, Apply, After, Possible;
      ghost var mark, break_ := RunStep(r, MarkRunning(path, staged)), RunStep(r, Break(path));
      if !marks {
        BreakFile(r, path, Starting);
        AfterOne(old(State()), break_);
        return [break_];
      }
      MarkFileRunning(r, path, staged);
      EndDownload(r, path, ok);
      if !ok {
        AfterTwo(old(State()), mark, break_);
        return [mark, break_];
      }
      if !records {
        BreakFile(r, path, Verified);
        AfterThree(old(State()), mark, RunStep(r, Verify(path)), break_);
        return [mark, RunStep(r, Verify(path)), break_];
      }
      MarkFileCompleted(r, path);
      AfterThree(old(State()), mark, RunStep(r, Verify(path)), RunStep(r, MarkCompleted(path)));
      events := [mark, RunStep(r, Verify(path)), RunStep(r, MarkCompleted(path))];
    }

    method SetWork(r: nat, path: string, work: Work)
      requires r < |runs| && runs[r].phase.Transferring?
      modifies this`runs
      ensures runs == old(runs)[r := old(runs[r]).(phase := Transferring(old(runs[r].phase.work)[path := work]))]
    {
      runs := runs[r := runs[r].(phase := Transferring(runs[r].phase.work[path := work]))];
    }

    // ---------- API calls, when nothing interleaves ----------

    method PauseJob(id: string, ghost c: nat) returns (ok: bool)
      requires boot.Serving? && c !in calls
      modifies this
      ensures ok == Transitions(old(rows), id, {Queued, Running})
      ensures !ok ==> State() == old(State())
      ensures ok ==> var events := [Pause(id, c), Advance(c)];
                     Possible(old(State()), events) && State() == After(old(State()), events)
    {
      ok := TransitionJob(id, Paused, {Queued, Running});
      if ok {
        CancelCurrent(id);
        AfterTwo(old(State()), Pause(id, c), Advance(c));
        assert calls[c := PauseCancels(id)] - {c} == calls;
      }
    }

    /** `resetOk` says whether resetting the files succeeds; the job stays queued without a run when it does not. */
    method ResumeJob(id: string, resetOk: bool, ghost c: nat) returns (ok: bool)
      requires boot.Serving? && c !in calls
      modifies this
      ensures !Transitions(old(rows), id, {Paused, Failed}) ==> !ok && State() == old(State())
      ensures Transitions(old(rows), id, {Paused, Failed}) ==>
                var events := if resetOk then [Resume(id, c), Advance(c), Advance(c)] else [Resume(id, c), Drop(c)];
                ok == (resetOk && !closed) && Possible(old(State()), events) && State() == After(old(State()), events)
    {
      ok := TransitionJob(id, Queued, {Paused, Failed});
      if ok {
        calls := calls[c := ResumeResets(id)];
        assert State() == Apply(old(State()), Resume(id, c));
        label resumed:
        if !resetOk {
          calls := calls - {c};
          assert State() == Apply(old@resumed(State()), Drop(c));
          AfterTwo(old(State()), Resume(id, c), Drop(c));
          return false;
        }
        ResetUnfinishedFiles(id);
        calls := calls[c := StartsRun(id)];
        assert State() == Apply(old@resumed(State()), Advance(c));
        label reset:
        calls := calls - {c};
        ok := StartJob(id);
        assert State() == Apply(old@reset(State()), Advance(c));
        AfterThree(old(State()), Resume(id, c), Advance(c), Advance(c));
      }
    }

    /** The region of `Cancel` under the lock: whether a run is registered. */
    method LookForRun(id: string, ghost c: nat)
      requires c in calls && calls[c] == CancelLooks(id)
      modifies this`calls
      ensures State() == Apply(old(State()), Advance(c))
      ensures c in calls && calls[c] == if id in running then CancelSignals(id, running[id]) else CancelRemoves(id)
    {
      calls := calls[c := if id in running then CancelSignals(id, running[id]) else CancelRemoves(id)];
    }

    /** What `Cancel` does with what it found. */
    method EndCancel(id: string, ghost c: nat)
      requires c in calls && calls[c] == if id in running then CancelSignals(id, running[id]) else CancelRemoves(id)
      modifies this`calls, this`runs, this`staging
      ensures State() == Apply(old(State()), Advance(c))
    {
      calls := calls - {c};
      if id in running {
        Signal(running[id]);
      } else {
        staging := staging - {id};
      }
    }

    method CancelJob(id: string, ghost c: nat) returns (ok: bool)
      requires boot.Serving? && c !in calls
      modifies this
      ensures !Transitions(old(rows), id, {Queued, Running, Paused, Failed}) ==> !ok && State() == old(State())
      ensures Transitions(old(rows), id, {Queued, Running, Paused, Failed}) ==>
                var events := [Cancel(id, c), Advance(c), Advance(c)];
                ok && Possible(old(State()), events) && State() == After(old(State()), events)
    {
      ok := TransitionJob(id, Cancelled, {Queued, Running, Paused, Failed});
      if ok {
        calls := calls[c := CancelLooks(id)];
        assert State() == Apply(old(State()), Cancel(id, c));
        label cancelled:
        LookForRun(id, c);
        label looked:
        EndCancel(id, c);
        CancelEvents(old(State()), old@cancelled(State()), old@looked(State()), State(), id, c);
      }
    }
  }
}
