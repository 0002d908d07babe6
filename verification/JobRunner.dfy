/** The executor, the cancel request and the submitter's update as code over the job's rows,
    one transaction after another, while the others act between the executor's transactions. */
module JobRunner {
  import opened Wrappers
  import opened Models
  import opened MarketData
  import opened Jobs

  /** What a callback raises: the cancellation exception, or any other. */
  datatype Exception = JobCancelled | OtherException

  datatype CancelError = CannotCancelTerminal

  class JobDatabase {
    const kind: JobKind
    var status: Status
    var progress: int
    var enqueued: bool
    var log: seq<JobEvent>
    var workflow: Option<AuditStatus>
    var sync: Option<SyncRow>
    var rows: seq<BarRow>
    ghost const rowsAtSubmit: seq<BarRow>
    ghost var history: seq<Action>

    ghost function Contents(): Tables
      reads this
    {
      Tables(status, progress, enqueued, log, workflow, sync, rows)
    }

    ghost function Start(): World
      reads this
    {
      Submitted(kind, rowsAtSubmit)
    }

    /** The tables are what the committed transactions so far made of them. */
    ghost predicate Valid()
      reads this
    {
      IsRun(Start(), history) && Now().t == Contents() && Now().kind == kind
    }

    ghost function Now(): World
      reads this
    {
      After(Start(), history)
    }

    /** The first transaction of `submit_job_run`: the queued job and its event. */
    constructor CreateQueued(kind: JobKind, rows: seq<BarRow>)
      ensures Valid() && history == [] && this.kind == kind && rowsAtSubmit == rows
      ensures Now().pc == NotStarted && this.rows == rows
    {
      this.kind := kind;
      status, progress, enqueued, log := Queued, 0, false, [JobEvent(QueuedEvent, 0)];
      workflow, sync, this.rows := None, None, rows;
      rowsAtSubmit, history := rows, [];
    }

    ghost method Commit(a: Action)
      requires IsRun(Start(), history) && Enabled(Now(), a)
      modifies this`history
      ensures history == old(history) + [a] && IsRun(Start(), history)
      ensures Now() == Apply(old(Now()), a)
    {
      RunExtends(Start(), history, a);
      history := history + [a];
    }

    /** Any number of cancel requests and the submitter's update between two transactions of
        the executor. A caller learns nothing more than this contract, so the empty body
        stands for every choice. */
    method Others()
      requires Valid()
      modifies `status, `enqueued, `log, `history
      ensures Valid() && old(history) <= history
      ensures Now().pc == old(Now().pc) && Now().bars == old(Now().bars)
    {
    }

    method Record(e: EventType)
      modifies this`log
      ensures log == old(log) + [JobEvent(e, progress)]
    {
      log := log + [JobEvent(e, progress)];
    }

    // ----- Requests -----

    /** Refused exactly on a terminal job; a queued job ends at once, a running one is asked. */
    method CancelJobRun() returns (r: Result<Status, CancelError>)
      requires Valid()
      modifies this
      ensures Valid() && history == old(history) + [Cancel]
      ensures r == if Terminal(old(status)) then Err(CannotCancelTerminal) else Ok(status)
      ensures r.Err? ==> Contents() == old(Contents())
      ensures r.Ok? ==> status == if old(status) == Queued then Cancelled else CancelRequested
    {
      if Terminal(status) {
        Commit(Cancel);
        return Err(CannotCancelTerminal);
      }
      if status == Queued {
        status := Cancelled;
        Record(CancelledEvent);
      } else {
        status := CancelRequested;
        Record(CancelRequestedEvent);
      }
      Commit(Cancel);
      return Ok(status);
    }

    /** The submitter's late transaction, whatever the executor has done by then. */
    method MarkJobEnqueued()
      requires Valid() && !enqueued
      modifies this
      ensures Valid() && history == old(history) + [MarkEnqueued]
      ensures status == old(status) && progress == old(progress)
    {
      enqueued := true;
      Record(EnqueuedEvent);
      Commit(MarkEnqueued);
    }

    // ----- Executor -----

    method RaiseIfCancelled() returns (cancelled: bool)
      ensures cancelled <==> SeesCancel(Contents())
    {
      cancelled := status == CancelRequested || status == Cancelled;
    }

    method EmitProgress(value: int)
      modifies this`progress, this`log
      ensures Contents() == ProgressRecorded(old(Contents()), value)
    {
      progress := value;
      Record(ProgressEvent);
    }

    /** What `CancellationAndAuditAgree` says of this job's rows once the executor is done. */
    ghost predicate Settled()
      reads this
    {
      && (status == Succeeded ==> workflow == Some(AuditSucceeded))
      && (status == Succeeded && kind == Sync ==>
            sync == Some(SyncRow(AuditSucceeded, |Now().bars|)) && rows == UpsertAll(rowsAtSubmit, Now().bars))
      && (status != Succeeded ==> rows == rowsAtSubmit && workflow != Some(AuditRunning) && SyncNotRunning(Contents()))
    }

    lemma FinishedIsSettled()
      requires Valid() && Now().pc == Finished && KeysUnique(rowsAtSubmit)
      ensures Settled() && Terminal(status)
    {
      LifecycleHolds(kind, rowsAtSubmit, history);
      CancellationAndAuditAgree(kind, rowsAtSubmit, history);
    }

    /** Whatever requests arrive in between, one delivery ends in a terminal status and
        reports that status; the audit rows and the bar table agree with it. */
    method ExecuteJobRun() returns (outcome: Status)
      requires Valid() && Now().pc == NotStarted && KeysUnique(rowsAtSubmit)
      modifies this
      ensures Valid() && old(history) <= history && Now().pc == Finished
      ensures outcome == status && Terminal(outcome) && Settled()
      ensures old(status) == Cancelled ==> outcome == Cancelled && progress == old(progress)
      ensures kind == Unsupported && old(status) != Cancelled ==> outcome == Failed
    {
      var ready := StartExecution();
      if ready {
        var r := RunJob();
        Others();
        outcome := RecordOutcome(r);
      } else {
        outcome := Cancelled;
      }
      FinishedIsSettled();
    }

    /** The first transaction: leave a cancelled job alone, otherwise mark it running. */
    method StartExecution() returns (ready: bool)
      requires Valid() && Now().pc == NotStarted
      modifies this
      ensures Valid() && old(history) <= history
      ensures ready <==> old(status) != Cancelled
      ensures if ready then Now().pc == Started else Now().pc == Finished && Contents() == old(Contents())
    {
      ready := status != Cancelled;
      if ready {
        status, progress := Running, 10;
        Record(RunningEvent);
      }
      Commit(Execute(Proceed));
    }

    method RunJob() returns (r: Result<(), Exception>)
      requires Valid() && Now().pc == Started
      modifies this
      ensures Valid() && old(history) <= history
      ensures Now().pc == if r.Ok? then Succeeding else Failing(r.error.JobCancelled?)
      ensures kind == Unsupported ==> r == Err(OtherException)
    {
      Others();
      if kind == Unsupported {
        Commit(Execute(Proceed));
        return Err(OtherException);
      }
      r := RunWithAudit();
    }

    method RecordOutcome(r: Result<(), Exception>) returns (outcome: Status)
      requires Valid()
      requires Now().pc == if r.Ok? then Succeeding else Failing(r.error.JobCancelled?)
      modifies this
      ensures Valid() && old(history) <= history && Now().pc == Finished
      ensures outcome == status
      ensures status == if r.Ok? then Succeeded else if r.error.JobCancelled? then Cancelled else Failed
    {
      if r.Ok? {
        status, progress := Succeeded, 100;
        Record(SucceededEvent);
      } else if r.error.JobCancelled? {
        status := Cancelled;
        Record(CancelledEvent);
      } else {
        status := Failed;
        Record(FailedEvent);
      }
      outcome := status;
      Commit(Execute(Proceed));
    }

    method RunWithAudit() returns (r: Result<(), Exception>)
      requires Valid() && Now().pc == Started && kind != Unsupported
      modifies this
      ensures Valid() && old(history) <= history
      ensures Now().pc == if r.Ok? then Succeeding else Failing(r.error.JobCancelled?)
    {
      workflow := Some(AuditRunning);
      Commit(Execute(Proceed));
      r := ExecutePayload();
      Others();
      workflow := Some(if r.Ok? then AuditSucceeded else AuditFailed);
      Commit(Execute(Proceed));
    }

    method ExecutePayload() returns (r: Result<(), Exception>)
      requires Valid() && Now().pc == InCallback && kind != Unsupported
      modifies this
      ensures Valid() && old(history) <= history
      ensures Now().pc == if r.Ok? then Returned else Raised(r.error.JobCancelled?)
    {
      Others();
      if * {
        Commit(Execute(Raise));
        return Err(OtherException);
      }
      if kind == Sync {
        r := SyncDailyMarketData();
        return;
      }
      var cancelled := RaiseIfCancelled();
      Commit(Execute(Proceed));
      if cancelled {
        return Err(JobCancelled);
      }
      Others();
      if * {
        Commit(Execute(Raise));
        return Err(OtherException);
      }
      Commit(Execute(Proceed));
      return Ok(());
    }

    method SyncDailyMarketData() returns (r: Result<(), Exception>)
      requires Valid() && Now().pc == InCallback && kind == Sync
      modifies this
      ensures Valid() && old(history) <= history
      ensures Now().pc == if r.Ok? then Returned else Raised(r.error.JobCancelled?)
    {
      sync := Some(SyncRow(AuditRunning, 0));
      Commit(Execute(Proceed));
      r := FetchAndStore();
      if r.Err? {
        MarkSyncFailed(r.error);
      }
    }

    method MarkSyncFailed(ghost raised: Exception)
      requires Valid() && Now().pc == SyncRaised(raised.JobCancelled?)
      modifies this
      ensures Valid() && old(history) <= history && Now().pc == Raised(raised.JobCancelled?)
      ensures sync == Some(SyncRow(AuditFailed, if old(sync).Some? then old(sync).value.importedBars else 0))
    {
      Others();
      sync := Some(SyncRow(AuditFailed, if sync.Some? then sync.value.importedBars else 0));
      Commit(Execute(Proceed));
    }

    /** One cancellation check of the sync, in a transaction of its own. */
    method CheckSyncCancelled(ghost next: Pc) returns (cancelled: bool)
      requires Valid()
      requires (Now().pc, next) == (Opened, Checked) || (Now().pc, next) == (Fetched, Rechecked)
      modifies this
      ensures Valid() && old(history) <= history && Now().bars == old(Now().bars)
      ensures Now().pc == if cancelled then SyncRaised(true) else next
    {
      Others();
      cancelled := RaiseIfCancelled();
      Commit(Execute(Proceed));
    }

    /** `_record_progress`, in a transaction of its own. */
    method RecordProgress(value: int, ghost next: Pc)
      requires Valid()
      requires var pc := Now().pc;
               || (pc, next, value) == (Checked, Fetching, 20)
               || (pc, next, value) == (Rechecked, Storing(0), 50)
               || (pc, next, value) == (Storing(|Now().bars|), Committing, 90)
      modifies this
      ensures Valid() && old(history) <= history && Now().bars == old(Now().bars)
      ensures Now().pc == next && progress == value && rows == old(rows)
    {
      Others();
      EmitProgress(value);
      Commit(Execute(Proceed));
    }

    method FetchAndStore() returns (r: Result<(), Exception>)
      requires Valid() && Now().pc == Opened
      modifies this
      ensures Valid() && old(history) <= history
      ensures Now().pc == if r.Ok? then Returned else SyncRaised(r.error.JobCancelled?)
    {
      var cancelled := CheckSyncCancelled(Checked);
      if cancelled {
        return Err(JobCancelled);
      }
      RecordProgress(20, Fetching);
      var fetched := FetchBars();
      if fetched.None? {
        return Err(OtherException);
      }
      cancelled := CheckSyncCancelled(Rechecked);
      if cancelled {
        return Err(JobCancelled);
      }
      RecordProgress(50, Storing(0));
      r := StoreBars(fetched.value);
    }

    /** Fetches and validates; None when the provider or the validation raises. */
    method FetchBars() returns (r: Option<seq<Bar>>)
      requires Valid() && Now().pc == Fetching
      modifies this
      ensures Valid() && old(history) <= history
      ensures if r.Some? then Now().pc == Fetched && Now().bars == r.value else Now().pc == SyncRaised(false)
    {
      Others();
      r := FetchDailyBars();
      if r.Some? {
        var delivered := r.value;
        var checked := ValidateBars(delivered);
        if checked.Ok? {
          Commit(Execute(Deliver(delivered)));
          return Some(checked.value);
        }
      }
      Commit(Execute(Raise));
      r := None;
    }

    /** The provider: bars, or an exception (None). */
    method FetchDailyBars() returns (r: Option<seq<Bar>>)
    {
      if * {
        r := None;
      } else {
        var bars: seq<Bar> := *;
        r := Some(bars);
      }
    }

    /** One session: bars are staged in it and reach the table only with its commit. */
    method StoreBars(bars: seq<Bar>) returns (r: Result<(), Exception>)
      requires Valid() && Now().pc == Storing(0) && Now().bars == bars
      modifies this
      ensures Valid() && old(history) <= history
      ensures Now().pc == if r.Ok? then Returned else SyncRaised(r.error.JobCancelled?)
    {
      var session := new MarketDataRepository(rows);
      for i := 0 to |bars|
        invariant Valid() && old(history) <= history && fresh(session)
        invariant Now().pc == Storing(i) && Now().bars == bars
        invariant UpsertAll(session.rows, bars[i..]) == UpsertAll(rows, bars)
      {
        r := StageBar(session, bars[i], i);
        if r.Err? {
          return;
        }
        assert bars[i..][0] == bars[i] && bars[i..][1..] == bars[i + 1..];
      }
      RecordProgress(90, Committing);
      r := CommitStaged(session.rows, |bars|);
    }

    method StageBar(session: MarketDataRepository, bar: Bar, ghost done: nat) returns (r: Result<(), Exception>)
      requires Valid() && Now().pc == Storing(done) && done < |Now().bars|
      modifies this, session
      ensures Valid() && old(history) <= history && Now().bars == old(Now().bars) && rows == old(rows)
      ensures Now().pc == if r.Ok? then Storing(done + 1) else SyncRaised(r.error.JobCancelled?)
      ensures r.Ok? ==> session.rows == Upsert(old(session.rows), bar)
    {
      Others();
      var cancelled := RaiseIfCancelled();
      if cancelled {
        Commit(Execute(Proceed));
        return Err(JobCancelled);
      }
      if * {
        Commit(Execute(Raise));
        return Err(OtherException);
      }
      Commit(Execute(Proceed));
      session.UpsertDailyBar(bar);
      return Ok(());
    }

    method CommitStaged(staged: seq<BarRow>, importedBars: nat) returns (r: Result<(), Exception>)
      requires Valid() && Now().pc == Committing
      requires staged == UpsertAll(rows, Now().bars) && importedBars == |Now().bars|
      modifies this
      ensures Valid() && old(history) <= history
      ensures Now().pc == if r.Ok? then Returned else SyncRaised(false)
      ensures r.Err? ==> r.error == OtherException && rows == old(rows)
    {
      Others();
      if * {
        Commit(Execute(Raise));
        return Err(OtherException);
      }
      rows := staged;
      sync := Some(SyncRow(AuditSucceeded, importedBars));
      Commit(Execute(Proceed));
      return Ok(());
    }
  }
}
