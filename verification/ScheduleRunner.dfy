/** `run_due_schedules` itself, one transaction after another, while other runners, the
    clock and schedule edits act between its transactions. */
module ScheduleRunner {
  import opened Wrappers
  import opened Schedules

  /** Every schedule's runners finish in time. */
  ghost const ALL: iset<int> := iset id: int | true

  datatype RunError = BadLease | ClaimRaised | SubmissionRaised

  datatype Report = Report(scheduleId: int, jobRunId: int)

  class SchedulerDatabase {
    var rows: Rows
    ghost var history: seq<Action>

    /** The table is what the committed transactions so far made of it. */
    ghost predicate Valid()
      reads this
    {
      IsRun(history, ALL) && After(history, ALL).rows == rows
    }

    ghost function Now(): World
      requires Valid()
      reads this
    {
      After(history, ALL)
    }

    constructor ()
      ensures Valid() && history == []
    {
      rows, history := map[], [];
    }

    ghost method Commit(a: Action)
      requires IsRun(history, ALL) && Enabled(After(history, ALL), a, ALL)
      modifies this`history
      ensures history == old(history) + [a] && IsRun(history, ALL)
      ensures After(history, ALL) == Apply(After(old(history), ALL), a, ALL)
    {
      RunExtends(history, a, ALL);
      history := history + [a];
    }

    /** Anything the rest of the system may do between two transactions of runner `me`. A
        caller learns nothing more than this contract, so the empty body stands for every
        choice. */
    method Others(ghost me: int)
      requires Valid()
      modifies this
      ensures Valid() && old(history) <= history
      ensures Now().PhaseOf(me) == old(Now().PhaseOf(me))
      ensures old(Now().log) <= Now().log
    {
    }

    method AcquireDueLease(id: int, now: int, leaseUntil: int, lockedBy: string) returns (acquired: bool)
      modifies this`rows
      ensures acquired == CanAcquire(old(rows), id, now)
      ensures rows == if acquired then Leased(old(rows), id, leaseUntil, lockedBy) else old(rows)
    {
      acquired := id in rows && rows[id].enabled && rows[id].nextRunAt <= now
                  && (rows[id].lockedUntil == None || rows[id].lockedUntil.value <= now);
      if acquired {
        rows := rows[id := rows[id].(lockedUntil := Some(leaseUntil), lockedBy := Some(lockedBy))];
      }
    }

    method MarkSubmitted(id: int, jobRunId: int, ranAt: int, nextRunAt: int)
      requires id in rows
      modifies this`rows
      ensures rows == Schedules.MarkedSubmitted(old(rows), id, jobRunId, ranAt, nextRunAt)
    {
      var row := rows[id];
      row := row.(lastRunAt := Some(ranAt));
      row := row.(lastJobRunId := Some(jobRunId));
      row := row.(nextRunAt := nextRunAt);
      row := row.(lockedUntil := None);
      row := row.(lockedBy := None);
      rows := rows[id := row];
    }

    method ClearLease(id: int)
      requires id in rows
      modifies this`rows
      ensures rows == Cleared(old(rows), id)
    {
      rows := rows[id := rows[id].(lockedUntil := None, lockedBy := None)];
    }

    /** `submit_job_run` outside any transaction: a job id, or an exception (None). */
    method SubmitJobRun() returns (jobRunId: Option<int>)
    {
      if * {
        jobRunId := None;
      } else {
        var id: int := *;
        jobRunId := Some(id);
      }
    }

    /** The job was marked on the schedule since the log was `before`. */
    ghost predicate MarkedSince(before: seq<Event>, s: Report)
      requires Valid()
      reads this
    {
      exists k :: |before| <= k < |Now().log| && Now().log[k].SlotMarked?
        && Now().log[k].id == s.scheduleId && Now().log[k].jobRunId == s.jobRunId
    }

    /** Whatever others do in between, a batch is a legal part of a run of the protocol (so
        every guarantee about runs covers it), ends idle, holds no schedule any more, and
        reports only jobs it marked. */
    method RunDueSchedules(ghost me: int, now: int, leaseLength: int, owner: string)
      returns (r: Result<seq<Report>, RunError>)
      requires Valid() && Now().PhaseOf(me) == Idle
      requires 1 <= leaseLength ==> now <= Now().clock < now + leaseLength
      modifies this
      ensures Valid() && old(history) <= history && Now().PhaseOf(me) == Idle
      ensures leaseLength < 1 ==> r == Err(BadLease) && history == old(history) && rows == old(rows)
      ensures r.Ok? ==> forall i :: 0 <= i < |r.value| ==> MarkedSince(old(Now().log), r.value[i])
    {
      if leaseLength < 1 {
        return Err(BadLease);
      }
      ghost var log := Now().log;
      var leaseUntil := now + leaseLength;
      ghost var batch := Batch(now, leaseUntil, owner);
      var dueIds := ListDue(rows, now);
      ListDueIsDueList(rows, now);
      Commit(Scan(me, batch, dueIds));
      var submitted: seq<Report> := [];
      for i := 0 to |dueIds|
        invariant Valid() && old(history) <= history && log <= Now().log
        invariant Now().PhaseOf(me) == Scanning(batch, dueIds[i..])
        invariant forall j :: 0 <= j < |submitted| ==> MarkedSince(log, submitted[j])
      {
        Others(me);
        assert dueIds[i..][0] == dueIds[i] && dueIds[i..][1..] == dueIds[i + 1..];
        var done := ProcessDue(me, batch, dueIds[i..], dueIds[i], now, leaseUntil, owner);
        if done.Err? {
          return Err(done.error);
        }
        if done.value.Some? {
          submitted := submitted + [done.value.value];
        }
      }
      Others(me);
      Commit(Finish(me));
      return Ok(submitted);
    }

    /** One due id: claim, submit, mark or release. None when the claim was refused. */
    method ProcessDue(ghost me: int, ghost batch: Batch, ghost rest: seq<int>, id: int, now: int, leaseUntil: int,
        owner: string)
      returns (r: Result<Option<Report>, RunError>)
      requires Valid() && batch == Batch(now, leaseUntil, owner)
      requires Now().PhaseOf(me) == Scanning(batch, rest) && rest != [] && rest[0] == id
      modifies this
      ensures Valid() && old(history) <= history && old(Now().log) <= Now().log
      ensures Now().PhaseOf(me) == if r.Ok? then Scanning(batch, rest[1..]) else Idle
      ensures r.Ok? && r.value.Some? ==> MarkedSince(old(Now().log), r.value.value)
    {
      var claim := ClaimDue(me, batch, rest, id, now, leaseUntil, owner);
      if claim.Err? {
        return Err(claim.error);
      }
      if claim.value == None {
        return Ok(None);
      }
      Others(me);
      var job := SubmitJobRun();
      if job == None {
        Release(me, id);
        return Err(SubmissionRaised);
      }
      RecordSubmission(me, id, job.value, now, claim.value.value);
      return Ok(Some(Report(id, job.value)));
    }

    /** The claiming transaction: the successor of the claimed slot, None when the claim is
        refused, or an exception (the stored payload does not load) and no change at all. */
    method ClaimDue(ghost me: int, ghost batch: Batch, ghost rest: seq<int>, id: int, now: int, leaseUntil: int,
        owner: string)
      returns (r: Result<Option<int>, RunError>)
      requires Valid() && batch == Batch(now, leaseUntil, owner)
      requires Now().PhaseOf(me) == Scanning(batch, rest) && rest != [] && rest[0] == id
      modifies this
      ensures Valid() && old(history) <= history && Now().log == old(Now().log)
      ensures r.Err? ==> Now().PhaseOf(me) == Idle && rows == old(rows)
      ensures r == Ok(None) ==> Now().PhaseOf(me) == Scanning(batch, rest[1..]) && rows == old(rows)
      ensures r.Ok? && r.value.Some? ==>
                var p := Now().PhaseOf(me);
                && p.Claimed? && p.batch == batch && p.rest == rest[1..] && p.hold.id == id
                && 0 < p.hold.step && r.value.value == Advanced(p.hold.slot, p.hold.step, now)
    {
      RunsAreSound(history, ALL, id);
      var saved := rows;
      var acquired := AcquireDueLease(id, now, leaseUntil, owner);
      if !acquired {
        Commit(Claim(me));
        return Ok(None);
      }
      if * {
        rows := saved;
        Commit(ClaimRaises(me));
        return Err(ClaimRaised);
      }
      var nextRunAt := AdvanceInterval(rows[id].nextRunAt, rows[id].interval, now);
      Commit(Claim(me));
      return Ok(Some(nextRunAt));
    }

    /** The source's error path: release the lease, then let the exception out. */
    method Release(ghost me: int, id: int)
      requires Valid() && Now().PhaseOf(me).Claimed? && Now().PhaseOf(me).hold.id == id
      modifies this
      ensures Valid() && old(history) <= history && old(Now().log) <= Now().log
      ensures Now().PhaseOf(me) == Idle
    {
      Commit(SubmitRaises(me));
      Others(me);
      HoldStands(me);
      ClearLease(id);
      Commit(Clear(me));
    }

    method RecordSubmission(ghost me: int, id: int, jobRunId: int, now: int, nextRunAt: int)
      requires Valid() && Now().PhaseOf(me).Claimed? && Now().PhaseOf(me).hold.id == id
      requires var p := Now().PhaseOf(me);
               0 < p.hold.step && p.batch.now == now && nextRunAt == Advanced(p.hold.slot, p.hold.step, now)
      modifies this
      ensures Valid() && old(history) <= history && old(Now().log) <= Now().log
      ensures Now().PhaseOf(me) == Scanning(old(Now().PhaseOf(me)).batch, old(Now().PhaseOf(me)).rest)
      ensures MarkedSince(old(Now().log), Report(id, jobRunId))
    {
      ghost var hold := Now().PhaseOf(me).hold;
      Commit(Submit(me, jobRunId));
      Others(me);
      HoldStands(me);
      MarkSubmitted(id, jobRunId, now, nextRunAt);
      Commit(Mark(me));
      assert Now().log[|Now().log| - 1] == SlotMarked(id, hold.slot, jobRunId);
    }

    /** What a holder may rely on after others ran: the row exists, is still locked for it
        and still shows the slot it claimed. */
    lemma HoldStands(me: int)
      requires Valid() && Holding(Now().PhaseOf(me))
      ensures Owns(rows, Now().PhaseOf(me).batch, Now().PhaseOf(me).hold)
    {
      RunsAreSound(history, ALL, Now().PhaseOf(me).hold.id);
    }
  }
}
