/** jobs/schedules.py and its repository: schedule rows, timed leases, and the protocol any
    number of scheduler runners follow over them. Time is an int in the unit of the clock;
    an interval is a length in that unit. Display columns of the row are dropped. */
module Schedules {
  import opened Wrappers
  import opened Sums

  datatype Schedule = Schedule(
    enabled: bool, interval: int, nextRunAt: int,
    lockedUntil: Option<int>, lockedBy: Option<string>,
    lastRunAt: Option<int>, lastJobRunId: Option<int>)

  type Rows = map<int, Schedule>

  // ----- Interval advance -----

  /** The times congruent to `nextRunAt` modulo `step`, from `nextRunAt` on. */
  function SlotAt(nextRunAt: int, step: int, k: nat): int {
    nextRunAt + k * step
  }

  function StepsPast(nextRunAt: int, step: int, now: int): nat
    requires 0 < step
  {
    if now < nextRunAt then 0
    else
      DivisionBounds(now - nextRunAt, step);
      (now - nextRunAt) / step + 1
  }

  /** The next slot in closed form. */
  function Advanced(nextRunAt: int, step: int, now: int): int
    requires 0 < step
  {
    SlotAt(nextRunAt, step, StepsPast(nextRunAt, step, now))
  }

  lemma DivisionBounds(gap: int, step: int)
    requires 0 < step && 0 <= gap
    ensures 0 <= gap / step && (gap / step) * step <= gap < (gap / step + 1) * step
  {
    assert gap == (gap / step) * step + gap % step;
    assert (gap / step + 1) * step == (gap / step) * step + step;
  }

  lemma SlotsRise(nextRunAt: int, step: int, i: nat, j: nat)
    requires 0 < step && i < j
    ensures SlotAt(nextRunAt, step, i) + step <= SlotAt(nextRunAt, step, j)
  {
    assert (i + 1) * step <= j * step;
    assert (i + 1) * step == i * step + step;
  }

  /** The least slot after `now`: `nextRunAt` itself if that is still ahead. */
  lemma AdvancedIsLeast(nextRunAt: int, step: int, now: int)
    requires 0 < step
    ensures now < Advanced(nextRunAt, step, now) && nextRunAt <= Advanced(nextRunAt, step, now)
    ensures now < nextRunAt ==> Advanced(nextRunAt, step, now) == nextRunAt
    ensures nextRunAt <= now ==> nextRunAt < Advanced(nextRunAt, step, now)
    ensures forall j: nat :: now < SlotAt(nextRunAt, step, j) ==>
              Advanced(nextRunAt, step, now) <= SlotAt(nextRunAt, step, j)
  {
    var k := StepsPast(nextRunAt, step, now);
    if nextRunAt <= now {
      DivisionBounds(now - nextRunAt, step);
      SlotsRise(nextRunAt, step, 0, k);
      forall j: nat | now < SlotAt(nextRunAt, step, j)
        ensures SlotAt(nextRunAt, step, k) <= SlotAt(nextRunAt, step, j)
      {
        if j < k {
          if j < k - 1 { SlotsRise(nextRunAt, step, j, k - 1); }
          assert false;
        } else if k < j {
          SlotsRise(nextRunAt, step, k, j);
        }
      }
    } else {
      forall j: nat ensures nextRunAt <= SlotAt(nextRunAt, step, j) {
        if 0 < j { SlotsRise(nextRunAt, step, 0, j); }
      }
    }
  }

  /** The source's loop, one interval at a time. */
  method AdvanceInterval(nextRunAt: int, step: int, now: int) returns (advanced: int)
    requires 0 < step
    ensures advanced == Advanced(nextRunAt, step, now)
  {
    advanced := nextRunAt;
    ghost var k: nat := 0;
    while advanced <= now
      invariant advanced == SlotAt(nextRunAt, step, k)
      invariant 0 < k ==> SlotAt(nextRunAt, step, k - 1) <= now
      decreases now - advanced
    {
      assert SlotAt(nextRunAt, step, k + 1) == SlotAt(nextRunAt, step, k) + step by {
        assert (k + 1) * step == k * step + step;
      }
      advanced := advanced + step;
      k := k + 1;
    }
    FirstSlotPast(nextRunAt, step, now, k);
  }

  lemma FirstSlotPast(nextRunAt: int, step: int, now: int, k: nat)
    requires 0 < step && now < SlotAt(nextRunAt, step, k)
    requires 0 < k ==> SlotAt(nextRunAt, step, k - 1) <= now
    ensures SlotAt(nextRunAt, step, k) == Advanced(nextRunAt, step, now)
  {
    AdvancedIsLeast(nextRunAt, step, now);
    var n := StepsPast(nextRunAt, step, now);
    if n < k {
      if n < k - 1 { SlotsRise(nextRunAt, step, n, k - 1); }
      assert false;
    } else if k < n {
      SlotsRise(nextRunAt, step, k, n);
    }
  }

  // ----- Row updates -----

  predicate Unlocked(s: Schedule, now: int) {
    s.lockedUntil.None? || s.lockedUntil.value <= now
  }

  predicate Due(s: Schedule, now: int) {
    s.enabled && s.nextRunAt <= now && Unlocked(s, now)
  }

  predicate CanAcquire(rows: Rows, id: int, now: int) {
    id in rows && Due(rows[id], now)
  }

  function Leased(rows: Rows, id: int, leaseUntil: int, lockedBy: string): Rows
    requires id in rows
  {
    rows[id := rows[id].(lockedUntil := Some(leaseUntil), lockedBy := Some(lockedBy))]
  }

  /** Neither this nor `Cleared` looks at who holds the lock. */
  function MarkedSubmitted(rows: Rows, id: int, jobRunId: int, ranAt: int, nextRunAt: int): Rows {
    if id !in rows then rows
    else rows[id := rows[id].(lastRunAt := Some(ranAt), lastJobRunId := Some(jobRunId), nextRunAt := nextRunAt,
                              lockedUntil := None, lockedBy := None)]
  }

  function Cleared(rows: Rows, id: int): Rows {
    if id !in rows then rows else rows[id := rows[id].(lockedUntil := None, lockedBy := None)]
  }

  predicate Before(rows: Rows, i: int, j: int)
  {
    && i in rows && j in rows
    && (rows[i].nextRunAt < rows[j].nextRunAt || (rows[i].nextRunAt == rows[j].nextRunAt && i < j))
  }

  /** What the due query returns: the ids that are due, ordered by slot and then by id. */
  ghost predicate IsDueList(rows: Rows, now: int, ids: seq<int>) {
    && (forall id :: id in ids <==> CanAcquire(rows, id, now))
    && (forall i, j :: 0 <= i < j < |ids| ==> Before(rows, ids[i], ids[j]))
  }

  function InsertDue(rows: Rows, id: int, ids: seq<int>): seq<int> {
    if ids == [] || Before(rows, id, ids[0]) then [id] + ids else [ids[0]] + InsertDue(rows, id, ids[1..])
  }

  function DueAmong(rows: Rows, now: int, keys: set<int>): seq<int>
    decreases |keys|
  {
    if keys == {} then []
    else
      var id := Least(keys);
      var ids := DueAmong(rows, now, keys - {id});
      if CanAcquire(rows, id, now) then InsertDue(rows, id, ids) else ids
  }

  ghost predicate DueSorted(rows: Rows, ids: seq<int>) {
    forall i, j :: 0 <= i < j < |ids| ==> Before(rows, ids[i], ids[j])
  }

  lemma {:induction false} InsertDueSorts(rows: Rows, id: int, ids: seq<int>)
    requires DueSorted(rows, ids) && id in rows && id !in ids && forall k :: k in ids ==> k in rows
    ensures DueSorted(rows, InsertDue(rows, id, ids))
    ensures forall k :: k in InsertDue(rows, id, ids) <==> k == id || k in ids
  {
    if ids == [] {
    } else if Before(rows, id, ids[0]) {
      forall j | 0 <= j < |ids| ensures Before(rows, id, ids[j]) {
        assert j == 0 || Before(rows, ids[0], ids[j]);
      }
    } else {
      var rest := InsertDue(rows, id, ids[1..]);
      assert ids == [ids[0]] + ids[1..];
      InsertDueSorts(rows, id, ids[1..]);
      forall j | 0 <= j < |rest| ensures Before(rows, ids[0], rest[j]) {
        assert rest[j] in rest;
        if rest[j] != id {
          var i :| 0 <= i < |ids[1..]| && ids[1..][i] == rest[j];
          assert Before(rows, ids[0], ids[i + 1]);
        }
      }
    }
  }

  lemma {:induction false} DueAmongSorted(rows: Rows, now: int, keys: set<int>)
    ensures DueSorted(rows, DueAmong(rows, now, keys))
    ensures forall k :: k in DueAmong(rows, now, keys) <==> k in keys && CanAcquire(rows, k, now)
    decreases |keys|
  {
    if keys != {} {
      var id := Least(keys);
      DueAmongSorted(rows, now, keys - {id});
      if CanAcquire(rows, id, now) {
        InsertDueSorts(rows, id, DueAmong(rows, now, keys - {id}));
      }
    }
  }

  function ListDue(rows: Rows, now: int): seq<int> {
    DueAmong(rows, now, rows.Keys)
  }

  lemma ListDueIsDueList(rows: Rows, now: int)
    ensures IsDueList(rows, now, ListDue(rows, now))
  {
    DueAmongSorted(rows, now, rows.Keys);
  }

  // ----- The protocol -----

  /** What one invocation fixes once: its time, the end of its leases and its name. */
  datatype Batch = Batch(now: int, leaseUntil: int, owner: string)

  /** A claimed schedule: the slot that was due and the interval at that moment. */
  datatype Hold = Hold(id: int, slot: int, step: int)

  datatype Phase =
    | Idle
    | Scanning(batch: Batch, rest: seq<int>)
    | Claimed(batch: Batch, rest: seq<int>, hold: Hold)
    | Submitted(batch: Batch, rest: seq<int>, hold: Hold, jobRunId: int)
    | Failed(batch: Batch, hold: Hold)

  datatype Event =
    | JobSubmitted(id: int, slot: int)
    | SlotMarked(id: int, slot: int, jobRunId: int)
    | LostBeforeMark(id: int, slot: int)

  /** The table, the process state of every runner, the clock, and what happened so far. */
  datatype World = World(clock: int, rows: Rows, runners: map<int, Phase>, log: seq<Event>)
  {
    function PhaseOf(r: int): Phase {
      if r in runners then runners[r] else Idle
    }
  }

  /** One transaction, one call outside any transaction, a crash, or time passing. In
      `ClaimRaises` the claiming transaction raises after its conditional update. */
  datatype Action =
    | PassTime(to: int)
    | Create(newId: int, schedule: Schedule)
    | Patch(patchedId: int, enabled: bool, interval: int)
    | Scan(r: int, batch: Batch, due: seq<int>)
    | Claim(r: int)
    | ClaimRaises(r: int)
    | Submit(r: int, jobRunId: int)
    | SubmitRaises(r: int)
    | Mark(r: int)
    | Clear(r: int)
    | Finish(r: int)
    | Crash(r: int)

  const START := World(0, map[], map[], [])

  predicate Holding(p: Phase) {
    p.Claimed? || p.Submitted? || p.Failed?
  }

  predicate Holds(p: Phase, id: int) {
    Holding(p) && p.hold.id == id
  }

  /** The runner holds the schedule or still has it on its list. */
  predicate Concerns(p: Phase, id: int) {
    Holds(p, id) || ((p.Scanning? || p.Claimed? || p.Submitted?) && id in p.rest)
  }

  /** The operating assumption for the schedules `timely`: time never reaches the end of the
      lease of a live runner that such a schedule concerns; a runner that would overrun has
      crashed before. Runners busy with other schedules may take as long as they like. */
  ghost predicate Enabled(w: World, a: Action, timely: iset<int>) {
    match a
    case PassTime(to) =>
      w.clock < to &&
      forall r, id | r in w.runners && id in timely && Concerns(w.runners[r], id) :: to < w.runners[r].batch.leaseUntil
    case Create(id, s) => id !in w.rows && 0 < s.interval && s.lockedUntil == None
    case Patch(id, _, interval) => id in w.rows && 0 < interval
    case Scan(r, b, due) =>
      && w.PhaseOf(r) == Idle && b.now <= w.clock && b.now < b.leaseUntil && IsDueList(w.rows, b.now, due)
      && (forall id :: id in due && id in timely ==> w.clock < b.leaseUntil)
    case Claim(r) => w.PhaseOf(r).Scanning? && w.PhaseOf(r).rest != []
    case ClaimRaises(r) =>
      && w.PhaseOf(r).Scanning? && w.PhaseOf(r).rest != []
      && CanAcquire(w.rows, w.PhaseOf(r).rest[0], w.PhaseOf(r).batch.now)
    case Submit(r, _) => w.PhaseOf(r).Claimed?
    case SubmitRaises(r) => w.PhaseOf(r).Claimed?
    case Mark(r) => w.PhaseOf(r).Submitted? && 0 < w.PhaseOf(r).hold.step
    case Clear(r) => w.PhaseOf(r).Failed?
    case Finish(r) => w.PhaseOf(r).Scanning? && w.PhaseOf(r).rest == []
    case Crash(r) => w.PhaseOf(r) != Idle
  }

  function At(w: World, r: int, p: Phase): World {
    w.(runners := w.runners[r := p])
  }

  function Logged(w: World, e: Event): World {
    w.(log := w.log + [e])
  }

  ghost function Apply(w: World, a: Action, timely: iset<int>): World
    requires Enabled(w, a, timely)
  {
    match a
    case PassTime(to) => w.(clock := to)
    case Create(id, s) => w.(rows := w.rows[id := s])
    case Patch(id, enabled, interval) => w.(rows := w.rows[id := w.rows[id].(enabled := enabled, interval := interval)])
    case Scan(r, batch, due) => At(w, r, Scanning(batch, due))
    case Claim(r) =>
      var b, id, rest := w.PhaseOf(r).batch, w.PhaseOf(r).rest[0], w.PhaseOf(r).rest[1..];
      if CanAcquire(w.rows, id, b.now) then
        At(w.(rows := Leased(w.rows, id, b.leaseUntil, b.owner)), r,
           Claimed(b, rest, Hold(id, w.rows[id].nextRunAt, w.rows[id].interval)))
      else At(w, r, Scanning(b, rest))
    case ClaimRaises(r) => At(w, r, Idle)
    case Submit(r, job) =>
      var Claimed(b, rest, h) := w.PhaseOf(r);
      At(Logged(w, JobSubmitted(h.id, h.slot)), r, Submitted(b, rest, h, job))
    case SubmitRaises(r) =>
      var Claimed(b, _, h) := w.PhaseOf(r);
      At(w, r, Failed(b, h))
    case Mark(r) =>
      var Submitted(b, rest, h, job) := w.PhaseOf(r);
      At(Logged(w.(rows := MarkedSubmitted(w.rows, h.id, job, b.now, Advanced(h.slot, h.step, b.now))),
                SlotMarked(h.id, h.slot, job)),
         r, Scanning(b, rest))
    case Clear(r) => At(w.(rows := Cleared(w.rows, w.PhaseOf(r).hold.id)), r, Idle)
    case Finish(r) => At(w, r, Idle)
    case Crash(r) =>
      if w.PhaseOf(r).Submitted? then
        At(Logged(w, LostBeforeMark(w.PhaseOf(r).hold.id, w.PhaseOf(r).hold.slot)), r, Idle)
      else At(w, r, Idle)
  }

  ghost predicate IsRun(actions: seq<Action>, timely: iset<int>)
    decreases |actions|, 0
  {
    actions == [] ||
    (IsRun(actions[..|actions| - 1], timely)
     && Enabled(After(actions[..|actions| - 1], timely), actions[|actions| - 1], timely))
  }

  ghost function After(actions: seq<Action>, timely: iset<int>): World
    requires IsRun(actions, timely)
    decreases |actions|, 1
  {
    if actions == [] then START
    else Apply(After(actions[..|actions| - 1], timely), actions[|actions| - 1], timely)
  }

  lemma RunExtends(actions: seq<Action>, a: Action, timely: iset<int>)
    requires IsRun(actions, timely) && Enabled(After(actions, timely), a, timely)
    ensures IsRun(actions + [a], timely)
    ensures After(actions + [a], timely) == Apply(After(actions, timely), a, timely)
  {
    assert (actions + [a])[..|actions|] == actions;
  }

  // ----- What every run keeps about a timely schedule -----

  /** The holder owns the lock, and the row still shows the slot it claimed. */
  ghost predicate Owns(rows: Rows, b: Batch, h: Hold) {
    && h.id in rows && rows[h.id].lockedUntil == Some(b.leaseUntil)
    && rows[h.id].nextRunAt == h.slot <= b.now && 0 < h.step
  }

  ghost predicate InTime(w: World, id: int) {
    forall r :: r in w.runners && Concerns(w.runners[r], id) ==>
      w.runners[r].batch.now <= w.clock < w.runners[r].batch.leaseUntil
  }

  ghost predicate HoldersOwn(w: World, id: int) {
    forall r :: r in w.runners && Holds(w.runners[r], id) ==> Owns(w.rows, w.runners[r].batch, w.runners[r].hold)
  }

  ghost predicate OneHolder(w: World, id: int) {
    forall r, q :: r in w.runners && q in w.runners && Holds(w.runners[r], id) && Holds(w.runners[q], id) ==> r == q
  }

  ghost predicate LeaseKept(w: World, id: int) {
    (id in w.rows ==> 0 < w.rows[id].interval) && InTime(w, id) && HoldersOwn(w, id) && OneHolder(w, id)
  }

  lemma ClaimKeepsLease(w: World, r: int, id: int, timely: iset<int>)
    requires LeaseKept(w, id) && Enabled(w, Claim(r), timely)
    ensures LeaseKept(Apply(w, Claim(r), timely), id)
  {
    var b, rest := w.PhaseOf(r).batch, w.PhaseOf(r).rest;
    assert r in w.runners && (rest[0] == id ==> Concerns(w.runners[r], id));
    assert id in rest[1..] ==> id in rest;
    if rest[0] == id && CanAcquire(w.rows, id, b.now) {
      forall q | q in w.runners ensures !Holds(w.runners[q], id) {
        assert Holds(w.runners[q], id) ==> Concerns(w.runners[q], id);
      }
    }
  }

  lemma MarkKeepsLease(w: World, r: int, id: int, timely: iset<int>)
    requires LeaseKept(w, id) && Enabled(w, Mark(r), timely)
    ensures LeaseKept(Apply(w, Mark(r), timely), id)
  {
  }

  lemma ClearKeepsLease(w: World, r: int, id: int, timely: iset<int>)
    requires LeaseKept(w, id) && Enabled(w, Clear(r), timely)
    ensures LeaseKept(Apply(w, Clear(r), timely), id)
  {
  }

  lemma ScanKeepsLease(w: World, a: Action, id: int, timely: iset<int>)
    requires a.Scan? && id in timely && LeaseKept(w, id) && Enabled(w, a, timely)
    ensures LeaseKept(Apply(w, a, timely), id)
  {
  }

  /** The runner's next phase concerns the schedule no more than the last one did. */
  lemma OwnStepKeepsLease(w: World, a: Action, id: int, timely: iset<int>)
    requires a.Submit? || a.SubmitRaises? || a.ClaimRaises? || a.Finish? || a.Crash?
    requires LeaseKept(w, id) && Enabled(w, a, timely)
    ensures LeaseKept(Apply(w, a, timely), id)
  {
  }

  lemma TableStepKeepsLease(w: World, a: Action, id: int, timely: iset<int>)
    requires a.PassTime? || a.Create? || a.Patch?
    requires id in timely && LeaseKept(w, id) && Enabled(w, a, timely)
    ensures LeaseKept(Apply(w, a, timely), id)
  {
  }

  lemma LeaseStaysKept(w: World, a: Action, id: int, timely: iset<int>)
    requires id in timely && LeaseKept(w, id) && Enabled(w, a, timely)
    ensures LeaseKept(Apply(w, a, timely), id)
  {
    match a {
      case Claim(r) => ClaimKeepsLease(w, r, id, timely);
      case Mark(r) => MarkKeepsLease(w, r, id, timely);
      case Clear(r) => ClearKeepsLease(w, r, id, timely);
      case Scan(_, _, _) => ScanKeepsLease(w, a, id, timely);
      case PassTime(_) => TableStepKeepsLease(w, a, id, timely);
      case Create(_, _) => TableStepKeepsLease(w, a, id, timely);
      case Patch(_, _, _) => TableStepKeepsLease(w, a, id, timely);
      case _ => OwnStepKeepsLease(w, a, id, timely);
    }
  }

  // ----- Each slot is accounted for -----

  datatype Kind = Submission | Marking | Loss

  function KindOf(e: Event): Kind {
    match e
    case JobSubmitted(_, _) => Submission
    case SlotMarked(_, _, _) => Marking
    case LostBeforeMark(_, _) => Loss
  }

  function Hits(e: Event, kind: Kind, id: int, slot: int): nat {
    if KindOf(e) == kind && e.id == id && e.slot == slot then 1 else 0
  }

  function Count(log: seq<Event>, kind: Kind, id: int, slot: int): nat {
    if log == [] then 0
    else Count(log[..|log| - 1], kind, id, slot) + Hits(log[|log| - 1], kind, id, slot)
  }

  predicate Carries(p: Phase, id: int, slot: int) {
    p.Submitted? && p.hold.id == id && p.hold.slot == slot
  }

  ghost predicate InFlight(runners: map<int, Phase>, id: int, slot: int) {
    exists r :: r in runners && Carries(runners[r], id, slot)
  }

  ghost predicate Balanced(log: seq<Event>, runners: map<int, Phase>, id: int, slot: int) {
    Count(log, Submission, id, slot)
    == Count(log, Marking, id, slot) + Count(log, Loss, id, slot) + (if InFlight(runners, id, slot) then 1 else 0)
  }

  /** Submissions of a slot are accounted for one by one, and a marked slot is in the past. */
  ghost predicate SlotAccounted(w: World, id: int, slot: int) {
    && Balanced(w.log, w.runners, id, slot)
    && Count(w.log, Marking, id, slot) <= 1
    && (Count(w.log, Marking, id, slot) == 1 ==> id in w.rows && slot < w.rows[id].nextRunAt)
  }

  lemma CountAppends(log: seq<Event>, e: Event, kind: Kind, id: int, slot: int)
    ensures Count(log + [e], kind, id, slot) == Count(log, kind, id, slot) + Hits(e, kind, id, slot)
  {
    assert (log + [e])[..|log|] == log;
  }

  lemma CountsAppend(log: seq<Event>, e: Event, id: int, slot: int)
    ensures Count(log + [e], Submission, id, slot) == Count(log, Submission, id, slot) + Hits(e, Submission, id, slot)
    ensures Count(log + [e], Marking, id, slot) == Count(log, Marking, id, slot) + Hits(e, Marking, id, slot)
    ensures Count(log + [e], Loss, id, slot) == Count(log, Loss, id, slot) + Hits(e, Loss, id, slot)
  {
    CountAppends(log, e, Submission, id, slot);
    CountAppends(log, e, Marking, id, slot);
    CountAppends(log, e, Loss, id, slot);
  }

  /** A runner that carried no slot of this kind, and carries none now, leaves flights alone. */
  lemma FlightStays(runners: map<int, Phase>, r: int, p: Phase, id: int, slot: int)
    requires !Carries(p, id, slot) && (r in runners ==> !Carries(runners[r], id, slot))
    ensures InFlight(runners[r := p], id, slot) <==> InFlight(runners, id, slot)
  {
    var now := runners[r := p];
    if InFlight(runners, id, slot) {
      var q :| q in runners && Carries(runners[q], id, slot);
      assert q in now && Carries(now[q], id, slot);
    }
    if InFlight(now, id, slot) {
      var q :| q in now && Carries(now[q], id, slot);
      assert q in runners && Carries(runners[q], id, slot);
    }
  }

  /** The only holder is in flight exactly when it carries the slot itself. */
  lemma HolderFlight(w: World, r: int, id: int, slot: int)
    requires OneHolder(w, id) && r in w.runners && Holds(w.runners[r], id)
    ensures InFlight(w.runners, id, slot) <==> Carries(w.runners[r], id, slot)
  {
    if InFlight(w.runners, id, slot) {
      var q :| q in w.runners && Carries(w.runners[q], id, slot);
      assert Holds(w.runners[q], id);
    }
  }

  /** When the only holder moves on, what is in flight is what it carries then. */
  lemma HolderMoves(w: World, r: int, p: Phase, id: int, slot: int)
    requires OneHolder(w, id) && r in w.runners && Holds(w.runners[r], id)
    ensures InFlight(w.runners[r := p], id, slot) <==> Carries(p, id, slot)
  {
    var now := w.runners[r := p];
    if Carries(p, id, slot) {
      assert r in now && Carries(now[r], id, slot);
    }
    if InFlight(now, id, slot) {
      var q :| q in now && Carries(now[q], id, slot);
      if q != r {
        assert Holds(w.runners[q], id);
        assert false;
      }
    }
  }

  /** A new event changes the books of one slot by itself and by the flight it starts or ends. */
  lemma EventBalances(log: seq<Event>, e: Event, before: map<int, Phase>, now: map<int, Phase>, id: int, slot: int)
    requires (if InFlight(now, id, slot) then 1 else 0) - (if InFlight(before, id, slot) then 1 else 0)
             == Hits(e, Submission, id, slot) - Hits(e, Marking, id, slot) - Hits(e, Loss, id, slot)
    requires Balanced(log, before, id, slot)
    ensures Balanced(log + [e], now, id, slot)
  {
    CountsAppend(log, e, id, slot);
  }

  lemma SubmitAccounted(w: World, r: int, jobRunId: int, id: int, slot: int, timely: iset<int>)
    requires LeaseKept(w, id) && SlotAccounted(w, id, slot) && Enabled(w, Submit(r, jobRunId), timely)
    ensures SlotAccounted(Apply(w, Submit(r, jobRunId), timely), id, slot)
  {
    var p, e := w.PhaseOf(r), JobSubmitted(w.PhaseOf(r).hold.id, w.PhaseOf(r).hold.slot);
    var next := Phase.Submitted(p.batch, p.rest, p.hold, jobRunId);
    if p.hold.id == id {
      HolderFlight(w, r, id, slot);
      HolderMoves(w, r, next, id, slot);
    } else {
      FlightStays(w.runners, r, next, id, slot);
    }
    EventBalances(w.log, e, w.runners, w.runners[r := next], id, slot);
    CountAppends(w.log, e, Marking, id, slot);
  }

  lemma MarkAccounted(w: World, r: int, id: int, slot: int, timely: iset<int>)
    requires LeaseKept(w, id) && SlotAccounted(w, id, slot) && Enabled(w, Mark(r), timely)
    ensures SlotAccounted(Apply(w, Mark(r), timely), id, slot)
  {
    var p, e := w.PhaseOf(r), SlotMarked(w.PhaseOf(r).hold.id, w.PhaseOf(r).hold.slot, w.PhaseOf(r).jobRunId);
    var next := Scanning(p.batch, p.rest);
    if p.hold.id == id {
      HolderFlight(w, r, id, slot);
      HolderMoves(w, r, next, id, slot);
      assert Owns(w.rows, p.batch, p.hold);
      AdvancedIsLeast(p.hold.slot, p.hold.step, p.batch.now);
    } else {
      FlightStays(w.runners, r, next, id, slot);
    }
    EventBalances(w.log, e, w.runners, w.runners[r := next], id, slot);
    CountAppends(w.log, e, Marking, id, slot);
  }

  lemma CrashAccounted(w: World, r: int, id: int, slot: int, timely: iset<int>)
    requires LeaseKept(w, id) && SlotAccounted(w, id, slot) && Enabled(w, Crash(r), timely)
    ensures SlotAccounted(Apply(w, Crash(r), timely), id, slot)
  {
    var p := w.PhaseOf(r);
    if p.Submitted? && p.hold.id == id {
      HolderFlight(w, r, id, slot);
      HolderMoves(w, r, Idle, id, slot);
    } else {
      FlightStays(w.runners, r, Idle, id, slot);
    }
    if p.Submitted? {
      var e := LostBeforeMark(p.hold.id, p.hold.slot);
      EventBalances(w.log, e, w.runners, w.runners[r := Idle], id, slot);
      CountAppends(w.log, e, Marking, id, slot);
    }
  }

  lemma OtherStepAccounted(w: World, a: Action, id: int, slot: int, timely: iset<int>)
    requires a.Scan? || a.Claim? || a.ClaimRaises? || a.SubmitRaises? || a.Clear? || a.Finish?
    requires SlotAccounted(w, id, slot) && Enabled(w, a, timely)
    ensures SlotAccounted(Apply(w, a, timely), id, slot)
  {
    var now := Apply(w, a, timely);
    assert now.runners == w.runners[a.r := now.PhaseOf(a.r)];
    FlightStays(w.runners, a.r, now.PhaseOf(a.r), id, slot);
  }

  lemma SlotStaysAccounted(w: World, a: Action, id: int, slot: int, timely: iset<int>)
    requires LeaseKept(w, id) && SlotAccounted(w, id, slot) && Enabled(w, a, timely)
    ensures SlotAccounted(Apply(w, a, timely), id, slot)
  {
    match a {
      case PassTime(_) =>
      case Create(_, _) =>
      case Patch(_, _, _) =>
      case Submit(r, job) => SubmitAccounted(w, r, job, id, slot, timely);
      case Mark(r) => MarkAccounted(w, r, id, slot, timely);
      case Crash(r) => CrashAccounted(w, r, id, slot, timely);
      case _ => OtherStepAccounted(w, a, id, slot, timely);
    }
  }

  /** What holds of a timely schedule in every state of every run. */
  ghost predicate Sound(w: World, id: int) {
    LeaseKept(w, id) && forall slot :: SlotAccounted(w, id, slot)
  }

  lemma {:induction false} RunsAreSound(actions: seq<Action>, timely: iset<int>, id: int)
    requires IsRun(actions, timely) && id in timely
    ensures Sound(After(actions, timely), id)
  {
    if actions != [] {
      var before, a := actions[..|actions| - 1], actions[|actions| - 1];
      RunsAreSound(before, timely, id);
      LeaseStaysKept(After(before, timely), a, id, timely);
      forall slot ensures SlotAccounted(After(actions, timely), id, slot) {
        SlotStaysAccounted(After(before, timely), a, id, slot, timely);
      }
    } else {
      forall slot ensures SlotAccounted(START, id, slot) {}
    }
  }

  /** Lease safety, schedule by schedule. For any number of runners and any interleaving in
      which every live runner that this schedule concerns finishes before its own lease ends:
      a slot is marked submitted at most once, and is submitted at most once more than runners
      were lost between submitting and marking. No two runners ever hold the schedule. */
  lemma SlotsSubmittedOnce(actions: seq<Action>, timely: iset<int>, id: int, slot: int)
    requires IsRun(actions, timely) && id in timely
    ensures var w := After(actions, timely);
            && Count(w.log, Marking, id, slot) <= 1
            && Count(w.log, Submission, id, slot) <= 1 + Count(w.log, Loss, id, slot)
            && OneHolder(w, id)
  {
    var w := After(actions, timely);
    RunsAreSound(actions, timely, id);
    assert SlotAccounted(w, id, slot);
    if InFlight(w.runners, id, slot) {
      var r :| r in w.runners && Carries(w.runners[r], id, slot);
      assert Holds(w.runners[r], id);
      assert Owns(w.rows, w.runners[r].batch, w.runners[r].hold);
    }
  }

  /** Each mark moves the schedule to the least later slot of the phase it had when claimed,
      strictly past both the slot it submitted and the runner's time. */
  lemma MarkMovesOn(actions: seq<Action>, timely: iset<int>, r: int)
    requires IsRun(actions, timely) && After(actions, timely).PhaseOf(r).Submitted?
    requires After(actions, timely).PhaseOf(r).hold.id in timely
    ensures var w := After(actions, timely);
            var h, now := w.PhaseOf(r).hold, w.PhaseOf(r).batch.now;
            && Enabled(w, Mark(r), timely) && h.id in w.rows && w.rows[h.id].nextRunAt == h.slot
            && var next := Apply(w, Mark(r), timely).rows[h.id].nextRunAt;
            && h.slot < next && now < next
            && (exists k: nat :: next == SlotAt(h.slot, h.step, k))
            && (forall k: nat :: now < SlotAt(h.slot, h.step, k) ==> next <= SlotAt(h.slot, h.step, k))
  {
    var w := After(actions, timely);
    var p := w.PhaseOf(r);
    RunsAreSound(actions, timely, p.hold.id);
    assert Holds(w.runners[r], p.hold.id);
    assert Owns(w.rows, p.batch, p.hold);
    AdvancedIsLeast(p.hold.slot, p.hold.step, p.batch.now);
    var k := StepsPast(p.hold.slot, p.hold.step, p.batch.now);
    assert Advanced(p.hold.slot, p.hold.step, p.batch.now) == SlotAt(p.hold.slot, p.hold.step, k);
  }

  // ----- Phase over whole runs -----

  ghost predicate OnPhase(origin: int, step: int, t: int) {
    exists k: nat :: t == SlotAt(origin, step, k)
  }

  /** From some state on, the schedule's interval is never patched. */
  ghost predicate InPhase(w: World, id: int, origin: int, step: int) {
    && id in w.rows && w.rows[id].interval == step && OnPhase(origin, step, w.rows[id].nextRunAt)
    && forall r :: r in w.runners && Holds(w.runners[r], id) ==> w.runners[r].hold.step == step
  }

  lemma SlotsCompose(origin: int, step: int, i: nat, j: nat)
    ensures SlotAt(SlotAt(origin, step, i), step, j) == SlotAt(origin, step, i + j)
  {
    assert (i + j) * step == i * step + j * step;
  }

  lemma PhaseAdvances(origin: int, step: int, t: int, now: int)
    requires 0 < step && OnPhase(origin, step, t)
    ensures OnPhase(origin, step, Advanced(t, step, now))
  {
    var i: nat :| t == SlotAt(origin, step, i);
    var j := StepsPast(t, step, now);
    SlotsCompose(origin, step, i, j);
    assert Advanced(t, step, now) == SlotAt(origin, step, i + j);
  }

  lemma PhaseKept(w: World, a: Action, id: int, origin: int, step: int, timely: iset<int>)
    requires LeaseKept(w, id) && Enabled(w, a, timely) && 0 < step
    requires InPhase(w, id, origin, step) && !(a.Patch? && a.patchedId == id && a.interval != step)
    ensures InPhase(Apply(w, a, timely), id, origin, step)
    ensures w.rows[id].nextRunAt <= Apply(w, a, timely).rows[id].nextRunAt
    ensures a.Mark? && w.PhaseOf(a.r).hold.id == id ==> w.rows[id].nextRunAt < Apply(w, a, timely).rows[id].nextRunAt
  {
    if a.Mark? && w.PhaseOf(a.r).hold.id == id {
      var p := w.PhaseOf(a.r);
      assert Holds(w.runners[a.r], id);
      assert Owns(w.rows, p.batch, p.hold);
      AdvancedIsLeast(p.hold.slot, p.hold.step, p.batch.now);
      PhaseAdvances(origin, step, p.hold.slot, p.batch.now);
    }
  }

  /** While a schedule's interval is left alone, its next_run_at only rises and every value
      it takes is congruent to the first one. */
  lemma {:induction false} NextRunKeepsPhase(actions: seq<Action>, timely: iset<int>, from: nat, id: int, origin: int,
      step: int)
    requires IsRun(actions, timely) && id in timely && from <= |actions| && 0 < step
    requires IsRun(actions[..from], timely) && InPhase(After(actions[..from], timely), id, origin, step)
    requires forall i :: from <= i < |actions| ==>
               !(actions[i].Patch? && actions[i].patchedId == id && actions[i].interval != step)
    ensures InPhase(After(actions, timely), id, origin, step)
    ensures After(actions[..from], timely).rows[id].nextRunAt <= After(actions, timely).rows[id].nextRunAt
  {
    if from == |actions| {
      assert actions[..from] == actions;
    } else {
      var before := actions[..|actions| - 1];
      assert before[..from] == actions[..from];
      NextRunKeepsPhase(before, timely, from, id, origin, step);
      RunsAreSound(before, timely, id);
      PhaseKept(After(before, timely), actions[|actions| - 1], id, origin, step, timely);
    }
  }

  // ----- Why the assumption is needed -----

  lemma AddStep(actions: seq<Action>, w: World, a: Action) returns (longer: seq<Action>, next: World)
    requires IsRun(actions, iset{}) && After(actions, iset{}) == w && Enabled(w, a, iset{})
    ensures longer == actions + [a] && IsRun(longer, iset{})
    ensures next == Apply(w, a, iset{}) == After(longer, iset{})
  {
    RunExtends(actions, a, iset{});
    longer, next := actions + [a], Apply(w, a, iset{});
  }

  /** Runner 1 claims, its lease runs out, and runner 2 claims the same slot. */
  lemma BothClaim() returns (actions: seq<Action>)
    ensures IsRun(actions, iset{})
    ensures var w := After(actions, iset{});
            && 1 in w.rows && w.log == []
            && w.PhaseOf(1) == Claimed(Batch(0, 1, "a"), [], Hold(1, 0, 60))
            && w.PhaseOf(2) == Claimed(Batch(1, 301, "b"), [], Hold(1, 0, 60))
  {
    var due := Schedule(true, 60, 0, None, None, None, None);
    var w;
    actions, w := AddStep([], START, Create(1, due));
    assert w.rows == map[1 := due];
    actions, w := AddStep(actions, w, Scan(1, Batch(0, 1, "a"), [1]));
    actions, w := AddStep(actions, w, Claim(1));
    assert [1][1..] == [];
    assert w.rows[1] == due.(lockedUntil := Some(1), lockedBy := Some("a"));
    actions, w := AddStep(actions, w, PassTime(1));
    actions, w := AddStep(actions, w, Scan(2, Batch(1, 301, "b"), [1]));
    actions, w := AddStep(actions, w, Claim(2));
  }

  /** A runner that outlives its lease breaks the guarantee: because the final update does not
      check who holds the lock, one slot is submitted twice and marked twice, and nobody crashed. */
  lemma OverrunMarksTwice() returns (actions: seq<Action>)
    ensures IsRun(actions, iset{})
    ensures After(actions, iset{}).log
         == [JobSubmitted(1, 0), JobSubmitted(1, 0), SlotMarked(1, 0, 10), SlotMarked(1, 0, 11)]
  {
    actions := BothClaim();
    var w := After(actions, iset{});
    actions, w := AddStep(actions, w, Submit(1, 10));
    actions, w := AddStep(actions, w, Submit(2, 11));
    actions, w := AddStep(actions, w, Mark(1));
    actions, w := AddStep(actions, w, Mark(2));
  }

  // ----- The assumption is tight -----

  /** In every run, timely or not, intervals and held steps are positive. */
  ghost predicate StepsPositive(w: World) {
    && (forall id :: id in w.rows ==> 0 < w.rows[id].interval)
    && (forall r :: r in w.runners && Holding(w.runners[r]) ==> 0 < w.runners[r].hold.step)
  }

  lemma StepsStayPositive(w: World, a: Action, timely: iset<int>)
    requires StepsPositive(w) && Enabled(w, a, timely)
    ensures StepsPositive(Apply(w, a, timely))
  {
  }

  lemma {:induction false} StepsArePositive(actions: seq<Action>, timely: iset<int>)
    requires IsRun(actions, timely)
    ensures StepsPositive(After(actions, timely))
  {
    if actions != [] {
      var before := actions[..|actions| - 1];
      StepsArePositive(before, timely);
      StepsStayPositive(After(before, timely), actions[|actions| - 1], timely);
    }
  }

  /** `longer` goes on from `actions`, and nobody crashes. */
  ghost predicate GoesOn(actions: seq<Action>, longer: seq<Action>) {
    actions <= longer && forall i :: |actions| <= i < |longer| ==> !longer[i].Crash?
  }

  /** What another runner's work on other schedules leaves to the holder of this one. */
  ghost predicate Untouched(w: World, now: World, r: int, id: int, slot: int) {
    && now.clock == w.clock && now.PhaseOf(r) == w.PhaseOf(r) && id in w.rows && id in now.rows
    && now.rows[id] == w.rows[id] && Count(now.log, Marking, id, slot) == Count(w.log, Marking, id, slot)
  }

  /** The claimed job is submitted, whichever schedule it is for. */
  lemma SubmitOne(actions: seq<Action>, r: int, id: int, slot: int) returns (longer: seq<Action>)
    requires IsRun(actions, iset{}) && After(actions, iset{}).PhaseOf(r).Claimed?
    ensures IsRun(longer, iset{}) && GoesOn(actions, longer)
    ensures var w, now := After(actions, iset{}), After(longer, iset{});
            var Claimed(b, rest, h) := w.PhaseOf(r);
            && now.rows == w.rows && now.clock == w.clock
            && now.runners == w.runners[r := Phase.Submitted(b, rest, h, 0)]
            && Count(now.log, Marking, id, slot) == Count(w.log, Marking, id, slot)
  {
    var w := After(actions, iset{});
    var h, v := w.PhaseOf(r).hold, w;
    longer, v := AddStep(actions, w, Submit(r, 0));
    CountAppends(w.log, JobSubmitted(h.id, h.slot), Marking, id, slot);
  }

  /** A submitted job is marked; the row of another schedule and its slots do not notice. */
  lemma MarkOne(actions: seq<Action>, r: int, id: int, slot: int) returns (longer: seq<Action>)
    requires IsRun(actions, iset{}) && After(actions, iset{}).PhaseOf(r).Submitted?
    ensures IsRun(longer, iset{}) && GoesOn(actions, longer)
    ensures var w, now := After(actions, iset{}), After(longer, iset{});
            var p := w.PhaseOf(r);
            && now.clock == w.clock && now.runners == w.runners[r := Scanning(p.batch, p.rest)]
            && (p.hold.id != id && id in w.rows ==> id in now.rows && now.rows[id] == w.rows[id])
            && Count(now.log, Marking, id, slot)
               == Count(w.log, Marking, id, slot) + if p.hold.id == id && p.hold.slot == slot then 1 else 0
  {
    var w := After(actions, iset{});
    var h, job, v := w.PhaseOf(r).hold, w.PhaseOf(r).jobRunId, w;
    StepsArePositive(actions, iset{});
    longer, v := AddStep(actions, w, Mark(r));
    CountAppends(w.log, SlotMarked(h.id, h.slot, job), Marking, id, slot);
  }

  lemma ClaimHead(actions: seq<Action>, q: int) returns (longer: seq<Action>)
    requires IsRun(actions, iset{})
    requires var p := After(actions, iset{}).PhaseOf(q); p.Scanning? && p.rest != []
    ensures IsRun(longer, iset{}) && GoesOn(actions, longer)
    ensures var w, now := After(actions, iset{}), After(longer, iset{});
            var b, head, rest := w.PhaseOf(q).batch, w.PhaseOf(q).rest[0], w.PhaseOf(q).rest[1..];
            && now.clock == w.clock && now.log == w.log
            && (forall id :: id in w.rows && id != head ==> id in now.rows && now.rows[id] == w.rows[id])
            && if CanAcquire(w.rows, head, b.now) then
                 var hold := Hold(head, w.rows[head].nextRunAt, w.rows[head].interval);
                 now.runners == w.runners[q := Claimed(b, rest, hold)]
               else now.runners == w.runners[q := Scanning(b, rest)]
  {
    var w, v := After(actions, iset{}), After(actions, iset{});
    longer, v := AddStep(actions, w, Claim(q));
  }

  /** Runner `q` gets the head of its list, some other schedule, out of its way. */
  lemma PassHead(actions: seq<Action>, q: int, r: int, id: int, slot: int) returns (longer: seq<Action>)
    requires IsRun(actions, iset{}) && q != r
    requires var p := After(actions, iset{}).PhaseOf(q); p.Scanning? && p.rest != [] && p.rest[0] != id
    requires id in After(actions, iset{}).rows
    ensures IsRun(longer, iset{}) && GoesOn(actions, longer)
    ensures Untouched(After(actions, iset{}), After(longer, iset{}), r, id, slot)
    ensures var p := After(actions, iset{}).PhaseOf(q);
            After(longer, iset{}).PhaseOf(q) == Scanning(p.batch, p.rest[1..])
  {
    longer := ClaimHead(actions, q);
    if After(longer, iset{}).PhaseOf(q).Claimed? {
      longer := SubmitOne(longer, q, id, slot);
      longer := MarkOne(longer, q, id, slot);
    }
  }

  /** Runner `q` works through its list until this schedule is next. */
  lemma {:induction false} ReachHead(actions: seq<Action>, q: int, r: int, id: int, slot: int)
    returns (longer: seq<Action>)
    requires IsRun(actions, iset{}) && q != r && id in After(actions, iset{}).rows
    requires After(actions, iset{}).PhaseOf(q).Scanning? && id in After(actions, iset{}).PhaseOf(q).rest
    ensures IsRun(longer, iset{}) && GoesOn(actions, longer)
    ensures Untouched(After(actions, iset{}), After(longer, iset{}), r, id, slot)
    ensures var p := After(longer, iset{}).PhaseOf(q);
            p.Scanning? && p.batch == After(actions, iset{}).PhaseOf(q).batch && p.rest != [] && p.rest[0] == id
    decreases |After(actions, iset{}).PhaseOf(q).rest|
  {
    if After(actions, iset{}).PhaseOf(q).rest[0] == id {
      longer := actions;
    } else {
      var passed := PassHead(actions, q, r, id, slot);
      longer := ReachHead(passed, q, r, id, slot);
    }
  }

  /** A holder gets its slot marked, whether it has submitted already or not. */
  lemma HolderMarks(actions: seq<Action>, r: int, q: int, id: int, slot: int) returns (longer: seq<Action>)
    requires IsRun(actions, iset{}) && q != r
    requires var p := After(actions, iset{}).PhaseOf(r);
             (p.Claimed? || p.Submitted?) && p.hold.id == id && p.hold.slot == slot
    ensures IsRun(longer, iset{}) && GoesOn(actions, longer)
    ensures var w, now := After(actions, iset{}), After(longer, iset{});
            && now.PhaseOf(q) == w.PhaseOf(q)
            && Count(now.log, Marking, id, slot) == Count(w.log, Marking, id, slot) + 1
  {
    longer := actions;
    if After(actions, iset{}).PhaseOf(r).Claimed? {
      longer := SubmitOne(actions, r, id, slot);
    }
    longer := MarkOne(longer, r, id, slot);
  }

  /** An idle runner can claim whatever is free for the taking. */
  lemma ClaimAlongside(actions: seq<Action>, q: int, r: int, id: int, slot: int) returns (longer: seq<Action>)
    requires IsRun(actions, iset{}) && q != r && After(actions, iset{}).PhaseOf(q) == Idle
    requires var w := After(actions, iset{}); CanAcquire(w.rows, id, w.clock) && w.rows[id].nextRunAt == slot
    ensures IsRun(longer, iset{}) && GoesOn(actions, longer)
    ensures var w, now := After(actions, iset{}), After(longer, iset{});
            && now.PhaseOf(r) == w.PhaseOf(r) && now.PhaseOf(q).Claimed?
            && now.PhaseOf(q).hold.id == id && now.PhaseOf(q).hold.slot == slot
            && Count(now.log, Marking, id, slot) == Count(w.log, Marking, id, slot)
  {
    var w := After(actions, iset{});
    ListDueIsDueList(w.rows, w.clock);
    var v;
    longer, v := AddStep(actions, w, Scan(q, Batch(w.clock, w.clock + 1, "late"), ListDue(w.rows, w.clock)));
    longer := ReachHead(longer, q, r, id, slot);
    longer := ClaimHead(longer, q);
  }

  /** Tight, in every state of every run: if the row of a schedule is free for the taking while
      a live runner still holds it and it still shows the held slot, then with any idle runner
      and without a crash that slot is marked twice more. Only the lease keeps others out. */
  lemma OverrunCanMarkTwice(actions: seq<Action>, r: int, q: int) returns (longer: seq<Action>)
    requires IsRun(actions, iset{})
    requires var p := After(actions, iset{}).PhaseOf(r); p.Claimed? || p.Submitted?
    requires q != r && After(actions, iset{}).PhaseOf(q) == Idle
    requires var w := After(actions, iset{});
             var h := w.PhaseOf(r).hold;
             CanAcquire(w.rows, h.id, w.clock) && w.rows[h.id].nextRunAt == h.slot
    ensures IsRun(longer, iset{}) && GoesOn(actions, longer)
    ensures var w := After(actions, iset{});
            var h := w.PhaseOf(r).hold;
            Count(After(longer, iset{}).log, Marking, h.id, h.slot) == Count(w.log, Marking, h.id, h.slot) + 2
  {
    var h := After(actions, iset{}).PhaseOf(r).hold;
    var id, slot := h.id, h.slot;
    longer := ClaimAlongside(actions, q, r, id, slot);
    longer := HolderMarks(longer, r, q, id, slot);
    longer := HolderMarks(longer, q, r, id, slot);
  }
}
