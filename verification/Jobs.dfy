/** One job run under single delivery: the executor of jobs/runtime.py with its workflow audit
    row (workflows/runner.py) and, for a market-data sync, its sync row and bar store
    (data/sync.py), interleaved with cancel requests (jobs/cancellation.py) and with the
    submitter's late update (jobs/service.py). One step is one transaction or one outside call. */
module Jobs {
  import opened Wrappers
  import opened Models
  import opened MarketData

  datatype Status = Queued | Running | CancelRequested | Succeeded | Failed | Cancelled

  predicate Terminal(s: Status) {
    s == Succeeded || s == Failed || s == Cancelled
  }

  datatype EventType =
    | QueuedEvent | EnqueuedEvent | RunningEvent | ProgressEvent | CancelRequestedEvent
    | SucceededEvent | FailedEvent | CancelledEvent

  datatype JobEvent = JobEvent(eventType: EventType, progress: int)

  datatype AuditStatus = AuditRunning | AuditSucceeded | AuditFailed

  datatype SyncRow = SyncRow(status: AuditStatus, importedBars: int)

  /** The rows the job touches; an audit row that does not exist yet is None. */
  datatype Tables = Tables(
    status: Status, progress: int, enqueued: bool, log: seq<JobEvent>,
    workflow: Option<AuditStatus>, sync: Option<SyncRow>, rows: seq<BarRow>)

  /** `Plain` stands for the job types that check for cancellation once and then do all
      their work in one call. */
  datatype JobKind = Sync | Plain | Unsupported

  /** Where the executor is. `Raised(c)`: an exception is on its way out, `c` if it is JobCancelled. */
  datatype Pc =
    | NotStarted | Started | InCallback | PlainWork
    | Opened | Checked | Fetching | Fetched | Rechecked | Storing(done: nat) | Committing
    | SyncRaised(cancelled: bool) | Raised(cancelled: bool) | Failing(cancelled: bool)
    | Returned | Succeeding | Finished

  /** `bars` is what the provider delivered, `passed` how many cancellation checks the executor
      got through, `cancelAt` that number when the first cancel request was committed. */
  datatype World = World(t: Tables, kind: JobKind, pc: Pc, bars: seq<Bar>, passed: nat, cancelAt: Option<nat>)

  /** What the executor's next step meets: nothing unusual, an exception, or delivered bars. */
  datatype Choice = Proceed | Raise | Deliver(bars: seq<Bar>)

  datatype Action = Cancel | MarkEnqueued | Execute(choice: Choice)

  function Submitted(kind: JobKind, rows: seq<BarRow>): World {
    World(Tables(Queued, 0, false, [JobEvent(QueuedEvent, 0)], None, None, rows), kind, NotStarted, [], 0, None)
  }

  // ----- Row updates -----

  function Recorded(t: Tables, e: EventType): Tables {
    t.(log := t.log + [JobEvent(e, t.progress)])
  }

  function MarkedRunning(t: Tables): Tables {
    Recorded(t.(status := Running, progress := 10), RunningEvent)
  }

  function ProgressRecorded(t: Tables, progress: int): Tables {
    Recorded(t.(progress := progress), ProgressEvent)
  }

  function MarkedSucceeded(t: Tables): Tables {
    Recorded(t.(status := Succeeded, progress := 100), SucceededEvent)
  }

  function MarkedFailed(t: Tables): Tables {
    Recorded(t.(status := Failed), FailedEvent)
  }

  function MarkedCancelled(t: Tables): Tables {
    Recorded(t.(status := Cancelled), CancelledEvent)
  }

  function EnqueueMarked(t: Tables): Tables {
    Recorded(t.(enqueued := true), EnqueuedEvent)
  }

  /** A cancel request is refused on a terminal job. */
  function CancelApplied(t: Tables): Tables {
    if Terminal(t.status) then t
    else if t.status == Queued then MarkedCancelled(t)
    else Recorded(t.(status := CancelRequested), CancelRequestedEvent)
  }

  predicate SeesCancel(t: Tables) {
    t.status == CancelRequested || t.status == Cancelled
  }

  /** The final transaction of a sync: all bars and the sync row, or nothing. */
  function Committed(t: Tables, bars: seq<Bar>): Tables {
    t.(rows := UpsertAll(t.rows, bars), sync := Some(SyncRow(AuditSucceeded, |bars|)))
  }

  function SyncFailed(t: Tables): Tables {
    t.(sync := Some(SyncRow(AuditFailed, if t.sync.Some? then t.sync.value.importedBars else 0)))
  }

  // ----- Steps -----

  /** `validate_bars` only lets batches through that name no (instrument, date) twice. */
  ghost predicate Validated(bars: seq<Bar>) {
    forall k :: 0 <= k < |bars| ==> !RepeatsBy(bars, k)
  }

  ghost predicate Enabled(w: World, a: Action) {
    match a
    case Cancel => true
    case MarkEnqueued => !w.t.enqueued
    case Execute(c) =>
      match w.pc
      case Finished => false
      case Fetching => c == Raise || (c.Deliver? && Validated(c.bars))
      case Started => c == Proceed
      case InCallback => c == Proceed || c == Raise
      case PlainWork => c == Proceed || c == Raise
      case Storing(_) => c == Proceed || c == Raise
      case Committing => c == Proceed || c == Raise
      case _ => c == Proceed
  }

  /** A cancellation check: go on, or raise JobCancelled. */
  function Check(w: World, next: Pc, raised: Pc): World {
    if SeesCancel(w.t) then w.(pc := raised) else w.(pc := next, passed := w.passed + 1)
  }

  function ExecuteStep(w: World, c: Choice): World {
    match w.pc
    case NotStarted =>
      if w.t.status == Cancelled then w.(pc := Finished) else w.(t := MarkedRunning(w.t), pc := Started)
    case Started =>
      if w.kind == Unsupported then w.(pc := Failing(false))
      else w.(t := w.t.(workflow := Some(AuditRunning)), pc := InCallback)
    case InCallback =>
      if c == Raise then w.(pc := Raised(false))
      else if w.kind == Plain then Check(w, PlainWork, Raised(true))
      else w.(t := w.t.(sync := Some(SyncRow(AuditRunning, 0))), pc := Opened)
    case PlainWork => w.(pc := if c == Raise then Raised(false) else Returned)
    case Opened => Check(w, Checked, SyncRaised(true))
    case Checked => w.(t := ProgressRecorded(w.t, 20), pc := Fetching)
    case Fetching => if c.Deliver? then w.(bars := SortByDate(c.bars), pc := Fetched) else w.(pc := SyncRaised(false))
    case Fetched => Check(w, Rechecked, SyncRaised(true))
    case Rechecked => w.(t := ProgressRecorded(w.t, 50), pc := Storing(0))
    case Storing(done) =>
      if c == Raise then w.(pc := SyncRaised(false))
      else if done < |w.bars| then Check(w, Storing(done + 1), SyncRaised(true))
      else w.(t := ProgressRecorded(w.t, 90), pc := Committing)
    case Committing =>
      if c == Raise then w.(pc := SyncRaised(false)) else w.(t := Committed(w.t, w.bars), pc := Returned)
    case SyncRaised(x) => w.(t := SyncFailed(w.t), pc := Raised(x))
    case Raised(x) => w.(t := w.t.(workflow := Some(AuditFailed)), pc := Failing(x))
    case Failing(x) => w.(t := if x then MarkedCancelled(w.t) else MarkedFailed(w.t), pc := Finished)
    case Returned => w.(t := w.t.(workflow := Some(AuditSucceeded)), pc := Succeeding)
    case Succeeding => w.(t := MarkedSucceeded(w.t), pc := Finished)
    case Finished => w
  }

  function Apply(w: World, a: Action): World {
    match a
    case Cancel =>
      w.(t := CancelApplied(w.t),
         cancelAt := if w.cancelAt.None? && !Terminal(w.t.status) then Some(w.passed) else w.cancelAt)
    case MarkEnqueued => w.(t := EnqueueMarked(w.t))
    case Execute(c) => ExecuteStep(w, c)
  }

  ghost predicate IsRun(start: World, actions: seq<Action>) {
    actions == [] ||
    (IsRun(start, actions[..|actions| - 1]) && Enabled(After(start, actions[..|actions| - 1]), actions[|actions| - 1]))
  }

  function After(start: World, actions: seq<Action>): World {
    if actions == [] then start else Apply(After(start, actions[..|actions| - 1]), actions[|actions| - 1])
  }

  lemma RunExtends(start: World, actions: seq<Action>, a: Action)
    requires IsRun(start, actions) && Enabled(After(start, actions), a)
    ensures IsRun(start, actions + [a]) && After(start, actions + [a]) == Apply(After(start, actions), a)
  {
    assert (actions + [a])[..|actions|] == actions;
  }

  // ----- Lifecycle -----

  predicate TerminalEvent(e: EventType) {
    e == SucceededEvent || e == FailedEvent || e == CancelledEvent
  }

  function EventOf(s: Status): EventType {
    match s
    case Queued => QueuedEvent
    case Running => RunningEvent
    case CancelRequested => CancelRequestedEvent
    case Succeeded => SucceededEvent
    case Failed => FailedEvent
    case Cancelled => CancelledEvent
  }

  function TerminalEvents(log: seq<JobEvent>): seq<EventType> {
    if log == [] then []
    else
      var last := log[|log| - 1].eventType;
      TerminalEvents(log[..|log| - 1]) + if TerminalEvent(last) then [last] else []
  }

  /** The most progress the executor can have reported by then. */
  function Cap(pc: Pc): int {
    match pc
    case NotStarted => 0
    case Started => 10
    case InCallback => 10
    case PlainWork => 10
    case Opened => 10
    case Checked => 10
    case Fetching => 20
    case Fetched => 20
    case Rechecked => 20
    case Storing(_) => 50
    case Finished => 100
    case _ => 90
  }

  ghost predicate ProgressRises(log: seq<JobEvent>, progress: int) {
    && (forall i, j :: 0 <= i < j < |log| ==> log[i].progress <= log[j].progress)
    && (forall i :: 0 <= i < |log| ==> log[i].progress <= progress)
  }

  /** Job status and progress follow the executor's position. */
  ghost predicate PositionKept(w: World) {
    && (w.pc == NotStarted ==> w.t.status == Queued || w.t.status == Cancelled)
    && (w.pc == Finished ==> Terminal(w.t.status))
    && (w.pc != NotStarted && w.pc != Finished ==> w.t.status == Running || w.t.status == CancelRequested)
    && w.t.progress <= Cap(w.pc)
  }

  /** The log holds the terminal event of a terminal job and no other, and progress never falls. */
  ghost predicate LogKept(t: Tables) {
    && TerminalEvents(t.log) == (if Terminal(t.status) then [EventOf(t.status)] else [])
    && ProgressRises(t.log, t.progress)
  }

  ghost predicate LifecycleKept(w: World) {
    PositionKept(w) && LogKept(w.t)
  }

  lemma ExecuteKeepsPosition(w: World, c: Choice)
    requires PositionKept(w) && Enabled(w, Execute(c))
    ensures PositionKept(ExecuteStep(w, c))
    ensures Terminal(w.t.status) ==> ExecuteStep(w, c).t.status == w.t.status
    ensures w.t.progress <= ExecuteStep(w, c).t.progress
  {
  }

  lemma PositionStaysKept(w: World, a: Action)
    requires PositionKept(w) && Enabled(w, a)
    ensures PositionKept(Apply(w, a))
    ensures Terminal(w.t.status) ==> Apply(w, a).t.status == w.t.status
    ensures w.t.progress <= Apply(w, a).t.progress
  {
    if a.Execute? {
      ExecuteKeepsPosition(w, a.choice);
    }
  }

  /** A step logs nothing and keeps the job's terminality, or logs one event with the
      progress it leaves; that event is terminal exactly when the step ends the job. */
  ghost predicate StepLogs(t: Tables, now: Tables) {
    || (now.log == t.log && Terminal(now.status) == Terminal(t.status))
    || (&& |now.log| == |t.log| + 1
        && var e := now.log[|t.log|];
        && now.log == t.log + [e] && e.progress == now.progress
        && (TerminalEvent(e.eventType) <==> Terminal(now.status) && !Terminal(t.status))
        && (TerminalEvent(e.eventType) ==> e.eventType == EventOf(now.status)))
  }

  lemma ExecuteLogs(w: World, c: Choice)
    requires PositionKept(w) && Enabled(w, Execute(c))
    ensures StepLogs(w.t, ExecuteStep(w, c).t)
  {
  }

  lemma LogGrows(log: seq<JobEvent>, e: JobEvent, progress: int)
    requires ProgressRises(log, progress) && progress <= e.progress
    ensures ProgressRises(log + [e], e.progress)
    ensures TerminalEvents(log + [e]) == TerminalEvents(log) + if TerminalEvent(e.eventType) then [e.eventType] else []
  {
    assert (log + [e])[..|log|] == log;
  }

  lemma LogStaysKept(t: Tables, now: Tables)
    requires LogKept(t) && StepLogs(t, now) && t.progress <= now.progress
    requires Terminal(t.status) ==> now.status == t.status
    ensures LogKept(now)
  {
    if now.log != t.log {
      assert now.log[..|t.log|] == t.log;
      LogGrows(t.log, now.log[|t.log|], t.progress);
    }
  }

  lemma LifecycleStaysKept(w: World, a: Action)
    requires LifecycleKept(w) && Enabled(w, a)
    ensures LifecycleKept(Apply(w, a))
    ensures Terminal(w.t.status) ==> Apply(w, a).t.status == w.t.status
  {
    PositionStaysKept(w, a);
    if a.Execute? {
      ExecuteLogs(w, a.choice);
    }
    LogStaysKept(w.t, Apply(w, a).t);
  }

  lemma {:induction false} LifecycleHolds(kind: JobKind, rows: seq<BarRow>, actions: seq<Action>)
    requires IsRun(Submitted(kind, rows), actions)
    ensures LifecycleKept(After(Submitted(kind, rows), actions))
  {
    if actions != [] {
      var before := actions[..|actions| - 1];
      LifecycleHolds(kind, rows, before);
      LifecycleStaysKept(After(Submitted(kind, rows), before), actions[|actions| - 1]);
    } else {
      assert [JobEvent(QueuedEvent, 0)][..0] == [];
    }
  }

  /** Over every interleaving: a terminal status is final, the log names exactly that status
      exactly once (and names none before), and logged progress never decreases. */
  lemma {:induction false} TerminalIsFinal(kind: JobKind, rows: seq<BarRow>, actions: seq<Action>, from: nat)
    requires IsRun(Submitted(kind, rows), actions) && from <= |actions|
    ensures IsRun(Submitted(kind, rows), actions[..from])
    ensures var t, before := After(Submitted(kind, rows), actions).t, After(Submitted(kind, rows), actions[..from]).t;
            && LogKept(t) && before.log <= t.log
            && (Terminal(before.status) ==> t.status == before.status)
  {
    LifecycleHolds(kind, rows, actions);
    if from == |actions| {
      assert actions[..from] == actions;
    } else {
      var shorter, w := actions[..|actions| - 1], After(Submitted(kind, rows), actions[..|actions| - 1]);
      assert shorter[..from] == actions[..from];
      TerminalIsFinal(kind, rows, shorter, from);
      LifecycleHolds(kind, rows, shorter);
      LifecycleStaysKept(w, actions[|actions| - 1]);
      if actions[|actions| - 1].Execute? {
        ExecuteLogs(w, actions[|actions| - 1].choice);
      }
    }
  }

  /** Once the status is terminal the log can still gain the submitter's late "enqueued"
      event, once, and nothing else. */
  lemma {:induction false} OnlyEnqueuedFollows(kind: JobKind, rows: seq<BarRow>, actions: seq<Action>, from: nat)
    requires IsRun(Submitted(kind, rows), actions) && from <= |actions|
    requires Terminal(After(Submitted(kind, rows), actions[..from]).t.status)
    ensures var t, before := After(Submitted(kind, rows), actions).t, After(Submitted(kind, rows), actions[..from]).t;
            && (before.enqueued ==> t.enqueued)
            && (if t.enqueued && !before.enqueued then
                  |t.log| == |before.log| + 1 && before.log <= t.log && t.log[|before.log|].eventType == EnqueuedEvent
                else t.log == before.log)
  {
    if from == |actions| {
      assert actions[..from] == actions;
    } else {
      var shorter := actions[..|actions| - 1];
      assert shorter[..from] == actions[..from];
      OnlyEnqueuedFollows(kind, rows, shorter, from);
      TerminalIsFinal(kind, rows, shorter, from);
      LifecycleHolds(kind, rows, shorter);
    }
  }

  // ----- Cancellation and audit -----

  function ChecksBefore(w: World): nat {
    match w.pc
    case NotStarted => 0
    case Started => 0
    case InCallback => 0
    case Opened => 0
    case Checked => 1
    case Fetching => 1
    case Fetched => 1
    case Rechecked => 2
    case Storing(done) => 2 + done
    case _ => AllChecks(w)
  }

  /** How many checks a run that succeeds goes through. */
  function AllChecks(w: World): nat {
    if w.kind == Sync then 2 + |w.bars| else 1
  }

  predicate Straight(pc: Pc) {
    !pc.SyncRaised? && !pc.Raised? && !pc.Failing?
  }

  predicate SyncOnly(pc: Pc) {
    || pc.Opened? || pc.Checked? || pc.Fetching? || pc.Fetched? || pc.Rechecked?
    || pc.Storing? || pc.Committing? || pc.SyncRaised?
  }

  /** No exception is on its way, and the job has not ended badly. */
  predicate OnTrack(w: World) {
    Straight(w.pc) && (w.pc.Finished? ==> w.t.status == Succeeded)
  }

  /** On the straight path the executor has passed the checks its position implies, and none
      of them since a cancel request was committed; nothing is cancelled without a request. */
  ghost predicate CancelKept(w: World) {
    && (SyncOnly(w.pc) ==> w.kind == Sync)
    && (w.pc.PlainWork? ==> w.kind == Plain)
    && (w.pc.InCallback? ==> w.kind != Unsupported)
    && (w.pc.Storing? ==> w.pc.done <= |w.bars|)
    && (OnTrack(w) ==> w.passed == ChecksBefore(w))
    && (OnTrack(w) && w.cancelAt.Some? ==> w.cancelAt.value == w.passed)
    && (w.cancelAt.Some? ==> w.t.status == CancelRequested || Terminal(w.t.status))
    && (SeesCancel(w.t) || w.pc == SyncRaised(true) || w.pc == Raised(true) || w.pc == Failing(true) ==>
          w.cancelAt.Some?)
  }

  lemma RequestKeepsCancel(w: World, a: Action)
    requires PositionKept(w) && CancelKept(w) && !a.Execute?
    ensures CancelKept(Apply(w, a))
  {
  }

  lemma CheckKeepsCancel(w: World, c: Choice)
    requires PositionKept(w) && CancelKept(w) && Enabled(w, Execute(c))
    requires w.pc.InCallback? || w.pc.Opened? || w.pc.Fetched? || w.pc.Storing?
    ensures CancelKept(ExecuteStep(w, c))
  {
  }

  lemma CancelStaysKept(w: World, a: Action)
    requires PositionKept(w) && CancelKept(w) && Enabled(w, a)
    ensures CancelKept(Apply(w, a))
  {
    if !a.Execute? {
      RequestKeepsCancel(w, a);
    } else if w.pc.InCallback? || w.pc.Opened? || w.pc.Fetched? || w.pc.Storing? {
      CheckKeepsCancel(w, a.choice);
    }
  }

  /** The store and the audit rows, position by position. `start` is the bar table before. */
  ghost predicate AuditKept(w: World, start: seq<BarRow>) {
    && (w.bars != [] ==> exists delivered :: Validated(delivered) && w.bars == SortByDate(delivered))
    && (match w.pc
        case NotStarted => w.t.rows == start && w.t.workflow == None && w.t.sync == None
        case Started => w.t.rows == start && w.t.workflow == None && w.t.sync == None
        case InCallback => w.t.rows == start && w.t.workflow == Some(AuditRunning) && w.t.sync == None
        case PlainWork => w.t.rows == start && w.t.workflow == Some(AuditRunning) && w.t.sync == None
        case Raised(_) => w.t.rows == start && w.t.workflow == Some(AuditRunning) && SyncNotRunning(w.t)
        case Failing(_) => w.t.rows == start && w.t.workflow != Some(AuditRunning) && SyncNotRunning(w.t)
        case Returned => w.t.workflow == Some(AuditRunning) && Done(w, start)
        case Succeeding => w.t.workflow == Some(AuditSucceeded) && Done(w, start)
        case Finished =>
          if w.t.status == Succeeded then w.t.workflow == Some(AuditSucceeded) && Done(w, start)
          else w.t.rows == start && w.t.workflow != Some(AuditRunning) && SyncNotRunning(w.t)
        case _ => w.t.rows == start && w.t.workflow == Some(AuditRunning) && w.t.sync == Some(SyncRow(AuditRunning, 0)))
  }

  ghost predicate SyncNotRunning(t: Tables) {
    t.sync == None || t.sync.value.status == AuditFailed
  }

  ghost predicate Done(w: World, start: seq<BarRow>) {
    if w.kind == Sync then
      w.t.rows == UpsertAll(start, w.bars) && w.t.sync == Some(SyncRow(AuditSucceeded, |w.bars|))
    else w.t.rows == start && w.t.sync == None
  }

  lemma RequestKeepsAudit(w: World, a: Action, start: seq<BarRow>)
    requires PositionKept(w) && AuditKept(w, start) && !a.Execute?
    ensures AuditKept(Apply(w, a), start)
  {
  }

  lemma DeliveryKeepsAudit(w: World, c: Choice, start: seq<BarRow>)
    requires w.pc.Fetching? && AuditKept(w, start) && Enabled(w, Execute(c))
    ensures AuditKept(ExecuteStep(w, c), start)
  {
  }

  lemma EndKeepsAudit(w: World, c: Choice, start: seq<BarRow>)
    requires w.pc.Raised? || w.pc.Failing? || w.pc.Returned? || w.pc.Succeeding? || w.pc.SyncRaised? || w.pc.Committing?
    requires PositionKept(w) && CancelKept(w) && AuditKept(w, start) && Enabled(w, Execute(c))
    ensures AuditKept(ExecuteStep(w, c), start)
  {
  }

  lemma AuditStaysKept(w: World, a: Action, start: seq<BarRow>)
    requires PositionKept(w) && CancelKept(w) && AuditKept(w, start) && Enabled(w, a)
    ensures AuditKept(Apply(w, a), start)
  {
    if !a.Execute? {
      RequestKeepsAudit(w, a, start);
    } else if w.pc.Fetching? {
      DeliveryKeepsAudit(w, a.choice, start);
    } else if w.pc.Raised? || w.pc.Failing? || w.pc.Returned? || w.pc.Succeeding? || w.pc.SyncRaised?
        || w.pc.Committing? {
      EndKeepsAudit(w, a.choice, start);
    }
  }

  lemma {:induction false} AuditHolds(kind: JobKind, rows: seq<BarRow>, actions: seq<Action>)
    requires IsRun(Submitted(kind, rows), actions)
    ensures var w := After(Submitted(kind, rows), actions);
            w.kind == kind && PositionKept(w) && CancelKept(w) && AuditKept(w, rows)
  {
    if actions != [] {
      var before, a := actions[..|actions| - 1], actions[|actions| - 1];
      AuditHolds(kind, rows, before);
      PositionStaysKept(After(Submitted(kind, rows), before), a);
      CancelStaysKept(After(Submitted(kind, rows), before), a);
      AuditStaysKept(After(Submitted(kind, rows), before), a, rows);
    }
  }

  lemma ValidatedDistinct(bars: seq<Bar>)
    requires Validated(bars)
    ensures IdentitiesDistinct(SortByDate(bars))
  {
    forall i, j | 0 <= i < j < |bars| ensures IdentityOf(bars[i]) != IdentityOf(bars[j]) {
      assert !RepeatsBy(bars, j);
    }
    SortKeepsDistinct(bars);
  }

  /** In every interleaving of one execution with any number of cancel requests: a succeeded
      sync left both audit rows succeeded, the imported count right and every bar readable;
      a failed or cancelled job left the bar table as it was and no audit row running; only a
      request cancels a job; and a request committed before the executor's last check never
      ends in success. */
  lemma CancellationAndAuditAgree(kind: JobKind, rows: seq<BarRow>, actions: seq<Action>)
    requires IsRun(Submitted(kind, rows), actions) && KeysUnique(rows)
    ensures var w := After(Submitted(kind, rows), actions);
            && (w.t.status == Succeeded ==> w.t.workflow == Some(AuditSucceeded))
            && (w.t.status == Succeeded && kind == Sync ==>
                  && w.t.sync == Some(SyncRow(AuditSucceeded, |w.bars|))
                  && w.t.rows == UpsertAll(rows, w.bars)
                  && forall i :: 0 <= i < |w.bars| ==>
                       KeyOf(w.bars[i]) in AsMap(w.t.rows) && AsMap(w.t.rows)[KeyOf(w.bars[i])] == QuoteOf(w.bars[i]))
            && (w.t.status == Failed || w.t.status == Cancelled ==>
                  w.t.rows == rows && w.t.workflow != Some(AuditRunning) && SyncNotRunning(w.t))
            && (w.t.status == Cancelled ==> w.cancelAt.Some?)
            && (w.t.status == Succeeded && w.cancelAt.Some? ==> w.cancelAt.value == AllChecks(w))
  {
    AuditHolds(kind, rows, actions);
    var w := After(Submitted(kind, rows), actions);
    if w.t.status == Succeeded && kind == Sync {
      forall i | 0 <= i < |w.bars|
        ensures KeyOf(w.bars[i]) in AsMap(w.t.rows) && AsMap(w.t.rows)[KeyOf(w.bars[i])] == QuoteOf(w.bars[i])
      {
        var delivered :| Validated(delivered) && w.bars == SortByDate(delivered);
        ValidatedDistinct(delivered);
        StoredBatchReadsBack(rows, w.bars, i);
      }
    }
  }
}
