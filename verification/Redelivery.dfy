/** What a second delivery of a job breaks. The executor's guard (jobs/runtime.py) only knows
    the status "cancelled", so a queue that delivers a finished job again runs it again. */
module Redelivery {
  import opened Wrappers
  import opened MarketData
  import opened Jobs

  /** A step of the job's single-delivery protocol, or the queue delivering it once more after
      the last executor is done. */
  datatype Step = Once(action: Action) | Redeliver

  ghost predicate Allowed(w: World, s: Step) {
    match s
    case Once(a) => Enabled(w, a)
    case Redeliver => w.pc == Finished
  }

  /** A new executor starts with nothing fetched, checked or asked for. */
  function Redelivered(w: World): World {
    w.(pc := NotStarted, bars := [], passed := 0, cancelAt := None)
  }

  function Next(w: World, s: Step): World {
    match s
    case Once(a) => Apply(w, a)
    case Redeliver => Redelivered(w)
  }

  ghost predicate IsLife(start: World, steps: seq<Step>) {
    steps == [] ||
    (IsLife(start, steps[..|steps| - 1]) && Allowed(Lived(start, steps[..|steps| - 1]), steps[|steps| - 1]))
  }

  function Lived(start: World, steps: seq<Step>): World {
    if steps == [] then start else Next(Lived(start, steps[..|steps| - 1]), steps[|steps| - 1])
  }

  // ----- The first step of a redelivery -----

  /** A finished job is left as it is by a redelivery exactly when it was cancelled; otherwise
      it runs again, from progress 10, with the old terminal event still in its log. */
  lemma RedeliveryHarmlessExactly(kind: JobKind, rows: seq<BarRow>, actions: seq<Action>)
    requires IsRun(Submitted(kind, rows), actions) && After(Submitted(kind, rows), actions).pc == Finished
    ensures var w := After(Submitted(kind, rows), actions);
            var again := ExecuteStep(Redelivered(w), Proceed);
            && (again.t == w.t <==> w.t.status == Cancelled)
            && (w.t.status != Cancelled ==>
                  again.t.status == Running && again.t.progress == 10 && w.t.log < again.t.log && !LogKept(again.t))
  {
    LifecycleHolds(kind, rows, actions);
    var w := After(Submitted(kind, rows), actions);
    if w.t.status != Cancelled {
      var again := ExecuteStep(Redelivered(w), Proceed);
      assert again.t.log[..|w.t.log|] == w.t.log;
      assert TerminalEvents(again.t.log) == [EventOf(w.t.status)] + [];
    }
  }

  // ----- Whole lives with redeliveries -----

  /** Where the executor can be: as in a single delivery, or about to look at an ended job. */
  ghost predicate Placed(w: World) {
    PositionKept(w) || (w.pc == NotStarted && Terminal(w.t.status) && w.t.progress <= 100)
  }

  /** The step with which a redelivered executor runs an ended job again. */
  predicate Restarts(w: World, s: Step) {
    s.Once? && s.action.Execute? && w.pc == NotStarted && (w.t.status == Succeeded || w.t.status == Failed)
  }

  lemma StepsStayPlaced(w: World, s: Step)
    requires Placed(w) && Allowed(w, s)
    ensures Placed(Next(w, s))
    ensures StepLogs(w.t, Next(w, s).t)
    ensures !Restarts(w, s) ==> w.t.progress <= Next(w, s).t.progress
    ensures Terminal(w.t.status) && !Restarts(w, s) ==> Next(w, s).t.status == w.t.status
    ensures Restarts(w, s) ==> Next(w, s).t == MarkedRunning(w.t)
  {
    if s.Once? && PositionKept(w) {
      PositionStaysKept(w, s.action);
      if s.action.Execute? {
        ExecuteLogs(w, s.action.choice);
      }
    }
  }

  /** Over lives too, a terminal status is lost exactly by a restart. */
  lemma TerminalLostExactly(w: World, s: Step)
    requires Placed(w) && Allowed(w, s) && Terminal(w.t.status)
    ensures Next(w, s).t.status != w.t.status <==> Restarts(w, s)
  {
    StepsStayPlaced(w, s);
  }

  function RestartCount(start: World, steps: seq<Step>): nat {
    if steps == [] then 0
    else
      var before := steps[..|steps| - 1];
      RestartCount(start, before) + if Restarts(Lived(start, before), steps[|steps| - 1]) then 1 else 0
  }

  /** Restarts of a job that had already reported more than the 10 it starts again with. */
  function FallCount(start: World, steps: seq<Step>): nat {
    if steps == [] then 0
    else
      var before := steps[..|steps| - 1];
      FallCount(start, before) +
      if Restarts(Lived(start, before), steps[|steps| - 1]) && 10 < Lived(start, before).t.progress then 1 else 0
  }

  /** The log ends with the progress of the job. */
  predicate LogCurrent(t: Tables) {
    t.log != [] && t.log[|t.log| - 1].progress == t.progress
  }

  ghost predicate LogRises(log: seq<JobEvent>) {
    forall i, j :: 0 <= i < j < |log| ==> log[i].progress <= log[j].progress
  }

  /** The log of a life: one terminal event for every time the job was ended. */
  ghost predicate EndsCounted(t: Tables, restarts: nat) {
    var ends := TerminalEvents(t.log);
    && |ends| == restarts + (if Terminal(t.status) then 1 else 0)
    && (Terminal(t.status) ==> ends[|ends| - 1] == EventOf(t.status))
  }

  lemma EndsStayCounted(t: Tables, now: Tables, restarts: nat, again: bool)
    requires EndsCounted(t, restarts) && StepLogs(t, now)
    requires Terminal(t.status) && !again ==> now.status == t.status
    requires again ==> Terminal(t.status) && now == MarkedRunning(t)
    ensures EndsCounted(now, restarts + if again then 1 else 0)
  {
    if now.log != t.log {
      assert now.log[..|t.log|] == t.log;
    }
  }

  lemma RisesStays(t: Tables, now: Tables)
    requires LogCurrent(t) && StepLogs(t, now)
    requires now.log == t.log ==> now.progress == t.progress
    ensures LogCurrent(now)
    ensures LogRises(now.log) <==> LogRises(t.log) && t.progress <= now.progress
  {
    if now.log != t.log {
      assert now.log[|t.log|].progress == now.progress && now.log[|t.log| - 1].progress == t.progress;
      if LogRises(now.log) {
        forall i, j | 0 <= i < j < |t.log| ensures t.log[i].progress <= t.log[j].progress {
          assert now.log[i] == t.log[i] && now.log[j] == t.log[j];
        }
      }
    }
  }

  lemma ProgressNeedsEvent(w: World, s: Step)
    requires Placed(w) && Allowed(w, s)
    ensures Next(w, s).t.log == w.t.log ==> Next(w, s).t.progress == w.t.progress
  {
  }

  ghost predicate Told(w: World, restarts: nat, falls: nat) {
    Placed(w) && LogCurrent(w.t) && EndsCounted(w.t, restarts) && (LogRises(w.t.log) <==> falls == 0)
  }

  lemma StepTold(w: World, s: Step, restarts: nat, falls: nat)
    requires Told(w, restarts, falls) && Allowed(w, s)
    ensures Told(Next(w, s), restarts + (if Restarts(w, s) then 1 else 0),
                 falls + if Restarts(w, s) && 10 < w.t.progress then 1 else 0)
  {
    StepsStayPlaced(w, s);
    ProgressNeedsEvent(w, s);
    EndsStayCounted(w.t, Next(w, s).t, restarts, Restarts(w, s));
    RisesStays(w.t, Next(w, s).t);
  }

  lemma StartTold(kind: JobKind, rows: seq<BarRow>)
    ensures Told(Submitted(kind, rows), 0, 0)
  {
    assert Submitted(kind, rows).t.log[..0] == [];
  }

  lemma {:induction false} LivesTold(kind: JobKind, rows: seq<BarRow>, steps: seq<Step>)
    requires IsLife(Submitted(kind, rows), steps)
    ensures var start := Submitted(kind, rows);
            Told(Lived(start, steps), RestartCount(start, steps), FallCount(start, steps))
  {
    var start := Submitted(kind, rows);
    if steps == [] {
      StartTold(kind, rows);
    } else {
      var before := steps[..|steps| - 1];
      LivesTold(kind, rows, before);
      StepTold(Lived(start, before), steps[|steps| - 1], RestartCount(start, before), FallCount(start, before));
    }
  }

  /** The log names its one end, and only once the job has ended. */
  ghost predicate NamesOneEnd(t: Tables) {
    TerminalEvents(t.log) == if Terminal(t.status) then [EventOf(t.status)] else []
  }

  lemma OneEndExactly(t: Tables, restarts: nat)
    requires EndsCounted(t, restarts)
    ensures NamesOneEnd(t) <==> restarts == 0
  {
    var ends := TerminalEvents(t.log);
    if Terminal(t.status) && restarts == 0 {
      assert ends == [ends[0]];
    }
  }

  /** What redelivery breaks over whole lives, exactly. The log holds one terminal event for
      every restart besides the one of the present end, so "exactly one terminal event exactly
      when the status is terminal" holds if and only if nothing was restarted; and logged
      progress never falls if and only if no job was restarted beyond progress 10. */
  lemma RedeliveryBreaksExactly(kind: JobKind, rows: seq<BarRow>, steps: seq<Step>)
    requires IsLife(Submitted(kind, rows), steps)
    ensures var start := Submitted(kind, rows);
            var t := Lived(start, steps).t;
            && |TerminalEvents(t.log)| == RestartCount(start, steps) + (if Terminal(t.status) then 1 else 0)
            && (NamesOneEnd(t) <==> RestartCount(start, steps) == 0)
            && (LogRises(t.log) <==> FallCount(start, steps) == 0)
  {
    LivesTold(kind, rows, steps);
    OneEndExactly(Lived(Submitted(kind, rows), steps).t, RestartCount(Submitted(kind, rows), steps));
  }

  // ----- Which end a redelivered job can come to -----

  /** Cancelled stays cancelled. */
  predicate StaysCancelled(w: World) {
    w.t.status == Cancelled && (w.pc == NotStarted || w.pc == Finished)
  }

  /** An unsupported job type fails every time. */
  predicate FailsAgain(w: World) {
    && w.kind == Unsupported
    && (w.pc == NotStarted || w.pc == Started || w.pc == Failing(false) || w.pc == Finished)
    && (if w.pc == NotStarted || w.pc == Finished then w.t.status == Failed
        else w.t.status == Running || w.t.status == CancelRequested)
  }

  lemma {:induction false} EndIsFixed(w: World, steps: seq<Step>)
    requires IsLife(w, steps) && (StaysCancelled(w) || FailsAgain(w))
    ensures if StaysCancelled(w) then StaysCancelled(Lived(w, steps)) else FailsAgain(Lived(w, steps))
  {
    if steps != [] {
      EndIsFixed(w, steps[..|steps| - 1]);
    }
  }

  /** A single delivery of an unsupported job type only ends failed, or cancelled unstarted. */
  predicate UnsupportedOnly(w: World) {
    w.kind == Unsupported ==>
      && (w.pc == NotStarted || w.pc == Started || w.pc == Failing(false) || w.pc == Finished)
      && (w.pc == Finished ==> w.t.status == Failed || w.t.status == Cancelled)
  }

  lemma {:induction false} UnsupportedFails(kind: JobKind, rows: seq<BarRow>, actions: seq<Action>)
    requires IsRun(Submitted(kind, rows), actions)
    ensures UnsupportedOnly(After(Submitted(kind, rows), actions)) && After(Submitted(kind, rows), actions).kind == kind
  {
    if actions != [] {
      var before := actions[..|actions| - 1];
      UnsupportedFails(kind, rows, before);
      LifecycleHolds(kind, rows, before);
    }
  }

  lemma Then(start: World, steps: seq<Step>, w: World, s: Step) returns (longer: seq<Step>, now: World)
    requires IsLife(start, steps) && Lived(start, steps) == w && Allowed(w, s)
    ensures IsLife(start, longer) && now == Next(w, s) == Lived(start, longer)
  {
    longer, now := steps + [s], Next(w, s);
    assert longer[..|steps|] == steps;
  }

  /** The executor's next step, when nothing unusual happens to it. */
  lemma Proceeds(start: World, steps: seq<Step>, w: World) returns (longer: seq<Step>, now: World)
    requires IsLife(start, steps) && Lived(start, steps) == w && Enabled(w, Execute(Proceed))
    ensures IsLife(start, longer) && now == ExecuteStep(w, Proceed) == Lived(start, longer)
  {
    longer, now := Then(start, steps, w, Once(Execute(Proceed)));
  }

  lemma RerunStarts(w: World) returns (steps: seq<Step>, v: World)
    requires w.pc == Finished && (w.t.status == Succeeded || w.t.status == Failed)
    ensures IsLife(w, steps) && v == Lived(w, steps)
    ensures v.pc == Started && v.t.status == Running && v.kind == w.kind
  {
    steps, v := Then(w, [], w, Redeliver);
    steps, v := Proceeds(w, steps, v);
  }

  lemma EntersCallback(w: World, before: seq<Step>, started: World) returns (steps: seq<Step>, v: World)
    requires IsLife(w, before) && started == Lived(w, before) && started.pc == Started && started.kind != Unsupported
    ensures IsLife(w, steps) && v == Lived(w, steps)
    ensures v.pc == InCallback && v.t.status == started.t.status && v.kind == started.kind
  {
    steps, v := Proceeds(w, before, started);
  }

  lemma RaisedEnds(w: World, before: seq<Step>, raised: World, cancelled: bool) returns (steps: seq<Step>)
    requires IsLife(w, before) && raised == Lived(w, before) && raised.pc == Raised(cancelled)
    ensures IsLife(w, steps) && Lived(w, steps).pc == Finished
    ensures Lived(w, steps).t.status == if cancelled then Cancelled else Failed
  {
    var v;
    steps, v := Proceeds(w, before, raised);
    assert v.pc == Failing(cancelled);
    steps, v := Proceeds(w, steps, v);
  }

  /** The callback of a rerun raises: a succeeded job ends failed. */
  lemma SuccessCanFail(w: World) returns (steps: seq<Step>)
    requires w.pc == Finished && w.t.status == Succeeded && w.kind != Unsupported
    ensures IsLife(w, steps) && Lived(w, steps).pc == Finished && Lived(w, steps).t.status == Failed
  {
    var v;
    steps, v := RerunStarts(w);
    steps, v := EntersCallback(w, steps, v);
    steps, v := Then(w, steps, v, Once(Execute(Raise)));
    steps := RaisedEnds(w, steps, v, false);
  }

  /** A sync sees the request at its first check. */
  lemma OpenedRaises(w: World, before: seq<Step>, asked: World) returns (steps: seq<Step>, v: World)
    requires IsLife(w, before) && asked == Lived(w, before)
    requires asked.pc == Opened && asked.t.status == CancelRequested
    ensures IsLife(w, steps) && v == Lived(w, steps) && v.pc == Raised(true)
  {
    steps, v := Proceeds(w, before, asked);
    assert v.pc == SyncRaised(true);
    steps, v := Proceeds(w, steps, v);
  }

  lemma RequestRaises(w: World, before: seq<Step>, asked: World) returns (steps: seq<Step>, v: World)
    requires IsLife(w, before) && asked == Lived(w, before)
    requires asked.pc == InCallback && asked.t.status == CancelRequested && asked.kind != Unsupported
    ensures IsLife(w, steps) && v == Lived(w, steps) && v.pc == Raised(true)
  {
    steps, v := Proceeds(w, before, asked);
    assert v.t.status == CancelRequested && v.pc == if asked.kind == Sync then Opened else Raised(true);
    if asked.kind == Sync {
      steps, v := OpenedRaises(w, steps, v);
    }
  }

  /** A cancel request meets the rerun: a failed job ends cancelled. */
  lemma FailureCanBeCancelled(w: World) returns (steps: seq<Step>)
    requires w.pc == Finished && w.t.status == Failed && w.kind != Unsupported
    ensures IsLife(w, steps) && Lived(w, steps).pc == Finished && Lived(w, steps).t.status == Cancelled
  {
    var v;
    steps, v := RerunStarts(w);
    steps, v := Then(w, steps, v, Once(Cancel));
    steps, v := EntersCallback(w, steps, v);
    steps, v := RequestRaises(w, steps, v);
    steps := RaisedEnds(w, steps, v, true);
  }

  ghost predicate EndsAs(w: World, steps: seq<Step>, status: Status) {
    IsLife(w, steps) && Lived(w, steps).pc == Finished && Lived(w, steps).t.status == status
  }

  /** Whatever single delivery a finished job had: deliveries after it can give it another end
      exactly when it was not cancelled and its type is supported. */
  lemma EndChangesExactly(kind: JobKind, rows: seq<BarRow>, actions: seq<Action>)
    requires IsRun(Submitted(kind, rows), actions) && After(Submitted(kind, rows), actions).pc == Finished
    ensures var w := After(Submitted(kind, rows), actions);
            (exists steps, status :: EndsAs(w, steps, status) && status != w.t.status)
            <==> w.t.status != Cancelled && kind != Unsupported
  {
    var w := After(Submitted(kind, rows), actions);
    LifecycleHolds(kind, rows, actions);
    UnsupportedFails(kind, rows, actions);
    if w.t.status == Cancelled || kind == Unsupported {
      forall steps, status | EndsAs(w, steps, status) ensures status == w.t.status {
        EndIsFixed(w, steps);
      }
    } else if w.t.status == Succeeded {
      var steps := SuccessCanFail(w);
      assert EndsAs(w, steps, Failed);
    } else {
      var steps := FailureCanBeCancelled(w);
      assert EndsAs(w, steps, Cancelled);
    }
  }

  lemma Ran(start: World, actions: seq<Action>, w: World, c: Choice) returns (longer: seq<Action>, now: World)
    requires IsRun(start, actions) && After(start, actions) == w && Enabled(w, Execute(c))
    ensures IsRun(start, longer) && now == ExecuteStep(w, c) == After(start, longer)
  {
    RunExtends(start, actions, Execute(c));
    longer, now := actions + [Execute(c)], ExecuteStep(w, c);
  }

  /** A plain job that nothing disturbs succeeds. */
  lemma PlainJobSucceeds(rows: seq<BarRow>) returns (actions: seq<Action>, w: World)
    ensures IsRun(Submitted(Plain, rows), actions) && w == After(Submitted(Plain, rows), actions)
    ensures w.pc == Finished && w.t.status == Succeeded && w.kind == Plain && w.t.progress == 100
  {
    var start := Submitted(Plain, rows);
    actions, w := Ran(start, [], start, Proceed);
    actions, w := Ran(start, actions, w, Proceed);
    actions, w := Ran(start, actions, w, Proceed);
    assert w.pc == PlainWork;
    actions, w := Ran(start, actions, w, Proceed);
    actions, w := Ran(start, actions, w, Proceed);
    actions, w := Ran(start, actions, w, Proceed);
  }

  /** One delivery that succeeds at progress 100, and a second that ends the same job failed. */
  lemma SecondDeliveryFails(rows: seq<BarRow>) returns (actions: seq<Action>, steps: seq<Step>)
    ensures IsRun(Submitted(Plain, rows), actions)
    ensures var w := After(Submitted(Plain, rows), actions);
            && w.t.status == Succeeded && w.t.progress == 100
            && EndsAs(w, steps, Failed)
  {
    var w;
    actions, w := PlainJobSucceeds(rows);
    steps := SuccessCanFail(w);
  }
}
