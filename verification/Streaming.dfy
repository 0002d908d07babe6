/** The job event stream of api/job_streaming.py: a poller that must agree with the event log
    and be resumable from any event id. */
module Streaming {
  import opened Wrappers
  import opened MarketData
  import opened Jobs

  datatype EventRow = EventRow(id: int, jobRunId: int, event: JobEvent)

  /** What one turn of the loop meets: is the client gone, what the database holds (status
      None: no such job), and what the two timers say. */
  datatype Poll = Poll(disconnected: bool, table: seq<EventRow>, status: Option<Status>, heartbeatDue: bool,
      idleExpired: bool)

  datatype Frame = EventFrame(row: EventRow) | StreamEnd(status: Status) | Heartbeat

  // ----- The event table -----

  /** Event ids follow commit order and start at 1. */
  ghost predicate Ascending(table: seq<EventRow>) {
    && (forall i :: 0 <= i < |table| ==> 0 < table[i].id)
    && (forall i, j :: 0 <= i < j < |table| ==> table[i].id < table[j].id)
  }

  /** `list_for_job`: the job's events above an id, in id order. */
  function EventsAfter(table: seq<EventRow>, job: int, after: int): seq<EventRow> {
    if table == [] then []
    else
      (if table[0].jobRunId == job && table[0].id > after then [table[0]] else [])
      + EventsAfter(table[1..], job, after)
  }

  /** Exactly the job's rows above the id, each once, in strictly increasing order. */
  lemma {:induction false} EventsAfterExact(table: seq<EventRow>, job: int, after: int)
    requires Ascending(table)
    ensures forall row ::
              row in EventsAfter(table, job, after) <==> row in table && row.jobRunId == job && row.id > after
    ensures forall i, j :: 0 <= i < j < |EventsAfter(table, job, after)| ==>
              EventsAfter(table, job, after)[i].id < EventsAfter(table, job, after)[j].id
  {
    if table != [] {
      EventsAfterExact(table[1..], job, after);
      assert forall row :: row in table <==> row == table[0] || row in table[1..];
      var rest := EventsAfter(table[1..], job, after);
      forall j | 0 <= j < |rest| ensures table[0].id < rest[j].id {
        assert rest[j] in rest;
        assert rest[j] in table[1..];
      }
    }
  }

  lemma {:induction false} EventsAfterGrow(table: seq<EventRow>, more: seq<EventRow>, job: int, after: int)
    ensures EventsAfter(table + more, job, after) == EventsAfter(table, job, after) + EventsAfter(more, job, after)
  {
    if table == [] {
      assert table + more == more;
    } else {
      assert (table + more)[0] == table[0] && (table + more)[1..] == table[1..] + more;
      EventsAfterGrow(table[1..], more, job, after);
    }
  }

  lemma {:induction false} LowerBoundsAgree(table: seq<EventRow>, job: int, after: int, other: int)
    requires forall i :: 0 <= i < |table| ==> table[i].id > after && table[i].id > other
    ensures EventsAfter(table, job, after) == EventsAfter(table, job, other)
  {
    if table != [] {
      LowerBoundsAgree(table[1..], job, after, other);
    }
  }

  lemma LaterIsAbove(table: seq<EventRow>, job: int, after: int, i: nat)
    requires Ascending(table) && table != [] && i < |EventsAfter(table[1..], job, after)|
    ensures EventsAfter(table[1..], job, after)[i].id > table[0].id
  {
    EventsAfterExact(table[1..], job, after);
    assert EventsAfter(table[1..], job, after)[i] in table[1..];
  }

  lemma HeadTaken(table: seq<EventRow>, job: int, after: int, cut: int)
    requires table != [] && table[0].jobRunId == job && after < table[0].id <= cut
    ensures EventsAfter(table, job, after) == [table[0]] + EventsAfter(table[1..], job, after)
    ensures EventsAfter(table, job, cut) == EventsAfter(table[1..], job, cut)
  {
  }

  lemma HeadSkipped(table: seq<EventRow>, job: int, after: int)
    requires table != [] && (table[0].jobRunId != job || table[0].id <= after)
    ensures EventsAfter(table, job, after) == EventsAfter(table[1..], job, after)
  {
  }

  lemma RestBegins(table: seq<EventRow>, job: int, after: int)
    requires Ascending(table) && table != [] && after < table[0].id
    ensures EventsAfter(table[1..], job, table[0].id) == EventsAfter(table[1..], job, after)
  {
    LowerBoundsAgree(table[1..], job, table[0].id, after);
  }

  lemma CutShifts<T>(all: seq<T>, head: T, events: seq<T>, m: nat)
    requires all == [head] + events && 1 < m <= |all|
    ensures all[m - 1] == events[m - 2] && all[m..] == events[m - 1..]
  {
  }

  ghost predicate CutsAt(table: seq<EventRow>, job: int, after: int, m: nat)
    requires 0 < m <= |EventsAfter(table, job, after)|
  {
    EventsAfter(table, job, EventsAfter(table, job, after)[m - 1].id) == EventsAfter(table, job, after)[m..]
  }

  lemma CutAfterHead(table: seq<EventRow>, job: int, after: int)
    requires Ascending(table) && table != [] && table[0].jobRunId == job && after < table[0].id
    ensures 0 < |EventsAfter(table, job, after)| && CutsAt(table, job, after, 1)
  {
    HeadTaken(table, job, after, table[0].id);
    RestBegins(table, job, after);
  }

  lemma CutPastHead(table: seq<EventRow>, job: int, after: int, m: nat)
    requires table != [] && table[0].jobRunId == job && after < table[0].id
    requires 1 < m <= |EventsAfter(table[1..], job, after)| + 1 && CutsAt(table[1..], job, after, m - 1)
    requires table[0].id < EventsAfter(table[1..], job, after)[m - 2].id
    ensures m <= |EventsAfter(table, job, after)| && CutsAt(table, job, after, m)
  {
    var all, events := EventsAfter(table, job, after), EventsAfter(table[1..], job, after);
    HeadTaken(table, job, after, events[m - 2].id);
    CutShifts(all, table[0], events, m);
  }

  lemma CutSkipsHead(table: seq<EventRow>, job: int, after: int, m: nat)
    requires Ascending(table) && table != [] && (table[0].jobRunId != job || table[0].id <= after)
    requires 0 < m <= |EventsAfter(table[1..], job, after)| && CutsAt(table[1..], job, after, m)
    ensures m <= |EventsAfter(table, job, after)| && CutsAt(table, job, after, m)
  {
    HeadSkipped(table, job, after);
    LaterIsAbove(table, job, after, m - 1);
    HeadSkipped(table, job, EventsAfter(table[1..], job, after)[m - 1].id);
  }

  lemma {:induction false} CutContinues(table: seq<EventRow>, job: int, after: int, m: nat)
    requires Ascending(table) && 0 < m <= |EventsAfter(table, job, after)|
    ensures CutsAt(table, job, after, m)
  {
    if table[0].jobRunId != job || table[0].id <= after {
      HeadSkipped(table, job, after);
      CutContinues(table[1..], job, after, m);
      CutSkipsHead(table, job, after, m);
    } else if m == 1 {
      CutAfterHead(table, job, after);
    } else {
      HeadTaken(table, job, after, table[0].id);
      CutContinues(table[1..], job, after, m - 1);
      LaterIsAbove(table, job, after, m - 2);
      CutPastHead(table, job, after, m);
    }
  }

  /** The id to resume from after the first `m` events of a list that started above `after`. */
  function CutId(events: seq<EventRow>, after: int, m: nat): int
    requires m <= |events|
  {
    if m == 0 then after else events[m - 1].id
  }

  /** Reading on from any id of an earlier answer continues it: nothing lost, nothing twice. */
  lemma ResumeContinues(table: seq<EventRow>, later: seq<EventRow>, job: int, after: int, m: nat)
    requires table <= later && Ascending(later) && m <= |EventsAfter(table, job, after)|
    ensures EventsAfter(table, job, after)[..m]
            + EventsAfter(later, job, CutId(EventsAfter(table, job, after), after, m))
            == EventsAfter(later, job, after)
  {
    var events, all := EventsAfter(table, job, after), EventsAfter(later, job, after);
    assert events <= all by {
      EventsAfterGrow(table, later[|table|..], job, after);
      assert table + later[|table|..] == later;
    }
    assert events[..m] == all[..m];
    if m != 0 {
      CutContinues(later, job, after, m);
      assert all == all[..m] + all[m..];
    }
  }

  // ----- The stream -----

  function FramesOf(events: seq<EventRow>): seq<Frame> {
    seq(|events|, i requires 0 <= i < |events| => EventFrame(events[i]))
  }

  function LastId(last: int, events: seq<EventRow>): int {
    if events == [] then last else events[|events| - 1].id
  }

  predicate Ends(p: Poll) {
    p.status.Some? && Terminal(p.status.value)
  }

  /** `_load_events_and_status`. */
  function LoadEventsAndStatus(p: Poll, job: int, after: int): (seq<EventRow>, Option<Status>) {
    if p.status.None? then ([], None) else (EventsAfter(p.table, job, after), p.status)
  }

  function PollFrames(p: Poll, job: int, last: int): seq<Frame> {
    FramesOf(LoadEventsAndStatus(p, job, last).0) +
    if Ends(p) then [StreamEnd(p.status.value)] else if p.heartbeatDue then [Heartbeat] else []
  }

  function Stream(polls: seq<Poll>, job: int, last: int): seq<Frame> {
    if polls == [] || polls[0].disconnected then []
    else
      PollFrames(polls[0], job, last) +
      if Ends(polls[0]) || polls[0].idleExpired then []
      else Stream(polls[1..], job, LastId(last, LoadEventsAndStatus(polls[0], job, last).0))
  }

  /** How many polls the stream reads before it stops. */
  function Seen(polls: seq<Poll>): (n: nat)
    ensures n <= |polls|
  {
    if polls == [] || polls[0].disconnected then 0
    else if Ends(polls[0]) || polls[0].idleExpired then 1
    else 1 + Seen(polls[1..])
  }

  /** Where a stream starts: a client cannot ask for anything before the first event. */
  function FirstAfter(afterEventId: int): int {
    if 0 < afterEventId then afterEventId else 0
  }

  /** The same with what has been yielded so far carried along. */
  function StreamFrom(sent: seq<Frame>, polls: seq<Poll>, job: int, last: int): seq<Frame>
    decreases |polls|
  {
    if polls == [] || polls[0].disconnected then sent
    else if Ends(polls[0]) || polls[0].idleExpired then sent + PollFrames(polls[0], job, last)
    else
      StreamFrom(sent + PollFrames(polls[0], job, last), polls[1..], job,
                 LastId(last, LoadEventsAndStatus(polls[0], job, last).0))
  }

  lemma Regroup<T>(a: seq<T>, b: seq<T>, c: seq<T>)
    ensures (a + b) + c == a + (b + c)
  {
  }

  lemma {:induction false} StreamFromIsStream(sent: seq<Frame>, polls: seq<Poll>, job: int, last: int)
    ensures StreamFrom(sent, polls, job, last) == sent + Stream(polls, job, last)
    decreases |polls|
  {
    if polls != [] && !polls[0].disconnected && !Ends(polls[0]) && !polls[0].idleExpired {
      var here, next := PollFrames(polls[0], job, last), LastId(last, LoadEventsAndStatus(polls[0], job, last).0);
      StreamFromIsStream(sent + here, polls[1..], job, next);
      Regroup(sent, here, Stream(polls[1..], job, next));
    }
  }

  /** The loop over one answer: yields each event and remembers its id. */
  method YieldEvents(events: seq<EventRow>, last: int) returns (frames: seq<Frame>, lastEventId: int)
    ensures frames == FramesOf(events) && lastEventId == LastId(last, events)
  {
    frames, lastEventId := [], last;
    for k := 0 to |events|
      invariant frames == FramesOf(events[..k])
      invariant lastEventId == LastId(last, events[..k])
    {
      lastEventId := events[k].id;
      frames := frames + [EventFrame(events[k])];
    }
    assert events[..|events|] == events;
  }

  /** One turn of the loop for a client that is still there. */
  method Turn(p: Poll, job: int, last: int) returns (sent: seq<Frame>, lastEventId: int, stop: bool)
    ensures sent == PollFrames(p, job, last)
    ensures lastEventId == LastId(last, LoadEventsAndStatus(p, job, last).0)
    ensures stop <==> Ends(p) || p.idleExpired
  {
    var (events, status) := LoadEventsAndStatus(p, job, last);
    sent, lastEventId := YieldEvents(events, last);
    if status.Some? && Terminal(status.value) {
      sent := sent + [StreamEnd(status.value)];
      return sent, lastEventId, true;
    }
    if p.heartbeatDue {
      sent := sent + [Heartbeat];
    }
    stop := p.idleExpired;
  }

  /** The generator against a list of polls: everything yielded until it stops or is cut off. */
  method IterJobEventSse(polls: seq<Poll>, job: int, afterEventId: int) returns (frames: seq<Frame>)
    ensures frames == Stream(polls, job, FirstAfter(afterEventId))
  {
    frames := [];
    var lastEventId := if 0 < afterEventId then afterEventId else 0;
    StreamFromIsStream([], polls, job, lastEventId);
    var turn := 0;
    while turn < |polls| && !polls[turn].disconnected
      invariant 0 <= turn <= |polls|
      invariant StreamFrom(frames, polls[turn..], job, lastEventId) == Stream(polls, job, FirstAfter(afterEventId))
    {
      assert polls[turn..][0] == polls[turn] && polls[turn..][1..] == polls[turn + 1..];
      var sent, stop;
      sent, lastEventId, stop := Turn(polls[turn], job, lastEventId);
      frames := frames + sent;
      if stop {
        return;
      }
      turn := turn + 1;
    }
  }

  // ----- Exactness and resume -----

  function Emitted(frames: seq<Frame>): seq<EventRow> {
    if frames == [] then []
    else (if frames[0].EventFrame? then [frames[0].row] else []) + Emitted(frames[1..])
  }

  lemma {:induction false} EmittedJoins(a: seq<Frame>, b: seq<Frame>)
    ensures Emitted(a + b) == Emitted(a) + Emitted(b)
  {
    if a == [] {
      assert a + b == b;
    } else {
      assert (a + b)[0] == a[0] && (a + b)[1..] == a[1..] + b;
      EmittedJoins(a[1..], b);
    }
  }

  lemma {:induction false} EmittedOfEvents(events: seq<EventRow>)
    ensures Emitted(FramesOf(events)) == events
  {
    if events != [] {
      assert FramesOf(events)[1..] == FramesOf(events[1..]);
      EmittedOfEvents(events[1..]);
      assert events == [events[0]] + events[1..];
    }
  }

  lemma {:induction false} EmittedIsIn(frames: seq<Frame>, row: EventRow)
    ensures row in Emitted(frames) <==> EventFrame(row) in frames
  {
    if frames != [] {
      EmittedIsIn(frames[1..], row);
    }
  }

  /** A log that only grows between polls; a job that is not there has no events. */
  ghost predicate Growing(polls: seq<Poll>, job: int) {
    && (forall i :: 0 <= i < |polls| ==> Ascending(polls[i].table))
    && (forall i, j :: 0 <= i < j < |polls| ==> polls[i].table <= polls[j].table)
    && (forall i, k | 0 <= i < |polls| && polls[i].status.None? && 0 <= k < |polls[i].table| ::
          polls[i].table[k].jobRunId != job)
  }

  lemma {:induction false} NoRowsNoEvents(table: seq<EventRow>, job: int, after: int)
    requires forall k :: 0 <= k < |table| ==> table[k].jobRunId != job
    ensures EventsAfter(table, job, after) == []
  {
    if table != [] {
      NoRowsNoEvents(table[1..], job, after);
    }
  }

  lemma PollEmits(p: Poll, job: int, last: int)
    requires p.status.None? ==> forall k :: 0 <= k < |p.table| ==> p.table[k].jobRunId != job
    ensures Emitted(PollFrames(p, job, last)) == EventsAfter(p.table, job, last)
    ensures LoadEventsAndStatus(p, job, last).0 == EventsAfter(p.table, job, last)
  {
    if p.status.None? {
      NoRowsNoEvents(p.table, job, last);
    }
    var events := LoadEventsAndStatus(p, job, last).0;
    EmittedOfEvents(events);
    EmittedJoins(FramesOf(events), PollFrames(p, job, last)[|events|..]);
    assert PollFrames(p, job, last) == FramesOf(events) + PollFrames(p, job, last)[|events|..];
  }

  /** What a stream should have emitted by the time it stops reading. */
  function Expected(polls: seq<Poll>, job: int, last: int): seq<EventRow> {
    if Seen(polls) == 0 then [] else EventsAfter(polls[Seen(polls) - 1].table, job, last)
  }

  lemma ExpectedContinues(polls: seq<Poll>, job: int, last: int)
    requires Growing(polls, job) && Seen(polls) > 1
    ensures var events := EventsAfter(polls[0].table, job, last);
            Expected(polls, job, last) == events + Expected(polls[1..], job, LastId(last, events))
  {
    var events, later := EventsAfter(polls[0].table, job, last), polls[Seen(polls) - 1].table;
    ResumeContinues(polls[0].table, later, job, last, |events|);
    assert events[..|events|] == events;
    assert polls[1..][Seen(polls[1..]) - 1].table == later;
  }

  /** Against a growing log a stream emits exactly the job's events above its start, as of the
      last poll it read. */
  lemma {:induction false} StreamExact(polls: seq<Poll>, job: int, last: int)
    requires Growing(polls, job)
    ensures Emitted(Stream(polls, job, last)) == Expected(polls, job, last)
  {
    if polls != [] && !polls[0].disconnected {
      var here, events, rest := PollFrames(polls[0], job, last), EventsAfter(polls[0].table, job, last), polls[1..];
      PollEmits(polls[0], job, last);
      if Ends(polls[0]) || polls[0].idleExpired {
        assert here + [] == here;
      } else {
        StreamExact(rest, job, LastId(last, events));
        EmittedJoins(here, Stream(rest, job, LastId(last, events)));
        if Seen(rest) == 0 {
          assert events + [] == events;
        } else {
          ExpectedContinues(polls, job, last);
        }
      }
    }
  }

  lemma GrowingSplits(polls: seq<Poll>, again: seq<Poll>, job: int)
    requires Growing(polls + again, job)
    ensures Growing(polls, job) && Growing(again, job)
    ensures forall i, j :: 0 <= i < |polls| && 0 <= j < |again| ==> polls[i].table <= again[j].table
  {
    var all := polls + again;
    assert forall i :: 0 <= i < |polls| ==> polls[i] == all[i];
    assert forall i :: 0 <= i < |again| ==> again[i] == all[|polls| + i];
  }

  /** Cutting a stream at any emitted id and reconnecting from it gives, together, the very
      events one connection would have emitted by the second stream's last poll. */
  lemma ReconnectIsSeamless(polls: seq<Poll>, again: seq<Poll>, job: int, afterEventId: int, m: nat)
    requires Growing(polls + again, job) && Seen(again) != 0
    requires var emitted := Emitted(Stream(polls, job, FirstAfter(afterEventId))); m <= |emitted|
    ensures var emitted := Emitted(Stream(polls, job, FirstAfter(afterEventId)));
            var cut := CutId(emitted, FirstAfter(afterEventId), m);
            emitted[..m] + Emitted(Stream(again, job, FirstAfter(cut)))
            == EventsAfter(again[Seen(again) - 1].table, job, FirstAfter(afterEventId))
  {
    var after := FirstAfter(afterEventId);
    GrowingSplits(polls, again, job);
    StreamExact(polls, job, after);
    var emitted := Emitted(Stream(polls, job, after));
    var cut := CutId(emitted, after, m);
    StreamExact(again, job, FirstAfter(cut));
    if Seen(polls) == 0 {
      assert emitted[..m] == [];
    } else {
      var table, later := polls[Seen(polls) - 1].table, again[Seen(again) - 1].table;
      EventsAfterExact(table, job, after);
      if m != 0 {
        assert emitted[m - 1] in emitted;
      }
      ResumeContinues(table, later, job, after, m);
    }
  }

  // ----- The stream of one job -----

  function LogOf(events: seq<EventRow>): seq<JobEvent> {
    seq(|events|, i requires 0 <= i < |events| => events[i].event)
  }

  /** Each poll shows the job as some moment of its run left it, later polls later moments. */
  ghost predicate Watches(polls: seq<Poll>, job: int, start: World, actions: seq<Action>, moments: seq<nat>) {
    && |moments| == |polls|
    && (forall i :: 0 <= i < |polls| ==> moments[i] <= |actions|)
    && (forall i :: 0 <= i < |polls| ==> Shows(polls[i], job, After(start, actions[..moments[i]]).t))
  }

  /** The table's rows of the job are its log. */
  ghost predicate Records(table: seq<EventRow>, job: int, log: seq<JobEvent>) {
    LogOf(EventsAfter(table, job, 0)) == log
  }

  ghost predicate Shows(p: Poll, job: int, t: Tables) {
    p.status == Some(t.status) && Records(p.table, job, t.log)
  }

  lemma {:induction false} EndOfStream(polls: seq<Poll>, job: int, last: int, k: nat)
    requires k < |Stream(polls, job, last)| && Stream(polls, job, last)[k].StreamEnd?
    ensures 0 < Seen(polls) && Ends(polls[Seen(polls) - 1]) && k == |Stream(polls, job, last)| - 1
    ensures Stream(polls, job, last)[k].status == polls[Seen(polls) - 1].status.value
  {
    var here := PollFrames(polls[0], job, last);
    if !Ends(polls[0]) && !polls[0].idleExpired {
      var next := LastId(last, LoadEventsAndStatus(polls[0], job, last).0);
      assert Stream(polls, job, last) == here + Stream(polls[1..], job, next);
      assert k >= |here|;
      EndOfStream(polls[1..], job, next, k - |here|);
    } else {
      assert Stream(polls, job, last) == here;
    }
  }

  lemma {:induction false} TerminalEventLogged(log: seq<JobEvent>, e: EventType)
    requires TerminalEvents(log) == [e]
    ensures exists k :: 0 <= k < |log| && log[k].eventType == e
  {
    var rest, last := log[..|log| - 1], log[|log| - 1].eventType;
    if TerminalEvent(last) {
      assert TerminalEvents(log)[|TerminalEvents(rest)|] == last;
    } else {
      assert TerminalEvents(rest) + [] == TerminalEvents(rest);
      TerminalEventLogged(rest, e);
    }
  }

  /** A log that names an end shows the row of that end. */
  lemma TerminalRow(table: seq<EventRow>, job: int, log: seq<JobEvent>, e: EventType) returns (row: EventRow)
    requires Records(table, job, log) && TerminalEvents(log) == [e]
    ensures row in EventsAfter(table, job, 0) && row.event.eventType == e
  {
    TerminalEventLogged(log, e);
    var n :| 0 <= n < |log| && log[n].eventType == e;
    row := EventsAfter(table, job, 0)[n];
    assert LogOf(EventsAfter(table, job, 0))[n] == row.event;
  }

  /** A row of the job that the last poll showed was emitted or is not above the start id. */
  lemma ShownIsEmitted(polls: seq<Poll>, job: int, after: int, row: EventRow)
    requires Growing(polls, job) && Seen(polls) != 0 && 0 <= after
    requires row in EventsAfter(polls[Seen(polls) - 1].table, job, 0)
    ensures row in polls[Seen(polls) - 1].table && row.jobRunId == job && 0 < row.id
    ensures EventFrame(row) in Stream(polls, job, after) || row.id <= after
  {
    var table := polls[Seen(polls) - 1].table;
    EventsAfterExact(table, job, 0);
    EventsAfterExact(table, job, after);
    StreamExact(polls, job, after);
    EmittedIsIn(Stream(polls, job, after), row);
  }

  /** The status the last poll shows is the one the job keeps. */
  lemma ShownStatusStays(kind: JobKind, rows: seq<BarRow>, actions: seq<Action>, moment: nat)
    requires IsRun(Submitted(kind, rows), actions) && moment <= |actions|
    requires Terminal(After(Submitted(kind, rows), actions[..moment]).t.status)
    ensures var shown := After(Submitted(kind, rows), actions[..moment]).t;
            && shown.status == After(Submitted(kind, rows), actions).t.status
            && TerminalEvents(shown.log) == [EventOf(shown.status)]
  {
    TerminalIsFinal(kind, rows, actions, moment);
    LifecycleHolds(kind, rows, actions[..moment]);
  }

  /** Watching any run of the job, from any start id: a stream that says it is at its end has
      said so last, with the status the job keeps for ever, and the event of that status was
      either emitted or lies at or below the start id. */
  lemma EndIsTrustworthy(kind: JobKind, rows: seq<BarRow>, actions: seq<Action>, moments: seq<nat>,
                         polls: seq<Poll>, job: int, afterEventId: int, k: nat)
    requires IsRun(Submitted(kind, rows), actions) && Growing(polls, job)
    requires Watches(polls, job, Submitted(kind, rows), actions, moments)
    requires k < |Stream(polls, job, FirstAfter(afterEventId))|
    requires Stream(polls, job, FirstAfter(afterEventId))[k].StreamEnd?
    ensures var frames := Stream(polls, job, FirstAfter(afterEventId));
            && k == |frames| - 1
            && frames[k].status == After(Submitted(kind, rows), actions).t.status
            && Terminal(frames[k].status)
            && 0 < Seen(polls)
            && exists row: EventRow :: row in polls[Seen(polls) - 1].table && row.jobRunId == job
                 && row.event.eventType == EventOf(frames[k].status)
                 && (EventFrame(row) in frames || row.id <= afterEventId)
  {
    var after := FirstAfter(afterEventId);
    EndOfStream(polls, job, after, k);
    var last := Seen(polls) - 1;
    var shown := After(Submitted(kind, rows), actions[..moments[last]]).t;
    assert Shows(polls[last], job, shown);
    ShownStatusStays(kind, rows, actions, moments[last]);
    var row := TerminalRow(polls[last].table, job, shown.log, EventOf(shown.status));
    ShownIsEmitted(polls, job, after, row);
  }

  // ----- What an ended stream can miss -----

  lemma LogJoins(a: seq<EventRow>, b: seq<EventRow>)
    ensures LogOf(a + b) == LogOf(a) + LogOf(b)
  {
  }

  /** The rows a table gained, as far as they are the job's and above the start id. */
  function Gained(polled: seq<EventRow>, table: seq<EventRow>, job: int, after: int): seq<EventRow>
    requires polled <= table
  {
    EventsAfter(table[|polled|..], job, after)
  }

  lemma GainedIsRest(polled: seq<EventRow>, table: seq<EventRow>, job: int, after: int)
    requires polled <= table
    ensures EventsAfter(table, job, after) == EventsAfter(polled, job, after) + Gained(polled, table, job, after)
  {
    assert table == polled + table[|polled|..];
    EventsAfterGrow(polled, table[|polled|..], job, after);
  }

  /** From `shown` on the job's log gained the late "enqueued" event or nothing. */
  ghost predicate OnlyEnqueuedSince(shown: Tables, end: Tables) {
    if end.enqueued && !shown.enqueued then
      |end.log| == |shown.log| + 1 && shown.log <= end.log && end.log[|shown.log|].eventType == EnqueuedEvent
    else end.log == shown.log
  }

  lemma OnlyEnqueuedAfter(kind: JobKind, rows: seq<BarRow>, actions: seq<Action>, moment: nat)
    requires IsRun(Submitted(kind, rows), actions) && moment <= |actions|
    requires Terminal(After(Submitted(kind, rows), actions[..moment]).t.status)
    ensures OnlyEnqueuedSince(After(Submitted(kind, rows), actions[..moment]).t,
                              After(Submitted(kind, rows), actions).t)
  {
    OnlyEnqueuedFollows(kind, rows, actions, moment);
  }

  lemma GainedAfterEnd(shown: Tables, end: Tables, polled: seq<EventRow>, table: seq<EventRow>, job: int)
    requires polled <= table && Records(polled, job, shown.log) && Records(table, job, end.log)
    requires OnlyEnqueuedSince(shown, end)
    ensures var late := Gained(polled, table, job, 0);
            if end.enqueued && !shown.enqueued then |late| == 1 && late[0].event.eventType == EnqueuedEvent
            else late == []
  {
    var late, seen := Gained(polled, table, job, 0), EventsAfter(polled, job, 0);
    GainedIsRest(polled, table, job, 0);
    LogJoins(seen, late);
    assert end.log == shown.log + LogOf(late);
    if end.enqueued && !shown.enqueued {
      assert LogOf(late)[0] == end.log[|shown.log|];
    }
  }

  lemma GainedFromStart(polled: seq<EventRow>, table: seq<EventRow>, job: int, after: int)
    requires polled <= table && 0 <= after && Ascending(table)
    requires forall i :: |polled| <= i < |table| ==> after < table[i].id
    ensures EventsAfter(table, job, after) == EventsAfter(polled, job, after) + Gained(polled, table, job, 0)
  {
    GainedIsRest(polled, table, job, after);
    LowerBoundsAgree(table[|polled|..], job, after, 0);
  }

  /** All events are emitted, but for one late "enqueued" event at the end if there is one. */
  predicate MissesOnlyLate(emitted: seq<EventRow>, all: seq<EventRow>, late: bool) {
    if late then |all| == |emitted| + 1 && emitted <= all && all[|emitted|].event.eventType == EnqueuedEvent
    else all == emitted
  }

  lemma MissedAfterEnd(shown: Tables, end: Tables, polled: seq<EventRow>, table: seq<EventRow>, job: int, after: int)
    requires polled <= table && 0 <= after && Ascending(table)
    requires forall i :: |polled| <= i < |table| ==> after < table[i].id
    requires Records(polled, job, shown.log) && Records(table, job, end.log) && OnlyEnqueuedSince(shown, end)
    ensures MissesOnlyLate(EventsAfter(polled, job, after), EventsAfter(table, job, after),
                           end.enqueued && !shown.enqueued)
  {
    GainedFromStart(polled, table, job, after);
    GainedAfterEnd(shown, end, polled, table, job);
  }

  /** The table as it is after the stream's last poll; the start id is not ahead of that poll. */
  ghost predicate LaterTable(polls: seq<Poll>, table: seq<EventRow>, afterEventId: int) {
    && Ascending(table)
    && (Seen(polls) != 0 ==>
          var polled := polls[Seen(polls) - 1].table;
          polled <= table && forall i :: |polled| <= i < |table| ==> afterEventId < table[i].id)
  }

  ghost predicate HasEnded(frames: seq<Frame>) {
    exists k :: 0 <= k < |frames| && frames[k].StreamEnd?
  }

  lemma EndedSeesEnd(polls: seq<Poll>, job: int, last: int)
    requires HasEnded(Stream(polls, job, last))
    ensures Seen(polls) != 0 && Ends(polls[Seen(polls) - 1])
  {
    var frames := Stream(polls, job, last);
    var k :| 0 <= k < |frames| && frames[k].StreamEnd?;
    EndOfStream(polls, job, last, k);
  }

  /** The moment of the run that the stream's last poll saw. */
  function LastMoment(actions: seq<Action>, moments: seq<nat>, polls: seq<Poll>): (moment: nat)
    ensures moment <= |actions|
  {
    if 0 < Seen(polls) <= |moments| && moments[Seen(polls) - 1] <= |actions| then moments[Seen(polls) - 1] else 0
  }

  /** What the last poll of the stream showed. */
  function ShownLast(start: World, actions: seq<Action>, moments: seq<nat>, polls: seq<Poll>): Tables {
    After(start, actions[..LastMoment(actions, moments, polls)]).t
  }

  ghost predicate ShowsLast(start: World, actions: seq<Action>, moments: seq<nat>, polls: seq<Poll>, job: int) {
    && 0 < Seen(polls) <= |moments| && moments[Seen(polls) - 1] <= |actions|
    && Terminal(ShownLast(start, actions, moments, polls).status)
    && Records(polls[Seen(polls) - 1].table, job, ShownLast(start, actions, moments, polls).log)
  }

  /** The last poll of a stream that has ended shows the ended job. */
  lemma LastPollShows(start: World, actions: seq<Action>, moments: seq<nat>, polls: seq<Poll>, job: int, last: int)
    requires Watches(polls, job, start, actions, moments) && HasEnded(Stream(polls, job, last))
    ensures ShowsLast(start, actions, moments, polls, job)
  {
    EndedSeesEnd(polls, job, last);
    assert Shows(polls[Seen(polls) - 1], job, After(start, actions[..LastMoment(actions, moments, polls)]).t);
  }

  lemma MissedByStream(shown: Tables, end: Tables, polls: seq<Poll>, table: seq<EventRow>, job: int, afterEventId: int)
    requires Growing(polls, job) && LaterTable(polls, table, afterEventId) && Seen(polls) != 0
    requires Records(polls[Seen(polls) - 1].table, job, shown.log) && Records(table, job, end.log)
    requires OnlyEnqueuedSince(shown, end)
    ensures MissesOnlyLate(Emitted(Stream(polls, job, FirstAfter(afterEventId))),
                           EventsAfter(table, job, FirstAfter(afterEventId)),
                           end.enqueued && !shown.enqueued)
  {
    var after, polled := FirstAfter(afterEventId), polls[Seen(polls) - 1].table;
    StreamExact(polls, job, after);
    MissedAfterEnd(shown, end, polled, table, job, after);
  }

  lemma EndMisses(kind: JobKind, rows: seq<BarRow>, actions: seq<Action>, moments: seq<nat>,
                  polls: seq<Poll>, table: seq<EventRow>, job: int, afterEventId: int)
    requires IsRun(Submitted(kind, rows), actions) && Growing(polls, job)
    requires LaterTable(polls, table, afterEventId) && Records(table, job, After(Submitted(kind, rows), actions).t.log)
    requires ShowsLast(Submitted(kind, rows), actions, moments, polls, job)
    ensures MissesOnlyLate(Emitted(Stream(polls, job, FirstAfter(afterEventId))),
                           EventsAfter(table, job, FirstAfter(afterEventId)),
                           After(Submitted(kind, rows), actions).t.enqueued
                           && !ShownLast(Submitted(kind, rows), actions, moments, polls).enqueued)
  {
    OnlyEnqueuedAfter(kind, rows, actions, LastMoment(actions, moments, polls));
    MissedByStream(ShownLast(Submitted(kind, rows), actions, moments, polls), After(Submitted(kind, rows), actions).t,
                   polls, table, job, afterEventId);
  }

  /** What a stream that has ended does not emit of all that the job's run ever logs, exactly:
      nothing, unless the submitter's update came after the stream's last poll; then its one
      "enqueued" event. */
  lemma EndMissesExactly(kind: JobKind, rows: seq<BarRow>, actions: seq<Action>, moments: seq<nat>,
                         polls: seq<Poll>, table: seq<EventRow>, job: int, afterEventId: int)
    requires IsRun(Submitted(kind, rows), actions) && Growing(polls, job)
    requires Watches(polls, job, Submitted(kind, rows), actions, moments)
    requires HasEnded(Stream(polls, job, FirstAfter(afterEventId)))
    requires LaterTable(polls, table, afterEventId) && Records(table, job, After(Submitted(kind, rows), actions).t.log)
    ensures ShowsLast(Submitted(kind, rows), actions, moments, polls, job)
    ensures MissesOnlyLate(Emitted(Stream(polls, job, FirstAfter(afterEventId))),
                           EventsAfter(table, job, FirstAfter(afterEventId)),
                           After(Submitted(kind, rows), actions).t.enqueued
                           && !ShownLast(Submitted(kind, rows), actions, moments, polls).enqueued)
  {
    LastPollShows(Submitted(kind, rows), actions, moments, polls, job, FirstAfter(afterEventId));
    EndMisses(kind, rows, actions, moments, polls, table, job, afterEventId);
  }

  function RowAt(id: int, job: int, e: JobEvent): EventRow {
    EventRow(id, job, e)
  }

  /** The run of a job that is cancelled while queued and marked enqueued afterwards. */
  lemma CancelledThenEnqueued(kind: JobKind, rows: seq<BarRow>) returns (actions: seq<Action>)
    ensures |actions| == 2 && IsRun(Submitted(kind, rows), actions)
    ensures var t := After(Submitted(kind, rows), actions[..1]).t;
            t.status == Cancelled && !t.enqueued && t.log == [JobEvent(QueuedEvent, 0), JobEvent(CancelledEvent, 0)]
    ensures After(Submitted(kind, rows), actions).t.log
         == [JobEvent(QueuedEvent, 0), JobEvent(CancelledEvent, 0), JobEvent(EnqueuedEvent, 0)]
  {
    var start := Submitted(kind, rows);
    RunExtends(start, [], Cancel);
    assert [] + [Cancel] == [Cancel];
    RunExtends(start, [Cancel], MarkEnqueued);
    actions := [Cancel] + [MarkEnqueued];
    assert actions[..1] == [Cancel];
  }

  lemma TwoOfJob(a: EventRow, b: EventRow, table: seq<EventRow>, job: int)
    requires table == [a, b] && a.jobRunId == job && b.jobRunId == job && 0 < a.id && 0 < b.id
    ensures EventsAfter(table, job, 0) == table
  {
    assert table == [a] + [b];
    EventsAfterGrow([a], [b], job, 0);
    OneOfJob(a, job);
    OneOfJob(b, job);
  }

  lemma OneOfJob(a: EventRow, job: int)
    requires a.jobRunId == job && 0 < a.id
    ensures EventsAfter([a], job, 0) == [a]
  {
  }

  /** A stream whose only poll shows an ended job. */
  lemma OnlyPoll(polls: seq<Poll>, job: int, events: seq<EventRow>, status: Status)
    requires |polls| == 1 && !polls[0].disconnected && polls[0].status == Some(status) && Terminal(status)
    requires EventsAfter(polls[0].table, job, 0) == events
    ensures Stream(polls, job, 0) == FramesOf(events) + [StreamEnd(status)]
  {
    assert PollFrames(polls[0], job, 0) + [] == PollFrames(polls[0], job, 0);
  }

  /** It happens: the client sees both events and the end, and the third row never. */
  lemma LateEnqueueMissed(kind: JobKind, rows: seq<BarRow>, job: int)
      returns (actions: seq<Action>, moments: seq<nat>, polls: seq<Poll>, late: EventRow, table: seq<EventRow>)
    ensures IsRun(Submitted(kind, rows), actions) && Watches(polls, job, Submitted(kind, rows), actions, moments)
    ensures Growing(polls, job) && |polls| == 1 && Ascending(table) && polls[0].table <= table
    ensures Records(table, job, After(Submitted(kind, rows), actions).t.log)
    ensures late in EventsAfter(table, job, 0) && late.event.eventType == EnqueuedEvent
    ensures var frames := Stream(polls, job, 0);
            frames != [] && frames[|frames| - 1] == StreamEnd(Cancelled) && EventFrame(late) !in frames
  {
    actions := CancelledThenEnqueued(kind, rows);
    var queued, ended := RowAt(1, job, JobEvent(QueuedEvent, 0)), RowAt(2, job, JobEvent(CancelledEvent, 0));
    late := RowAt(3, job, JobEvent(EnqueuedEvent, 0));
    var polled := [queued, ended];
    table := polled + [late];
    moments := [1];
    polls := [Poll(false, polled, Some(Cancelled), false, false)];
    TwoOfJob(queued, ended, polled, job);
    OneOfJob(late, job);
    EventsAfterGrow(polled, [late], job, 0);
    assert LogOf(polled) == After(Submitted(kind, rows), actions[..1]).t.log;
    assert Shows(polls[0], job, After(Submitted(kind, rows), actions[..moments[0]]).t);
    assert LogOf(table) == After(Submitted(kind, rows), actions).t.log;
    OnlyPoll(polls, job, polled, Cancelled);
  }
}
