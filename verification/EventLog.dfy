// The numbered event log of a runtime session: the rows that are stored, the
// window of the last hundred kept in memory, and a poller that reads it.
module EventLogs {
  import opened Prelude

  const WindowSize: nat := 100

  datatype Event = Event(sequence: nat, body: string)

  datatype Log = Log(eventSequence: nat, recent: seq<Event>, stored: seq<Event>)

  // ---- the operations on values

  function Last(es: seq<Event>, n: nat): seq<Event> {
    if |es| <= n then es else es[|es| - n..]
  }

  // Numbers are unique among the stored rows.
  predicate Taken(l: Log, n: nat) { exists i :: 0 <= i < |l.stored| && l.stored[i].sequence == n }

  predicate Accepts(l: Log) { !Taken(l, l.eventSequence + 1) }

  // The memory is brought up to date first; an insert that repeats a number is
  // then refused.
  function Recorded(l: Log, body: string): Log {
    var e := Event(l.eventSequence + 1, body);
    Log(e.sequence, Last(l.recent + [e], WindowSize), if Accepts(l) then l.stored + [e] else l.stored)
  }

  // What a new process starts from: nothing in memory.
  function Restarted(l: Log): Log { Log(0, [], l.stored) }

  // The oldest hundred rows, read once, when no event has been numbered yet.
  function Hydrated(l: Log): Log {
    if l.eventSequence != 0 then l
    else
      var rows := Take(l.stored, WindowSize);
      Log(if rows == [] then 0 else rows[|rows| - 1].sequence, rows, l.stored)
  }

  function After(n: nat): Event -> bool { (e: Event) => e.sequence > n }

  function Pulled(l: Log, after: nat): seq<Event> { Filter(After(after), l.recent) }

  // ---- what they keep

  ghost predicate Numbered(es: seq<Event>, first: nat) {
    forall i | 0 <= i < |es| :: es[i].sequence == first + i
  }

  ghost predicate Valid(l: Log) {
    Numbered(l.stored, 1) && l.eventSequence == |l.stored| && l.recent == Last(l.stored, WindowSize)
  }

  lemma RecordKeepsValid(l: Log, body: string)
    requires Valid(l)
    ensures Accepts(l) && Valid(Recorded(l, body))
  {
    AcceptsIffPastTheLast(l);
  }

  lemma AcceptsIffPastTheLast(l: Log)
    requires Numbered(l.stored, 1)
    ensures Accepts(l) <==> l.eventSequence >= |l.stored|
  {
    if l.eventSequence < |l.stored| {
      assert l.stored[l.eventSequence].sequence == l.eventSequence + 1;
    }
  }

  // Reading the log back restores the window and the numbering exactly when it
  // holds at most a hundred rows, and with more the next record is refused.
  lemma HydrationIsExact(l: Log)
    requires Numbered(l.stored, 1)
    ensures Valid(Hydrated(Restarted(l))) <==> |l.stored| <= WindowSize
    ensures Accepts(Hydrated(Restarted(l))) <==> |l.stored| <= WindowSize
  {
    AcceptsIffPastTheLast(Hydrated(Restarted(l)));
  }

  function RecordAll(l: Log, bodies: seq<string>): Log
    decreases |bodies|
  {
    if bodies == [] then l else RecordAll(Recorded(l, bodies[0]), bodies[1..])
  }

  // Each refusal uses up one number, so after a restart with n rows, n above a
  // hundred, exactly the next n - 100 records are lost.
  lemma {:induction false} RefusedUntilPastTheLast(l: Log, bodies: seq<string>)
    requires Numbered(l.stored, 1) && l.eventSequence + |bodies| <= |l.stored|
    ensures RecordAll(l, bodies).stored == l.stored && RecordAll(l, bodies).eventSequence == l.eventSequence + |bodies|
    decreases |bodies|
  {
    if bodies != [] {
      AcceptsIffPastTheLast(l);
      RefusedUntilPastTheLast(Recorded(l, bodies[0]), bodies[1..]);
    }
  }

  lemma RecordsLostAfterRestart(l: Log, bodies: seq<string>)
    requires Numbered(l.stored, 1) && |l.stored| > WindowSize
    ensures var back := Hydrated(Restarted(l));
      && (|bodies| <= |l.stored| - WindowSize ==> RecordAll(back, bodies).stored == l.stored)
      && (|bodies| == |l.stored| - WindowSize ==> Accepts(RecordAll(back, bodies)))
  {
    var back := Hydrated(Restarted(l));
    assert back.eventSequence == WindowSize && back.stored == l.stored;
    if |bodies| <= |l.stored| - WindowSize {
      RefusedUntilPastTheLast(back, bodies);
      AcceptsIffPastTheLast(RecordAll(back, bodies));
    }
  }

  // ---- the session state in memory and its rows

  class EventRecorder {
    var eventSequence: nat
    var recentEvents: seq<Event>
    var rows: seq<Event>

    function View(): Log reads this { Log(eventSequence, recentEvents, rows) }

    constructor (stored: seq<Event>)
      ensures View() == Restarted(Log(0, [], stored))
    {
      eventSequence, recentEvents, rows := 0, [], stored;
    }

    // False stands for the exception of a refused insert.
    method RecordRuntimeEvent(body: string) returns (ok: bool)
      modifies this
      ensures View() == Recorded(old(View()), body) && ok == Accepts(old(View()))
      ensures old(Valid(View())) ==> ok && Valid(View())
      ensures var e := Event(old(eventSequence) + 1, body);
        && eventSequence == e.sequence && 0 < |recentEvents| <= 100 && recentEvents[|recentEvents| - 1] == e
        && rows == if ok then old(rows) + [e] else old(rows)
    {
      ok := Accepts(View());
      RecordKeepsValidIfValid(View(), body);
      var event := Event(eventSequence + 1, body);
      eventSequence := event.sequence;
      recentEvents := recentEvents + [event];
      if |recentEvents| > 100 {
        recentEvents := recentEvents[|recentEvents| - 100..];
      }
      if ok {
        rows := rows + [event];
      }
    }

    method HydrateRuntimeState()
      modifies this
      ensures View() == Hydrated(old(View()))
    {
      if eventSequence == 0 {
        var persisted := if |rows| <= 100 then rows else rows[..100];
        recentEvents := persisted;
        eventSequence := if persisted == [] then 0 else persisted[|persisted| - 1].sequence;
      }
    }

    // Of the events after `after`, those still in the window: all of them
    // exactly when the caller is at most a hundred behind.
    method PullRuntimeEvents(after: nat) returns (events: seq<Event>)
      ensures events == Pulled(View(), after)
      ensures Valid(View()) ==> events == rows[Missed(|rows|, after)..]
      ensures Valid(View()) && after <= |rows| ==> (events == rows[after..] <==> |rows| - after <= 100)
    {
      events := Pulled(View(), after);
      PullIsASuffixIfValid(View(), after);
    }
  }

  lemma PullIsASuffixIfValid(l: Log, after: nat)
    ensures Valid(l) ==> Pulled(l, after) == l.stored[Missed(|l.stored|, after)..]
    ensures Valid(l) && after <= |l.stored| ==>
      (Pulled(l, after) == l.stored[after..] <==> |l.stored| - after <= WindowSize)
  {
    if Valid(l) {
      PullIsASuffix(l, after);
      if after <= |l.stored| { SuffixesDiffer(l.stored, Missed(|l.stored|, after), after); }
    }
  }

  lemma RecordKeepsValidIfValid(l: Log, body: string)
    ensures Valid(l) ==> Accepts(l) && Valid(Recorded(l, body))
  {
    if Valid(l) { RecordKeepsValid(l, body); }
  }

  // ---- pulling

  // How many events of a log of n are no longer in the window.
  function Dropped(n: nat): (k: nat)
    ensures k <= n
  {
    if n <= WindowSize then 0 else n - WindowSize
  }

  // Where a pull after `after` starts in a log of n events.
  function Missed(n: nat, after: nat): (start: nat)
    ensures start <= n && (after <= n ==> after <= start)
    ensures start == after <==> 0 <= n - after <= WindowSize
  {
    if after < Dropped(n) then Dropped(n) else if after > n then n else after
  }

  lemma {:induction false} FilterAfter(es: seq<Event>, first: nat, after: nat)
    requires Numbered(es, first)
    ensures Filter(After(after), es) == FromNumber(es, first, after)
  {
    if es != [] {
      FilterAfter(es[1..], first + 1, after);
      assert es[0].sequence == first;
      assert es == [es[0]] + es[1..];
      if first <= after && after - first + 1 < |es| {
        assert es[after - first + 1..] == es[1..][after - first..];
      }
    }
  }

  // The events numbered above `after`, when the first is numbered `first`.
  function FromNumber(es: seq<Event>, first: nat, after: nat): seq<Event> {
    if after < first then es else if after - first + 1 >= |es| then [] else es[after - first + 1..]
  }

  lemma PullIsASuffix(l: Log, after: nat)
    requires Valid(l)
    ensures Pulled(l, after) == l.stored[Missed(|l.stored|, after)..]
  {
    var skip := Dropped(|l.stored|);
    assert l.recent == l.stored[skip..];
    FilterAfter(l.recent, skip + 1, after);
    WindowFrom(l.stored, skip, after);
  }

  // A suffix that starts elsewhere is a different one.
  lemma SuffixesDiffer(es: seq<Event>, i: nat, j: nat)
    requires i <= |es| && j <= |es|
    ensures es[i..] == es[j..] <==> i == j
  {
    assert |es[i..]| == |es| - i && |es[j..]| == |es| - j;
  }

  lemma WindowFrom(stored: seq<Event>, skip: nat, after: nat)
    requires skip <= |stored|
    ensures FromNumber(stored[skip..], skip + 1, after)
      == stored[if after < skip then skip else if after > |stored| then |stored| else after..]
  {
  }

  // ---- a poller that passes the last number it saw

  datatype Step = Record(body: string) | Poll | Restart

  datatype Polling = Polling(log: Log, seen: nat, received: seq<Event>)

  function Do(p: Polling, s: Step): Polling {
    match s
    case Record(body) => p.(log := Recorded(p.log, body))
    case Restart => p.(log := Hydrated(Restarted(p.log)))
    case Poll =>
      var got := Pulled(p.log, p.seen);
      Polling(p.log, if got == [] then p.seen else got[|got| - 1].sequence, p.received + got)
  }

  function DoAll(p: Polling, steps: seq<Step>): Polling
    decreases |steps|
  {
    if steps == [] then p else DoAll(Do(p, steps[0]), steps[1..])
  }

  const Start := Polling(Log(0, [], []), 0, [])

  // A restart finds at most a hundred rows.
  predicate EarlyRestarts(p: Polling, steps: seq<Step>)
    decreases |steps|
  {
    steps == [] ||
    (&& (steps[0].Restart? ==> |p.log.stored| <= WindowSize)
     && EarlyRestarts(Do(p, steps[0]), steps[1..]))
  }

  // At every poll the poller is at most a hundred events behind.
  predicate KeepsUp(p: Polling, steps: seq<Step>)
    decreases |steps|
  {
    steps == [] ||
    (&& (steps[0].Poll? ==> |p.log.stored| <= p.seen + WindowSize)
     && KeepsUp(Do(p, steps[0]), steps[1..]))
  }

  ghost predicate Increasing(es: seq<Event>) {
    forall i, j | 0 <= i < j < |es| :: es[i].sequence < es[j].sequence
  }

  // Rows of the log numbered up to `seen`, in order and each once.
  ghost predicate Genuine(received: seq<Event>, seen: nat, stored: seq<Event>) {
    && seen <= |stored|
    && Increasing(received)
    && (forall i | 0 <= i < |received| ::
      1 <= received[i].sequence <= seen && received[i] == stored[received[i].sequence - 1])
  }

  ghost predicate Honest(p: Polling) {
    Valid(p.log) && Genuine(p.received, p.seen, p.log.stored)
  }

  ghost predicate Complete(p: Polling) {
    p.seen <= |p.log.stored| && p.received == p.log.stored[..p.seen]
  }

  lemma LaterRowsAreGenuine(received: seq<Event>, seen: nat, stored: seq<Event>, start: nat)
    requires Numbered(stored, 1) && Genuine(received, seen, stored) && seen <= start <= |stored|
    ensures Genuine(received + stored[start..], |stored|, stored)
  {
    var all := received + stored[start..];
    assert forall i | |received| <= i < |all| :: all[i] == stored[start + i - |received|];
  }

  lemma PollIsHonest(p: Polling)
    requires Honest(p)
    ensures var q, n := Do(p, Poll), |p.log.stored|;
      Honest(q) && q.log == p.log && q.seen == n && q.received == p.received + p.log.stored[Missed(n, p.seen)..]
  {
    PullIsASuffix(p.log, p.seen);
    LaterRowsAreGenuine(p.received, p.seen, p.log.stored, Missed(|p.log.stored|, p.seen));
  }

  lemma StepIsHonest(p: Polling, s: Step)
    requires Honest(p) && (s.Restart? ==> |p.log.stored| <= WindowSize)
    ensures Honest(Do(p, s))
  {
    match s {
      case Record(body) => RecordKeepsValid(p.log, body);
      case Restart => HydrationIsExact(p.log);
      case Poll => PollIsHonest(p);
    }
  }

  lemma SuffixCompletes(received: seq<Event>, stored: seq<Event>, seen: nat, start: nat)
    requires |received| <= seen <= start <= |stored|
    ensures received + stored[start..] == stored <==> received == stored[..seen] && start == seen
  {
    if received + stored[start..] == stored {
      assert received == stored[..|received|];
    }
    if received == stored[..seen] && start == seen {
      assert stored == stored[..seen] + stored[seen..];
    }
  }

  // One step keeps the record complete exactly when it is not a late poll, and
  // an incomplete one is never repaired.
  lemma StepCompletes(p: Polling, s: Step)
    requires Honest(p)
    ensures Complete(Do(p, s)) <==> Complete(p) && (s.Poll? ==> |p.log.stored| <= p.seen + WindowSize)
  {
    match s {
      case Record(body) =>
        var stored := p.log.stored;
        RecordKeepsValid(p.log, body);
        assert (stored + [Event(p.log.eventSequence + 1, body)])[..p.seen] == stored[..p.seen];
      case Restart =>
      case Poll => PollCompletes(p);
    }
  }

  lemma PollCompletes(p: Polling)
    requires Honest(p)
    ensures Complete(Do(p, Poll)) <==> Complete(p) && |p.log.stored| <= p.seen + WindowSize
  {
    var stored := p.log.stored;
    PollIsHonest(p);
    ReceivedIsShort(p.received, p.seen);
    SuffixCompletes(p.received, stored, p.seen, Missed(|stored|, p.seen));
    assert stored[..|stored|] == stored;
  }

  lemma {:induction false} ReceivedIsShort(es: seq<Event>, seen: nat)
    requires Increasing(es) && forall i | 0 <= i < |es| :: 1 <= es[i].sequence <= seen
    ensures |es| <= seen
  {
    if es != [] {
      var last := es[|es| - 1];
      assert forall i | 0 <= i < |es| - 1 :: es[i].sequence < last.sequence;
      ReceivedIsShort(es[..|es| - 1], last.sequence - 1);
    }
  }

  // Over every run, what a poller received are events of the log in order and
  // each once; and it has every event up to the last number it saw exactly when
  // it was never more than a hundred behind at a poll.
  lemma {:induction false} PollerReceivesEverything(p: Polling, steps: seq<Step>)
    requires Honest(p) && EarlyRestarts(p, steps)
    ensures Honest(DoAll(p, steps))
    ensures Complete(DoAll(p, steps)) <==> Complete(p) && KeepsUp(p, steps)
    decreases |steps|
  {
    if steps != [] {
      StepIsHonest(p, steps[0]);
      StepCompletes(p, steps[0]);
      PollerReceivesEverything(Do(p, steps[0]), steps[1..]);
    }
  }

  // The texts recorded by some steps.
  function Bodies(steps: seq<Step>): seq<string> {
    if steps == [] then []
    else (if steps[0].Record? then [steps[0].body] else []) + Bodies(steps[1..])
  }

  function EventsFrom(first: nat, bodies: seq<string>): (es: seq<Event>)
    ensures |es| == |bodies| && forall i | 0 <= i < |es| :: es[i] == Event(first + i, bodies[i])
    decreases |bodies|
  {
    if bodies == [] then [] else [Event(first, bodies[0])] + EventsFrom(first + 1, bodies[1..])
  }

  lemma RecordIsStored(p: Polling, body: string)
    requires Honest(p)
    ensures Do(p, Record(body)).log.stored == p.log.stored + [Event(|p.log.stored| + 1, body)]
  {
    RecordKeepsValid(p.log, body);
  }

  lemma OneMoreEvent(stored: seq<Event>, body: string, rest: seq<string>)
    ensures stored + [Event(|stored| + 1, body)] + EventsFrom(|stored| + 2, rest)
         == stored + EventsFrom(|stored| + 1, [body] + rest)
  {
    assert ([body] + rest)[0] == body && ([body] + rest)[1..] == rest;
    Assoc(stored, [Event(|stored| + 1, body)], EventsFrom(|stored| + 2, rest));
  }

  lemma {:induction false} RowsAreWhatWasRecorded(p: Polling, steps: seq<Step>)
    requires Honest(p) && EarlyRestarts(p, steps)
    ensures DoAll(p, steps).log.stored == p.log.stored + EventsFrom(|p.log.stored| + 1, Bodies(steps))
    decreases |steps|
  {
    if steps == [] {
      NothingMore(p.log.stored, []);
    } else {
      var q, rest := Do(p, steps[0]), Bodies(steps[1..]);
      StepIsHonest(p, steps[0]);
      RowsAreWhatWasRecorded(q, steps[1..]);
      if steps[0].Record? {
        RecordIsStored(p, steps[0].body);
        OneMoreEvent(p.log.stored, steps[0].body, rest);
      } else {
        assert Bodies(steps) == [] + rest == rest;
        assert q.log.stored == p.log.stored;
      }
    }
  }

  // The log holds what was recorded, text by text, and a poller receives it.
  lemma PollerFromTheStart(steps: seq<Step>)
    requires EarlyRestarts(Start, steps)
    ensures var p := DoAll(Start, steps);
      && Valid(p.log) && p.log.stored == EventsFrom(1, Bodies(steps))
      && Genuine(p.received, p.seen, p.log.stored)
      && (p.received == p.log.stored[..p.seen] <==> KeepsUp(Start, steps))
  {
    PollerReceivesEverything(Start, steps);
    RowsAreWhatWasRecorded(Start, steps);
    assert [] + EventsFrom(1, Bodies(steps)) == EventsFrom(1, Bodies(steps));
  }
}
