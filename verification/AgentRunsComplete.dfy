// The scripts miss nothing: wherever cancellations land between the worker's
// awaits, and however their own handling interleaves with the worker's, the store
// ends as AgentRuns.Processed says for one of them.
module AgentRunsComplete {
  import opened Prelude
  import opened RunStatuses
  import opened GroupStores
  import opened GroupProtocol
  import opened GroupProtocolSafety
  import opened GroupProtocolClosing
  import AgentRuns

  type Who = Option<SessionId>

  // A queued run whose job was just taken, and the session that points at it.
  datatype Case = Case(st: Store, who: Who, run: RunId) {
    ghost predicate Valid() {
      && HasStatus(st, run, Queued) && run !in st.runJobs
      && AgentRuns.Context(st, who, run) && (who.Some? ==> who.value in st.sessions)
    }

    function Outputs(): bool
      requires run in st.runs
    {
      st.runs[run].outputs
    }

    // Only the run's row has changed.
    function Row(s: RunStatus): Store
      requires run in st.runs
    {
      st.(runs := st.runs[run := RunRow(s, st.runs[run].outputs)])
    }

    function Going(s: RunStatus, o: bool): Store
      requires who.Some? ==> who.value in st.sessions
    {
      AgentRuns.InProgress(st, who, run, s, o)
    }

    function Over(s: RunStatus): Store
      requires run in st.runs && (who.Some? ==> who.value in st.sessions)
    {
      AgentRuns.Over(st, who, run, s, st.runs[run].outputs)
    }

    function Synced(o: bool): Store
      requires who.Some? ==> who.value in st.sessions
    {
      var s := Going(Syncing, o);
      s.(syncJobs := s.syncJobs + {run})
    }
  }

  // ---- where the worker and the store can be

  predicate Ends(s: RunStatus) { s == Failed || s == Timeout || s == Canceled }

  predicate EarlyPc(a: Actor) {
    || (a.call.NoCall? && (a.pc.RunEntry? || a.pc.RunStart? || a.pc.RunCatch? || a.pc.Done?))
    || (a.pc.Done? && a.call == Find(Canceled))
  }

  // Canceled before the start. Until that is handled somebody is about to.
  ghost predicate CanceledEarly(c: Case, st: Store, a: Actor, pending: bool)
    requires c.Valid()
  {
    ((st == c.Row(Canceled) && pending) || st == c.Over(Canceled)) && EarlyPc(a)
  }

  ghost predicate Waiting(c: Case, st: Store, a: Actor) {
    st == c.st && a.call.NoCall? && (a.pc.RunEntry? || a.pc.RunStart?)
  }

  ghost predicate Starting(c: Case, st: Store, a: Actor)
    requires c.Valid()
  {
    (st == c.Row(Running) || st == c.Row(Canceled)) && a == Actor(c.run, RunPrepare, Find(Running))
  }

  ghost predicate AtWork(c: Case, st: Store, a: Actor)
    requires c.Valid()
  {
    (st == c.Going(Running, c.Outputs()) || st == c.Going(Canceled, c.Outputs())) && Working(a.pc) && a.call.NoCall?
  }

  ghost predicate Ending(c: Case, st: Store, a: Actor)
    requires c.Valid()
  {
    && a.pc.Done? && a.call.Find? && Ends(a.call.status)
    && st == c.Going(a.call.status, c.Outputs())
  }

  ghost predicate Handing(c: Case, st: Store, a: Actor)
    requires c.Valid()
  {
    && a.pc.RunEnqueueSync? && (a.call.NoCall? || a.call == Find(Syncing))
    && (st == c.Going(Syncing, true) || st == c.Going(Syncing, false))
  }

  // The worker is done: handled, stranded or handed over.
  ghost predicate Left(c: Case, st: Store)
    requires c.Valid()
  {
    || st == c.Over(Failed) || st == c.Over(Timeout) || st == c.Over(Canceled)
    || st == c.Going(Canceled, c.Outputs())
    || st == c.Synced(true) || st == c.Synced(false)
  }

  ghost predicate Somewhere(c: Case, st: Store, a: Actor, pending: bool)
    requires c.Valid()
  {
    && a.run == c.run
    && (|| CanceledEarly(c, st, a, pending)
        || (!pending && (|| Waiting(c, st, a) || Starting(c, st, a) || AtWork(c, st, a)
                         || Ending(c, st, a) || Handing(c, st, a)
                         || (a.pc.Done? && a.call.NoCall? && Left(c, st)))))
  }

  // ---- the worker's own steps

  lemma WaitingAdvances(c: Case, st: Store, a: Actor, ch: Choice)
    requires c.Valid() && a.run == c.run && Waiting(c, st, a)
    ensures Somewhere(c, Next(st, a, ch).0, Next(st, a, ch).1, false)
  {
  }

  lemma CanceledEarlyAdvances(c: Case, st: Store, a: Actor, pending: bool, ch: Choice)
    requires c.Valid() && a.run == c.run && CanceledEarly(c, st, a, pending) && a.call.NoCall?
    ensures CanceledEarly(c, Next(st, a, ch).0, Next(st, a, ch).1, pending)
  {
    assert HasStatus(st, c.run, Canceled);
  }

  predicate Reads(pc: Pc) {
    pc.RunPrepare? || pc.RunExecute? || pc.RunCheckSucceeded? || pc.RunCheckCanceled? || pc.RunCatch?
  }

  lemma ReaderAdvances(c: Case, st: Store, a: Actor, ch: Choice)
    requires c.Valid() && a.run == c.run && AtWork(c, st, a) && Reads(a.pc)
    ensures Somewhere(c, Next(st, a, ch).0, Next(st, a, ch).1, false)
  {
  }

  function Target(pc: Pc): RunStatus {
    if pc.RunTimeout? then Timeout else if pc.RunCancel? then Canceled else Failed
  }

  lemma WriterEnds(c: Case, a: Actor, ch: Choice)
    requires c.Valid() && a.run == c.run && Working(a.pc) && a.call.NoCall? && !Reads(a.pc) && !a.pc.RunSyncing?
    ensures Next(c.Going(Running, c.Outputs()), a, ch)
         == (c.Going(Target(a.pc), c.Outputs()), Actor(c.run, Done, Find(Target(a.pc))))
  {
    AgentRuns.Writes(c.st, c.who, c.run, Running, c.Outputs(), Target(a.pc));
  }

  lemma WriterFindsItCanceled(c: Case, a: Actor, ch: Choice)
    requires c.Valid() && a.run == c.run && Working(a.pc) && a.call.NoCall? && !Reads(a.pc) && !a.pc.RunSyncing?
    ensures var (st', a') := Next(c.Going(Canceled, c.Outputs()), a, ch); Somewhere(c, st', a', false)
  {
    AgentRuns.Writes(c.st, c.who, c.run, Canceled, c.Outputs(), Target(a.pc));
  }

  lemma WriterAdvances(c: Case, st: Store, a: Actor, ch: Choice)
    requires c.Valid() && a.run == c.run && AtWork(c, st, a) && !Reads(a.pc) && !a.pc.RunSyncing?
    ensures Somewhere(c, Next(st, a, ch).0, Next(st, a, ch).1, false)
  {
    if st == c.Going(Running, c.Outputs()) {
      WriterEnds(c, a, ch);
      assert Ending(c, Next(st, a, ch).0, Next(st, a, ch).1);
    } else {
      WriterFindsItCanceled(c, a, ch);
    }
  }

  lemma SyncingWritten(c: Case, a: Actor, ch: Choice)
    requires c.Valid() && a.run == c.run && a.pc.RunSyncing? && a.call.NoCall?
    ensures Next(c.Going(Running, c.Outputs()), a, ch)
         == (c.Going(Syncing, a.pc.outputs), Actor(c.run, RunEnqueueSync, Find(Syncing)))
  {
    AgentRuns.Writes(c.st, c.who, c.run, Running, c.Outputs(), Syncing);
    var now := c.Going(Syncing, c.Outputs());
    assert now.runs[c.run := RunRow(Syncing, a.pc.outputs)] == c.st.runs[c.run := RunRow(Syncing, a.pc.outputs)];
  }

  lemma SyncingThrows(c: Case, a: Actor, ch: Choice)
    requires c.Valid() && a.run == c.run && a.pc.RunSyncing? && a.call.NoCall?
    ensures Next(c.Going(Canceled, c.Outputs()), a, ch)
      == (c.Going(Canceled, c.Outputs()), Actor(c.run, RunCatch, NoCall))
  {
    AgentRuns.Writes(c.st, c.who, c.run, Canceled, c.Outputs(), Syncing);
  }

  lemma SyncingAdvances(c: Case, st: Store, a: Actor, ch: Choice)
    requires c.Valid() && a.run == c.run && AtWork(c, st, a) && a.pc.RunSyncing?
    ensures Somewhere(c, Next(st, a, ch).0, Next(st, a, ch).1, false)
  {
    if st == c.Going(Running, c.Outputs()) {
      SyncingWritten(c, a, ch);
      assert Handing(c, Next(st, a, ch).0, Next(st, a, ch).1);
    } else {
      SyncingThrows(c, a, ch);
      assert AtWork(c, Next(st, a, ch).0, Next(st, a, ch).1);
    }
  }

  lemma HandingAdvances(c: Case, st: Store, a: Actor, ch: Choice)
    requires c.Valid() && a.run == c.run && Handing(c, st, a) && a.call.NoCall?
    ensures Somewhere(c, Next(st, a, ch).0, Next(st, a, ch).1, false)
  {
  }

  lemma WorkAdvances(c: Case, st: Store, a: Actor, ch: Choice)
    requires c.Valid() && a.run == c.run && AtWork(c, st, a)
    ensures Somewhere(c, Next(st, a, ch).0, Next(st, a, ch).1, false)
  {
    if Reads(a.pc) {
      ReaderAdvances(c, st, a, ch);
    } else if a.pc.RunSyncing? {
      SyncingAdvances(c, st, a, ch);
    } else {
      WriterAdvances(c, st, a, ch);
    }
  }

  lemma Advances(c: Case, st: Store, a: Actor, pending: bool, ch: Choice)
    requires c.Valid() && Somewhere(c, st, a, pending) && a.call.NoCall?
    ensures Somewhere(c, Next(st, a, ch).0, Next(st, a, ch).1, pending)
  {
    if CanceledEarly(c, st, a, pending) {
      CanceledEarlyAdvances(c, st, a, pending, ch);
    } else if Waiting(c, st, a) {
      WaitingAdvances(c, st, a, ch);
    } else if AtWork(c, st, a) {
      WorkAdvances(c, st, a, ch);
    } else if Handing(c, st, a) {
      HandingAdvances(c, st, a, ch);
    } else if a.pc.Done? {
      assert Next(st, a, ch) == (st, a);
    }
  }

  // ---- handling

  // Handling from a store where the run's session is as in `before`.
  lemma Settles(c: Case, st: Store, a: Actor, x: SessionId)
    requires c.Valid() && a.run == c.run && a.call.Find? && AgentRuns.Context(st, c.who, c.run)
    ensures Whole(st, a, x) == (st, a)
      || Whole(st, a, x) == (AgentRuns.Settle(st, c.who, a.call.status), a.(call := NoCall))
    ensures c.who.Some? ==> c.who.value in st.sessions
  {
    assert c.who.Some? ==> PointsTo(st, c.who.value, c.run);
    if PointsTo(st, x, a.run) { assert c.who == Some(x); }
  }

  lemma Unsettled(c: Case, st: Store, a: Actor, x: SessionId)
    requires c.Valid() && a.run == c.run && AgentRuns.Context(st, None, c.run)
    ensures Whole(st, a, x).0 == st && (Whole(st, a, x).1 == a || Whole(st, a, x).1 == a.(call := NoCall))
  {
    assert !PointsTo(st, x, a.run);
  }

  lemma RowHasContext(c: Case, s: RunStatus)
    requires c.Valid()
    ensures AgentRuns.Context(c.Row(s), c.who, c.run)
    ensures Terminal(s) ==> AgentRuns.Settle(c.Row(s), c.who, s) == c.Over(s)
    ensures AgentRuns.Settle(c.Row(s), c.who, Running) == c.Going(s, c.Outputs())
  {
    forall sid ensures PointsTo(c.Row(s), sid, c.run) <==> c.who == Some(sid) {
      assert PointsTo(c.st, sid, c.run) <==> c.who == Some(sid);
    }
    assert c.st.runJobs - {c.run} == c.st.runJobs;
  }

  // Handling of an early cancellation, by the worker or by who asked for it:
  // afterwards it is settled, whoever else is still about to handle it.
  lemma EarlyCancelHandled(c: Case, st: Store, b: Actor, x: SessionId)
    requires c.Valid() && b.run == c.run && b.call == Find(Canceled)
    requires st == c.Row(Canceled) || st == c.Over(Canceled)
    ensures var (st', b') := Whole(st, b, x);
      (st' == st && b' == b) || (st' == c.Over(Canceled) && b' == b.(call := NoCall))
  {
    RowHasContext(c, Canceled);
    AgentRuns.Contexts(c.st, c.who, c.run, Canceled, c.Outputs());
    if st == c.Row(Canceled) { Settles(c, st, b, x); } else { Unsettled(c, st, b, x); }
  }

  lemma StartIsHandled(c: Case, st: Store, a: Actor, x: SessionId)
    requires c.Valid() && a.run == c.run && Starting(c, st, a)
    ensures Somewhere(c, Whole(st, a, x).0, Whole(st, a, x).1, false)
  {
    RowHasContext(c, Running);
    RowHasContext(c, Canceled);
    Settles(c, st, a, x);
  }

  lemma EndIsHandled(c: Case, st: Store, a: Actor, x: SessionId)
    requires c.Valid() && a.run == c.run && (Ending(c, st, a) || Handing(c, st, a))
    ensures Somewhere(c, Whole(st, a, x).0, Whole(st, a, x).1, false)
  {
    if a.call.Find? {
      var o := if Ending(c, st, a) then c.Outputs() else st == c.Going(Syncing, true);
      AgentRuns.Contexts(c.st, c.who, c.run, a.call.status, o);
      AgentRuns.Settles(c.st, c.who, c.run, a.call.status, o);
      Settles(c, st, a, x);
    }
  }

  lemma WorkerHandles(c: Case, st: Store, a: Actor, pending: bool, x: SessionId)
    requires c.Valid() && Somewhere(c, st, a, pending)
    ensures Somewhere(c, Whole(st, a, x).0, Whole(st, a, x).1, pending)
  {
    if CanceledEarly(c, st, a, pending) {
      if a.call.Find? { EarlyCancelHandled(c, st, a, x); }
    } else if Starting(c, st, a) {
      StartIsHandled(c, st, a, x);
    } else if Ending(c, st, a) || Handing(c, st, a) {
      EndIsHandled(c, st, a, x);
    }
  }

  // ---- cancellations

  lemma CanceledWhileWaiting(c: Case, st: Store, a: Actor)
    requires c.Valid() && a.run == c.run && Waiting(c, st, a)
    ensures Attempt(st, c.run, Canceled).Some?
    ensures Somewhere(c, Attempt(st, c.run, Canceled).value.(runJobs := st.runJobs - {c.run}), a, true)
  {
    assert c.st.runJobs - {c.run} == c.st.runJobs;
  }

  // Nothing to write: the run is canceled.
  lemma CanceledAgain(c: Case, st: Store)
    requires HasStatus(st, c.run, Canceled)
    ensures Attempt(st, c.run, Canceled) == Some(st)
  {
    assert st.runs[c.run := st.runs[c.run].(status := Canceled)] == st.runs;
  }

  lemma CanceledWhileStarting(c: Case, st: Store, a: Actor)
    requires c.Valid() && a.run == c.run && Starting(c, st, a)
    ensures HasStatus(st, c.run, Running) || HasStatus(st, c.run, Canceled)
    ensures Attempt(st, c.run, Canceled) == Some(c.Row(Canceled))
  {
    assert c.Row(Running).runs[c.run := RunRow(Canceled, c.Outputs())] == c.Row(Canceled).runs;
    if st == c.Row(Canceled) { CanceledAgain(c, st); }
  }

  lemma CanceledAtWork(c: Case, st: Store, a: Actor)
    requires c.Valid() && a.run == c.run && AtWork(c, st, a)
    ensures HasStatus(st, c.run, Running) || HasStatus(st, c.run, Canceled)
    ensures Attempt(st, c.run, Canceled) == Some(c.Going(Canceled, c.Outputs()))
  {
    var s := if st == c.Going(Running, c.Outputs()) then Running else Canceled;
    AgentRuns.Writes(c.st, c.who, c.run, s, c.Outputs(), Canceled);
  }

  predicate Settled(s: RunStatus) { Terminal(s) || s == Syncing }

  predicate IsSettled(st: Store, run: RunId) { run in st.runs && Settled(st.runs[run].status) }

  lemma EndIsSettled(c: Case, st: Store, a: Actor)
    requires c.Valid() && (Ending(c, st, a) || Handing(c, st, a))
    ensures IsSettled(st, c.run)
  {
  }

  lemma LeftIsSettled(c: Case, st: Store)
    requires c.Valid() && Left(c, st)
    ensures IsSettled(st, c.run)
  {
  }

  // When the run is over or in synchronization only another cancellation is allowed.
  lemma CanceledWhenSettled(c: Case, st: Store)
    requires IsSettled(st, c.run) && Attempt(st, c.run, Canceled).Some?
    ensures Attempt(st, c.run, Canceled) == Some(st) && HasStatus(st, c.run, Canceled)
  {
    CanceledAgain(c, st);
  }

  lemma CanceledLater(c: Case, st: Store, a: Actor, pending: bool)
    requires c.Valid() && Somewhere(c, st, a, pending) && !Waiting(c, st, a) && Attempt(st, c.run, Canceled).Some?
    ensures !HasStatus(st, c.run, Queued)
    ensures Somewhere(c, Attempt(st, c.run, Canceled).value, a, pending)
  {
    if CanceledEarly(c, st, a, pending) {
      CanceledAgain(c, st);
    } else if AtWork(c, st, a) {
      CanceledAtWork(c, st, a);
      assert AtWork(c, Attempt(st, c.run, Canceled).value, a);
    } else if Starting(c, st, a) {
      CanceledWhileStarting(c, st, a);
      assert Starting(c, Attempt(st, c.run, Canceled).value, a);
    } else {
      if Left(c, st) { LeftIsSettled(c, st); } else { EndIsSettled(c, st, a); }
      CanceledWhenSettled(c, st);
    }
  }

  // ---- every interleaving of one worker and cancellations of its run

  // Somebody else is about to handle a cancellation of the run.
  ghost predicate Pending(actors: Actors, id: ActorId, run: RunId) {
    exists i :: i in actors && i != id && actors[i] == Actor(run, Done, Find(Canceled))
  }

  // Besides the worker only cancellations deal with the run.
  ghost predicate OnlyCancels(actors: Actors, id: ActorId, run: RunId) {
    forall i :: i in actors && i != id && actors[i].run == run ==>
      actors[i] == Actor(run, Done, Find(Canceled)) || actors[i] == Actor(run, Done, NoCall)
  }

  ghost predicate Tracked(c: Case, w: World, id: ActorId)
    requires c.Valid()
  {
    && id in w.actors && OnlyCancels(w.actors, id, c.run)
    && Somewhere(c, w.st, w.actors[id], Pending(w.actors, id, c.run))
  }

  // A step of the worker, a cancellation of the run, or the handling of one.
  ghost predicate About(l: Label, w: World, id: ActorId, run: RunId) {
    || (l.Advance? && l.actor == id)
    || (l.Handle? && l.actor in w.actors && w.actors[l.actor].run == run)
    || (l.Cancel? && l.run == run)
  }

  ghost predicate AllAbout(w: World, ls: seq<Label>, id: ActorId, run: RunId) {
    ls == [] || (
      var before := ls[..|ls| - 1];
      AllAbout(w, before, id, run) && About(ls[|ls| - 1], Run(w, before), id, run))
  }

  lemma AdvanceIsTracked(c: Case, w: World, id: ActorId, ch: Choice)
    requires c.Valid() && Tracked(c, w, id) && w.actors[id].call.NoCall?
    ensures Tracked(c, Apply(w, Advance(id, ch)), id)
  {
    var (st', a') := Next(w.st, w.actors[id], ch);
    Advances(c, w.st, w.actors[id], Pending(w.actors, id, c.run), ch);
    SameOthers(w.actors, w.actors[id := a'], id, c.run);
    assert Somewhere(c, st', a', Pending(w.actors, id, c.run));
    var w' := Apply(w, Advance(id, ch));
    assert w'.st == st' && w'.actors == w.actors[id := a'];
  }

  lemma OwnHandlingIsTracked(c: Case, w: World, id: ActorId, x: SessionId)
    requires c.Valid() && Tracked(c, w, id)
    ensures Tracked(c, HandleAtOnce(w, id, x), id)
  {
    var (st', a') := Whole(w.st, w.actors[id], x);
    WorkerHandles(c, w.st, w.actors[id], Pending(w.actors, id, c.run), x);
    SameOthers(w.actors, w.actors[id := a'], id, c.run);
  }

  lemma SameOthers(actors: Actors, actors': Actors, id: ActorId, run: RunId)
    requires actors'.Keys == actors.Keys && forall i :: i in actors && i != id ==> actors'[i] == actors[i]
    ensures Pending(actors', id, run) <==> Pending(actors, id, run)
    ensures OnlyCancels(actors', id, run) <==> OnlyCancels(actors, id, run)
  {
    if Pending(actors, id, run) {
      var i :| i in actors && i != id && actors[i] == Actor(run, Done, Find(Canceled));
      assert actors'[i] == Actor(run, Done, Find(Canceled));
    }
  }

  lemma OtherHandlingIsTracked(c: Case, w: World, id: ActorId, b: ActorId, x: SessionId)
    requires c.Valid() && Tracked(c, w, id) && b in w.actors && b != id && w.actors[b].run == c.run
    ensures Tracked(c, HandleAtOnce(w, b, x), id)
  {
    var w' := HandleAtOnce(w, b, x);
    if w.actors[b].call.Find? {
      assert Pending(w.actors, id, c.run);
      assert CanceledEarly(c, w.st, w.actors[id], true);
      EarlyCancelHandled(c, w.st, w.actors[b], x);
      if w'.actors[b] == w.actors[b] {
        SameOthers(w.actors, w'.actors, id, c.run);
      } else {
        assert CanceledEarly(c, w'.st, w'.actors[id], Pending(w'.actors, id, c.run));
      }
    } else {
      assert w'.actors == w.actors;
    }
  }

  lemma CancelIsTracked(c: Case, w: World, id: ActorId, b: ActorId)
    requires c.Valid() && Tracked(c, w, id)
    ensures Tracked(c, CancelRun(w, b, c.run), id)
  {
    var w' := CancelRun(w, b, c.run);
    var a, pending := w.actors[id], Pending(w.actors, id, c.run);
    if b !in w.actors && Attempt(w.st, c.run, Canceled).Some? {
      if Waiting(c, w.st, a) {
        CanceledWhileWaiting(c, w.st, a);
        assert w'.actors[b] == Actor(c.run, Done, Find(Canceled));
        assert Pending(w'.actors, id, c.run);
      } else {
        CanceledLater(c, w.st, a, pending);
      }
    }
  }

  lemma StepIsTracked(c: Case, w: World, id: ActorId, l: Label)
    requires c.Valid() && Tracked(c, w, id) && About(l, w, id, c.run)
    ensures Tracked(c, Apply(w, l), id)
  {
    if l.Cancel? {
      CancelIsTracked(c, w, id, l.actor);
    } else if l.actor == id {
      if l.Handle? {
        OwnHandlingIsTracked(c, w, id, l.sid);
      } else if w.actors[id].call.NoCall? {
        AdvanceIsTracked(c, w, id, l.choice);
      }
    } else {
      OtherHandlingIsTracked(c, w, id, l.actor, l.sid);
    }
  }

  lemma {:induction false} RunIsTracked(c: Case, w: World, id: ActorId, ls: seq<Label>)
    requires c.Valid() && Tracked(c, w, id) && AllAbout(w, ls, id, c.run)
    ensures Tracked(c, Run(w, ls), id)
  {
    if ls != [] {
      RunIsTracked(c, w, id, ls[..|ls| - 1]);
      StepIsTracked(c, Run(w, ls[..|ls| - 1]), id, ls[|ls| - 1]);
    }
  }

  // ---- the end

  ghost predicate IsProcessed(c: Case, st: Store, script: AgentRuns.Script)
    requires c.Valid()
  {
    st == AgentRuns.Processed(c.st, c.who, c.run, script)
  }

  const Idle := AgentRuns.Script(AgentRuns.RepoNotReady, AgentRuns.ExecutionThrows, {})
  const Slow := AgentRuns.Script(AgentRuns.Ready, AgentRuns.ExecutionTimedOut, {})
  const Early := AgentRuns.Script(AgentRuns.Ready, AgentRuns.ExecutionThrows, {AgentRuns.BeforeStart})
  const Late := AgentRuns.Script(AgentRuns.PreparationFails, AgentRuns.ExecutionThrows, {AgentRuns.InCatch})

  function Success(o: bool): AgentRuns.Script { AgentRuns.Script(AgentRuns.Ready, AgentRuns.ExecutionSucceeded(o), {}) }

  lemma ScriptsEndThere(c: Case)
    requires c.Valid()
    ensures IsProcessed(c, c.Over(Failed), Idle) && IsProcessed(c, c.Over(Timeout), Slow)
    ensures IsProcessed(c, c.Over(Canceled), Early)
    ensures IsProcessed(c, c.Going(Canceled, c.Outputs()), Late)
    ensures forall o :: IsProcessed(c, c.Synced(o), Success(o))
  {
    assert AgentRuns.BeforeStart in Early.cancels && AgentRuns.InCatch in Late.cancels;
  }

  ghost predicate OnlyIdle(actors: Actors, run: RunId) {
    forall i :: i in actors && actors[i].run == run ==> actors[i] == Actor(run, Done, NoCall)
  }

  lemma LeftIsProcessed(c: Case, st: Store)
    requires c.Valid() && Left(c, st)
    ensures exists script :: IsProcessed(c, st, script)
  {
    ScriptsEndThere(c);
    var o := st == c.Synced(true);
    assert IsProcessed(c, c.Synced(o), Success(o));
  }

  lemma EndIsProcessed(c: Case, v: World, id: ActorId)
    requires c.Valid() && Tracked(c, v, id) && OnlyIdle(v.actors, c.run)
    ensures exists script :: IsProcessed(c, v.st, script)
  {
    assert v.actors[id] == Actor(c.run, Done, NoCall);
    assert !Pending(v.actors, id, c.run);
    LeftIsProcessed(c, v.st);
  }

  // The worker has just taken the job.
  lemma StartIsTracked(w: World, id: ActorId, who: Who, run: RunId)
    requires run in w.st.runJobs && id !in w.actors && HasStatus(w.st, run, Queued)
    requires AgentRuns.Context(w.st, who, run) && forall i :: i in w.actors ==> w.actors[i].run != run
    ensures var taken := Apply(w, TakeRunJob(id, run)); var c := Case(taken.st, who, run);
      c.Valid() && Tracked(c, taken, id)
  {
    var taken := Apply(w, TakeRunJob(id, run));
    var c := Case(taken.st, who, run);
    assert who.Some? ==> PointsTo(w.st, who.value, run);
    forall sid ensures PointsTo(c.st, sid, run) <==> who == Some(sid) {
      assert PointsTo(w.st, sid, run) <==> who == Some(sid);
    }
    assert !Pending(taken.actors, id, run);
    assert Waiting(c, taken.st, taken.actors[id]);
  }

  lemma TrackedToTheEnd(c: Case, w: World, id: ActorId, ls: seq<Label>)
    requires c.Valid() && Tracked(c, w, id) && AllAbout(w, ls, id, c.run) && OnlyIdle(Run(w, ls).actors, c.run)
    ensures exists script :: IsProcessed(c, Run(w, ls).st, script)
  {
    RunIsTracked(c, w, id, ls);
    EndIsProcessed(c, Run(w, ls), id);
  }

  // Taking the job changes nothing a script says.
  lemma FromBefore(st: Store, who: Who, run: RunId, end: Store)
    requires AgentRuns.Context(st, who, run) && run in st.runs && (who.Some? ==> who.value in st.sessions)
    requires var c := Case(st.(runJobs := st.runJobs - {run}), who, run);
      c.Valid() && exists script :: IsProcessed(c, end, script)
    ensures exists script :: end == AgentRuns.Processed(st, who, run, script)
  {
    var c := Case(st.(runJobs := st.runJobs - {run}), who, run);
    var script :| IsProcessed(c, end, script);
    AgentRuns.JobTaken(st, who, run, script);
  }

  // From any state in which a queued run's job waits and nobody deals with the
  // run: whatever its worker, cancellations of it and their handling do, in any
  // order, once they are done the store is what some script says.
  lemma EveryInterleavingIsAScript(w: World, id: ActorId, who: Who, run: RunId, ls: seq<Label>)
    requires run in w.st.runJobs && id !in w.actors && HasStatus(w.st, run, Queued)
    requires AgentRuns.Context(w.st, who, run) && forall i :: i in w.actors ==> w.actors[i].run != run
    requires AllAbout(Apply(w, TakeRunJob(id, run)), ls, id, run)
    requires OnlyIdle(Run(Apply(w, TakeRunJob(id, run)), ls).actors, run)
    ensures who.Some? ==> who.value in w.st.sessions
    ensures exists script ::
      Run(Apply(w, TakeRunJob(id, run)), ls).st == AgentRuns.Processed(w.st, who, run, script)
  {
    var taken := Apply(w, TakeRunJob(id, run));
    var c := Case(taken.st, who, run);
    StartIsTracked(w, id, who, run);
    TrackedToTheEnd(c, taken, id, ls);
    assert who.Some? ==> PointsTo(w.st, who.value, run);
    FromBefore(w.st, who, run, Run(taken, ls).st);
  }
}
