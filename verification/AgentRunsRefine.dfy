// The worker's method is a run of the protocol: for every script some
// interleaving of GroupProtocol, with whole status handling and no expiry,
// leaves the store exactly as AgentRuns.Processed says.
module AgentRunsRefine {
  import opened Prelude
  import opened RunStatuses
  import opened GroupStores
  import opened GroupProtocol
  import opened GroupProtocolSafety
  import opened GroupProtocolClosing
  import AgentRuns

  type Who = Option<SessionId>

  // Some run of the system from w leaves this store and actor.
  ghost predicate Can(w: World, id: ActorId, st: Store, a: Actor) {
    exists ls :: Ends(w, ls, id, st, a)
  }

  ghost predicate Ends(w: World, ls: seq<Label>, id: ActorId, st: Store, a: Actor) {
    && WholeHandling(ls) && NoExpiry(ls)
    && var v := Run(w, ls); v.st == st && id in v.actors && v.actors[id] == a
  }

  lemma OneMore(w: World, ls: seq<Label>, l: Label)
    requires WholeHandling(ls) && NoExpiry(ls) && !l.HandlePart? && !l.Expire?
    ensures WholeHandling(ls + [l]) && NoExpiry(ls + [l]) && Run(w, ls + [l]) == Apply(Run(w, ls), l)
  {
    assert (ls + [l])[..|ls|] == ls;
  }

  lemma Advances(w: World, id: ActorId, st: Store, a: Actor, c: Choice)
    requires Can(w, id, st, a) && a.call.NoCall?
    ensures Can(w, id, Next(st, a, c).0, Next(st, a, c).1)
  {
    var ls :| Ends(w, ls, id, st, a);
    OneMore(w, ls, Advance(id, c));
    assert Ends(w, ls + [Advance(id, c)], id, Next(st, a, c).0, Next(st, a, c).1);
  }

  lemma Handles(w: World, id: ActorId, st: Store, a: Actor, x: SessionId)
    requires Can(w, id, st, a)
    ensures Can(w, id, Whole(st, a, x).0, Whole(st, a, x).1)
  {
    var ls :| Ends(w, ls, id, st, a);
    OneMore(w, ls, Handle(id, x));
    assert Ends(w, ls + [Handle(id, x)], id, Whole(st, a, x).0, Whole(st, a, x).1);
  }

  // A cancellation request while the run has started: only its status changes.
  lemma Cancels(w: World, id: ActorId, st: Store, a: Actor, r: RunId)
    requires Can(w, id, st, a) && Attempt(st, r, Canceled).Some? && !HasStatus(st, r, Queued)
    ensures Can(w, id, Attempt(st, r, Canceled).value, a)
  {
    var ls :| Ends(w, ls, id, st, a);
    var c := Unused(Run(w, ls).actors.Keys);
    OneMore(w, ls, Cancel(c, r));
    assert Ends(w, ls + [Cancel(c, r)], id, Attempt(st, r, Canceled).value, a);
  }

  // And while it is queued: its session is settled too.
  lemma CancelsQueued(w: World, id: ActorId, st: Store, a: Actor, who: Who, r: RunId)
    requires Can(w, id, st, a) && HasStatus(st, r, Queued) && AgentRuns.Context(st, who, r)
    ensures who.Some? ==> who.value in st.sessions
    ensures Can(w, id, AgentRuns.Over(st, who, r, Canceled, st.runs[r].outputs), a)
  {
    var ls :| Ends(w, ls, id, st, a);
    var c := Unused(Run(w, ls).actors.Keys);
    var x: SessionId := if who.Some? then who.value else "";
    var v := Run(w, ls);
    QueuedCancelSteps(v, c, who, r, x);
    CancelAndHandle(w, ls, c, r, x, id, HandleAtOnce(CancelRun(v, c, r), c, x));
  }

  lemma CancelAndHandle(w: World, ls: seq<Label>, c: ActorId, r: RunId, x: SessionId, id: ActorId, v: World)
    requires WholeHandling(ls) && NoExpiry(ls) && v == HandleAtOnce(CancelRun(Run(w, ls), c, r), c, x) && id in v.actors
    ensures Can(w, id, v.st, v.actors[id])
  {
    var canceled := ls + [Cancel(c, r)];
    OneMoreCancel(w, ls, c, r);
    HandledEnds(w, canceled, c, x, id, v);
  }

  lemma OneMoreCancel(w: World, ls: seq<Label>, c: ActorId, r: RunId)
    requires WholeHandling(ls) && NoExpiry(ls)
    ensures WholeHandling(ls + [Cancel(c, r)]) && NoExpiry(ls + [Cancel(c, r)])
    ensures Run(w, ls + [Cancel(c, r)]) == CancelRun(Run(w, ls), c, r)
  {
    OneMore(w, ls, Cancel(c, r));
  }

  lemma HandledEnds(w: World, ls: seq<Label>, c: ActorId, x: SessionId, id: ActorId, v: World)
    requires WholeHandling(ls) && NoExpiry(ls) && v == HandleAtOnce(Run(w, ls), c, x) && id in v.actors
    ensures Can(w, id, v.st, v.actors[id])
  {
    var handled := ls + [Handle(c, x)];
    OneMore(w, ls, Handle(c, x));
    assert Run(w, handled) == v;
    assert Ends(w, handled, id, v.st, v.actors[id]);
  }

  lemma QueuedCancelSteps(v: World, c: ActorId, who: Who, r: RunId, x: SessionId)
    requires c !in v.actors && HasStatus(v.st, r, Queued) && AgentRuns.Context(v.st, who, r)
    requires who.Some? ==> x == who.value
    ensures who.Some? ==> who.value in v.st.sessions
    ensures var v' := HandleAtOnce(CancelRun(v, c, r), c, x);
      && v'.st == AgentRuns.Over(v.st, who, r, Canceled, v.st.runs[r].outputs)
      && v.actors.Keys <= v'.actors.Keys && forall i | i in v.actors :: v'.actors[i] == v.actors[i]
  {
    var st' := v.st.(runs := v.st.runs[r := RunRow(Canceled, v.st.runs[r].outputs)], runJobs := v.st.runJobs - {r});
    var v1 := CancelRun(v, c, r);
    assert v1.st == st' && v1.actors == v.actors[c := Actor(r, Done, Find(Canceled))];
    HandledAs(st', who, Actor(r, Done, Find(Canceled)), x, v.st);
  }

  // Whole handling is Settle on the session that points at the run.
  lemma HandledAs(st: Store, who: Who, a: Actor, x: SessionId, before: Store)
    requires AgentRuns.Context(before, who, a.run) && st.sessions == before.sessions
    requires a.call.Find? && (who.Some? ==> x == who.value)
    ensures who.Some? ==> who.value in st.sessions
    ensures Whole(st, a, x) == (AgentRuns.Settle(st, who, a.call.status), a.(call := NoCall))
  {
    forall sid ensures PointsTo(st, sid, a.run) <==> who == Some(sid) {
      assert PointsTo(before, sid, a.run) <==> who == Some(sid);
    }
  }

  // ---- the worker's stages

  predicate Fits(st: Store, who: Who, run: RunId) { run in st.runs && (who.Some? ==> who.value in st.sessions) }

  // The worker is at pc and the run in progress with status s.
  ghost predicate InStage(w: World, id: ActorId, st: Store, who: Who, run: RunId, pc: Pc, s: RunStatus, o: bool) {
    Fits(st, who, run) && Can(w, id, AgentRuns.InProgress(st, who, run, s, o), Actor(run, pc, NoCall))
  }

  ghost predicate IsOver(w: World, id: ActorId, st: Store, who: Who, run: RunId, s: RunStatus, o: bool) {
    Fits(st, who, run) && Can(w, id, AgentRuns.Over(st, who, run, s, o), Actor(run, Done, NoCall))
  }

  lemma Settled(w: World, id: ActorId, st: Store, who: Who, run: RunId, pc: Pc, s: RunStatus, o: bool)
    requires Fits(st, who, run) && AgentRuns.Context(st, who, run)
    requires Can(w, id, AgentRuns.InProgress(st, who, run, s, o), Actor(run, pc, Find(s)))
    ensures Terminal(s) ==> Can(w, id, AgentRuns.Over(st, who, run, s, o), Actor(run, pc, NoCall))
    ensures s == Syncing ==> Can(w, id, AgentRuns.InProgress(st, who, run, s, o), Actor(run, pc, NoCall))
  {
    var now := AgentRuns.InProgress(st, who, run, s, o);
    var x: SessionId := if who.Some? then who.value else "";
    AgentRuns.Contexts(st, who, run, s, o);
    AgentRuns.Settles(st, who, run, s, o);
    HandledAs(now, who, Actor(run, pc, Find(s)), x, now);
    Handles(w, id, now, Actor(run, pc, Find(s)), x);
  }

  lemma MaybeCanceled(w: World, id: ActorId, st: Store, who: Who, run: RunId, pc: Pc, s: RunStatus, o: bool,
      cancel: bool)
    requires InStage(w, id, st, who, run, pc, s, o) && (s == Running || s == Canceled)
    ensures InStage(w, id, st, who, run, pc, if cancel then Canceled else s, o)
  {
    if cancel {
      AgentRuns.Writes(st, who, run, s, o, Canceled);
      Cancels(w, id, AgentRuns.InProgress(st, who, run, s, o), Actor(run, pc, NoCall), run);
    }
  }

  // A write of a terminal status from a stage whose step is that write.
  lemma WritesEnd(w: World, id: ActorId, st: Store, who: Who, run: RunId, pc: Pc, s: RunStatus, o: bool, to: RunStatus,
      thrown: Pc)
    requires InStage(w, id, st, who, run, pc, s, o) && AgentRuns.Context(st, who, run) && Terminal(to)
    requires forall x :: Next(x, Actor(run, pc, NoCall), Proceed) == Write(x, Actor(run, pc, NoCall), to, Done, thrown)
    ensures Allowed(s, to) ==> IsOver(w, id, st, who, run, to, o)
    ensures !Allowed(s, to) ==> InStage(w, id, st, who, run, thrown, s, o)
  {
    var now := AgentRuns.InProgress(st, who, run, s, o);
    AgentRuns.Writes(st, who, run, s, o, to);
    Advances(w, id, now, Actor(run, pc, NoCall), Proceed);
    if Allowed(s, to) { Settled(w, id, st, who, run, Done, to, o); }
  }

  // A fresh read of the row that finds the run canceled.
  lemma ReadsCanceled(w: World, id: ActorId, st: Store, who: Who, run: RunId, pc: Pc, o: bool)
    requires InStage(w, id, st, who, run, pc, Canceled, o) && AgentRuns.Context(st, who, run)
    requires pc.RunCatch? || pc.RunCheckSucceeded? || pc.RunCheckCanceled?
    ensures IsOver(w, id, st, who, run, Canceled, o)
  {
    var now := AgentRuns.InProgress(st, who, run, Canceled, o);
    assert HasStatus(now, run, Canceled);
    Advances(w, id, now, Actor(run, pc, NoCall), Proceed);
    Settled(w, id, st, who, run, Done, Canceled, o);
  }

  lemma ReadsRunning(w: World, id: ActorId, st: Store, who: Who, run: RunId, pc: Pc, next: Pc, o: bool)
    requires InStage(w, id, st, who, run, pc, Running, o)
    requires forall x :: Next(x, Actor(run, pc, NoCall), Proceed) == (x, IfCanceled(x, Actor(run, pc, NoCall), next))
    ensures InStage(w, id, st, who, run, next, Running, o)
  {
    Advances(w, id, AgentRuns.InProgress(st, who, run, Running, o), Actor(run, pc, NoCall), Proceed);
  }

  lemma Goes(w: World, id: ActorId, st: Store, who: Who, run: RunId, pc: Pc, c: Choice, next: Pc, s: RunStatus, o: bool)
    requires InStage(w, id, st, who, run, pc, s, o)
    requires forall x :: Next(x, Actor(run, pc, NoCall), c) == (x, Actor(run, next, NoCall))
    ensures InStage(w, id, st, who, run, next, s, o)
  {
    Advances(w, id, AgentRuns.InProgress(st, who, run, s, o), Actor(run, pc, NoCall), c);
  }

  // The catch block.
  lemma Catches(w: World, id: ActorId, st: Store, who: Who, run: RunId, s: RunStatus, o: bool, cancel: bool)
    requires InStage(w, id, st, who, run, RunCatch, s, o) && AgentRuns.Context(st, who, run)
    requires s == Running || s == Canceled
    ensures s == Canceled ==> IsOver(w, id, st, who, run, Canceled, o)
    ensures s == Running && cancel ==> InStage(w, id, st, who, run, Done, Canceled, o)
    ensures s == Running && !cancel ==> IsOver(w, id, st, who, run, Failed, o)
  {
    if s == Canceled {
      ReadsCanceled(w, id, st, who, run, RunCatch, o);
    } else {
      ReadsRunning(w, id, st, who, run, RunCatch, RunFail, o);
      MaybeCanceled(w, id, st, who, run, RunFail, Running, o, cancel);
      WritesEnd(w, id, st, who, run, RunFail, if cancel then Canceled else Running, o, Failed, Done);
    }
  }

  // A terminal write that throws when the run was canceled before it.
  lemma WritesOrCatches(w: World, id: ActorId, st: Store, who: Who, run: RunId, pc: Pc, s: RunStatus, o: bool,
      to: RunStatus, cancel: bool)
    requires InStage(w, id, st, who, run, pc, s, o) && AgentRuns.Context(st, who, run)
    requires s == Running || s == Canceled
    requires to == Failed || to == Timeout
    requires forall x ::
      Next(x, Actor(run, pc, NoCall), Proceed) == Write(x, Actor(run, pc, NoCall), to, Done, RunCatch)
    ensures IsOver(w, id, st, who, run, if s == Canceled then Canceled else to, o)
  {
    WritesEnd(w, id, st, who, run, pc, s, o, to, RunCatch);
    if s == Canceled { Catches(w, id, st, who, run, Canceled, o, cancel); }
  }

  lemma SucceededEnds(w: World, id: ActorId, st: Store, who: Who, run: RunId, s: RunStatus, o: bool, outputs: bool,
      cancel: bool)
    requires InStage(w, id, st, who, run, RunCheckSucceeded(outputs), s, o) && AgentRuns.Context(st, who, run)
    requires s == Running || s == Canceled
    ensures s == Canceled || cancel ==> IsOver(w, id, st, who, run, Canceled, o)
    ensures s == Running && !cancel ==>
      var synced := AgentRuns.InProgress(st, who, run, Syncing, outputs);
      Can(w, id, synced.(syncJobs := synced.syncJobs + {run}), Actor(run, Done, NoCall))
  {
    if s == Canceled {
      ReadsCanceled(w, id, st, who, run, RunCheckSucceeded(outputs), o);
    } else {
      ReadsRunning(w, id, st, who, run, RunCheckSucceeded(outputs), RunSyncing(outputs), o);
      MaybeCanceled(w, id, st, who, run, RunSyncing(outputs), Running, o, cancel);
      if cancel {
        SyncingRefused(w, id, st, who, run, o, outputs);
      } else {
        SyncingEntered(w, id, st, who, run, o, outputs);
      }
    }
  }

  lemma SyncingRefused(w: World, id: ActorId, st: Store, who: Who, run: RunId, o: bool, outputs: bool)
    requires InStage(w, id, st, who, run, RunSyncing(outputs), Canceled, o) && AgentRuns.Context(st, who, run)
    ensures IsOver(w, id, st, who, run, Canceled, o)
  {
    AgentRuns.Writes(st, who, run, Canceled, o, Syncing);
    Advances(w, id, AgentRuns.InProgress(st, who, run, Canceled, o), Actor(run, RunSyncing(outputs), NoCall), Proceed);
    Catches(w, id, st, who, run, Canceled, o, false);
  }

  lemma SyncingEntered(w: World, id: ActorId, st: Store, who: Who, run: RunId, o: bool, outputs: bool)
    requires InStage(w, id, st, who, run, RunSyncing(outputs), Running, o) && AgentRuns.Context(st, who, run)
    ensures var synced := AgentRuns.InProgress(st, who, run, Syncing, outputs);
      Can(w, id, synced.(syncJobs := synced.syncJobs + {run}), Actor(run, Done, NoCall))
  {
    SyncingWritten(st, who, run, o, outputs);
    Advances(w, id, AgentRuns.InProgress(st, who, run, Running, o), Actor(run, RunSyncing(outputs), NoCall), Proceed);
    Settled(w, id, st, who, run, RunEnqueueSync, Syncing, outputs);
    Enqueued(w, id, AgentRuns.InProgress(st, who, run, Syncing, outputs), run);
  }

  lemma Enqueued(w: World, id: ActorId, st: Store, run: RunId)
    requires Can(w, id, st, Actor(run, RunEnqueueSync, NoCall))
    ensures Can(w, id, st.(syncJobs := st.syncJobs + {run}), Actor(run, Done, NoCall))
  {
    Advances(w, id, st, Actor(run, RunEnqueueSync, NoCall), Proceed);
  }

  lemma SyncingWritten(st: Store, who: Who, run: RunId, o: bool, outputs: bool)
    requires Fits(st, who, run)
    ensures AttemptSyncing(AgentRuns.InProgress(st, who, run, Running, o), run, outputs)
      == Some(AgentRuns.InProgress(st, who, run, Syncing, outputs))
  {
    AgentRuns.Writes(st, who, run, Running, o, Syncing);
    var now := AgentRuns.InProgress(st, who, run, Syncing, o);
    assert now.runs[run := RunRow(Syncing, outputs)] == st.runs[run := RunRow(Syncing, outputs)];
  }

  lemma CanceledReportEnds(w: World, id: ActorId, st: Store, who: Who, run: RunId, s: RunStatus, o: bool)
    requires InStage(w, id, st, who, run, RunCheckCanceled, s, o) && AgentRuns.Context(st, who, run)
    requires s == Running || s == Canceled
    ensures IsOver(w, id, st, who, run, Canceled, o)
  {
    if s == Canceled {
      ReadsCanceled(w, id, st, who, run, RunCheckCanceled, o);
    } else {
      ReadsRunning(w, id, st, who, run, RunCheckCanceled, RunCancel, o);
      WritesEnd(w, id, st, who, run, RunCancel, Running, o, Canceled, RunCatch);
    }
  }

  // ---- a script played out

  ghost predicate PlayedOut(w: World, id: ActorId, st: Store, who: Who, run: RunId, script: AgentRuns.Script) {
    Fits(st, who, run) && Can(w, id, AgentRuns.Processed(st, who, run, script), Actor(run, Done, NoCall))
  }

  lemma TimeoutEnds(w: World, id: ActorId, st: Store, who: Who, run: RunId, s: RunStatus, o: bool)
    requires InStage(w, id, st, who, run, RunExecute, s, o) && AgentRuns.Context(st, who, run)
    requires s == Running || s == Canceled
    ensures IsOver(w, id, st, who, run, if s == Canceled then Canceled else Timeout, o)
  {
    Goes(w, id, st, who, run, RunExecute, ReportTimeout, RunTimeout, s, o);
    WritesOrCatches(w, id, st, who, run, RunTimeout, s, o, Timeout, false);
  }

  lemma ExecutionPlaysOut(w: World, id: ActorId, st: Store, who: Who, run: RunId, script: AgentRuns.Script,
      s: RunStatus)
    requires AgentRuns.Context(st, who, run) && script.preparation.Ready? && AgentRuns.BeforeStart !in script.cancels
    requires run in st.runs && InStage(w, id, st, who, run, RunExecute, s, st.runs[run].outputs)
    requires
      var cancel := AgentRuns.BeforeExecution in script.cancels || AgentRuns.AfterExecution in script.cancels;
      s == if cancel then Canceled else Running
    ensures PlayedOut(w, id, st, who, run, script)
  {
    var o := st.runs[run].outputs;
    match script.execution {
      case ExecutionSucceeded(outputs) =>
        SuccessPlaysOut(w, id, st, who, run, script, s);
      case ExecutionTimedOut =>
        TimeoutEnds(w, id, st, who, run, s, o);
      case ExecutionCanceled =>
        Goes(w, id, st, who, run, RunExecute, ReportCanceled, RunCheckCanceled, s, o);
        CanceledReportEnds(w, id, st, who, run, s, o);
      case ExecutionThrows =>
        Goes(w, id, st, who, run, RunExecute, Throw, RunCatch, s, o);
        Catches(w, id, st, who, run, s, o, AgentRuns.InCatch in script.cancels);
    }
  }

  lemma SuccessPlaysOut(w: World, id: ActorId, st: Store, who: Who, run: RunId, script: AgentRuns.Script, s: RunStatus)
    requires AgentRuns.Context(st, who, run) && script.preparation.Ready? && AgentRuns.BeforeStart !in script.cancels
    requires script.execution.ExecutionSucceeded?
    requires run in st.runs && InStage(w, id, st, who, run, RunExecute, s, st.runs[run].outputs)
    requires
      var cancel := AgentRuns.BeforeExecution in script.cancels || AgentRuns.AfterExecution in script.cancels;
      s == if cancel then Canceled else Running
    ensures PlayedOut(w, id, st, who, run, script)
  {
    var outputs := script.execution.outputs;
    Goes(w, id, st, who, run, RunExecute, ReportSucceeded(outputs), RunCheckSucceeded(outputs), s,
      st.runs[run].outputs);
    SucceededEnds(w, id, st, who, run, s, st.runs[run].outputs, outputs, AgentRuns.AfterCheck in script.cancels);
  }

  lemma PreparationPlaysOut(w: World, id: ActorId, st: Store, who: Who, run: RunId, script: AgentRuns.Script)
    requires AgentRuns.Context(st, who, run) && AgentRuns.BeforeStart !in script.cancels
    requires run in st.runs && InStage(w, id, st, who, run, RunPrepare, Running, st.runs[run].outputs)
    ensures PlayedOut(w, id, st, who, run, script)
  {
    var o := st.runs[run].outputs;
    var s := if AgentRuns.BeforeExecution in script.cancels then Canceled else Running;
    MaybeCanceled(w, id, st, who, run, RunPrepare, Running, o, AgentRuns.BeforeExecution in script.cancels);
    match script.preparation {
      case PreparationFails =>
        Goes(w, id, st, who, run, RunPrepare, Throw, RunCatch, s, o);
        Catches(w, id, st, who, run, s, o, AgentRuns.InCatch in script.cancels);
      case RepoNotReady =>
        Goes(w, id, st, who, run, RunPrepare, RepoNotReady, RunRepoFail, s, o);
        WritesOrCatches(w, id, st, who, run, RunRepoFail, s, o, Failed, false);
      case Ready =>
        Goes(w, id, st, who, run, RunPrepare, Proceed, RunExecute, s, o);
        MaybeCanceled(w, id, st, who, run, RunExecute, s, o, AgentRuns.AfterExecution in script.cancels);
        var s' := if AgentRuns.AfterExecution in script.cancels then Canceled else s;
        ExecutionPlaysOut(w, id, st, who, run, script, s');
    }
  }

  // Canceled between the check that it is queued and the start.
  lemma EarlyCancelPlaysOut(w: World, id: ActorId, st: Store, who: Who, run: RunId, script: AgentRuns.Script)
    requires AgentRuns.Context(st, who, run) && HasStatus(st, run, Queued) && AgentRuns.BeforeStart in script.cancels
    requires Can(w, id, st, Actor(run, RunStart, NoCall))
    ensures PlayedOut(w, id, st, who, run, script)
  {
    CancelsQueued(w, id, st, Actor(run, RunStart, NoCall), who, run);
    AgentRuns.Contexts(st, who, run, Canceled, st.runs[run].outputs);
    StartsOnCanceled(w, id, AgentRuns.Over(st, who, run, Canceled, st.runs[run].outputs), run);
  }

  lemma StartsOnCanceled(w: World, id: ActorId, over: Store, run: RunId)
    requires Can(w, id, over, Actor(run, RunStart, NoCall)) && HasStatus(over, run, Canceled)
    requires AgentRuns.Context(over, None, run)
    ensures Can(w, id, over, Actor(run, Done, NoCall))
  {
    FailsToStart(w, id, over, run);
    HandledAs(over, None, Actor(run, Done, Find(Canceled)), "", over);
    Handles(w, id, over, Actor(run, Done, Find(Canceled)), "");
  }

  lemma FailsToStart(w: World, id: ActorId, over: Store, run: RunId)
    requires Can(w, id, over, Actor(run, RunStart, NoCall)) && HasStatus(over, run, Canceled)
    ensures Can(w, id, over, Actor(run, Done, Find(Canceled)))
  {
    Advances(w, id, over, Actor(run, RunStart, NoCall), Proceed);
    Advances(w, id, over, Actor(run, RunCatch, NoCall), Proceed);
  }

  lemma StartPlaysOut(w: World, id: ActorId, st: Store, who: Who, run: RunId, script: AgentRuns.Script)
    requires AgentRuns.Context(st, who, run) && HasStatus(st, run, Queued) && run !in st.runJobs
    requires Can(w, id, st, Actor(run, RunStart, NoCall))
    ensures PlayedOut(w, id, st, who, run, script)
  {
    if AgentRuns.BeforeStart in script.cancels {
      EarlyCancelPlaysOut(w, id, st, who, run, script);
    } else {
      var running := Attempt(st, run, Running).value;
      var x: SessionId := if who.Some? then who.value else "";
      AgentRuns.Starts(st, who, run);
      Advances(w, id, st, Actor(run, RunStart, NoCall), Proceed);
      HandledAs(running, who, Actor(run, RunPrepare, Find(Running)), x, st);
      Handles(w, id, running, Actor(run, RunPrepare, Find(Running)), x);
      PreparationPlaysOut(w, id, st, who, run, script);
    }
  }

  // From any state of the system in which the run's job waits.
  lemma ProcessIsARunOfTheProtocol(w: World, id: ActorId, who: Who, run: RunId, script: AgentRuns.Script)
    requires run in w.st.runJobs && id !in w.actors && HasStatus(w.st, run, Queued) && AgentRuns.Context(w.st, who, run)
    ensures who.Some? ==> who.value in w.st.sessions
    ensures exists ls ::
      WholeHandling(ls) && NoExpiry(ls) && Run(w, ls).st == AgentRuns.Processed(w.st, who, run, script)
  {
    var taken := w.st.(runJobs := w.st.runJobs - {run});
    assert who.Some? ==> PointsTo(w.st, who.value, run);
    AgentRuns.JobTaken(w.st, who, run, script);
    OneMore(w, [], TakeRunJob(id, run));
    assert Ends(w, [] + [TakeRunJob(id, run)], id, taken, Actor(run, RunEntry, NoCall));
    Advances(w, id, taken, Actor(run, RunEntry, NoCall), Proceed);
    StartPlaysOut(w, id, taken, who, run, script);
    var ls :| Ends(w, ls, id, AgentRuns.Processed(taken, who, run, script), Actor(run, Done, NoCall));
  }

  // ---- the artifact worker

  lemma SyncerStarts(w: World, id: ActorId, run: RunId, c: Choice)
    requires run in w.st.syncJobs && id !in w.actors
    ensures var st := w.st.(syncJobs := w.st.syncJobs - {run});
      Can(w, id, st, Actor(run, SyncFinish(c == OutputFailed && run in st.runs && st.runs[run].outputs), NoCall))
  {
    var taken := w.st.(syncJobs := w.st.syncJobs - {run});
    OneMore(w, [], TakeSyncJob(id, run));
    assert Ends(w, [] + [TakeSyncJob(id, run)], id, taken, Actor(run, SyncEntry, NoCall));
    Advances(w, id, taken, Actor(run, SyncEntry, NoCall), c);
  }

  lemma SyncerEnds(w: World, id: ActorId, st: Store, who: Who, run: RunId, failed: bool)
    requires AgentRuns.Context(st, who, run) && Can(w, id, st, Actor(run, SyncFinish(failed), NoCall))
    ensures who.Some? ==> who.value in st.sessions
    ensures var to := if failed then Failed else Succeeded;
      Can(w, id, match Attempt(st, run, to) case None => st case Some(st') => AgentRuns.Settle(st', who, to),
          Actor(run, Done, NoCall))
  {
    var to := if failed then Failed else Succeeded;
    assert who.Some? ==> PointsTo(st, who.value, run);
    Advances(w, id, st, Actor(run, SyncFinish(failed), NoCall), Proceed);
    if Attempt(st, run, to).Some? {
      var st', x: SessionId := Attempt(st, run, to).value, if who.Some? then who.value else "";
      HandledAs(st', who, Actor(run, Done, Find(to)), x, st);
      Handles(w, id, st', Actor(run, Done, Find(to)), x);
    }
  }

  // From any state of the system in which the run's artifact job waits. Failures
  // are of stored outputs.
  lemma SyncRunIsARunOfTheProtocol(w: World, id: ActorId, who: Who, run: RunId, anyFailed: bool)
    requires run in w.st.syncJobs && id !in w.actors && AgentRuns.Context(w.st, who, run)
    requires anyFailed ==> run in w.st.runs && w.st.runs[run].outputs
    ensures who.Some? ==> who.value in w.st.sessions
    ensures exists ls ::
      WholeHandling(ls) && NoExpiry(ls) && Run(w, ls).st == AgentRuns.Synchronized(w.st, who, run, anyFailed)
  {
    var taken := w.st.(syncJobs := w.st.syncJobs - {run});
    assert who.Some? ==> PointsTo(w.st, who.value, run);
    forall sid ensures PointsTo(taken, sid, run) <==> who == Some(sid) {
      assert PointsTo(w.st, sid, run) <==> who == Some(sid);
    }
    SyncerStarts(w, id, run, if anyFailed then OutputFailed else Proceed);
    SyncerEnds(w, id, taken, who, run, anyFailed);
    var ls :| Ends(w, ls, id, AgentRuns.Synchronized(w.st, who, run, anyFailed), Actor(run, Done, NoCall));
  }
}
