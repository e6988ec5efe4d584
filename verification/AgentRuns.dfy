// The services themselves, over one mutable platform: Redis locks, session and
// run rows and the two queues. Every method is proved against the operations of
// GroupStores; the two workers are then proved to end a run whatever the
// executor, Feishu and a concurrent cancellation do.
module AgentRuns {
  import opened Prelude
  import opened RunStatuses
  import opened GroupStores

  datatype Preparation = Ready | RepoNotReady | PreparationFails

  datatype Execution = ExecutionSucceeded(outputs: bool) | ExecutionTimedOut | ExecutionCanceled | ExecutionThrows

  // Where, between the worker's awaits, a cancellation request may land.
  datatype Point = BeforeStart | BeforeExecution | AfterExecution | AfterCheck | InCatch

  datatype Script = Script(preparation: Preparation, execution: Execution, cancels: set<Point>) {
    predicate Throws() {
      preparation.PreparationFails? || (preparation.Ready? && execution.ExecutionThrows?)
    }

    // The catch block reads a status that is not canceled, and only then is the
    // run canceled. Its session is never cleared.
    predicate CanceledInCatch() {
      && Throws() && InCatch in cancels
      && BeforeStart !in cancels && BeforeExecution !in cancels
      && (preparation.Ready? ==> AfterExecution !in cancels)
    }

    // Some other cancellation lands while the table still allows it.
    predicate CanceledInTime() {
      || BeforeStart in cancels || BeforeExecution in cancels
      || (preparation.Ready? && AfterExecution in cancels)
      || (preparation.Ready? && execution.ExecutionSucceeded? && AfterCheck in cancels)
    }

    // Without cancellations the ending is the executor's.
    function Ending(): RunStatus {
      match preparation
      case RepoNotReady => Failed
      case PreparationFails => Failed
      case Ready =>
        match execution
        case ExecutionSucceeded(_) => Syncing
        case ExecutionTimedOut => Timeout
        case ExecutionCanceled => Canceled
        case ExecutionThrows => Failed
    }
  }

  // `who` is the session that points at the run, if any. There is never a second
  // one: current_agent_run_id is a unique column.
  ghost predicate Context(st: Store, who: Option<SessionId>, run: RunId) {
    forall sid :: PointsTo(st, sid, run) <==> who == Some(sid)
  }

  // The run's row and its consumed job; the session is busy with it.
  function InProgress(st: Store, who: Option<SessionId>, run: RunId, status: RunStatus, outputs: bool): Store
    requires who.Some? ==> who.value in st.sessions
  {
    var st' := st.(runs := st.runs[run := RunRow(status, outputs)], runJobs := st.runJobs - {run});
    match who
    case None => st'
    case Some(sid) => TouchSession(st', sid)
  }

  // The run has ended: its session is closed and its lock released.
  function Over(st: Store, who: Option<SessionId>, run: RunId, status: RunStatus, outputs: bool): Store
    requires who.Some? ==> who.value in st.sessions
  {
    Settle(st.(runs := st.runs[run := RunRow(status, outputs)], runJobs := st.runJobs - {run}), who, status)
  }

  function Settle(st: Store, who: Option<SessionId>, status: RunStatus): Store
    requires who.Some? ==> who.value in st.sessions
  {
    match who
    case None => st
    case Some(sid) => HandleOn(st, sid, status)
  }

  // What processing a queued run amounts to.
  function Processed(st: Store, who: Option<SessionId>, run: RunId, script: Script): Store
    requires run in st.runs && (who.Some? ==> who.value in st.sessions)
  {
    var o := st.runs[run].outputs;
    if script.CanceledInCatch() then InProgress(st, who, run, Canceled, o)
    else if script.CanceledInTime() then Over(st, who, run, Canceled, o)
    else if script.Ending() == Syncing then
      var st' := InProgress(st, who, run, Syncing, script.execution.outputs);
      st'.(syncJobs := st'.syncJobs + {run})
    else Over(st, who, run, script.Ending(), o)
  }

  datatype Action = AskFollowup | RequestConfirmation | ExecuteNow

  // What the manager decided; highRisk is the policy's own test of it.
  datatype Decision = Decision(action: Action, skillHint: string, highRisk: bool)

  datatype Policy = Policy(allowedSkills: seq<string>, confirmHighRisk: bool) {
    // A decision leads straight to a run only if it asks for one, its skill is
    // permitted and the policy does not want it confirmed first.
    predicate Executes(d: Decision) {
      && d.action.ExecuteNow?
      && (d.skillHint == "" || allowedSkills == [] || d.skillHint in allowedSkills)
      && !(confirmHighRisk && d.highRisk)
    }
  }

  datatype Submitted = SubmissionFailed | RejectedBusy | Replied | ConfirmationRequested | AcceptedRun(run: RunId)

  function QueuedFor(st: Store, sid: SessionId, run: RunId, token: Token): Store
    requires sid in st.sessions
  {
    var st' := MarkQueued(AddRun(st, run), sid, run, token);
    st'.(runJobs := st'.runJobs + {run})
  }

  function Admitted(st: Store, chat: ChatId, sid: SessionId, run: RunId, token: Token): Store
    requires sid in st.sessions
  {
    QueuedFor(Acquire(st, chat, token), sid, run, token)
  }

  // The artifact worker's job for a run, given whether some output failed.
  function Synchronized(st: Store, who: Option<SessionId>, run: RunId, anyFailed: bool): Store
    requires who.Some? ==> who.value in st.sessions
  {
    var st' := st.(syncJobs := st.syncJobs - {run});
    var ending := if anyFailed then Failed else Succeeded;
    match Attempt(st', run, ending)
    case None => st'
    case Some(st'') => Settle(st'', who, ending)
  }

  // From admission to the end, for every decision of the executor, every
  // cancellation point and every pattern of output failures: the run ends as
  // they say, its lock is as if it had never been, and its session is cleared and
  // in error exactly after a failure or timeout; except when the cancellation
  // fell into the catch block's window.
  lemma RunLife(st: Store, sid: SessionId, run: RunId, token: Token, script: Script, anyFailed: bool)
    requires sid in st.sessions && st.sessions[sid].chat !in st.locks && run !in st.runs && run !in st.syncJobs
    requires forall x :: x in st.sessions ==> st.sessions[x].run != Some(run)
    ensures var chat := st.sessions[sid].chat;
      var admitted := Admitted(st, chat, sid, run, token);
      var processed := Processed(admitted, Some(sid), run, script);
      var over := if run in processed.syncJobs then Synchronized(processed, Some(sid), run, anyFailed) else processed;
      && Context(admitted, Some(sid), run)
      && run in over.runs
      && over.runs[run].status == (
           if script.CanceledInCatch() || script.CanceledInTime() then Canceled
           else if !script.preparation.Ready? then Failed
           else match script.execution
                case ExecutionSucceeded(_) => if anyFailed then Failed else Succeeded
                case ExecutionTimedOut => Timeout
                case ExecutionCanceled => Canceled
                case ExecutionThrows => Failed)
      && over.syncJobs == st.syncJobs && over.runJobs == st.runJobs - {run}
      && (run in processed.syncJobs <==>
        !script.CanceledInCatch() && !script.CanceledInTime() && script.Ending() == Syncing)
      && (script.execution.ExecutionSucceeded? && run in processed.syncJobs ==>
            over.runs[run].outputs == script.execution.outputs)
      && (script.CanceledInCatch() <==> PointsTo(over, sid, run))
      && (if script.CanceledInCatch()
          then over.locks == st.locks[chat := token] && over.sessions[sid].status == Busy
          else over.locks == st.locks && over.sessions[sid].run.None? && over.sessions[sid].token.None?
               && over.sessions[sid].chat == chat
               && over.sessions[sid].status == (
                    if over.runs[run].status == Failed || over.runs[run].status == Timeout then Error else Idle))
  {
    var chat := st.sessions[sid].chat;
    var admitted := Admitted(st, chat, sid, run, token);
    forall x ensures PointsTo(admitted, x, run) <==> Some(sid) == Some(x) {}
  }

  // Starting: the first status write, seen from the store before it.
  lemma Starts(st: Store, who: Option<SessionId>, run: RunId)
    requires Context(st, who, run) && run in st.runs && st.runs[run].status == Queued && run !in st.runJobs
    ensures who.Some? ==> who.value in st.sessions
    ensures Settle(Attempt(st, run, Running).value, who, Running)
      == InProgress(st, who, run, Running, st.runs[run].outputs)
  {
    assert who.Some? ==> PointsTo(st, who.value, run);
  }

  lemma JobTaken(st: Store, who: Option<SessionId>, run: RunId, script: Script)
    requires Context(st, who, run) && run in st.runs && (who.Some? ==> who.value in st.sessions)
    ensures var st1 := st.(runJobs := st.runJobs - {run});
      Context(st1, who, run) && Processed(st1, who, run, script) == Processed(st, who, run, script)
  {
    var st1 := st.(runJobs := st.runJobs - {run});
    assert st1.runJobs - {run} == st.runJobs - {run};
    forall sid ensures PointsTo(st1, sid, run) <==> PointsTo(st, sid, run) {}
  }

  // Status writes while the run is in progress.
  lemma Writes(st: Store, who: Option<SessionId>, run: RunId, s: RunStatus, o: bool, to: RunStatus)
    requires run in st.runs && (who.Some? ==> who.value in st.sessions)
    ensures Attempt(InProgress(st, who, run, s, o), run, to)
         == if Allowed(s, to) then Some(InProgress(st, who, run, to, o)) else None
  {
    var x := InProgress(st, who, run, s, o);
    if Allowed(s, to) {
      assert x.runs[run := x.runs[run].(status := to)] == st.runs[run := RunRow(to, o)];
    }
  }

  // What handling them does.
  lemma Settles(st: Store, who: Option<SessionId>, run: RunId, to: RunStatus, o: bool)
    requires who.Some? ==> who.value in st.sessions
    ensures Terminal(to) ==> Settle(InProgress(st, who, run, to, o), who, to) == Over(st, who, run, to, o)
    ensures to == Syncing ==> Settle(InProgress(st, who, run, to, o), who, to) == InProgress(st, who, run, to, o)
  {
  }

  // The run keeps its session while in progress and none points at it afterwards.
  lemma Contexts(st: Store, who: Option<SessionId>, run: RunId, s: RunStatus, o: bool)
    requires Context(st, who, run) && (who.Some? ==> who.value in st.sessions)
    ensures Context(InProgress(st, who, run, s, o), who, run)
    ensures Terminal(s) ==> Context(Over(st, who, run, s, o), None, run)
  {
    forall sid ensures PointsTo(InProgress(st, who, run, s, o), sid, run) <==> who == Some(sid) {
      assert PointsTo(st, sid, run) <==> who == Some(sid);
    }
    if Terminal(s) {
      forall sid ensures !PointsTo(Over(st, who, run, s, o), sid, run) {
        assert PointsTo(st, sid, run) <==> who == Some(sid);
      }
    }
  }

  lemma Moves(st: Store, who: Option<SessionId>, run: RunId, s: RunStatus, o: bool, to: RunStatus)
    requires Context(st, who, run) && run in st.runs && (who.Some? ==> who.value in st.sessions)
    ensures Attempt(InProgress(st, who, run, s, o), run, to)
         == if Allowed(s, to) then Some(InProgress(st, who, run, to, o)) else None
    ensures Context(InProgress(st, who, run, s, o), who, run)
    ensures Terminal(to) ==> Settle(InProgress(st, who, run, to, o), who, to) == Over(st, who, run, to, o)
    ensures to == Syncing ==> Settle(InProgress(st, who, run, to, o), who, to) == InProgress(st, who, run, to, o)
    ensures Terminal(to) ==> Context(Over(st, who, run, to, o), None, run)
  {
    Writes(st, who, run, s, o, to);
    Settles(st, who, run, to, o);
    Contexts(st, who, run, s, o);
    Contexts(st, who, run, to, o);
  }

  // What handling a status leaves of the row of the session that was found.
  predicate SettledRow(before: SessionRow, after: SessionRow, status: RunStatus) {
    && after.chat == before.chat
    && (status == Queued ==> after == before)
    && (status == Running || status == Syncing ==> after == before.(status := Busy))
    && (Terminal(status) ==> after.run.None? && after.token.None? && after.status in {Idle, Error})
    && (Terminal(status) ==> (after.status == Error <==> status == Failed || status == Timeout))
  }

  class Platform {
    var locks: map<ChatId, Token>
    var sessions: map<SessionId, SessionRow>
    var runs: map<RunId, RunRow>
    var runJobs: set<RunId>
    var syncJobs: set<RunId>

    ghost function Snapshot(): Store
      reads this
    {
      Store(locks, sessions, runs, runJobs, syncJobs)
    }

    method TryAcquireLock(chat: ChatId, token: Token) returns (acquired: bool)
      modifies this`locks
      ensures Snapshot() == Acquire(old(Snapshot()), chat, token)
      ensures acquired <==> chat !in old(locks)
      ensures locks == if acquired then old(locks)[chat := token] else old(locks)
    {
      acquired := chat !in locks;
      if acquired {
        locks := locks[chat := token];
      }
    }

    method ReleaseLock(chat: ChatId, token: Option<Token>)
      modifies this`locks
      ensures Snapshot() == Release(old(Snapshot()), chat, token)
      ensures locks == if token.None? || (chat in old(locks) && old(locks)[chat] == token.value)
                       then old(locks) - {chat} else old(locks)
    {
      match token
      case None => locks := locks - {chat};
      case Some(t) =>
        if chat in locks && locks[chat] == t {
          locks := locks - {chat};
        }
    }

    method MarkRunQueued(sid: SessionId, run: RunId, token: Token)
      requires sid in sessions
      modifies this`sessions
      ensures Snapshot() == MarkQueued(old(Snapshot()), sid, run, token)
    {
      sessions := sessions[sid := sessions[sid].(status := Busy, run := Some(run), token := Some(token))];
    }

    method HandleRunStatusTransition(run: RunId, status: RunStatus, ghost who: Option<SessionId>)
      requires Context(Snapshot(), who, run)
      modifies this`locks, this`sessions
      ensures who.Some? ==> who.value in old(sessions)
      ensures Snapshot() == Settle(old(Snapshot()), who, status)
      ensures who.None? ==> locks == old(locks) && sessions == old(sessions)
      ensures who.Some? ==>
        && sessions.Keys == old(sessions).Keys
        && (forall x | x in sessions && x != who.value :: sessions[x] == old(sessions)[x])
        && SettledRow(old(sessions)[who.value], sessions[who.value], status)
    {
      assert who.Some? ==> PointsTo(Snapshot(), who.value, run);
      if sid :| sid in sessions && sessions[sid].run == Some(run) {
        assert PointsTo(Snapshot(), sid, run);
        var session := sessions[sid];
        if Terminal(status) {
          ReleaseLock(session.chat, session.token);
          var ended := if status == Failed || status == Timeout then Error else Idle;
          sessions := sessions[sid := session.(status := ended, run := None, token := None)];
        } else if status == Running || status == Syncing {
          sessions := sessions[sid := session.(status := Busy)];
        }
      }
    }

    // Check the table and write the status; false stands for the exception.
    method WriteStatus(run: RunId, to: RunStatus) returns (ok: bool)
      modifies this`runs
      ensures ok <==> Attempt(old(Snapshot()), run, to).Some?
      ensures Snapshot() == if ok then Attempt(old(Snapshot()), run, to).value else old(Snapshot())
    {
      ok := run in runs && Allowed(runs[run].status, to);
      if ok {
        runs := runs[run := runs[run].(status := to)];
      }
    }

    method Transition(run: RunId, to: RunStatus, ghost who: Option<SessionId>) returns (ok: bool)
      requires Context(Snapshot(), who, run)
      modifies this`runs, this`locks, this`sessions
      ensures who.Some? ==> who.value in old(sessions)
      ensures ok <==> Attempt(old(Snapshot()), run, to).Some?
      ensures ok <==> run in old(runs) && Allowed(old(runs)[run].status, to)
      ensures runs == if ok then old(runs)[run := old(runs)[run].(status := to)] else old(runs)
      ensures who.Some? && ok ==> who.value in sessions && SettledRow(old(sessions)[who.value], sessions[who.value], to)
      ensures Snapshot() == if ok then Settle(Attempt(old(Snapshot()), run, to).value, who, to) else old(Snapshot())
    {
      assert who.Some? ==> PointsTo(Snapshot(), who.value, run);
      ok := WriteStatus(run, to);
      if ok {
        assert forall sid :: PointsTo(Snapshot(), sid, run) <==> PointsTo(old(Snapshot()), sid, run);
        HandleRunStatusTransition(run, to, who);
      }
    }

    // A queued run is taken off its queue and its session settled; a running one
    // keeps its session until its worker notices.
    method CancelRun(run: RunId, ghost who: Option<SessionId>) returns (ok: bool)
      requires Context(Snapshot(), who, run)
      modifies this`runs, this`locks, this`sessions, this`runJobs
      ensures who.Some? ==> who.value in old(sessions)
      ensures ok <==> Attempt(old(Snapshot()), run, Canceled).Some?
      ensures ok <==> run in old(runs) && old(runs)[run].status in {Queued, Running, Canceled}
      ensures ok ==>
        && runs == old(runs)[run := old(runs)[run].(status := Canceled)]
        && runJobs == (if old(runs)[run].status == Queued then old(runJobs) - {run} else old(runJobs))
        && (who.Some? && old(runs)[run].status == Queued ==>
              who.value in sessions && SettledRow(old(sessions)[who.value], sessions[who.value], Canceled))
      ensures var st := old(Snapshot());
        Snapshot() ==
          if !ok then st
          else if st.runs[run].status == Queued then Over(st, who, run, Canceled, st.runs[run].outputs)
          else Attempt(st, run, Canceled).value
    {
      assert who.Some? ==> PointsTo(Snapshot(), who.value, run);
      ok := run in runs && Allowed(runs[run].status, Canceled);
      if ok {
        var queued := runs[run].status == Queued;
        if queued {
          runJobs := runJobs - {run};
        }
        runs := runs[run := runs[run].(status := Canceled)];
        if queued {
          assert forall sid :: PointsTo(Snapshot(), sid, run) <==> PointsTo(old(Snapshot()), sid, run);
          HandleRunStatusTransition(run, Canceled, who);
        }
      }
    }

    // A cancellation request that may land between two awaits of the worker.
    method MaybeCancel(run: RunId, script: Script, p: Point,
                       ghost st: Store, ghost who: Option<SessionId>, ghost s: RunStatus, ghost o: bool)
      requires Context(st, who, run) && run in st.runs && (s == Running || s == Canceled)
      requires (who.Some? ==> who.value in st.sessions) && Snapshot() == InProgress(st, who, run, s, o)
      modifies this`runs, this`locks, this`sessions, this`runJobs
      ensures Snapshot() == InProgress(st, who, run, if p in script.cancels then Canceled else s, o)
    {
      Moves(st, who, run, s, o, Canceled);
      if p in script.cancels {
        var _ := CancelRun(run, who);
      }
    }

    // `transition` while the run is in progress with status s.
    method Move(run: RunId, to: RunStatus, ghost st: Store, ghost who: Option<SessionId>, ghost s: RunStatus,
        ghost o: bool)
      returns (ok: bool)
      requires Context(st, who, run) && run in st.runs && Terminal(to)
      requires (who.Some? ==> who.value in st.sessions) && Snapshot() == InProgress(st, who, run, s, o)
      modifies this`runs, this`locks, this`sessions
      ensures ok <==> Allowed(s, to)
      ensures Snapshot() == if ok then Over(st, who, run, to, o) else InProgress(st, who, run, s, o)
    {
      Moves(st, who, run, s, o, to);
      ok := Transition(run, to, who);
    }

    // A fresh read of the row: a canceled run only has its session cleared.
    method SettleIfCanceled(run: RunId, ghost st: Store, ghost who: Option<SessionId>, ghost s: RunStatus,
        ghost o: bool)
      returns (settled: bool)
      requires Context(st, who, run) && run in st.runs
      requires (who.Some? ==> who.value in st.sessions) && Snapshot() == InProgress(st, who, run, s, o)
      modifies this`locks, this`sessions
      ensures settled <==> s == Canceled
      ensures Snapshot() == if settled then Over(st, who, run, Canceled, o) else InProgress(st, who, run, s, o)
    {
      Moves(st, who, run, s, o, Canceled);
      settled := runs[run].status == Canceled;
      if settled {
        HandleRunStatusTransition(run, Canceled, who);
      }
    }

    // Enter syncing with the outputs and queue the artifact job.
    method HandOver(run: RunId, outputs: bool, ghost st: Store, ghost who: Option<SessionId>, ghost s: RunStatus,
        ghost o: bool)
      returns (ok: bool)
      requires Context(st, who, run) && run in st.runs
      requires (who.Some? ==> who.value in st.sessions) && Snapshot() == InProgress(st, who, run, s, o)
      modifies this
      ensures ok <==> Allowed(s, Syncing)
      ensures var done := InProgress(st, who, run, Syncing, outputs);
        Snapshot() == if ok then done.(syncJobs := done.syncJobs + {run}) else InProgress(st, who, run, s, o)
    {
      Moves(st, who, run, s, o, Syncing);
      ok := WriteStatus(run, Syncing);
      if ok {
        runs := runs[run := runs[run].(outputs := outputs)];
        Moves(st, who, run, Syncing, outputs, Syncing);
        assert Snapshot() == InProgress(st, who, run, Syncing, outputs);
        HandleRunStatusTransition(run, Syncing, who);
        syncJobs := syncJobs + {run};
      }
    }

    // The rest of the try block once the executor has answered; true stands for
    // an exception.
    method Conclude(run: RunId, script: Script, ghost st: Store, ghost who: Option<SessionId>, ghost s: RunStatus)
      returns (threw: bool)
      requires Context(st, who, run) && run in st.runs && script.preparation.Ready?
      requires BeforeStart !in script.cancels && (who.Some? ==> who.value in st.sessions)
      requires s == if BeforeExecution in script.cancels || AfterExecution in script.cancels then Canceled else Running
      requires Snapshot() == InProgress(st, who, run, s, st.runs[run].outputs)
      modifies this
      ensures threw ==>
        Snapshot() == InProgress(
          st, who, run, if script.CanceledInTime() then Canceled else Running, st.runs[run].outputs)
      ensures threw && !script.CanceledInTime() ==> script.Throws()
      ensures !threw ==> Snapshot() == Processed(st, who, run, script) && !script.CanceledInCatch()
      ensures !threw && script.Throws() ==> script.CanceledInTime()
    {
      ghost var o := st.runs[run].outputs;
      var ok, settled;
      match script.execution
      case ExecutionThrows =>
        return true;
      case ExecutionTimedOut =>
        ok := Move(run, Timeout, st, who, s, o);
        return !ok;
      case ExecutionCanceled =>
        settled := SettleIfCanceled(run, st, who, s, o);
        if !settled {
          MaybeCancel(run, script, AfterCheck, st, who, s, o);
          ok := Move(run, Canceled, st, who, if AfterCheck in script.cancels then Canceled else s, o);
        }
        return false;
      case ExecutionSucceeded(outputs) =>
        settled := SettleIfCanceled(run, st, who, s, o);
        if settled {
          return false;
        }
        MaybeCancel(run, script, AfterCheck, st, who, s, o);
        ok := HandOver(run, outputs, st, who, if AfterCheck in script.cancels then Canceled else s, o);
        return !ok;
    }

    // The try block of AgentRunProcessor.process; true stands for an exception.
    method TryRun(run: RunId, script: Script, ghost who: Option<SessionId>) returns (threw: bool)
      requires Context(Snapshot(), who, run) && run in runs && runs[run].status == Queued && run !in runJobs
      modifies this
      ensures who.Some? ==> who.value in old(sessions)
      ensures var st := old(Snapshot()); var o := st.runs[run].outputs;
        threw ==>
          Snapshot() ==
            if BeforeStart in script.cancels then Over(st, who, run, Canceled, o)
            else InProgress(st, who, run, if script.CanceledInTime() then Canceled else Running, o)
      ensures threw && !script.CanceledInTime() ==> script.Throws()
      ensures !threw ==> Snapshot() == Processed(old(Snapshot()), who, run, script) && !script.CanceledInCatch()
      ensures !threw && script.Throws() ==> script.CanceledInTime()
    {
      ghost var st := Snapshot();
      ghost var o := runs[run].outputs;
      var ok;
      Starts(st, who, run);
      Contexts(st, who, run, Canceled, o);
      if BeforeStart in script.cancels {
        ok := CancelRun(run, who);
      }
      ok := Transition(run, Running, if BeforeStart in script.cancels then None else who);
      if !ok {
        return true;
      }
      MaybeCancel(run, script, BeforeExecution, st, who, Running, o);
      ghost var s := if BeforeExecution in script.cancels then Canceled else Running;
      match script.preparation
      case PreparationFails =>
        return true;
      case RepoNotReady =>
        ok := Move(run, Failed, st, who, s, o);
        return !ok;
      case Ready =>
        MaybeCancel(run, script, AfterExecution, st, who, s, o);
        threw := Conclude(run, script, st, who, if AfterExecution in script.cancels then Canceled else s);
    }

    // The catch block; true when the exception is thrown again.
    method Catch(run: RunId, script: Script, ghost st: Store, ghost who: Option<SessionId>) returns (rethrown: bool)
      requires Context(st, who, run) && run in st.runs && (who.Some? ==> who.value in st.sessions)
      requires Snapshot() ==
        if BeforeStart in script.cancels then Over(st, who, run, Canceled, st.runs[run].outputs)
        else InProgress(st, who, run, if script.CanceledInTime() then Canceled else Running, st.runs[run].outputs)
      requires !script.CanceledInTime() ==> script.Throws()
      modifies this
      ensures Snapshot() == Processed(st, who, run, script)
      ensures rethrown <==> !script.CanceledInTime()
    {
      ghost var o := st.runs[run].outputs;
      Moves(st, who, run, if script.CanceledInTime() then Canceled else Running, o, Canceled);
      if runs[run].status == Canceled {
        // A cancellation before the start has settled the session already.
        HandleRunStatusTransition(run, Canceled, if BeforeStart in script.cancels then None else who);
        return false;
      }
      MaybeCancel(run, script, InCatch, st, who, Running, o);
      var ok := Move(run, Failed, st, who, if InCatch in script.cancels then Canceled else Running, o);
      return true;
    }

    // AgentRunProcessor.process. For a queued run, whatever the script, the
    // platform ends exactly as `Processed` says; otherwise only the job is gone.
    method Process(run: RunId, script: Script, ghost who: Option<SessionId>) returns (threw: bool)
      requires Context(Snapshot(), who, run)
      modifies this
      ensures who.Some? ==> who.value in old(sessions)
      ensures run in old(runs) && old(runs)[run].status == Queued ==>
                && Snapshot() == Processed(old(Snapshot()), who, run, script)
                && (threw <==> script.Throws() && !script.CanceledInTime())
      ensures !(run in old(runs) && old(runs)[run].status == Queued) ==>
                Snapshot() == old(Snapshot()).(runJobs := old(runJobs) - {run}) && !threw
    {
      ghost var st := Snapshot();
      assert who.Some? ==> PointsTo(st, who.value, run);
      runJobs := runJobs - {run};
      if run !in runs || runs[run].status != Queued {
        return false;
      }
      ghost var st1 := Snapshot();
      JobTaken(st, who, run, script);
      threw := TryRun(run, script, who);
      if threw {
        threw := Catch(run, script, st1, who);
      }
    }

    method QueueGroupExecution(sid: SessionId, run: RunId, token: Token)
      requires sid in sessions && run !in runs
      modifies this
      ensures Snapshot() == QueuedFor(old(Snapshot()), sid, run, token)
      ensures runs == old(runs)[run := RunRow(Queued, false)] && runJobs == old(runJobs) + {run}
      ensures sessions == old(sessions)[sid := SessionRow(old(sessions)[sid].chat, Busy, Some(run), Some(token))]
      ensures locks == old(locks) && syncJobs == old(syncJobs)
    {
      runs := runs[run := RunRow(Queued, false)];
      MarkRunQueued(sid, run, token);
      runJobs := runJobs + {run};
    }

    // handleInteractiveGroupMessage. Token and run id are new. The lock survives
    // exactly when a run was queued.
    method HandleInteractiveGroupMessage(sid: SessionId, chat: ChatId, token: Token, run: RunId,
                                         decision: Option<Decision>, policy: Policy) returns (result: Submitted)
      requires run !in runs
      modifies this
      ensures sid !in old(sessions) ==> result == SubmissionFailed && Snapshot() == old(Snapshot())
      ensures sid in old(sessions) && chat in old(locks) ==> result == RejectedBusy && Snapshot() == old(Snapshot())
      ensures sid in old(sessions) && chat !in old(locks) ==>
                Snapshot() == if result == AcceptedRun(run) then Admitted(old(Snapshot()), chat, sid, run, token)
                              else old(Snapshot())
      ensures sid in old(sessions) && chat !in old(locks) ==>
                match decision
                case None => result == SubmissionFailed
                case Some(d) =>
                  var skill := d.skillHint == "" || policy.allowedSkills == [] || d.skillHint in policy.allowedSkills;
                  var risky := policy.confirmHighRisk && d.highRisk;
                  && (result == AcceptedRun(run) <==> policy.Executes(d))
                  && (policy.Executes(d) <==> d.action == ExecuteNow && skill && !risky)
                  && (result == Replied <==> d.action == AskFollowup || !skill)
                  && (result == ConfirmationRequested <==>
                        skill && (d.action == RequestConfirmation || (d.action == ExecuteNow && risky)))
    {
      if sid !in sessions {
        return SubmissionFailed;
      }
      var acquired := TryAcquireLock(chat, token);
      if !acquired {
        return RejectedBusy;
      }
      var retainLock := false;
      ghost var locked := Snapshot();
      assert Release(locked, chat, Some(token)).locks == old(locks);
      match decision {
        case None => result := SubmissionFailed;
        case Some(d) =>
          if d.action.AskFollowup? {
            result := Replied;
          } else if d.skillHint != "" && policy.allowedSkills != [] && d.skillHint !in policy.allowedSkills {
            result := Replied;
          } else if d.action.ExecuteNow? && policy.confirmHighRisk && d.highRisk {
            result := ConfirmationRequested;
          } else if d.action.RequestConfirmation? {
            result := ConfirmationRequested;
          } else {
            QueueGroupExecution(sid, run, token);
            result := AcceptedRun(run);
            retainLock := true;
          }
      }
      if !retainLock {
        ReleaseLock(chat, Some(token));
      }
    }

    // submitGroupMessage, after a confirmation.
    method SubmitGroupMessage(sid: SessionId, chat: ChatId, token: Token, run: RunId) returns (result: Submitted)
      requires run !in runs
      modifies this
      ensures sid !in old(sessions) ==> result == SubmissionFailed && Snapshot() == old(Snapshot())
      ensures sid in old(sessions) && chat in old(locks) ==> result == RejectedBusy && Snapshot() == old(Snapshot())
      ensures sid in old(sessions) && chat !in old(locks) ==>
                result == AcceptedRun(run) && Snapshot() == Admitted(old(Snapshot()), chat, sid, run, token)
    {
      if sid !in sessions {
        return SubmissionFailed;
      }
      var acquired := TryAcquireLock(chat, token);
      if !acquired {
        return RejectedBusy;
      }
      QueueGroupExecution(sid, run, token);
      return AcceptedRun(run);
    }

    // ArtifactSyncProcessor.process for a run, given how the sync of each output
    // ended; false stands for the exception of a forbidden transition. A run that
    // is syncing fails exactly when some output failed, and its session with it.
    method SyncRun(run: RunId, outputFailed: seq<bool>, ghost who: Option<SessionId>) returns (ok: bool)
      requires Context(Snapshot(), who, run)
      modifies this
      ensures who.Some? ==> who.value in old(sessions)
      ensures Snapshot() == Synchronized(old(Snapshot()), who, run, true in outputFailed)
      ensures ok <==> run in old(runs) ==>
        Attempt(old(Snapshot()), run, if true in outputFailed then Failed else Succeeded).Some?
      ensures run in old(runs) && old(runs)[run].status == Syncing ==>
        && runs == old(runs)[run := old(runs)[run].(status := if true in outputFailed then Failed else Succeeded)]
        && (who.Some? ==> SettledRow(old(sessions)[who.value], sessions[who.value], runs[run].status))
    {
      ghost var st := Snapshot();
      assert who.Some? ==> PointsTo(st, who.value, run);
      syncJobs := syncJobs - {run};
      if run !in runs {
        return true;
      }
      assert forall sid :: PointsTo(Snapshot(), sid, run) <==> PointsTo(st, sid, run);
      var failed := 0;
      for i := 0 to |outputFailed|
        invariant failed > 0 <==> true in outputFailed[..i]
        invariant Snapshot() == st.(syncJobs := st.syncJobs - {run})
      {
        if outputFailed[i] {
          failed := failed + 1;
        }
      }
      assert outputFailed[..|outputFailed|] == outputFailed;
      ok := Transition(run, if failed > 0 then Failed else Succeeded, who);
    }
  }
}
