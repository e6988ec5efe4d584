// How runs end and what that leaves on their sessions, over every interleaving.
module GroupProtocolOutcomes {
  import opened Prelude
  import opened RunStatuses
  import opened GroupStores
  import opened GroupProtocol
  import opened GroupProtocolSafety
  import opened GroupProtocolProgress

  // ---- the verdict of an artifact worker

  ghost predicate NoAdvanceOf(ls: seq<Label>, id: ActorId) {
    forall i :: 0 <= i < |ls| && ls[i].Advance? ==> ls[i].actor != id
  }

  // An actor that is not inside status handling waits for its own next step.
  lemma {:induction false} ActorWaits(w: World, ls: seq<Label>, id: ActorId)
    requires id in w.actors && w.actors[id].call.NoCall? && NoAdvanceOf(ls, id)
    ensures id in Run(w, ls).actors && Run(w, ls).actors[id] == w.actors[id]
  {
    if ls != [] {
      var before, l := ls[..|ls| - 1], ls[|ls| - 1];
      ActorWaits(w, before, id);
      assert l.Advance? ==> l.actor != id;
      OneStepLater(Run(w, before), l, id);
    }
  }

  lemma OneStepLater(w: World, l: Label, id: ActorId)
    requires id in w.actors && w.actors[id].call.NoCall? && !(l.Advance? && l.actor == id)
    ensures id in Apply(w, l).actors && Apply(w, l).actors[id] == w.actors[id]
  {
    if !StepOf(l, id) { OthersLeaveActors(w, l, id); }
  }

  lemma VerdictIsWritten(w: World, id: ActorId, failed: bool, c: Choice)
    requires id in w.actors && w.actors[id] == Actor(w.actors[id].run, SyncFinish(failed), NoCall)
    ensures var r := w.actors[id].run; var after := Apply(w, Advance(id, c)).st.runs;
      && (IsAt(w.st.runs, r, Syncing) ==> IsAt(after, r, if failed then Failed else Succeeded))
      && (r in w.st.runs && Terminal(w.st.runs[r].status) ==> IsAt(after, r, w.st.runs[r].status))
      && (forall q :: q in w.st.runs && q != r ==> q in after && after[q] == w.st.runs[q])
  {
  }

  // An artifact worker syncs the outputs and then writes its verdict; anything
  // may happen in between. If the run is syncing at that point it fails exactly
  // when outputs were stored and some output's sync had failed, and succeeds
  // otherwise; a run that has ended keeps its status.
  lemma SyncerVerdict(w: World, id: ActorId, answer: Choice, between: seq<Label>, c: Choice)
    requires id in w.actors && w.actors[id] == Actor(w.actors[id].run, SyncEntry, NoCall)
    requires NoAdvanceOf(between, id)
    ensures var r := w.actors[id].run; var v := Run(Apply(w, Advance(id, answer)), between);
      var failed := answer == OutputFailed && r in w.st.runs && w.st.runs[r].outputs;
      var after := Apply(v, Advance(id, c)).st.runs;
      && (IsAt(v.st.runs, r, Syncing) ==> IsAt(after, r, if failed then Failed else Succeeded))
      && (r in v.st.runs && Terminal(v.st.runs[r].status) ==> IsAt(after, r, v.st.runs[r].status))
      && (forall q :: q in v.st.runs && q != r ==> q in after && after[q] == v.st.runs[q])
  {
    var synced := Apply(w, Advance(id, answer));
    assert id in synced.actors && synced.actors[id].call.NoCall? && synced.actors[id].pc.SyncFinish?;
    ActorWaits(synced, between, id);
    VerdictIsWritten(Run(synced, between), id, synced.actors[id].pc.failed, c);
  }

  // ---- what a closed session says

  lemma Closed(st: Store, x: SessionId, s: RunStatus, sid: SessionId)
    requires x in st.sessions && Terminal(s) && sid in st.sessions && st.sessions[sid].run.Some?
    requires CloseSession(st, x, s).sessions[sid].run.None?
    ensures var row := CloseSession(st, x, s).sessions[sid];
      && sid == x && row.token.None? && row.chat == st.sessions[sid].chat
      && row.status == if s == Failed || s == Timeout then Error else Idle
  {
  }

  // Only the handling of an ended run ever clears a session's pointer, and then
  // the session is in error exactly if that run failed or timed out, and idle if
  // it succeeded or was canceled.
  lemma ClosedSessionsSayHowItEnded(w: World, l: Label, sid: SessionId)
    requires Reachable(w) && sid in w.st.sessions && w.st.sessions[sid].run.Some?
    requires sid in Apply(w, l).st.sessions && Apply(w, l).st.sessions[sid].run.None?
    ensures (l.Handle? || l.HandlePart?) && l.actor in w.actors
    ensures var r := w.actors[l.actor].run; var row := Apply(w, l).st.sessions[sid];
      && r in w.st.runs && row.token.None?
      && (row.status == Error <==> w.st.runs[r].status == Failed || w.st.runs[r].status == Timeout)
      && (row.status == Idle <==> w.st.runs[r].status == Succeeded || w.st.runs[r].status == Canceled)
      && (row.status == Error || row.status == Idle)
  {
    ReachableInv(w);
    if (l.Handle? || l.HandlePart?) && l.actor in w.actors {
      assert Apply(w, l) == if l.Handle? then HandleAtOnce(w, l.actor, l.sid) else HandleStep(w, l.actor, l.sid);
      HandlingClears(w, l.actor, l.sid, sid, l.Handle?);
    } else {
      OthersClearNothing(w, l, sid);
    }
  }

  lemma OthersClearNothing(w: World, l: Label, sid: SessionId)
    requires !((l.Handle? || l.HandlePart?) && l.actor in w.actors)
    requires sid in w.st.sessions && w.st.sessions[sid].run.Some?
    ensures sid in Apply(w, l).st.sessions && Apply(w, l).st.sessions[sid].run.Some?
  {
    if l.Advance? && l.actor in w.actors { NextFacts(w.st, w.actors[l.actor], l.choice); }
  }

  lemma HandlingClears(w: World, id: ActorId, x: SessionId, sid: SessionId, whole: bool)
    requires Inv(w) && id in w.actors && sid in w.st.sessions && w.st.sessions[sid].run.Some?
    requires var after := if whole then HandleAtOnce(w, id, x) else HandleStep(w, id, x);
      sid in after.st.sessions && after.st.sessions[sid].run.None?
    ensures var row := (if whole then HandleAtOnce(w, id, x) else HandleStep(w, id, x)).st.sessions[sid];
      var r := w.actors[id].run;
      && r in w.st.runs && Terminal(w.st.runs[r].status) && row.token.None?
      && row.status == if w.st.runs[r].status == Failed || w.st.runs[r].status == Timeout then Error else Idle
  {
    var a := w.actors[id];
    assert CallOk(a, w.st.runs, w.subs, w.origin);
    if whole {
      assert a.call.Find? && PointsTo(w.st, x, a.run) && Terminal(a.call.status);
      Closed(Release(w.st, w.st.sessions[x].chat, w.st.sessions[x].token), x, a.call.status, sid);
    } else {
      assert a.call.Close?;
      Closed(w.st, a.call.sid, a.call.status, sid);
    }
  }

  // ---- jobs

  // What taking a job leaves: the job is gone and a new actor is at the start of
  // its path.
  ghost predicate Taken(w: World, v: World, id: ActorId, r: RunId, start: Pc, before: set<RunId>, after: set<RunId>) {
    if r in before then after == before - {r} && v.actors == w.actors[id := Actor(r, start, NoCall)] else v == w
  }

  lemma RunJobsAreTakenOnce(w: World, id: ActorId, r: RunId)
    requires id !in w.actors
    ensures var v := Apply(w, TakeRunJob(id, r)); Taken(w, v, id, r, RunEntry, w.st.runJobs, v.st.runJobs)
  {
  }

  lemma ArtifactJobsAreTakenOnce(w: World, id: ActorId, r: RunId)
    requires id !in w.actors
    ensures var v := Apply(w, TakeSyncJob(id, r)); Taken(w, v, id, r, SyncEntry, w.st.syncJobs, v.st.syncJobs)
  {
  }

  lemma RetriesAreTakenOnce(w: World, id: ActorId, r: RunId)
    requires id !in w.actors
    ensures var v := Apply(w, TakeRetryJob(id, r)); Taken(w, v, id, r, SyncEntry, w.retryJobs, v.retryJobs)
    ensures Apply(w, Retry(r)) == if r in w.st.runs then w.(retryJobs := w.retryJobs + {r}) else w
  {
  }

  // A job is taken once; a retry is asked for known runs only.
  lemma JobsAreTakenOnce(w: World, id: ActorId, r: RunId)
    requires id !in w.actors
    ensures var v := Apply(w, TakeRunJob(id, r)); Taken(w, v, id, r, RunEntry, w.st.runJobs, v.st.runJobs)
    ensures var v := Apply(w, TakeSyncJob(id, r)); Taken(w, v, id, r, SyncEntry, w.st.syncJobs, v.st.syncJobs)
    ensures var v := Apply(w, TakeRetryJob(id, r)); Taken(w, v, id, r, SyncEntry, w.retryJobs, v.retryJobs)
    ensures Apply(w, Retry(r)) == if r in w.st.runs then w.(retryJobs := w.retryJobs + {r}) else w
  {
    RunJobsAreTakenOnce(w, id, r);
    ArtifactJobsAreTakenOnce(w, id, r);
    RetriesAreTakenOnce(w, id, r);
  }
}
