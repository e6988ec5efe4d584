// What every interleaving keeps: who may free a lock, that two runs of a chat
// never overlap while locks do not expire, and that a canceled run stays so.
module GroupProtocolSafety {
  import opened Prelude
  import opened RunStatuses
  import opened GroupStores
  import opened GroupProtocol

  type Runs = map<RunId, RunRow>
  type Subs = map<Token, Submission>
  type Sessions = map<SessionId, SessionRow>
  type Actors = map<ActorId, Actor>
  type Origin = map<RunId, Token>

  // ---- invariants, each over the parts of the state it speaks of

  predicate Queuing(p: Phase, r: RunId) {
    p == Marked(r) || p == Accepted(r)
  }

  // A session points only at the run that its own submission marked, and then
  // carries that submission's token. Run id and token are null together, so a
  // transition never deletes a lock without naming a token.
  ghost predicate PointerOk(sid: SessionId, s: SessionRow, subs: Subs, origin: Origin) {
    match s.run
    case None => s.token.None?
    case Some(r) =>
      && r in origin && s.token == Some(origin[r])
      && origin[r] in subs && subs[origin[r]].sid == sid && Queuing(subs[origin[r]].phase, r)
  }

  ghost predicate Pointers(sessions: Sessions, subs: Subs, origin: Origin) {
    forall sid :: sid in sessions ==> PointerOk(sid, sessions[sid], subs, origin)
  }

  // Every token in a lock belongs to a submission of that chat.
  ghost predicate Owners(locks: map<ChatId, Token>, subs: Subs) {
    forall chat :: chat in locks ==> locks[chat] in subs && subs[locks[chat]].chat == chat
  }

  // A token whose lock expired is in no lock, and comes back into none.
  ghost predicate Gone(locks: map<ChatId, Token>, lapsed: set<Token>, subs: Subs) {
    lapsed <= subs.Keys && forall chat :: chat in locks ==> locks[chat] !in lapsed
  }

  ghost predicate Homes(sessions: Sessions, subs: Subs) {
    forall t :: t in subs ==> subs[t].sid in sessions && sessions[subs[t].sid].chat == subs[t].chat
  }

  // Submissions and their runs correspond one to one.
  ghost predicate Origins(runs: set<RunId>, subs: Subs, origin: Origin) {
    && (forall r :: r in origin ==> r in runs && origin[r] in subs && subs[origin[r]].Has(r))
    && (forall t :: t in subs && !subs[t].phase.Deciding? && !subs[t].phase.Released? ==>
          subs[t].phase.run in origin && origin[subs[t].phase.run] == t)
  }

  predicate IsAt(runs: Runs, r: RunId, s: RunStatus) {
    r in runs && runs[r].status == s
  }

  // A pending lock release names the token of the actor's own, finished run, and
  // a pending update that run's own session.
  ghost predicate CallOk(a: Actor, runs: Runs, subs: Subs, origin: Origin) {
    match a.call
    case NoCall => true
    case Find(s) => Terminal(s) ==> IsAt(runs, a.run, s)
    case Unlock(sid, chat, token, s) =>
      && Terminal(s) && IsAt(runs, a.run, s) && Homed(a.run, sid, subs, origin)
      && token == Some(origin[a.run]) && subs[origin[a.run]].chat == chat
    case Close(sid, s) => Terminal(s) && IsAt(runs, a.run, s) && Homed(a.run, sid, subs, origin)
    case Touch(_) => true
  }

  // The run was queued by a submission of that session.
  predicate Homed(r: RunId, sid: SessionId, subs: Subs, origin: Origin) {
    r in origin && origin[r] in subs && subs[origin[r]].sid == sid && Queuing(subs[origin[r]].phase, r)
  }

  ghost predicate Calls(actors: Actors, runs: Runs, subs: Subs, origin: Origin) {
    forall id :: id in actors ==> CallOk(actors[id], runs, subs, origin)
  }

  // Artifact jobs are only ever added for runs that can no longer be canceled.
  predicate PastCancel(runs: Runs, r: RunId) {
    r in runs && CancelTooLate(runs[r].status)
  }

  ghost predicate Synced(queued: set<RunId>, actors: Actors, runs: Runs) {
    && (forall r :: r in queued ==> PastCancel(runs, r))
    && (forall id :: id in actors && actors[id].pc.RunEnqueueSync? ==> PastCancel(runs, actors[id].run))
  }

  ghost predicate Inv(w: World) {
    && Pointers(w.st.sessions, w.subs, w.origin)
    && Owners(w.st.locks, w.subs) && Gone(w.st.locks, w.lapsed, w.subs)
    && Homes(w.st.sessions, w.subs)
    && Origins(w.st.runs.Keys, w.subs, w.origin)
    && Calls(w.actors, w.st.runs, w.subs, w.origin)
    && Synced(w.syncQueued, w.actors, w.st.runs)
    && w.st.syncJobs <= w.syncQueued
  }

  // A submission holds its lock until it gives it up or its run has ended.
  predicate Holds(s: Submission, runs: Runs) {
    match s.phase
    case Deciding => true
    case Released => false
    case _ => s.phase.run in runs && !Terminal(runs[s.phase.run].status)
  }

  // Unless its lock expired under it.
  ghost predicate Locked(locks: map<ChatId, Token>, subs: Subs, runs: Runs, lapsed: set<Token>) {
    forall t :: t in subs && Holds(subs[t], runs) && t !in lapsed ==> subs[t].chat in locks && locks[subs[t].chat] == t
  }

  // ---- one step

  // Statuses move only along the table, and runs are never removed.
  ghost predicate StatusesAdvance(runs: Runs, runs': Runs) {
    forall r :: r in runs ==> r in runs' && Allowed(runs[r].status, runs'[r].status)
  }

  ghost predicate Keeps(w: World, w': World) {
    && Inv(w')
    && StatusesAdvance(w.st.runs, w'.st.runs)
    && w'.lapsed == w.lapsed
    && (Locked(w.st.locks, w.subs, w.st.runs, w.lapsed) ==> Locked(w'.st.locks, w'.subs, w'.st.runs, w.lapsed))
  }

  lemma CallsPersist(actors: Actors, runs: Runs, runs': Runs, subs: Subs, origin: Origin)
    requires Calls(actors, runs, subs, origin) && StatusesAdvance(runs, runs')
    ensures Calls(actors, runs', subs, origin)
  {
    forall id | id in actors ensures CallOk(actors[id], runs', subs, origin) {
      assert CallOk(actors[id], runs, subs, origin);
    }
  }

  lemma SyncedPersists(queued: set<RunId>, actors: Actors, runs: Runs, runs': Runs)
    requires Synced(queued, actors, runs) && StatusesAdvance(runs, runs')
    ensures Synced(queued, actors, runs')
  {
  }

  lemma LockedPersists(locks: map<ChatId, Token>, subs: Subs, runs: Runs, runs': Runs, lapsed: set<Token>)
    requires Locked(locks, subs, runs, lapsed) && StatusesAdvance(runs, runs') && runs'.Keys == runs.Keys
    ensures Locked(locks, subs, runs', lapsed)
  {
    forall t | t in subs && Holds(subs[t], runs') ensures Holds(subs[t], runs) {}
  }

  // Steps that only move one run, add artifact jobs or replace one actor.
  lemma Quiet(w: World, w': World, id: ActorId, a: Actor)
    requires Inv(w) && RunStep(w.st, w'.st.(runJobs := w.st.runJobs), a.run)
    requires w'.subs == w.subs && w'.origin == w.origin && w'.actors == w.actors[id := a]
    requires w'.st.syncJobs <= w'.syncQueued && w'.lapsed == w.lapsed
    requires forall r :: r in w'.syncQueued ==> r in w.syncQueued || PastCancel(w'.st.runs, r)
    requires CallOk(a, w'.st.runs, w.subs, w.origin)
    requires a.pc.RunEnqueueSync? ==> PastCancel(w'.st.runs, a.run)
    ensures Keeps(w, w')
  {
    assert StatusesAdvance(w.st.runs, w'.st.runs);
    CallsPersist(w.actors, w.st.runs, w'.st.runs, w.subs, w.origin);
    SyncedPersists(w.syncQueued, w.actors, w.st.runs, w'.st.runs);
    if Locked(w.st.locks, w.subs, w.st.runs, w.lapsed) {
      LockedPersists(w.st.locks, w.subs, w.st.runs, w'.st.runs, w.lapsed);
    }
  }

  lemma NextFacts(st: Store, a: Actor, c: Choice)
    ensures var (st', a') := Next(st, a, c);
      && RunStep(st, st', a.run) && a'.run == a.run
      && st'.syncJobs == (if a.pc == RunEnqueueSync then st.syncJobs + {a.run} else st.syncJobs)
      && (a'.call == a.call || (a'.call.Find? && IsAt(st'.runs, a.run, a'.call.status)))
      && (a'.pc == RunEnqueueSync ==> PastCancel(st'.runs, a.run))
  {
  }

  lemma AdvanceKeeps(w: World, id: ActorId, c: Choice)
    requires Inv(w)
    ensures Keeps(w, AdvanceActor(w, id, c))
  {
    if id in w.actors && w.actors[id].call.NoCall? {
      NextFacts(w.st, w.actors[id], c);
      var w' := AdvanceActor(w, id, c);
      Quiet(w, w', id, w'.actors[id]);
    }
  }

  lemma StartRunWorkerKeeps(w: World, id: ActorId, r: RunId)
    requires Inv(w)
    ensures Keeps(w, StartRunWorker(w, id, r))
  {
    if id !in w.actors && r in w.st.runJobs { Quiet(w, StartRunWorker(w, id, r), id, Actor(r, RunEntry, NoCall)); }
  }

  lemma StartSyncerKeeps(w: World, id: ActorId, r: RunId)
    requires Inv(w)
    ensures Keeps(w, StartSyncer(w, id, r))
  {
    if id !in w.actors && r in w.st.syncJobs { Quiet(w, StartSyncer(w, id, r), id, Actor(r, SyncEntry, NoCall)); }
  }

  lemma StartRetryKeeps(w: World, id: ActorId, r: RunId)
    requires Inv(w)
    ensures Keeps(w, StartRetry(w, id, r)) && Keeps(w, AskRetry(w, r))
  {
    if id !in w.actors && r in w.retryJobs { Quiet(w, StartRetry(w, id, r), id, Actor(r, SyncEntry, NoCall)); }
  }

  lemma CancelRunKeeps(w: World, id: ActorId, r: RunId)
    requires Inv(w)
    ensures Keeps(w, CancelRun(w, id, r))
  {
    var tried := Attempt(w.st, r, Canceled);
    if id !in w.actors && tried.Some? {
      var w' := CancelRun(w, id, r);
      if HasStatus(w.st, r, Queued) {
        Quiet(w, w', id, Actor(r, Done, Find(Canceled)));
      } else {
        CallsPersist(w.actors, w.st.runs, w'.st.runs, w.subs, w.origin);
        SyncedPersists(w.syncQueued, w.actors, w.st.runs, w'.st.runs);
        if Locked(w.st.locks, w.subs, w.st.runs, w.lapsed) {
          LockedPersists(w.st.locks, w.subs, w.st.runs, w'.st.runs, w.lapsed);
        }
      }
    }
  }

  lemma CreateOtherRunKeeps(w: World, r: RunId)
    requires Inv(w)
    ensures Keeps(w, CreateOtherRun(w, r))
  {
    if r !in w.st.runs {
      NewRow(w, r, w.subs, w.origin);
      var runs' := AddRun(w.st, r).runs;
      assert Locked(w.st.locks, w.subs, w.st.runs, w.lapsed) ==> Locked(w.st.locks, w.subs, runs', w.lapsed) by {
        forall t | t in w.subs && Holds(w.subs[t], runs') ensures Holds(w.subs[t], w.st.runs) {}
      }
    }
  }

  // ---- steps of a submission: they move no status

  // A submission moves on within Deciding, Created, Marked, Accepted. What
  // names it elsewhere stays true.
  ghost predicate Forward(s: Submission, s': Submission, r: RunId) {
    && s' == s.(phase := s'.phase)
    && ((s.phase.Deciding? && (s'.phase == Created(r) || s'.phase.Released?))
        || (s.phase == Created(r) && s'.phase == Marked(r))
        || (s.phase == Marked(r) && s'.phase == Accepted(r)))
  }

  lemma ForwardKeepsNames(w: World, t: Token, s': Submission, r: RunId, origin': Origin)
    requires Inv(w) && t in w.subs && Forward(w.subs[t], s', r)
    requires origin' == w.origin || (r !in w.origin && origin' == w.origin[r := t])
    ensures Pointers(w.st.sessions, w.subs[t := s'], origin')
    ensures Calls(w.actors, w.st.runs, w.subs[t := s'], origin')
    ensures Homes(w.st.sessions, w.subs[t := s'])
    ensures Owners(w.st.locks, w.subs[t := s'])
  {
    var subs' := w.subs[t := s'];
    forall sid | sid in w.st.sessions ensures PointerOk(sid, w.st.sessions[sid], subs', origin') {
      assert PointerOk(sid, w.st.sessions[sid], w.subs, w.origin);
    }
    forall id | id in w.actors ensures CallOk(w.actors[id], w.st.runs, subs', origin') {
      assert CallOk(w.actors[id], w.st.runs, w.subs, w.origin);
    }
  }

  lemma LockedForward(locks: map<ChatId, Token>, subs: Subs, runs: Runs, runs': Runs, t: Token, s': Submission,
      lapsed: set<Token>)
    requires Locked(locks, subs, runs, lapsed) && t in subs && s'.chat == subs[t].chat
    requires Holds(s', runs') ==> Holds(subs[t], runs)
    requires forall u :: u in subs && u != t && Holds(subs[u], runs') ==> Holds(subs[u], runs)
    ensures Locked(locks, subs[t := s'], runs', lapsed)
  {
  }

  lemma OriginsForward(runs: set<RunId>, subs: Subs, origin: Origin, t: Token, s': Submission, r: RunId)
    requires Origins(runs, subs, origin) && t in subs && Forward(subs[t], s', r)
    ensures !s'.phase.Created? ==> Origins(runs, subs[t := s'], origin)
    ensures s'.phase.Created? && r !in runs ==> Origins(runs + {r}, subs[t := s'], origin[r := t])
  {
  }

  lemma TryLockKeeps(w: World, t: Token, chat: ChatId, sid: SessionId, interactive: bool)
    requires Inv(w)
    ensures Keeps(w, TryLock(w, t, chat, sid, interactive))
  {
    var w' := TryLock(w, t, chat, sid, interactive);
    if w' != w {
      forall x | x in w.st.sessions ensures PointerOk(x, w.st.sessions[x], w'.subs, w.origin) {
        assert PointerOk(x, w.st.sessions[x], w.subs, w.origin);
      }
      forall id | id in w.actors ensures CallOk(w.actors[id], w.st.runs, w'.subs, w.origin) {
        assert CallOk(w.actors[id], w.st.runs, w.subs, w.origin);
      }
      assert w'.subs[t] == Submission(chat, sid, interactive, Deciding);
      assert Origins(w'.st.runs.Keys, w'.subs, w'.origin);
    }
  }

  lemma RelinquishKeeps(w: World, t: Token)
    requires Inv(w)
    ensures Keeps(w, Relinquish(w, t))
  {
    var w' := Relinquish(w, t);
    if w' != w {
      var s' := w.subs[t].(phase := Released);
      ForwardKeepsNames(w, t, s', 0, w.origin);
      OriginsForward(w.st.runs.Keys, w.subs, w.origin, t, s', 0);
      if Locked(w.st.locks, w.subs, w.st.runs, w.lapsed) {
        LockedForward(w.st.locks, w.subs, w.st.runs, w.st.runs, t, s', w.lapsed);
      }
    }
  }

  // A new row disturbs no pending call and no artifact job.
  lemma NewRow(w: World, r: RunId, subs': Subs, origin': Origin)
    requires r !in w.st.runs && Calls(w.actors, w.st.runs, subs', origin') && Synced(w.syncQueued, w.actors, w.st.runs)
    ensures var runs' := AddRun(w.st, r).runs;
      && StatusesAdvance(w.st.runs, runs') && runs'.Keys == w.st.runs.Keys + {r}
      && Calls(w.actors, runs', subs', origin') && Synced(w.syncQueued, w.actors, runs')
  {
    var runs' := AddRun(w.st, r).runs;
    CallsPersist(w.actors, w.st.runs, runs', subs', origin');
    SyncedPersists(w.syncQueued, w.actors, w.st.runs, runs');
  }

  lemma CreateGroupRunKeeps(w: World, t: Token, r: RunId)
    requires Inv(w)
    ensures Keeps(w, CreateGroupRun(w, t, r))
  {
    if t in w.subs && w.subs[t].phase == Deciding && r !in w.st.runs {
      var s' := w.subs[t].(phase := Created(r));
      ForwardKeepsNames(w, t, s', r, w.origin[r := t]);
      OriginsForward(w.st.runs.Keys, w.subs, w.origin, t, s', r);
      NewRow(w, r, w.subs[t := s'], w.origin[r := t]);
      if Locked(w.st.locks, w.subs, w.st.runs, w.lapsed) {
        LockedForward(w.st.locks, w.subs, w.st.runs, AddRun(w.st, r).runs, t, s', w.lapsed);
      }
    }
  }

  lemma MarkGroupRunKeeps(w: World, t: Token)
    requires Inv(w)
    ensures Keeps(w, MarkGroupRun(w, t))
  {
    var w' := MarkGroupRun(w, t);
    if w' != w {
      var r := w.subs[t].phase.run;
      var s' := w.subs[t].(phase := Marked(r));
      ForwardKeepsNames(w, t, s', r, w.origin);
      OriginsForward(w.st.runs.Keys, w.subs, w.origin, t, s', r);
      assert Pointers(w'.st.sessions, w.subs[t := s'], w.origin);
      if Locked(w.st.locks, w.subs, w.st.runs, w.lapsed) {
        LockedForward(w.st.locks, w.subs, w.st.runs, w.st.runs, t, s', w.lapsed);
      }
    }
  }

  lemma EnqueueGroupRunKeeps(w: World, t: Token)
    requires Inv(w)
    ensures Keeps(w, EnqueueGroupRun(w, t))
  {
    var w' := EnqueueGroupRun(w, t);
    if w' != w {
      var r := w.subs[t].phase.run;
      var s' := w.subs[t].(phase := Accepted(r));
      ForwardKeepsNames(w, t, s', r, w.origin);
      OriginsForward(w.st.runs.Keys, w.subs, w.origin, t, s', r);
      if Locked(w.st.locks, w.subs, w.st.runs, w.lapsed) {
        LockedForward(w.st.locks, w.subs, w.st.runs, w.st.runs, t, s', w.lapsed);
      }
    }
  }

  // ---- the awaits of handleRunStatusTransition

  // A finished run's token leaves no lock that someone still holds.
  lemma ReleaseKeeps(w: World, chat: ChatId, run: RunId)
    requires Inv(w) && run in w.origin && IsAt(w.st.runs, run, w.st.runs[run].status) && Terminal(w.st.runs[run].status)
    ensures var locks := Release(w.st, chat, Some(w.origin[run])).locks;
      && Owners(locks, w.subs)
      && (Locked(w.st.locks, w.subs, w.st.runs, w.lapsed) ==> Locked(locks, w.subs, w.st.runs, w.lapsed))
  {
  }

  lemma CloseKeeps(w: World, sid: SessionId, status: RunStatus)
    requires Inv(w) && sid in w.st.sessions
    ensures Pointers(CloseSession(w.st, sid, status).sessions, w.subs, w.origin)
    ensures Homes(CloseSession(w.st, sid, status).sessions, w.subs)
    ensures Pointers(TouchSession(w.st, sid).sessions, w.subs, w.origin)
    ensures Homes(TouchSession(w.st, sid).sessions, w.subs)
  {
    forall x | x in w.st.sessions
      ensures PointerOk(x, CloseSession(w.st, sid, status).sessions[x], w.subs, w.origin)
      ensures PointerOk(x, TouchSession(w.st, sid).sessions[x], w.subs, w.origin)
    {
      assert PointerOk(x, w.st.sessions[x], w.subs, w.origin);
    }
  }

  // Replacing an actor that does not enter RunEnqueueSync.
  lemma ActorKeeps(w: World, w': World, id: ActorId, a: Actor)
    requires Inv(w) && id in w.actors && w'.actors == w.actors[id := a]
    requires a.run == w.actors[id].run && a.pc == w.actors[id].pc && CallOk(a, w.st.runs, w.subs, w.origin)
    ensures Calls(w'.actors, w.st.runs, w.subs, w.origin) && Synced(w.syncQueued, w'.actors, w.st.runs)
  {
  }

  lemma HandleStepKeeps(w: World, id: ActorId, x: SessionId)
    requires Inv(w)
    ensures Keeps(w, HandleStep(w, id, x))
  {
    if id in w.actors {
      var a := w.actors[id];
      assert CallOk(a, w.st.runs, w.subs, w.origin);
      match a.call
      case NoCall =>
      case Find(_) => FindKeeps(w, id, x);
      case Unlock(_, _, _, _) => UnlockKeeps(w, id, x);
      case Close(sid, s) =>
        ActorKeeps(w, HandleStep(w, id, x), id, a.(call := NoCall));
        if sid in w.st.sessions { CloseKeeps(w, sid, s); }
      case Touch(sid) =>
        ActorKeeps(w, HandleStep(w, id, x), id, a.(call := NoCall));
        if sid in w.st.sessions { CloseKeeps(w, sid, Running); }
    }
  }

  lemma FindKeeps(w: World, id: ActorId, x: SessionId)
    requires Inv(w) && id in w.actors && w.actors[id].call.Find?
    ensures Keeps(w, HandleStep(w, id, x))
  {
    var a := w.actors[id];
    assert CallOk(a, w.st.runs, w.subs, w.origin);
    if PointsTo(w.st, x, a.run) {
      assert PointerOk(x, w.st.sessions[x], w.subs, w.origin);
    }
    ActorKeeps(w, HandleStep(w, id, x), id, Part(w.st, a, x).1);
  }

  lemma UnlockKeeps(w: World, id: ActorId, x: SessionId)
    requires Inv(w) && id in w.actors && w.actors[id].call.Unlock?
    ensures Keeps(w, HandleStep(w, id, x))
  {
    var a := w.actors[id];
    assert CallOk(a, w.st.runs, w.subs, w.origin);
    ReleaseKeeps(w, a.call.chat, a.run);
    ActorKeeps(w, HandleStep(w, id, x), id, a.(call := Close(a.call.sid, a.call.status)));
  }

  // The one-step handling is the await-by-await handling without interruption.
  lemma HandleAtOnceIsItsParts(w: World, id: ActorId, x: SessionId)
    ensures var w1 := HandleStep(w, id, x); var w2 := HandleStep(w1, id, x); var w3 := HandleStep(w2, id, x);
      HandleAtOnce(w, id, x) == if id in w.actors && w.actors[id].call.Find? then w3 else w
  {
    if id in w.actors && w.actors[id].call.Find? { HandleIsItsParts(w, id, x); }
  }

  lemma HandleIsItsParts(w: World, id: ActorId, x: SessionId)
    requires id in w.actors && w.actors[id].call.Find?
    ensures HandleAtOnce(w, id, x) == HandleStep(HandleStep(HandleStep(w, id, x), id, x), id, x)
  {
    if PointsTo(w.st, x, w.actors[id].run) && Terminal(w.actors[id].call.status) {
      FoundAndFinished(w, id, x);
    } else {
      FoundOrNot(w, id, x);
    }
  }

  lemma FoundOrNot(w: World, id: ActorId, x: SessionId)
    requires id in w.actors && w.actors[id].call.Find?
    requires !(PointsTo(w.st, x, w.actors[id].run) && Terminal(w.actors[id].call.status))
    ensures HandleAtOnce(w, id, x) == HandleStep(HandleStep(HandleStep(w, id, x), id, x), id, x)
  {
    var w1 := HandleStep(w, id, x);
    if !PointsTo(w.st, x, w.actors[id].run) {
      assert HandleStep(w1, id, x) == w1;
    } else {
      var w2 := HandleStep(w1, id, x);
      assert HandleStep(w2, id, x) == w2;
    }
  }

  lemma FoundAndFinished(w: World, id: ActorId, x: SessionId)
    requires id in w.actors && w.actors[id].call.Find? && PointsTo(w.st, x, w.actors[id].run)
    requires Terminal(w.actors[id].call.status)
    ensures HandleAtOnce(w, id, x) == HandleStep(HandleStep(HandleStep(w, id, x), id, x), id, x)
  {
    var a := w.actors[id];
    var call := Unlock(x, w.st.sessions[x].chat, w.st.sessions[x].token, a.call.status);
    assert HandleStep(w, id, x) == w.(actors := w.actors[id := a.(call := call)]);
    UnlockAndClose(HandleStep(w, id, x), id, x);
  }

  lemma UnlockAndClose(w: World, id: ActorId, x: SessionId)
    requires id in w.actors && w.actors[id].call.Unlock? && PointsTo(w.st, w.actors[id].call.sid, w.actors[id].run)
    ensures var a := w.actors[id]; var c := a.call;
      HandleStep(HandleStep(w, id, x), id, x)
      == w.(st := CloseSession(Release(w.st, c.chat, c.token), c.sid, c.status),
            actors := w.actors[id := a.(call := NoCall)])
  {
    var a := w.actors[id];
    var w1 := HandleStep(w, id, x);
    assert w1 == w.(st := Release(w.st, a.call.chat, a.call.token),
                    actors := w.actors[id := a.(call := Close(a.call.sid, a.call.status))]);
  }

  lemma KeepsTransitive(w: World, w1: World, w2: World)
    requires Keeps(w, w1) && Keeps(w1, w2) && w1.st.runs == w.st.runs
    ensures Keeps(w, w2)
  {
  }

  lemma HandlingMovesNoStatus(w: World, id: ActorId, x: SessionId)
    ensures HandleStep(w, id, x).st.runs == w.st.runs
  {
  }

  lemma HandleAtOnceKeeps(w: World, id: ActorId, x: SessionId)
    requires Inv(w)
    ensures Keeps(w, HandleAtOnce(w, id, x))
  {
    HandleAtOnceIsItsParts(w, id, x);
    if id in w.actors && w.actors[id].call.Find? {
      var w1 := HandleStep(w, id, x);
      var w2 := HandleStep(w1, id, x);
      HandleStepKeeps(w, id, x);
      HandleStepKeeps(w1, id, x);
      HandleStepKeeps(w2, id, x);
      HandlingMovesNoStatus(w, id, x);
      HandlingMovesNoStatus(w1, id, x);
      KeepsTransitive(w, w1, w2);
      KeepsTransitive(w, w2, HandleStep(w2, id, x));
    } else {
      assert Keeps(w, w);
    }
  }

  lemma ExpireKeeps(w: World, chat: ChatId)
    requires Inv(w)
    ensures var w' := ExpireLock(w, chat);
      && Inv(w') && StatusesAdvance(w.st.runs, w'.st.runs)
      && (Locked(w.st.locks, w.subs, w.st.runs, w.lapsed) ==> Locked(w'.st.locks, w'.subs, w'.st.runs, w'.lapsed))
  {
  }

  // ---- every run of the system

  ghost predicate SubmissionLabel(l: Label) {
    l.AcquireLock? || l.GiveUp? || l.CreateRun? || l.MarkRun? || l.EnqueueRun?
  }

  lemma SubmissionKeeps(w: World, l: Label)
    requires Inv(w) && SubmissionLabel(l)
    ensures Keeps(w, Apply(w, l))
  {
    match l
    case AcquireLock(t, chat, sid, interactive) => TryLockKeeps(w, t, chat, sid, interactive);
    case GiveUp(t) => RelinquishKeeps(w, t);
    case CreateRun(t, r) => CreateGroupRunKeeps(w, t, r);
    case MarkRun(t) => MarkGroupRunKeeps(w, t);
    case EnqueueRun(t) => EnqueueGroupRunKeeps(w, t);
  }

  lemma StepKeeps(w: World, l: Label)
    requires Inv(w) && !l.Expire?
    ensures Keeps(w, Apply(w, l))
  {
    match l
    case CreatePlainRun(r) => CreateOtherRunKeeps(w, r);
    case TakeRunJob(id, r) => StartRunWorkerKeeps(w, id, r);
    case TakeSyncJob(id, r) => StartSyncerKeeps(w, id, r);
    case TakeRetryJob(id, r) => StartRetryKeeps(w, id, r);
    case Retry(r) => StartRetryKeeps(w, 0, r);
    case Cancel(id, r) => CancelRunKeeps(w, id, r);
    case Advance(id, c) => AdvanceKeeps(w, id, c);
    case Handle(id, sid) => HandleAtOnceKeeps(w, id, sid);
    case HandlePart(id, sid) => HandleStepKeeps(w, id, sid);
    case _ => SubmissionKeeps(w, l);
  }

  ghost predicate NoExpiry(ls: seq<Label>) {
    forall i :: 0 <= i < |ls| ==> !ls[i].Expire?
  }

  lemma {:induction false} RunKeeps(w: World, ls: seq<Label>)
    requires Inv(w)
    ensures Inv(Run(w, ls))
    ensures Locked(w.st.locks, w.subs, w.st.runs, w.lapsed) ==>
              Locked(Run(w, ls).st.locks, Run(w, ls).subs, Run(w, ls).st.runs, Run(w, ls).lapsed)
  {
    if ls != [] {
      var before, l := ls[..|ls| - 1], ls[|ls| - 1];
      RunKeeps(w, before);
      if l.Expire? {
        ExpireKeeps(Run(w, before), l.chat);
      } else {
        StepKeeps(Run(w, before), l);
      }
    }
  }

  lemma ReachableInv(w: World)
    requires Reachable(w)
    ensures Inv(w)
  {
    var w0, ls :| Initial(w0) && w == Run(w0, ls);
    RunKeeps(w0, ls);
  }

  ghost predicate LiveRunOf(w: World, r: RunId, chat: ChatId) {
    && r in w.origin && w.origin[r] in w.subs && w.subs[w.origin[r]].chat == chat
    && r in w.st.runs && !Terminal(w.st.runs[r].status)
  }

  predicate Holding(locks: map<ChatId, Token>, chat: ChatId, t: Token) { chat in locks && locks[chat] == t }

  // The token of a live group run is the one in its chat's lock exactly unless
  // that lock expired under it, whatever else has expired; so of two live runs
  // of one chat at least one has lost its lock by expiry.
  lemma LiveRunHoldsItsChat(w0: World, ls: seq<Label>, r: RunId, chat: ChatId)
    requires Initial(w0) && LiveRunOf(Run(w0, ls), r, chat)
    ensures var w := Run(w0, ls);
      && (Holding(w.st.locks, chat, w.origin[r]) <==> w.origin[r] !in w.lapsed)
      && (forall q :: LiveRunOf(w, q, chat) && q != r ==> w.origin[q] in w.lapsed || w.origin[r] in w.lapsed)
  {
    RunKeeps(w0, ls);
    var w := Run(w0, ls);
    forall q | LiveRunOf(w, q, chat) ensures Holds(w.subs[w.origin[q]], w.st.runs) && w.subs[w.origin[q]].Has(q) {}
  }

  // Every group run has its submission, so the statement above is about all of them.
  lemma EveryGroupRunHasAChat(w: World, r: RunId)
    requires Reachable(w) && r in w.origin
    ensures r in w.st.runs && w.origin[r] in w.subs
    ensures Terminal(w.st.runs[r].status) || LiveRunOf(w, r, w.subs[w.origin[r]].chat)
  {
    ReachableInv(w);
  }

  // ---- who may free a lock, even when locks expire at any moment

  predicate KeepsLock(st: Store, st': Store, chat: ChatId) {
    chat in st.locks ==> chat in st'.locks && st'.locks[chat] == st.locks[chat]
  }

  ghost predicate Freed(w: World, w': World, chat: ChatId) {
    !KeepsLock(w.st, w'.st, chat)
  }

  // The submission with token t, still deciding, releases its own lock.
  predicate GivesUp(w: World, l: Label, t: Token) {
    l == GiveUp(t) && t in w.subs && w.subs[t].phase == Deciding && w.subs[t].interactive
  }

  // The run handled by the actor of `l` has ended and was queued, through
  // markRunQueued, by the submission whose token is t.
  ghost predicate EndsRunOf(w: World, l: Label, t: Token) {
    && (l.Handle? || l.HandlePart?) && l.actor in w.actors
    && var r := w.actors[l.actor].run;
    && r in w.origin && w.origin[r] == t && t in w.subs && Queuing(w.subs[t].phase, r)
    && r in w.st.runs && Terminal(w.st.runs[r].status)
  }

  lemma OnlyItsOwnerFreesALock(w: World, l: Label, chat: ChatId)
    requires Reachable(w) && Freed(w, Apply(w, l), chat)
    ensures l == Expire(chat) || GivesUp(w, l, w.st.locks[chat]) || EndsRunOf(w, l, w.st.locks[chat])
  {
    ReachableInv(w);
    if l.Handle? || l.HandlePart? {
      HandleFrees(w, l, chat);
    } else if l.GiveUp? {
      RelinquishFrees(w, l.token, chat);
    } else if !l.Expire? {
      OthersLeaveLocks(w, l, chat);
    }
  }

  lemma RelinquishFrees(w: World, t: Token, chat: ChatId)
    requires Freed(w, Relinquish(w, t), chat)
    ensures GivesUp(w, GiveUp(t), w.st.locks[chat])
  {
  }

  lemma OthersLeaveLocks(w: World, l: Label, chat: ChatId)
    requires !l.GiveUp? && !l.Expire? && !l.Handle? && !l.HandlePart?
    ensures KeepsLock(w.st, Apply(w, l).st, chat)
  {
    if l.Advance? && l.actor in w.actors { NextFacts(w.st, w.actors[l.actor], l.choice); }
  }

  lemma HandleFrees(w: World, l: Label, chat: ChatId)
    requires Inv(w) && (l.Handle? || l.HandlePart?) && Freed(w, Apply(w, l), chat)
    ensures EndsRunOf(w, l, w.st.locks[chat])
  {
    if l.actor in w.actors {
      var a := w.actors[l.actor];
      assert CallOk(a, w.st.runs, w.subs, w.origin);
      if l.Handle? { WholeFrees(w.st, a, l.sid, chat); } else { PartFrees(w.st, a, l.sid, chat); }
      if a.call.Find? && PointsTo(w.st, l.sid, a.run) {
        assert PointerOk(l.sid, w.st.sessions[l.sid], w.subs, w.origin);
      }
    }
  }

  lemma WholeFrees(st: Store, a: Actor, x: SessionId, chat: ChatId)
    requires !KeepsLock(st, Whole(st, a, x).0, chat)
    ensures a.call.Find? && Terminal(a.call.status) && PointsTo(st, x, a.run) && st.sessions[x].chat == chat
    ensures st.sessions[x].token == None || st.sessions[x].token == Some(st.locks[chat])
  {
  }

  lemma PartFrees(st: Store, a: Actor, x: SessionId, chat: ChatId)
    requires !KeepsLock(st, Part(st, a, x).0, chat)
    ensures a.call.Unlock? && a.call.chat == chat
    ensures a.call.token == None || a.call.token == Some(st.locks[chat])
  {
  }

  // The branch that deletes a lock without comparing tokens is never taken by
  // a status transition.
  lemma TransitionsNameATokenToRelease(w: World, id: ActorId)
    requires Reachable(w) && id in w.actors && w.actors[id].call.Unlock?
    ensures w.actors[id].run in w.origin && w.actors[id].call.token == Some(w.origin[w.actors[id].run])
  {
    ReachableInv(w);
    assert CallOk(w.actors[id], w.st.runs, w.subs, w.origin);
  }

  // A run whose submission's session points elsewhere, or that no submission
  // queued, finishes without touching any lock or session.
  lemma SupersededRunChangesNothing(w: World, id: ActorId, x: SessionId)
    requires Reachable(w) && id in w.actors && w.actors[id].call.Find?
    requires var r := w.actors[id].run;
      !(r in w.origin && w.origin[r] in w.subs && PointsTo(w.st, w.subs[w.origin[r]].sid, r))
    ensures HandleStep(w, id, x).st == w.st && HandleStep(w, id, x).actors[id].call == NoCall
    ensures HandleAtOnce(w, id, x).st == w.st && HandleAtOnce(w, id, x).actors[id].call == NoCall
  {
    ReachableInv(w);
    var r := w.actors[id].run;
    forall sid ensures !PointsTo(w.st, sid, r) {
      if sid in w.st.sessions { assert PointerOk(sid, w.st.sessions[sid], w.subs, w.origin); }
    }
  }

  // ---- statuses along a run of the system

  function StatusOf(runs: Runs, r: RunId): RunStatus { if r in runs then runs[r].status else Queued }

  // The statuses of one run, one entry for each state passed.
  ghost function History(w: World, ls: seq<Label>, r: RunId): (h: seq<RunStatus>)
    ensures |h| == |ls| + 1
  {
    (if ls == [] then [] else History(w, ls[..|ls| - 1], r)) + [StatusOf(Run(w, ls).st.runs, r)]
  }

  lemma StatusesOfAStep(w: World, l: Label)
    requires Inv(w)
    ensures StatusesAdvance(w.st.runs, Apply(w, l).st.runs)
  {
    if l.Expire? { ExpireKeeps(w, l.chat); } else { StepKeeps(w, l); }
  }

  lemma {:induction false} HistoryIsLegal(w: World, ls: seq<Label>, r: RunId)
    requires Inv(w) && r in w.st.runs
    ensures r in Run(w, ls).st.runs && History(w, ls, r)[|ls|] == Run(w, ls).st.runs[r].status
    ensures LegalHistory(History(w, ls, r)) && History(w, ls, r)[0] == w.st.runs[r].status
  {
    if ls != [] {
      var before := ls[..|ls| - 1];
      HistoryIsLegal(w, before, r);
      RunKeeps(w, before);
      StatusesOfAStep(Run(w, before), ls[|ls| - 1]);
    }
  }

  // Whatever interleaves, a run sees at most three status changes.
  lemma AtMostThreeChanges(w: World, ls: seq<Label>, r: RunId)
    requires Reachable(w) && r in w.st.runs
    ensures LegalHistory(History(w, ls, r)) && Changes(History(w, ls, r)) <= 3
    ensures r in Run(w, ls).st.runs
    ensures Changes(History(w, ls, r)) + Rank(Run(w, ls).st.runs[r].status) <= Rank(w.st.runs[r].status)
  {
    ReachableInv(w);
    HistoryIsLegal(w, ls, r);
    ChangesAreBoundedByRank(History(w, ls, r));
  }

  // A canceled run stays canceled, and neither before nor after does a worker
  // add an artifact job for it.
  lemma CanceledIsFinal(w: World, ls: seq<Label>, r: RunId)
    requires Reachable(w) && IsAt(w.st.runs, r, Canceled)
    ensures IsAt(Run(w, ls).st.runs, r, Canceled)
    ensures r !in w.syncQueued && r !in Run(w, ls).syncQueued && r !in Run(w, ls).st.syncJobs
  {
    ReachableInv(w);
    HistoryIsLegal(w, ls, r);
    var h := History(w, ls, r);
    TerminalIsForever(h, 0, |ls|);
    RunKeeps(w, ls);
  }
}
