// Admission of group messages, the run worker, the artifact worker and
// cancellation as one labelled transition system. Code between two awaits is
// one step; everything else may interleave. A submission is identified by its
// lock token, which is always a new one.
module GroupProtocol {
  import opened Prelude
  import opened RunStatuses
  import opened GroupStores

  type ActorId = nat

  // handleInteractiveGroupMessage and submitGroupMessage after the lock.
  datatype Phase =
    | Deciding
    | Created(run: RunId)    // the run row exists
    | Marked(run: RunId)     // the session points at it
    | Accepted(run: RunId)   // its job is queued
    | Released               // the finally block gave the lock back

  datatype Submission = Submission(chat: ChatId, sid: SessionId, interactive: bool, phase: Phase) {
    predicate Has(r: RunId) {
      phase == Created(r) || phase == Marked(r) || phase == Accepted(r)
    }
  }

  datatype Pc =
    // AgentRunProcessor.process
    | RunEntry | RunStart | RunPrepare | RunRepoFail | RunExecute
    | RunCheckSucceeded(outputs: bool) | RunSyncing(outputs: bool) | RunEnqueueSync
    | RunCheckCanceled | RunCancel | RunTimeout | RunCatch | RunFail
    // ArtifactSyncProcessor.process for a run
    | SyncEntry | SyncFinish(failed: bool)
    // cancelRun has nothing left to do but its status handling
    | Done

  // The awaits inside handleRunStatusTransition.
  datatype Call =
    | NoCall
    | Find(status: RunStatus)
    | Unlock(sid: SessionId, chat: ChatId, token: Option<Token>, status: RunStatus)
    | Close(sid: SessionId, status: RunStatus)
    | Touch(sid: SessionId)

  datatype Actor = Actor(run: RunId, pc: Pc, call: Call)

  // What Feishu, the repository and the SDK may answer.
  datatype Choice =
    | Proceed | RepoNotReady | Throw | ReportSucceeded(outputs: bool) | ReportTimeout | ReportCanceled | OutputFailed

  datatype World = World(
    st: Store,
    retryJobs: set<RunId>,            // jobs added by the manual retry endpoint
    subs: map<Token, Submission>,
    actors: map<ActorId, Actor>,
    // history
    origin: map<RunId, Token>,        // which submission created a run
    worker: map<RunId, ActorId>,      // which actor took the run's job
    syncer: map<RunId, ActorId>,      // which actor took the run's artifact job
    syncQueued: set<RunId>,           // artifact jobs ever added by a worker
    stranded: set<RunId>,             // see StrandsOnHandle and StrandsOnFail
    erased: set<RunId>,               // see Erases and Overwrites
    lapsed: set<Token>)               // tokens whose lock expired under them

  datatype Label =
    | AcquireLock(token: Token, chat: ChatId, sid: SessionId, interactive: bool)
    | GiveUp(token: Token)
    | CreateRun(token: Token, run: RunId)
    | MarkRun(token: Token)
    | EnqueueRun(token: Token)
    | CreatePlainRun(run: RunId)
    | TakeRunJob(actor: ActorId, run: RunId)
    | TakeSyncJob(actor: ActorId, run: RunId)
    | TakeRetryJob(actor: ActorId, run: RunId)
    | Retry(run: RunId)
    | Cancel(actor: ActorId, run: RunId)
    | Advance(actor: ActorId, choice: Choice)
    | Handle(actor: ActorId, sid: SessionId)      // handleRunStatusTransition in one step
    | HandlePart(actor: ActorId, sid: SessionId)  // or await by await
    | Expire(chat: ChatId)

  // ---- one step of an actor that is not inside handleRunStatusTransition

  // A status write: on success its handling is next, on an exception `thrown`.
  function Write(st: Store, a: Actor, to: RunStatus, next: Pc, thrown: Pc): (Store, Actor) {
    match Attempt(st, a.run, to)
    case Some(st') => (st', a.(pc := next, call := Find(to)))
    case None => (st, a.(pc := thrown))
  }

  function WriteSyncing(st: Store, a: Actor, outputs: bool): (Store, Actor) {
    match AttemptSyncing(st, a.run, outputs)
    case Some(st') => (st', a.(pc := RunEnqueueSync, call := Find(Syncing)))
    case None => (st, a.(pc := RunCatch))
  }

  predicate HasStatus(st: Store, run: RunId, s: RunStatus) {
    run in st.runs && st.runs[run].status == s
  }

  // A fresh read of the row: canceled runs only have their session cleared.
  function IfCanceled(st: Store, a: Actor, otherwise: Pc): Actor {
    if HasStatus(st, a.run, Canceled) then a.(pc := Done, call := Find(Canceled)) else a.(pc := otherwise)
  }

  function Next(st: Store, a: Actor, c: Choice): (Store, Actor) {
    match a.pc
    case RunEntry => (st, a.(pc := if HasStatus(st, a.run, Queued) then RunStart else Done))
    case RunStart => Write(st, a, Running, RunPrepare, RunCatch)
    case RunPrepare =>
      (st, a.(pc := match c case Proceed => RunExecute case RepoNotReady => RunRepoFail case _ => RunCatch))
    case RunRepoFail => Write(st, a, Failed, Done, RunCatch)
    case RunExecute =>
      (st, a.(pc := match c
                    case ReportSucceeded(outputs) => RunCheckSucceeded(outputs)
                    case ReportCanceled => RunCheckCanceled
                    case ReportTimeout => RunTimeout
                    case _ => RunCatch))
    case RunCheckSucceeded(outputs) => (st, IfCanceled(st, a, RunSyncing(outputs)))
    case RunSyncing(outputs) => WriteSyncing(st, a, outputs)
    case RunEnqueueSync => (st.(syncJobs := st.syncJobs + {a.run}), a.(pc := Done))
    case RunCheckCanceled => (st, IfCanceled(st, a, RunCancel))
    case RunCancel => Write(st, a, Canceled, Done, RunCatch)
    case RunTimeout => Write(st, a, Timeout, Done, RunCatch)
    case RunCatch => (st, IfCanceled(st, a, RunFail))
    case RunFail => Write(st, a, Failed, Done, Done)
    case SyncEntry =>
      (st, a.(pc := SyncFinish(c == OutputFailed && a.run in st.runs && st.runs[a.run].outputs)))
    case SyncFinish(failed) => Write(st, a, if failed then Failed else Succeeded, Done, Done)
    case Done => (st, a)
  }

  // ---- the awaits of handleRunStatusTransition

  ghost predicate Unfound(st: Store, run: RunId) {
    forall sid :: !PointsTo(st, sid, run)
  }

  // One await. findFirst answers `sid` if that session points at the run.
  ghost function Part(st: Store, a: Actor, sid: SessionId): (Store, Actor) {
    match a.call
    case NoCall => (st, a)
    case Find(s) =>
      if PointsTo(st, sid, a.run) then
        if Terminal(s) then (st, a.(call := Unlock(sid, st.sessions[sid].chat, st.sessions[sid].token, s)))
        else if s == Running || s == Syncing then (st, a.(call := Touch(sid)))
        else (st, a.(call := NoCall))
      else if Unfound(st, a.run) then (st, a.(call := NoCall))
      else (st, a)
    case Unlock(x, chat, token, s) => (Release(st, chat, token), a.(call := Close(x, s)))
    case Close(x, s) => (if x in st.sessions then CloseSession(st, x, s) else st, a.(call := NoCall))
    case Touch(x) => (if x in st.sessions then TouchSession(st, x) else st, a.(call := NoCall))
  }

  // All of it at once, from the search on.
  ghost function Whole(st: Store, a: Actor, sid: SessionId): (Store, Actor) {
    if a.call.Find? && PointsTo(st, sid, a.run) then (HandleOn(st, sid, a.call.status), a.(call := NoCall))
    else if a.call.Find? && Unfound(st, a.run) then (st, a.(call := NoCall))
    else (st, a)
  }

  // ---- the whole system

  // The two guards behind a finished run whose lock is never released: the
  // cancellation was handled while the submission had created the run but not
  // yet marked it, or it landed after the catch block had read the status.
  ghost predicate StrandsOnHandle(w: World, id: ActorId) {
    && id in w.actors && w.actors[id].call.Find? && Terminal(w.actors[id].call.status)
    && var r := w.actors[id].run;
    && r in w.origin && w.origin[r] in w.subs && w.subs[w.origin[r]].phase == Created(r)
    && Unfound(w.st, r)
  }

  predicate StrandsOnFail(w: World, id: ActorId) {
    && id in w.actors && w.actors[id].call.NoCall? && w.actors[id].pc == RunFail
    && HasStatus(w.st, w.actors[id].run, Canceled)
  }

  // Some handling of the run has found its session and not yet closed it.
  ghost predicate Found(actors: map<ActorId, Actor>, r: RunId) {
    exists id :: id in actors && actors[id].run == r && (actors[id].call.Unlock? || actors[id].call.Close?)
  }

  // Session x points at a run other than r that no handling has found yet; if the
  // pointer goes now, none will find it from then on.
  ghost predicate ErasesFor(w: World, x: SessionId, r: RunId) {
    && x in w.st.sessions && w.st.sessions[x].run.Some?
    && w.st.sessions[x].run.value != r && !Found(w.actors, w.st.sessions[x].run.value)
  }

  // The actor is about to close such a session,
  ghost predicate Erases(w: World, id: ActorId) {
    id in w.actors && w.actors[id].call.Close? && ErasesFor(w, w.actors[id].call.sid, w.actors[id].run)
  }

  // or the submission is about to mark one.
  ghost predicate Overwrites(w: World, t: Token) {
    t in w.subs && w.subs[t].phase.Created? && ErasesFor(w, w.subs[t].sid, w.subs[t].phase.run)
  }

  // tryAcquireLock; a busy chat or a token seen before leaves everything as it is.
  function TryLock(w: World, t: Token, chat: ChatId, sid: SessionId, interactive: bool): World {
    if t in w.subs || chat in w.st.locks || sid !in w.st.sessions || w.st.sessions[sid].chat != chat then w
    else w.(st := Acquire(w.st, chat, t), subs := w.subs[t := Submission(chat, sid, interactive, Deciding)])
  }

  // The finally block of handleInteractiveGroupMessage when nothing was queued.
  function Relinquish(w: World, t: Token): World {
    if t in w.subs && w.subs[t].phase == Deciding && w.subs[t].interactive
    then w.(st := Release(w.st, w.subs[t].chat, Some(t)), subs := w.subs[t := w.subs[t].(phase := Released)])
    else w
  }

  // queueGroupExecution: create the row, mark the session, add the job.
  function CreateGroupRun(w: World, t: Token, r: RunId): World {
    if t in w.subs && w.subs[t].phase == Deciding && r !in w.st.runs
    then w.(st := AddRun(w.st, r), subs := w.subs[t := w.subs[t].(phase := Created(r))], origin := w.origin[r := t])
    else w
  }

  ghost function MarkGroupRun(w: World, t: Token): World {
    if t in w.subs && w.subs[t].phase.Created? && w.subs[t].sid in w.st.sessions
    then var r, x := w.subs[t].phase.run, w.subs[t].sid;
         w.(st := MarkQueued(w.st, x, r, t), subs := w.subs[t := w.subs[t].(phase := Marked(r))],
            erased := if Overwrites(w, t) then w.erased + {w.st.sessions[x].run.value} else w.erased)
    else w
  }

  function EnqueueGroupRun(w: World, t: Token): World {
    if t in w.subs && w.subs[t].phase.Marked?
    then var r := w.subs[t].phase.run;
         w.(st := w.st.(runJobs := w.st.runJobs + {r}), subs := w.subs[t := w.subs[t].(phase := Accepted(r))])
    else w
  }

  // createRun: a run that no session ever points at.
  function CreateOtherRun(w: World, r: RunId): World {
    if r in w.st.runs then w
    else w.(st := AddRun(w.st, r).(runJobs := w.st.runJobs + {r}))
  }

  function StartRunWorker(w: World, id: ActorId, r: RunId): World {
    if id in w.actors || r !in w.st.runJobs then w
    else w.(st := w.st.(runJobs := w.st.runJobs - {r}), worker := w.worker[r := id],
            actors := w.actors[id := Actor(r, RunEntry, NoCall)])
  }

  function StartSyncer(w: World, id: ActorId, r: RunId): World {
    if id in w.actors || r !in w.st.syncJobs then w
    else w.(st := w.st.(syncJobs := w.st.syncJobs - {r}), syncer := w.syncer[r := id],
            actors := w.actors[id := Actor(r, SyncEntry, NoCall)])
  }

  function StartRetry(w: World, id: ActorId, r: RunId): World {
    if id in w.actors || r !in w.retryJobs then w
    else w.(retryJobs := w.retryJobs - {r}, actors := w.actors[id := Actor(r, SyncEntry, NoCall)])
  }

  function AskRetry(w: World, r: RunId): World {
    if r in w.st.runs then w.(retryJobs := w.retryJobs + {r}) else w
  }

  // cancelRun: a queued run loses its job and its session is handled here; a
  // running one is left for its worker to clear.
  function CancelRun(w: World, id: ActorId, r: RunId): World {
    if id in w.actors || Attempt(w.st, r, Canceled).None? then w
    else AfterCancel(w, id, r, Attempt(w.st, r, Canceled).value)
  }

  function AfterCancel(w: World, id: ActorId, r: RunId, st': Store): World {
    if HasStatus(w.st, r, Queued)
    then w.(st := st'.(runJobs := st'.runJobs - {r}), actors := w.actors[id := Actor(r, Done, Find(Canceled))])
    else w.(st := st')
  }

  function AdvanceActor(w: World, id: ActorId, c: Choice): World {
    if id !in w.actors || !w.actors[id].call.NoCall? then w
    else
      var a := w.actors[id];
      var (st', a') := Next(w.st, a, c);
      w.(st := st', actors := w.actors[id := a'],
         syncQueued := if a.pc == RunEnqueueSync then w.syncQueued + {a.run} else w.syncQueued,
         stranded := if StrandsOnFail(w, id) then w.stranded + {a.run} else w.stranded)
  }

  ghost function HandleAtOnce(w: World, id: ActorId, sid: SessionId): World {
    if id !in w.actors then w
    else
      var (st', a') := Whole(w.st, w.actors[id], sid);
      w.(st := st', actors := w.actors[id := a'],
         stranded := if StrandsOnHandle(w, id) then w.stranded + {a'.run} else w.stranded)
  }

  ghost function HandleStep(w: World, id: ActorId, sid: SessionId): World {
    if id !in w.actors then w
    else
      var (st', a') := Part(w.st, w.actors[id], sid);
      w.(st := st', actors := w.actors[id := a'],
         stranded := if StrandsOnHandle(w, id) then w.stranded + {a'.run} else w.stranded,
         erased := if Erases(w, id) then w.erased + {w.st.sessions[w.actors[id].call.sid].run.value} else w.erased)
  }

  function ExpireLock(w: World, chat: ChatId): World {
    w.(st := w.st.(locks := w.st.locks - {chat}),
       lapsed := if chat in w.st.locks then w.lapsed + {w.st.locks[chat]} else w.lapsed)
  }

  ghost function Apply(w: World, l: Label): World {
    match l
    case AcquireLock(t, chat, sid, interactive) => TryLock(w, t, chat, sid, interactive)
    case GiveUp(t) => Relinquish(w, t)
    case CreateRun(t, r) => CreateGroupRun(w, t, r)
    case MarkRun(t) => MarkGroupRun(w, t)
    case EnqueueRun(t) => EnqueueGroupRun(w, t)
    case CreatePlainRun(r) => CreateOtherRun(w, r)
    case TakeRunJob(id, r) => StartRunWorker(w, id, r)
    case TakeSyncJob(id, r) => StartSyncer(w, id, r)
    case TakeRetryJob(id, r) => StartRetry(w, id, r)
    case Retry(r) => AskRetry(w, r)
    case Cancel(id, r) => CancelRun(w, id, r)
    case Advance(id, c) => AdvanceActor(w, id, c)
    case Handle(id, sid) => HandleAtOnce(w, id, sid)
    case HandlePart(id, sid) => HandleStep(w, id, sid)
    case Expire(chat) => ExpireLock(w, chat)
  }

  ghost function Run(w: World, ls: seq<Label>): World {
    if ls == [] then w else Apply(Run(w, ls[..|ls| - 1]), ls[|ls| - 1])
  }

  // At the start no session points at a run and nothing is locked or queued.
  ghost predicate Initial(w: World) {
    && w == World(Store(map[], w.st.sessions, map[], {}, {}), {}, map[], map[], map[], map[], map[], {}, {}, {}, {})
    && forall sid :: sid in w.st.sessions ==>
         w.st.sessions[sid].run.None? && w.st.sessions[sid].token.None? && w.st.sessions[sid].status != Busy
  }

  ghost predicate Reachable(w: World) {
    exists w0, ls :: Initial(w0) && w == Run(w0, ls)
  }
}
