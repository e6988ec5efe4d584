// Who still owes a run its ending, and who still holds its lock, however the
// awaits of handleRunStatusTransition interleave with everything else.
module GroupProtocolClosing {
  import opened Prelude
  import opened RunStatuses
  import opened GroupStores
  import opened GroupProtocol
  import opened GroupProtocolSafety

  // Everything about one group run that decides whether its session will be
  // cleared and its lock released.
  datatype View = View(
    status: RunStatus,
    outputs: bool,
    job: bool,                // its job waits in the run queue
    worker: Option<Pc>,       // where the worker that took the job is
    sync: bool,               // its artifact job waits
    syncer: Option<Pc>,       // where the worker that took the artifact job is
    owed: set<ActorId>,       // who is about to handle a terminal status of it,
    freeing: set<ActorId>,    // has found its session and will release the lock,
    clearing: set<ActorId>,   // and has released it and will update the session
    phase: Phase,             // how far its submission is
    points: bool,             // its session points at it
    held: bool,               // its chat's lock carries its submission's token
    stranded: bool,
    erased: bool,
    lapsed: bool)             // that lock expired under it

  ghost predicate IsGroupRun(w: World, r: RunId) {
    r in w.origin && w.origin[r] in w.subs && r in w.st.runs
  }

  function PcOf(r: RunId, who: map<RunId, ActorId>, actors: map<ActorId, Actor>): Option<Pc> {
    if r in who && who[r] in actors then Some(actors[who[r]].pc) else None
  }

  // The three stages of handling a terminal status.
  datatype Duty = ToFind | ToRelease | ToClose

  predicate Has(a: Actor, r: RunId, d: Duty) {
    && a.run == r
    && match d
       case ToFind => a.call.Find? && Terminal(a.call.status)
       case ToRelease => a.call.Unlock?
       case ToClose => a.call.Close?
  }

  function Duties(r: RunId, actors: map<ActorId, Actor>, d: Duty): set<ActorId> {
    set id | id in actors && Has(actors[id], r, d)
  }

  ghost function ViewOf(w: World, r: RunId): View
    requires IsGroupRun(w, r)
  {
    var t := w.origin[r];
    View(w.st.runs[r].status, w.st.runs[r].outputs, r in w.st.runJobs, PcOf(r, w.worker, w.actors),
         r in w.st.syncJobs, PcOf(r, w.syncer, w.actors),
         Duties(r, w.actors, ToFind), Duties(r, w.actors, ToRelease), Duties(r, w.actors, ToClose),
         w.subs[t].phase, PointsTo(w.st, w.subs[t].sid, r), Holding(w.st.locks, w.subs[t].chat, t),
         r in w.stranded, r in w.erased, t in w.lapsed)
  }

  // The worker has started the run and not yet written an ending.
  predicate Working(pc: Pc) {
    pc.RunPrepare? || pc.RunRepoFail? || pc.RunExecute? || pc.RunCheckSucceeded? || pc.RunSyncing?
    || pc.RunCheckCanceled? || pc.RunCancel? || pc.RunTimeout? || pc.RunCatch? || pc.RunFail?
  }

  predicate InSync(pc: Option<Pc>) {
    pc.Some? && (pc.value.SyncEntry? || pc.value.SyncFinish?)
  }

  // Nobody is handling an ending of the run.
  predicate Unhandled(v: View) { v.owed == {} && v.freeing == {} && v.clearing == {} }

  predicate IsMarked(p: Phase) { p.Marked? || p.Accepted? }

  ghost predicate WorkerFits(v: View) {
    v.worker.Some? ==>
      var pc := v.worker.value;
      && (pc.RunEntry? || pc.RunStart? ==> v.status == Queued || v.status == Canceled)
      && (Working(pc) ==> v.status == Running || v.status == Canceled)
      && (pc.RunEnqueueSync? ==> CancelTooLate(v.status))
      && (pc.RunFail? ==> Unhandled(v))
  }

  ghost predicate EarlyFits(v: View) {
    && (v.phase.Created? || v.phase.Marked? ==>
          v.worker.None? && !v.job && (v.status == Queued || v.status == Canceled))
    && (v.job ==> v.worker.None? && (v.status == Queued || v.status == Canceled))
    && (v.phase.Created? ==>
          v.freeing == {} && v.clearing == {} && forall i, j :: i in v.owed && j in v.owed ==> i == j)
    && (v.outputs ==> CancelTooLate(v.status))
    && (!Terminal(v.status) ==> Unhandled(v))
    && (v.phase.Created? || v.phase.Marked? || v.phase.Accepted?)
  }

  ghost predicate StrandedFits(v: View) {
    v.stranded ==>
      && v.status == Canceled && Unhandled(v)
      && (v.worker.None? || v.worker == Some(RunEntry) || v.worker == Some(Done))
  }

  ghost predicate ErasedFits(v: View) {
    && (v.erased ==> !v.points && v.freeing == {} && v.clearing == {} && IsMarked(v.phase))
    && (v.clearing != {} ==> !v.held)
  }

  // Someone is left to move the run on, or to clear its session.
  ghost predicate Attended(v: View) {
    match v.status
    case Queued =>
      v.phase.Created? || v.phase.Marked? || v.job || v.worker == Some(RunEntry) || v.worker == Some(RunStart)
    case Running => v.worker.Some? && Working(v.worker.value)
    case Syncing => v.worker == Some(RunEnqueueSync) || v.sync || InSync(v.syncer)
    case _ =>
      v.phase.Created? || v.points ==>
        || !Unhandled(v)
        || (v.status == Canceled && v.worker.Some? && (v.worker.value.RunStart? || Working(v.worker.value)))
        || v.stranded
  }

  // Unless the lock expires under the run it is held until a handling of the
  // run's ending releases it; until then the session points at the run, unless
  // another run's handling or marking has erased that.
  ghost predicate HeldFits(v: View) {
    !v.lapsed ==>
      && (v.phase.Created? || !Terminal(v.status) || v.worker == Some(RunFail) ==> v.held)
      && (IsMarked(v.phase) && v.held ==> v.points || v.erased || v.freeing != {})
      && (v.points && !v.held ==> v.clearing != {})
      && (v.stranded || v.erased ==> v.held)
      && (v.stranded ==> v.phase.Created? || v.points || v.erased)
  }

  ghost predicate Fine(v: View) {
    WorkerFits(v) && EarlyFits(v) && StrandedFits(v) && ErasedFits(v) && Attended(v) && HeldFits(v)
  }

  // One worker per run; artifact failures only after outputs were stored.
  ghost predicate RolesFit(w: World) {
    && Workers(w.worker, w.actors) && Syncers(w.syncer, w.actors)
    && Roles(w.actors, w.worker, w.st.runs)
    && OutputsFit(w.st.runs)
    && Jobs(w.st.runJobs, w.st.runs.Keys, w.worker)
    && w.retryJobs <= w.st.runs.Keys && w.stranded <= w.st.runs.Keys && w.erased <= w.origin.Keys
  }

  ghost predicate Workers(worker: map<RunId, ActorId>, actors: Actors) {
    forall r :: r in worker ==> worker[r] in actors && actors[worker[r]].run == r && !InSync(Some(actors[worker[r]].pc))
  }

  ghost predicate Syncers(syncer: map<RunId, ActorId>, actors: Actors) {
    forall r :: r in syncer ==> syncer[r] in actors && actors[syncer[r]].run == r && !ForRun(actors[syncer[r]].pc)
  }

  ghost predicate Roles(actors: Actors, worker: map<RunId, ActorId>, runs: Runs) {
    forall id :: id in actors ==> RoleFits(id, actors[id], worker, runs)
  }

  ghost predicate OutputsFit(runs: Runs) {
    forall r :: r in runs && runs[r].outputs ==> CancelTooLate(runs[r].status)
  }

  ghost predicate Jobs(runJobs: set<RunId>, runs: set<RunId>, worker: map<RunId, ActorId>) {
    forall r :: r in runJobs ==> r in runs && r !in worker
  }

  predicate ForRun(pc: Pc) {
    !pc.SyncEntry? && !pc.SyncFinish? && !pc.Done?
  }

  ghost predicate RoleFits(id: ActorId, a: Actor, worker: map<RunId, ActorId>, runs: map<RunId, RunRow>) {
    && a.run in runs
    && (ForRun(a.pc) ==> a.run in worker && worker[a.run] == id)
    && (a.pc == SyncFinish(true) ==> PastCancel(runs, a.run))
  }

  ghost predicate AllFine(w: World) {
    RolesFit(w) && forall r :: IsGroupRun(w, r) ==> Fine(ViewOf(w, r))
  }

  // ---- an actor's own step

  // Replacing one actor, for another run and for its own.
  lemma ReplacedElsewhere(actors: Actors, id: ActorId, a: Actor, who: map<RunId, ActorId>, r: RunId)
    requires a.run != r && (id in actors ==> actors[id].run != r)
    requires r in who ==> who[r] in actors && actors[who[r]].run == r
    ensures forall d :: Duties(r, actors[id := a], d) == Duties(r, actors, d)
    ensures PcOf(r, who, actors[id := a]) == PcOf(r, who, actors)
  {
  }

  lemma ReplacedHere(actors: Actors, id: ActorId, a: Actor, who: map<RunId, ActorId>, r: RunId)
    requires a.run == r && (id in actors ==> actors[id].run == r)
    ensures forall d ::
      Duties(r, actors[id := a], d) == if Has(a, r, d) then Duties(r, actors, d) + {id} else Duties(r, actors, d) - {id}
    ensures PcOf(r, who, actors[id := a]) == if r in who && who[r] == id then Some(a.pc) else PcOf(r, who, actors)
  {
  }

  lemma OtherRunsAsBefore(w: World, id: ActorId, c: Choice, r: RunId)
    requires id in w.actors && w.actors[id].call.NoCall? && RolesFit(w) && IsGroupRun(w, r) && r != w.actors[id].run
    ensures IsGroupRun(AdvanceActor(w, id, c), r) && ViewOf(AdvanceActor(w, id, c), r) == ViewOf(w, r)
  {
    NextFacts(w.st, w.actors[id], c);
    var w' := AdvanceActor(w, id, c);
    ReplacedElsewhere(w.actors, id, w'.actors[id], w.worker, r);
    ReplacedElsewhere(w.actors, id, w'.actors[id], w.syncer, r);
  }

  // How a step of its own actor shows in the view of a run.
  ghost function Stepped(v: View, id: ActorId, a': Actor, asWorker: bool, asSyncer: bool, row: RunRow, sync: bool,
      failed: bool): View {
    v.(status := row.status, outputs := row.outputs,
       worker := if asWorker then Some(a'.pc) else v.worker,
       syncer := if asSyncer then Some(a'.pc) else v.syncer,
       sync := v.sync || sync,
       owed := if Has(a', a'.run, ToFind) then v.owed + {id} else v.owed,
       stranded := v.stranded || failed)
  }

  lemma OwnRunSteps(w: World, id: ActorId, c: Choice)
    requires RolesFit(w) && id in w.actors && w.actors[id].call.NoCall? && IsGroupRun(w, w.actors[id].run)
    ensures var a := w.actors[id]; var r := a.run; var (st', a') := Next(w.st, a, c); var w' := AdvanceActor(w, id, c);
      && IsGroupRun(w', r) && r in st'.runs
      && ViewOf(w', r) == Stepped(
           ViewOf(w, r), id, a', r in w.worker && w.worker[r] == id, r in w.syncer && w.syncer[r] == id,
           st'.runs[r], a.pc.RunEnqueueSync?, StrandsOnFail(w, id))
  {
    var a := w.actors[id];
    NextFacts(w.st, a, c);
    var a' := Next(w.st, a, c).1;
    NewPcs(w.actors, id, a', w.worker);
    NewPcs(w.actors, id, a', w.syncer);
    NewlyOwed(w.actors, id, a');
  }

  lemma NewPcs(actors: Actors, id: ActorId, a': Actor, who: map<RunId, ActorId>)
    requires id in actors && a'.run == actors[id].run
    ensures var r := a'.run;
      PcOf(r, who, actors[id := a']) == if r in who && who[r] == id then Some(a'.pc) else PcOf(r, who, actors)
  {
  }

  // An actor without a call that gets none, or one that is to find a session.
  lemma NewlyOwed(actors: Actors, id: ActorId, a': Actor)
    requires id in actors && actors[id].call.NoCall? && a'.run == actors[id].run && (a'.call.NoCall? || a'.call.Find?)
    ensures var r := a'.run; var actors' := actors[id := a'];
      && Duties(r, actors', ToFind)
        == (if Has(a', r, ToFind) then Duties(r, actors, ToFind) + {id} else Duties(r, actors, ToFind))
      && Duties(r, actors', ToRelease) == Duties(r, actors, ToRelease)
      && Duties(r, actors', ToClose) == Duties(r, actors, ToClose)
  {
    var r := a'.run;
    assert forall d :: id !in Duties(r, actors, d);
  }

  // The worker's reads and choices.
  lemma WorkerReads(st: Store, id: ActorId, a: Actor, c: Choice, v: View)
    requires a.run in st.runs && v.status == st.runs[a.run].status && v.outputs == st.runs[a.run].outputs
    requires a.call.NoCall? && Fine(v) && v.worker == Some(a.pc)
    requires a.pc.RunEntry? || a.pc.RunPrepare? || a.pc.RunExecute? || a.pc.RunCheckSucceeded?
             || a.pc.RunCheckCanceled? || a.pc.RunCatch?
    ensures var (st', a') := Next(st, a, c);
      a.run in st'.runs && Fine(Stepped(v, id, a', true, false, st'.runs[a.run], false, false))
  {
  }

  // The worker's status writes.
  lemma WorkerWrites(st: Store, id: ActorId, a: Actor, c: Choice, v: View)
    requires a.run in st.runs && v.status == st.runs[a.run].status && v.outputs == st.runs[a.run].outputs
    requires a.call.NoCall? && Fine(v) && v.worker == Some(a.pc)
    requires a.pc.RunStart? || a.pc.RunRepoFail? || a.pc.RunCancel? || a.pc.RunTimeout? || a.pc.RunFail?
    ensures var (st', a') := Next(st, a, c);
      a.run in st'.runs && Fine(
        Stepped(v, id, a', true, false, st'.runs[a.run], false, a.pc.RunFail? && HasStatus(st, a.run, Canceled)))
  {
  }

  // Entering syncing and handing over to the artifact worker.
  lemma WorkerHandsOver(st: Store, id: ActorId, a: Actor, c: Choice, v: View)
    requires a.run in st.runs && v.status == st.runs[a.run].status && v.outputs == st.runs[a.run].outputs
    requires a.call.NoCall? && Fine(v) && v.worker == Some(a.pc)
    requires a.pc.RunSyncing? || a.pc.RunEnqueueSync?
    ensures var (st', a') := Next(st, a, c);
      a.run in st'.runs && Fine(Stepped(v, id, a', true, false, st'.runs[a.run], a.pc.RunEnqueueSync?, false))
  {
  }

  // The artifact worker, first or retried, and actors that are done.
  lemma OthersStep(st: Store, id: ActorId, a: Actor, c: Choice, v: View, asWorker: bool, asSyncer: bool)
    requires a.run in st.runs && v.status == st.runs[a.run].status && v.outputs == st.runs[a.run].outputs
    requires a.call.NoCall? && Fine(v) && (asWorker ==> v.worker == Some(a.pc)) && (asSyncer ==> v.syncer == Some(a.pc))
    requires a.pc.SyncEntry? || a.pc.SyncFinish? || a.pc.Done?
    requires asWorker ==> a.pc.Done?
    requires a.pc == SyncFinish(true) ==> CancelTooLate(v.status)
    ensures var (st', a') := Next(st, a, c);
      a.run in st'.runs && Fine(Stepped(v, id, a', asWorker, asSyncer, st'.runs[a.run], false, false))
  {
  }

  lemma RolesPersist(actors: Actors, worker: map<RunId, ActorId>, runs: Runs, runs': Runs)
    requires Roles(actors, worker, runs) && StatusesAdvance(runs, runs')
    ensures Roles(actors, worker, runs')
  {
    forall x | x in actors ensures RoleFits(x, actors[x], worker, runs') {
      assert RoleFits(x, actors[x], worker, runs);
    }
  }

  lemma ReplacedWorkers(w: World, id: ActorId, a': Actor)
    requires Workers(w.worker, w.actors) && Syncers(w.syncer, w.actors) && id in w.actors && a'.run == w.actors[id].run
    requires (ForRun(a'.pc) ==> ForRun(w.actors[id].pc)) && (InSync(Some(a'.pc)) ==> InSync(Some(w.actors[id].pc)))
    ensures Workers(w.worker, w.actors[id := a']) && Syncers(w.syncer, w.actors[id := a'])
  {
  }

  lemma AdvanceRoles(w: World, id: ActorId, c: Choice)
    requires RolesFit(w)
    ensures RolesFit(AdvanceActor(w, id, c))
  {
    if id in w.actors && w.actors[id].call.NoCall? {
      var a := w.actors[id];
      NextFacts(w.st, a, c);
      assert RoleFits(id, a, w.worker, w.st.runs);
      NextRoles(w.st, a, c);
      RolesPersist(w.actors, w.worker, w.st.runs, Next(w.st, a, c).0.runs);
      AdvancedRoles(w, AdvanceActor(w, id, c), id, Next(w.st, a, c).1);
    }
  }

  // The same for any step that moves one actor and its run's row.
  lemma AdvancedRoles(w: World, w': World, id: ActorId, a': Actor)
    requires RolesFit(w) && id in w.actors && w'.actors == w.actors[id := a'] && a'.run == w.actors[id].run
    requires w'.worker == w.worker && w'.syncer == w.syncer && w'.retryJobs == w.retryJobs && w'.origin == w.origin
    requires w'.erased == w.erased
    requires w'.st.runJobs == w.st.runJobs && w'.st.runs.Keys == w.st.runs.Keys && w'.stranded <= w.stranded + {a'.run}
    requires a'.run in w.st.runs && forall r :: r in w.st.runs && r != a'.run ==> w'.st.runs[r] == w.st.runs[r]
    requires w'.st.runs[a'.run].outputs ==> CancelTooLate(w'.st.runs[a'.run].status)
    requires (ForRun(a'.pc) ==> ForRun(w.actors[id].pc)) && (InSync(Some(a'.pc)) ==> InSync(Some(w.actors[id].pc)))
    requires Roles(w.actors, w.worker, w'.st.runs) && (a'.pc == SyncFinish(true) ==> PastCancel(w'.st.runs, a'.run))
    ensures RolesFit(w')
  {
    assert RoleFits(id, w.actors[id], w.worker, w'.st.runs);
    ReplacedRole(w.actors, id, a', w.worker, w'.st.runs);
    ReplacedWorkers(w, id, a');
  }

  lemma ReplacedRole(actors: Actors, id: ActorId, a': Actor, worker: map<RunId, ActorId>, runs: Runs)
    requires Roles(actors, worker, runs) && RoleFits(id, a', worker, runs)
    ensures Roles(actors[id := a'], worker, runs)
  {
  }

  lemma NextRoles(st: Store, a: Actor, c: Choice)
    requires a.run in st.runs && (st.runs[a.run].outputs ==> CancelTooLate(st.runs[a.run].status))
    ensures var (st', a') := Next(st, a, c);
      && (ForRun(a'.pc) ==> ForRun(a.pc)) && (InSync(Some(a'.pc)) ==> InSync(Some(a.pc)))
      && (a'.pc == SyncFinish(true) ==> PastCancel(st.runs, a.run))
      && a.run in st'.runs && (st'.runs[a.run].outputs ==> CancelTooLate(st'.runs[a.run].status))
  {
  }

  lemma AdvanceFine(w: World, id: ActorId, c: Choice)
    requires AllFine(w)
    ensures AllFine(AdvanceActor(w, id, c))
  {
    AdvanceRoles(w, id, c);
    if id in w.actors && w.actors[id].call.NoCall? {
      forall r | IsGroupRun(AdvanceActor(w, id, c), r) ensures Fine(ViewOf(AdvanceActor(w, id, c), r)) {
        NextFacts(w.st, w.actors[id], c);
        if r == w.actors[id].run { OwnRunStaysFine(w, id, c); } else { OtherRunsAsBefore(w, id, c, r); }
      }
    }
  }

  lemma OwnRunStaysFine(w: World, id: ActorId, c: Choice)
    requires AllFine(w) && id in w.actors && w.actors[id].call.NoCall? && IsGroupRun(w, w.actors[id].run)
    ensures var r := w.actors[id].run; IsGroupRun(AdvanceActor(w, id, c), r) && Fine(ViewOf(AdvanceActor(w, id, c), r))
  {
    var a := w.actors[id];
    var v := ViewOf(w, a.run);
    assert Fine(v) && RoleFits(id, a, w.worker, w.st.runs);
    OwnRunSteps(w, id, c);
    if ForRun(a.pc) {
      if a.pc.RunSyncing? || a.pc.RunEnqueueSync? { WorkerHandsOver(w.st, id, a, c, v); }
      else if a.pc.RunStart? || a.pc.RunRepoFail? || a.pc.RunCancel? || a.pc.RunTimeout? || a.pc.RunFail? {
        WorkerWrites(w.st, id, a, c, v);
      } else { WorkerReads(w.st, id, a, c, v); }
    } else {
      var works, syncs := a.run in w.worker && w.worker[a.run] == id, a.run in w.syncer && w.syncer[a.run] == id;
      OthersStep(w.st, id, a, c, v, works, syncs);
    }
  }

  // ---- the other steps: each shows in the view of at most one run

  lemma SameView(w: World, w': World, r: RunId)
    requires IsGroupRun(w, r) && r in w'.origin && w'.origin[r] == w.origin[r] && w.origin[r] in w'.subs
    requires w'.subs[w.origin[r]] == w.subs[w.origin[r]]
    requires r in w'.st.runs && w'.st.runs[r] == w.st.runs[r] && w'.st.sessions == w.st.sessions
    requires r in w'.st.runJobs <==> r in w.st.runJobs
    requires r in w'.st.syncJobs <==> r in w.st.syncJobs
    requires (r in w'.stranded <==> r in w.stranded) && w'.lapsed == w.lapsed
    requires PcOf(r, w'.worker, w'.actors) == PcOf(r, w.worker, w.actors)
    requires PcOf(r, w'.syncer, w'.actors) == PcOf(r, w.syncer, w.actors)
    requires forall d :: Duties(r, w'.actors, d) == Duties(r, w.actors, d)
    requires Holding(w'.st.locks, w.subs[w.origin[r]].chat, w.origin[r]) <==>
      Holding(w.st.locks, w.subs[w.origin[r]].chat, w.origin[r])
    requires r in w'.erased <==> r in w.erased
    ensures ViewOf(w', r) == ViewOf(w, r)
  {
  }

  // A new actor without a call, for some run.
  lemma NewActor(actors: Actors, id: ActorId, a: Actor, who: map<RunId, ActorId>, r: RunId)
    requires id !in actors && a.call.NoCall? && (r in who ==> who[r] in actors)
    ensures forall d :: Duties(r, actors[id := a], d) == Duties(r, actors, d)
    ensures PcOf(r, who, actors[id := a]) == PcOf(r, who, actors)
  {
  }

  lemma StartRunWorkerFine(w: World, id: ActorId, r: RunId)
    requires AllFine(w)
    ensures AllFine(StartRunWorker(w, id, r))
  {
    var w' := StartRunWorker(w, id, r);
    if id !in w.actors && r in w.st.runJobs {
      StartRoles(w, id, r);
      forall q | IsGroupRun(w', q) ensures Fine(ViewOf(w', q)) {
        assert Fine(ViewOf(w, q));
        StartView(w, id, r, q);
        if q == r { TakenIsFine(ViewOf(w, q)); }
      }
    }
  }

  lemma TakenIsFine(v: View)
    requires Fine(v) && v.job
    ensures Fine(v.(job := false, worker := Some(RunEntry)))
  {
  }

  lemma StartRoles(w: World, id: ActorId, r: RunId)
    requires RolesFit(w) && id !in w.actors && r in w.st.runJobs
    ensures RolesFit(StartRunWorker(w, id, r))
  {
    var w' := StartRunWorker(w, id, r);
    forall x | x in w'.actors ensures RoleFits(x, w'.actors[x], w'.worker, w.st.runs) {
      if x != id { assert RoleFits(x, w.actors[x], w.worker, w.st.runs); }
    }
  }

  lemma StartView(w: World, id: ActorId, r: RunId, q: RunId)
    requires RolesFit(w) && id !in w.actors && r in w.st.runJobs && IsGroupRun(w, q)
    ensures var w' := StartRunWorker(w, id, r); var v := ViewOf(w, q);
      IsGroupRun(w', q) && ViewOf(w', q) == if q == r then v.(job := false, worker := Some(RunEntry)) else v
  {
    var w' := StartRunWorker(w, id, r);
    NewActor(w.actors, id, Actor(r, RunEntry, NoCall), w.worker, q);
    NewActor(w.actors, id, Actor(r, RunEntry, NoCall), w.syncer, q);
    if q != r { SameView(w, w', q); }
  }

  lemma StartSyncerFine(w: World, id: ActorId, r: RunId)
    requires AllFine(w) && w.st.syncJobs <= w.st.runs.Keys
    ensures AllFine(StartSyncer(w, id, r))
  {
    var w' := StartSyncer(w, id, r);
    if id !in w.actors && r in w.st.syncJobs {
      forall q | IsGroupRun(w', q) ensures Fine(ViewOf(w', q)) {
        assert Fine(ViewOf(w, q));
        SyncerView(w, id, r, q);
      }
    }
  }

  lemma SyncerView(w: World, id: ActorId, r: RunId, q: RunId)
    requires RolesFit(w) && id !in w.actors && r in w.st.syncJobs && IsGroupRun(w, q)
    ensures var w' := StartSyncer(w, id, r); var v := ViewOf(w, q);
      IsGroupRun(w', q) && ViewOf(w', q) == if q == r then v.(sync := false, syncer := Some(SyncEntry)) else v
  {
    var w' := StartSyncer(w, id, r);
    NewActor(w.actors, id, Actor(r, SyncEntry, NoCall), w.worker, q);
    NewActor(w.actors, id, Actor(r, SyncEntry, NoCall), w.syncer, q);
    if q != r { SameView(w, w', q); }
  }

  lemma StartRetryFine(w: World, id: ActorId, r: RunId)
    requires AllFine(w)
    ensures AllFine(StartRetry(w, id, r))
  {
    var w' := StartRetry(w, id, r);
    if id !in w.actors && r in w.retryJobs {
      var a := Actor(r, SyncEntry, NoCall);
      forall q | IsGroupRun(w', q) ensures Fine(ViewOf(w', q)) {
        assert Fine(ViewOf(w, q));
        NewActor(w.actors, id, a, w.worker, q);
        NewActor(w.actors, id, a, w.syncer, q);
        SameView(w, w', q);
      }
    }
  }

  lemma AskRetryFine(w: World, r: RunId)
    requires AllFine(w)
    ensures AllFine(AskRetry(w, r))
  {
    forall q | IsGroupRun(AskRetry(w, r), q) ensures Fine(ViewOf(AskRetry(w, r), q)) {
      assert Fine(ViewOf(w, q));
      SameView(w, AskRetry(w, r), q);
    }
  }

  lemma OutputsPersist(runs: Runs, runs': Runs)
    requires OutputsFit(runs) && StatusesAdvance(runs, runs') && runs'.Keys == runs.Keys
    requires forall r :: r in runs ==> runs'[r].outputs == runs[r].outputs
    ensures OutputsFit(runs')
  {
  }

  lemma NewActorRoles(w: World, id: ActorId, a: Actor, runs': Runs)
    requires Workers(w.worker, w.actors) && Syncers(w.syncer, w.actors) && id !in w.actors
    requires Roles(w.actors, w.worker, runs') && a.pc.Done? && a.run in runs'
    ensures Workers(w.worker, w.actors[id := a]) && Syncers(w.syncer, w.actors[id := a])
    ensures Roles(w.actors[id := a], w.worker, runs')
  {
  }

  // st' is the store with r canceled.
  ghost predicate Cancels(st: Store, st': Store, r: RunId) {
    && RunStep(st, st', r) && st'.syncJobs == st.syncJobs
    && r in st.runs && st'.runs == st.runs[r := st.runs[r].(status := Canceled)]
  }

  lemma CancelRoles(w: World, id: ActorId, r: RunId, st': Store)
    requires RolesFit(w) && id !in w.actors && Cancels(w.st, st', r)
    ensures RolesFit(AfterCancel(w, id, r, st'))
  {
    CanceledRunRoles(w, r, st'.runs);
    if HasStatus(w.st, r, Queued) {
      NewActorRoles(w, id, Actor(r, Done, Find(Canceled)), st'.runs);
    }
  }

  lemma CanceledRunRoles(w: World, r: RunId, runs': Runs)
    requires RolesFit(w) && r in w.st.runs && runs' == w.st.runs[r := w.st.runs[r].(status := Canceled)]
    requires Allowed(w.st.runs[r].status, Canceled)
    ensures Roles(w.actors, w.worker, runs') && OutputsFit(runs')
  {
    RolesPersist(w.actors, w.worker, w.st.runs, runs');
    OutputsPersist(w.st.runs, runs');
  }

  lemma CanceledView(w: World, id: ActorId, r: RunId, st': Store)
    requires RolesFit(w) && IsGroupRun(w, r) && id !in w.actors && Cancels(w.st, st', r)
    ensures IsGroupRun(AfterCancel(w, id, r, st'), r)
    ensures var v := ViewOf(w, r);
      ViewOf(AfterCancel(w, id, r, st'), r) == if v.status == Queued
        then v.(status := Canceled, job := false, owed := v.owed + {id}) else v.(status := Canceled)
  {
    if HasStatus(w.st, r, Queued) {
      CanceledWhileQueued(w, id, r, st');
    }
  }

  lemma CanceledWhileQueued(w: World, id: ActorId, r: RunId, st': Store)
    requires RolesFit(w) && IsGroupRun(w, r) && id !in w.actors && Cancels(w.st, st', r) && HasStatus(w.st, r, Queued)
    ensures IsGroupRun(AfterCancel(w, id, r, st'), r)
    ensures var v := ViewOf(w, r);
      ViewOf(AfterCancel(w, id, r, st'), r) == v.(status := Canceled, job := false, owed := v.owed + {id})
  {
    var a := Actor(r, Done, Find(Canceled));
    ReplacedHere(w.actors, id, a, w.worker, r);
    ReplacedHere(w.actors, id, a, w.syncer, r);
    assert Duties(r, w.actors[id := a], ToRelease) == Duties(r, w.actors, ToRelease);
    assert Duties(r, w.actors[id := a], ToClose) == Duties(r, w.actors, ToClose);
  }

  lemma CancelElsewhere(w: World, id: ActorId, r: RunId, st': Store, q: RunId)
    requires Workers(w.worker, w.actors) && Syncers(w.syncer, w.actors)
    requires IsGroupRun(w, q) && q != r && id !in w.actors && Cancels(w.st, st', r)
    ensures IsGroupRun(AfterCancel(w, id, r, st'), q) && ViewOf(AfterCancel(w, id, r, st'), q) == ViewOf(w, q)
  {
    var a := Actor(r, Done, Find(Canceled));
    ReplacedElsewhere(w.actors, id, a, w.worker, q);
    ReplacedElsewhere(w.actors, id, a, w.syncer, q);
    SameView(w, AfterCancel(w, id, r, st'), q);
  }

  lemma CanceledIsFine(v: View, id: ActorId)
    requires Fine(v) && Allowed(v.status, Canceled)
    ensures Fine(if v.status == Queued then v.(status := Canceled, job := false, owed := v.owed + {id})
                 else v.(status := Canceled))
  {
  }

  lemma CancelRunFine(w: World, id: ActorId, r: RunId)
    requires AllFine(w)
    ensures AllFine(CancelRun(w, id, r))
  {
    if id !in w.actors && Attempt(w.st, r, Canceled).Some? {
      var st' := Attempt(w.st, r, Canceled).value;
      CancelRoles(w, id, r, st');
      forall q | IsGroupRun(AfterCancel(w, id, r, st'), q) ensures Fine(ViewOf(AfterCancel(w, id, r, st'), q)) {
        assert IsGroupRun(w, q) && Fine(ViewOf(w, q));
        if q == r {
          CanceledView(w, id, r, st');
          CanceledIsFine(ViewOf(w, r), id);
        } else {
          CancelElsewhere(w, id, r, st', q);
        }
      }
    }
  }

  lemma CreateOtherRunFine(w: World, r: RunId)
    requires AllFine(w) && Inv(w)
    ensures AllFine(CreateOtherRun(w, r))
  {
    var w' := CreateOtherRun(w, r);
    if r !in w.st.runs {
      RolesPersist(w.actors, w.worker, w.st.runs, w'.st.runs);
      NoActorYet(w, r);
      forall q | IsGroupRun(w', q) ensures Fine(ViewOf(w', q)) {
        assert Fine(ViewOf(w, q));
        SameView(w, w', q);
      }
    }
  }

  lemma NoActorYet(w: World, r: RunId)
    requires RolesFit(w) && r !in w.st.runs
    ensures r !in w.worker && r !in w.syncer && forall d :: Duties(r, w.actors, d) == {}
  {
    forall id | id in w.actors ensures w.actors[id].run != r {
      assert RoleFits(id, w.actors[id], w.worker, w.st.runs);
    }
  }

  lemma TryLockFine(w: World, t: Token, chat: ChatId, sid: SessionId, interactive: bool)
    requires AllFine(w) && Inv(w)
    ensures AllFine(TryLock(w, t, chat, sid, interactive))
  {
    var w' := TryLock(w, t, chat, sid, interactive);
    if w' != w {
      forall q | IsGroupRun(w', q) ensures Fine(ViewOf(w', q)) {
        assert IsGroupRun(w, q) && Fine(ViewOf(w, q));
        SameView(w, w', q);
      }
    }
  }

  lemma RelinquishFine(w: World, t: Token)
    requires AllFine(w) && Inv(w)
    ensures AllFine(Relinquish(w, t))
  {
    var w' := Relinquish(w, t);
    if t in w.subs && w.subs[t].phase == Deciding && w.subs[t].interactive {
      forall q | IsGroupRun(w', q) ensures Fine(ViewOf(w', q)) {
        assert IsGroupRun(w, q) && Fine(ViewOf(w, q));
        RelinquishView(w, t, q);
      }
    }
  }

  lemma RelinquishView(w: World, t: Token, q: RunId)
    requires Inv(w) && t in w.subs && w.subs[t].phase == Deciding && w.subs[t].interactive && IsGroupRun(w, q)
    ensures IsGroupRun(Relinquish(w, t), q) && ViewOf(Relinquish(w, t), q) == ViewOf(w, q)
  {
    assert w.subs[w.origin[q]].Has(q);
    SameView(w, Relinquish(w, t), q);
  }

  lemma CreateGroupRunFine(w: World, t: Token, r: RunId)
    requires AllFine(w) && Inv(w) && Locked(w.st.locks, w.subs, w.st.runs, w.lapsed)
    ensures AllFine(CreateGroupRun(w, t, r))
  {
    var w' := CreateGroupRun(w, t, r);
    if t in w.subs && w.subs[t].phase == Deciding && r !in w.st.runs {
      CreateRoles(w, t, r);
      forall q | IsGroupRun(w', q) ensures Fine(ViewOf(w', q)) {
        if q == r {
          CreatedView(w, t, r);
        } else {
          assert IsGroupRun(w, q) && Fine(ViewOf(w, q)) && w.subs[w.origin[q]].Has(q);
          SameView(w, w', q);
        }
      }
    }
  }

  lemma CreateRoles(w: World, t: Token, r: RunId)
    requires RolesFit(w) && t in w.subs && w.subs[t].phase == Deciding && r !in w.st.runs
    ensures RolesFit(CreateGroupRun(w, t, r))
  {
    RolesPersist(w.actors, w.worker, w.st.runs, CreateGroupRun(w, t, r).st.runs);
  }

  lemma CreatedView(w: World, t: Token, r: RunId)
    requires RolesFit(w) && t in w.subs && w.subs[t].phase == Deciding && r !in w.st.runs && r !in w.origin
    requires Locked(w.st.locks, w.subs, w.st.runs, w.lapsed) && forall sid :: !PointsTo(w.st, sid, r)
    ensures IsGroupRun(CreateGroupRun(w, t, r), r) && Fine(ViewOf(CreateGroupRun(w, t, r), r))
  {
    NoActorYet(w, r);
    assert Holds(w.subs[t], w.st.runs);
  }

  // A session that gets a new pointer may lose an old one.
  lemma MarkGroupRunFine(w: World, t: Token)
    requires AllFine(w) && Inv(w)
    ensures AllFine(MarkGroupRun(w, t))
  {
    var w' := MarkGroupRun(w, t);
    if t in w.subs && w.subs[t].phase.Created? && w.subs[t].sid in w.st.sessions {
      var r := w.subs[t].phase.run;
      MarkRoles(w, t);
      forall q | IsGroupRun(w', q) ensures Fine(ViewOf(w', q)) {
        assert Fine(ViewOf(w, q)) && w.subs[w.origin[q]].Has(q);
        if q == r {
          MarkedHere(w, t);
          MarkedIsFine(ViewOf(w, q));
        } else {
          MarkedElsewhere(w, t, q);
          OtherAwaitIsFine(ViewOf(w, q), ViewOf(w', q));
        }
      }
    }
  }

  lemma MarkedHere(w: World, t: Token)
    requires Inv(w) && t in w.subs && w.subs[t].phase.Created? && w.subs[t].sid in w.st.sessions
    ensures var r := w.subs[t].phase.run; var w' := MarkGroupRun(w, t);
      && IsGroupRun(w, r) && IsGroupRun(w', r)
      && ViewOf(w', r) == ViewOf(w, r).(phase := Marked(r), points := true)
  {
  }

  lemma MarkedIsFine(v: View)
    requires Fine(v) && v.phase.Created?
    ensures Fine(v.(phase := Marked(v.phase.run), points := true))
  {
  }

  lemma MarkRoles(w: World, t: Token)
    requires RolesFit(w) && Inv(w)
    ensures RolesFit(MarkGroupRun(w, t))
  {
    if Overwrites(w, t) {
      var x := w.subs[t].sid;
      assert PointerOk(x, w.st.sessions[x], w.subs, w.origin);
    }
  }

  lemma MarkedElsewhere(w: World, t: Token, q: RunId)
    requires RolesFit(w) && Inv(w) && t in w.subs && w.subs[t].phase.Created? && w.subs[t].sid in w.st.sessions
    requires IsGroupRun(w, q) && q != w.subs[t].phase.run
    ensures IsGroupRun(MarkGroupRun(w, t), q) && OtherAwait(ViewOf(w, q), ViewOf(MarkGroupRun(w, t), q))
  {
    var w', x := MarkGroupRun(w, t), w.subs[t].sid;
    assert w.subs[w.origin[q]].Has(q);
    if PointsTo(w.st, x, q) {
      assert PointerOk(x, w.st.sessions[x], w.subs, w.origin);
      FoundIsDuty(w.actors, q);
    }
    assert ViewOf(w', q)
      == ViewOf(w, q).(points := PointsTo(w'.st, w.subs[w.origin[q]].sid, q), erased := q in w'.erased);
  }

  lemma EnqueueGroupRunFine(w: World, t: Token)
    requires AllFine(w) && Inv(w)
    ensures AllFine(EnqueueGroupRun(w, t))
  {
    var w' := EnqueueGroupRun(w, t);
    if w' != w {
      var r := w.subs[t].phase.run;
      assert IsGroupRun(w, r) && Fine(ViewOf(w, r));
      forall q | IsGroupRun(w', q) ensures Fine(ViewOf(w', q)) {
        assert Fine(ViewOf(w, q));
        EnqueuedView(w, t, q);
      }
    }
  }

  lemma EnqueuedView(w: World, t: Token, q: RunId)
    requires Inv(w) && t in w.subs && w.subs[t].phase.Marked? && IsGroupRun(w, q)
    ensures var w' := EnqueueGroupRun(w, t); var r := w.subs[t].phase.run; var v := ViewOf(w, q);
      IsGroupRun(w', q) && ViewOf(w', q) == if q == r then v.(phase := Accepted(r), job := true) else v
  {
    assert w.subs[w.origin[q]].Has(q);
    if q != w.subs[t].phase.run { SameView(w, EnqueueGroupRun(w, t), q); }
  }

  lemma ExpireFine(w: World, chat: ChatId)
    requires AllFine(w) && Inv(w)
    ensures AllFine(ExpireLock(w, chat))
  {
    var w' := ExpireLock(w, chat);
    forall q | IsGroupRun(w', q) ensures Fine(ViewOf(w', q)) {
      assert Fine(ViewOf(w, q));
      ExpireView(w, chat, q);
      if ViewOf(w', q) != ViewOf(w, q) { ExpiredIsFine(ViewOf(w, q)); }
    }
  }

  lemma ExpiredIsFine(v: View)
    requires Fine(v)
    ensures Fine(v.(held := false, lapsed := true))
  {
  }

  lemma ExpireView(w: World, chat: ChatId, q: RunId)
    requires Inv(w) && IsGroupRun(w, q)
    ensures IsGroupRun(ExpireLock(w, chat), q)
    ensures var v := ViewOf(w, q);
      ViewOf(ExpireLock(w, chat), q)
      == if v.held && w.subs[w.origin[q]].chat == chat then v.(held := false, lapsed := true) else v
  {
  }

  // ---- the awaits of handling

  lemma HandleRoles(w: World, id: ActorId, x: SessionId)
    requires RolesFit(w) && Inv(w)
    ensures RolesFit(HandleStep(w, id, x))
  {
    if id in w.actors {
      var a := w.actors[id];
      var a' := Part(w.st, a, x).1;
      AwaitActs(w, id, x);
      assert RoleFits(id, a, w.worker, w.st.runs);
      ReplacedRole(w.actors, id, a', w.worker, w.st.runs);
      ReplacedWorkers(w, id, a');
      HistoryFits(w, id, x);
    }
  }

  lemma HistoryFits(w: World, id: ActorId, x: SessionId)
    requires RolesFit(w) && Inv(w) && id in w.actors
    ensures HandleStep(w, id, x).stranded <= w.st.runs.Keys && HandleStep(w, id, x).erased <= w.origin.Keys
  {
    assert RoleFits(id, w.actors[id], w.worker, w.st.runs);
    if Erases(w, id) {
      var sid := w.actors[id].call.sid;
      assert PointerOk(sid, w.st.sessions[sid], w.subs, w.origin);
    }
  }

  // What one await of actor `id` does to the view of its own run.
  ghost predicate OwnAwait(v: View, v': View, id: ActorId) {
    || v' == v
    || (v' == v.(owed := v.owed - {id}, freeing := v.freeing + {id}) && id in v.owed && v.points && IsMarked(v.phase))
    || (v' == v.(owed := v.owed - {id}, stranded := v.stranded || v.phase.Created?) && id in v.owed && !v.points)
    || (Releases(v, v', id) && id in v.freeing)
    || (Closes(v, v', id) && id in v.clearing)
  }

  ghost predicate Releases(v: View, v': View, id: ActorId) {
    v' == v.(freeing := v.freeing - {id}, clearing := v.clearing + {id}, held := false)
  }

  ghost predicate Closes(v: View, v': View, id: ActorId) {
    v' == v.(clearing := v.clearing - {id}, points := false)
  }

  // And to the view of another run.
  ghost predicate OtherAwait(v: View, v': View) {
    || v' == v
    || (v' == v.(points := false, erased := v.erased || (v.freeing == {} && v.clearing == {})) && v.points
      && IsMarked(v.phase))
  }

  lemma FoundIsFine(v: View, id: ActorId)
    requires Fine(v) && id in v.owed && v.points && IsMarked(v.phase)
    ensures Fine(v.(owed := v.owed - {id}, freeing := v.freeing + {id}))
  {
  }

  lemma UnfoundIsFine(v: View, id: ActorId)
    requires Fine(v) && id in v.owed && !v.points
    ensures Fine(v.(owed := v.owed - {id}, stranded := v.stranded || v.phase.Created?))
  {
    if v.phase.Created? {
      assert forall i :: i in v.owed ==> i == id;
    }
  }

  lemma ReleasedIsFine(v: View, id: ActorId)
    requires Fine(v) && id in v.freeing
    ensures Fine(v.(freeing := v.freeing - {id}, clearing := v.clearing + {id}, held := false))
  {
  }

  lemma ClosedIsFine(v: View, id: ActorId)
    requires Fine(v) && id in v.clearing
    ensures Fine(v.(clearing := v.clearing - {id}, points := false))
  {
  }

  lemma OwnAwaitIsFine(v: View, v': View, id: ActorId)
    requires Fine(v) && OwnAwait(v, v', id)
    ensures Fine(v')
  {
    if v' != v {
      if id in v.owed && v.points && IsMarked(v.phase) { FoundIsFine(v, id); }
      if id in v.owed && !v.points { UnfoundIsFine(v, id); }
      if id in v.freeing { ReleasedIsFine(v, id); }
      if id in v.clearing { ClosedIsFine(v, id); }
    }
  }

  lemma OtherAwaitIsFine(v: View, v': View)
    requires Fine(v) && OtherAwait(v, v')
    ensures Fine(v')
  {
  }

  // Only actor `id`, locks, sessions and the two history sets may differ.
  ghost predicate OnlyActs(w: World, w': World, id: ActorId, a': Actor) {
    && id in w.actors && a'.run == w.actors[id].run && a'.pc == w.actors[id].pc
    && w'.actors == w.actors[id := a'] && w'.subs == w.subs && w'.origin == w.origin
    && w'.worker == w.worker && w'.syncer == w.syncer && w'.lapsed == w.lapsed
    && w'.st.runs == w.st.runs && w'.st.runJobs == w.st.runJobs && w'.st.syncJobs == w.st.syncJobs
  }

  lemma AwaitActs(w: World, id: ActorId, x: SessionId)
    requires id in w.actors
    ensures OnlyActs(w, HandleStep(w, id, x), id, Part(w.st, w.actors[id], x).1)
  {
  }

  // Who has the duty once actor `id` goes from a to a', both of one run.
  function Put(who: set<ActorId>, id: ActorId, a: Actor, a': Actor, d: Duty): set<ActorId> {
    if Has(a, a.run, d) == Has(a', a'.run, d) then who
    else if Has(a', a'.run, d) then who + {id}
    else who - {id}
  }

  // The parts of the view that an await replaces.
  lemma OwnSeen(w: World, w': World, id: ActorId, a': Actor)
    requires OnlyActs(w, w', id, a') && IsGroupRun(w, a'.run)
    ensures var r := a'.run; var v := ViewOf(w, r);
      && IsGroupRun(w', r)
      && ViewOf(w', r) == v.(
           owed := Put(v.owed, id, w.actors[id], a', ToFind),
           freeing := Put(v.freeing, id, w.actors[id], a', ToRelease),
           clearing := Put(v.clearing, id, w.actors[id], a', ToClose),
           points := PointsTo(w'.st, w.subs[w.origin[r]].sid, r),
           held := Holding(w'.st.locks, w.subs[w.origin[r]].chat, w.origin[r]),
           stranded := r in w'.stranded, erased := r in w'.erased)
  {
    ReplacedHere(w.actors, id, a', w.worker, a'.run);
    ReplacedHere(w.actors, id, a', w.syncer, a'.run);
    forall d ensures Duties(a'.run, w'.actors, d) == Put(Duties(a'.run, w.actors, d), id, w.actors[id], a', d) {
      assert id in Duties(a'.run, w.actors, d) <==> Has(w.actors[id], a'.run, d);
    }
  }

  lemma OtherSeen(w: World, w': World, id: ActorId, a': Actor, q: RunId)
    requires RolesFit(w) && OnlyActs(w, w', id, a') && IsGroupRun(w, q) && a'.run != q
    ensures var v := ViewOf(w, q);
      && IsGroupRun(w', q)
      && ViewOf(w', q) == v.(
           points := PointsTo(w'.st, w.subs[w.origin[q]].sid, q),
           held := Holding(w'.st.locks, w.subs[w.origin[q]].chat, w.origin[q]),
           stranded := q in w'.stranded, erased := q in w'.erased)
  {
    ReplacedElsewhere(w.actors, id, a', w.worker, q);
    ReplacedElsewhere(w.actors, id, a', w.syncer, q);
  }

  // ---- finding the session

  lemma FindResult(w: World, id: ActorId, x: SessionId)
    requires id in w.actors && w.actors[id].call.Find?
    ensures var a := w.actors[id]; var w' := HandleStep(w, id, x); var c := w'.actors[id].call;
      && w'.st == w.st && w'.erased == w.erased
      && (w' == w
          || (PointsTo(w.st, x, a.run) && Terminal(a.call.status) && c.Unlock? && w'.stranded == w.stranded)
          || (PointsTo(w.st, x, a.run) && !Terminal(a.call.status) && (c.Touch? || c.NoCall?)
            && w'.stranded == w.stranded)
          || (Unfound(w.st, a.run) && c.NoCall?
              && w'.stranded == if StrandsOnHandle(w, id) then w.stranded + {a.run} else w.stranded))
  {
  }

  lemma FindSeen(w: World, id: ActorId, x: SessionId)
    requires Inv(w) && RolesFit(w) && id in w.actors && IsGroupRun(w, w.actors[id].run) && w.actors[id].call.Find?
    ensures var r := w.actors[id].run; var w' := HandleStep(w, id, x);
      IsGroupRun(w', r) && OwnAwait(ViewOf(w, r), ViewOf(w', r), id)
  {
    var a := w.actors[id];
    var w' := HandleStep(w, id, x);
    AwaitActs(w, id, x);
    FindResult(w, id, x);
    if w' != w {
      OwnSeen(w, w', id, w'.actors[id]);
      if PointsTo(w.st, x, a.run) { assert PointerOk(x, w.st.sessions[x], w.subs, w.origin); }
      FoundOrStranded(w, id);
    }
  }

  // What is known of the run when its ending is about to be handled.
  lemma FoundOrStranded(w: World, id: ActorId)
    requires Inv(w) && id in w.actors && w.actors[id].call.Find? && IsGroupRun(w, w.actors[id].run)
    ensures var a := w.actors[id]; var v := ViewOf(w, a.run);
      && (id in v.owed <==> Terminal(a.call.status)) && id !in v.freeing && id !in v.clearing
      && (Unfound(w.st, a.run) ==>
        !v.points && (StrandsOnHandle(w, id) <==> Terminal(a.call.status) && v.phase.Created?))
  {
    var a := w.actors[id];
    assert w.subs[w.origin[a.run]].Has(a.run);
  }

  // ---- releasing the lock, closing and touching the session

  lemma ReleaseResult(w: World, id: ActorId, x: SessionId)
    requires id in w.actors && w.actors[id].call.Unlock?
    ensures var c := w.actors[id].call; var w' := HandleStep(w, id, x);
      && w'.st == Release(w.st, c.chat, c.token) && w'.stranded == w.stranded && w'.erased == w.erased
      && w'.actors[id].call.Close?
  {
  }

  lemma ReleaseSeen(w: World, id: ActorId, x: SessionId)
    requires Inv(w) && RolesFit(w) && id in w.actors && IsGroupRun(w, w.actors[id].run) && w.actors[id].call.Unlock?
    ensures var r := w.actors[id].run; var w' := HandleStep(w, id, x);
      IsGroupRun(w', r) && id in ViewOf(w, r).freeing && Releases(ViewOf(w, r), ViewOf(w', r), id)
  {
    var w' := HandleStep(w, id, x);
    AwaitActs(w, id, x);
    ReleaseResult(w, id, x);
    OwnSeen(w, w', id, w'.actors[id]);
    assert CallOk(w.actors[id], w.st.runs, w.subs, w.origin);
  }

  lemma CloseResult(w: World, id: ActorId, x: SessionId)
    requires id in w.actors && w.actors[id].call.Close?
    ensures var c := w.actors[id].call; var w' := HandleStep(w, id, x);
      && w'.st == (if c.sid in w.st.sessions then CloseSession(w.st, c.sid, c.status) else w.st)
      && w'.stranded == w.stranded && w'.actors[id].call.NoCall?
      && w'.erased == if Erases(w, id) then w.erased + {w.st.sessions[c.sid].run.value} else w.erased
  {
  }

  lemma CloseSeen(w: World, id: ActorId, x: SessionId)
    requires Inv(w) && RolesFit(w) && id in w.actors && IsGroupRun(w, w.actors[id].run) && w.actors[id].call.Close?
    ensures var r := w.actors[id].run; var w' := HandleStep(w, id, x);
      IsGroupRun(w', r) && id in ViewOf(w, r).clearing && Closes(ViewOf(w, r), ViewOf(w', r), id)
  {
    var w' := HandleStep(w, id, x);
    AwaitActs(w, id, x);
    CloseResult(w, id, x);
    OwnSeen(w, w', id, w'.actors[id]);
    OwnClose(w, id, x);
  }

  lemma OwnClose(w: World, id: ActorId, x: SessionId)
    requires Inv(w) && id in w.actors && IsGroupRun(w, w.actors[id].run) && w.actors[id].call.Close?
    ensures var r := w.actors[id].run; var w' := HandleStep(w, id, x);
      && !PointsTo(w'.st, w.subs[w.origin[r]].sid, r) && w'.st.locks == w.st.locks
      && (r in w'.erased <==> r in w.erased)
  {
    assert CallOk(w.actors[id], w.st.runs, w.subs, w.origin);
    CloseResult(w, id, x);
  }

  lemma TouchResult(w: World, id: ActorId, x: SessionId)
    requires id in w.actors && (w.actors[id].call.Touch? || w.actors[id].call.NoCall?)
    ensures var c := w.actors[id].call; var w' := HandleStep(w, id, x);
      && w'.st == (if c.Touch? && c.sid in w.st.sessions then TouchSession(w.st, c.sid) else w.st)
      && w'.stranded == w.stranded && w'.erased == w.erased && w'.actors[id].call.NoCall?
  {
  }

  lemma TouchSeen(w: World, id: ActorId, x: SessionId)
    requires Inv(w) && RolesFit(w) && id in w.actors && IsGroupRun(w, w.actors[id].run)
    requires w.actors[id].call.Touch? || w.actors[id].call.NoCall?
    ensures var r := w.actors[id].run; var w' := HandleStep(w, id, x);
      IsGroupRun(w', r) && ViewOf(w', r) == ViewOf(w, r)
  {
    var w' := HandleStep(w, id, x);
    AwaitActs(w, id, x);
    TouchResult(w, id, x);
    OwnSeen(w, w', id, w'.actors[id]);
  }

  lemma OwnAwaitSeen(w: World, id: ActorId, x: SessionId)
    requires Inv(w) && RolesFit(w) && id in w.actors && IsGroupRun(w, w.actors[id].run)
    ensures var r := w.actors[id].run; var w' := HandleStep(w, id, x);
      IsGroupRun(w', r) && OwnAwait(ViewOf(w, r), ViewOf(w', r), id)
  {
    match w.actors[id].call
    case Find(_) => FindSeen(w, id, x);
    case Unlock(_, _, _, _) => ReleaseSeen(w, id, x);
    case Close(_, _) => CloseSeen(w, id, x);
    case _ => TouchSeen(w, id, x);
  }

  // ---- seen from another run

  lemma FindElsewhere(w: World, id: ActorId, x: SessionId, q: RunId)
    requires RolesFit(w) && IsGroupRun(w, q) && id in w.actors && w.actors[id].run != q && w.actors[id].call.Find?
    ensures IsGroupRun(HandleStep(w, id, x), q) && ViewOf(HandleStep(w, id, x), q) == ViewOf(w, q)
  {
    var w' := HandleStep(w, id, x);
    AwaitActs(w, id, x);
    FindResult(w, id, x);
    OtherSeen(w, w', id, w'.actors[id], q);
  }

  lemma ReleaseElsewhere(w: World, id: ActorId, x: SessionId, q: RunId)
    requires Inv(w) && RolesFit(w) && IsGroupRun(w, q) && id in w.actors && w.actors[id].run != q
    requires w.actors[id].call.Unlock?
    ensures IsGroupRun(HandleStep(w, id, x), q) && ViewOf(HandleStep(w, id, x), q) == ViewOf(w, q)
  {
    var a, w' := w.actors[id], HandleStep(w, id, x);
    AwaitActs(w, id, x);
    ReleaseResult(w, id, x);
    OtherSeen(w, w', id, w'.actors[id], q);
    assert CallOk(a, w.st.runs, w.subs, w.origin);
    assert w.subs[w.origin[q]].Has(q) && w.subs[w.origin[a.run]].Has(a.run);
  }

  lemma TouchElsewhere(w: World, id: ActorId, x: SessionId, q: RunId)
    requires RolesFit(w) && IsGroupRun(w, q) && id in w.actors && w.actors[id].run != q
    requires w.actors[id].call.Touch? || w.actors[id].call.NoCall?
    ensures IsGroupRun(HandleStep(w, id, x), q) && ViewOf(HandleStep(w, id, x), q) == ViewOf(w, q)
  {
    var w' := HandleStep(w, id, x);
    AwaitActs(w, id, x);
    TouchResult(w, id, x);
    OtherSeen(w, w', id, w'.actors[id], q);
  }

  lemma CloseElsewhere(w: World, id: ActorId, x: SessionId, q: RunId)
    requires Inv(w) && RolesFit(w) && IsGroupRun(w, q) && id in w.actors && w.actors[id].run != q
    requires w.actors[id].call.Close?
    ensures IsGroupRun(HandleStep(w, id, x), q) && OtherAwait(ViewOf(w, q), ViewOf(HandleStep(w, id, x), q))
  {
    var sid, w' := w.actors[id].call.sid, HandleStep(w, id, x);
    AwaitActs(w, id, x);
    CloseResult(w, id, x);
    OtherSeen(w, w', id, w'.actors[id], q);
    if PointsTo(w.st, sid, q) {
      assert PointerOk(sid, w.st.sessions[sid], w.subs, w.origin);
      FoundIsDuty(w.actors, q);
    }
  }

  lemma OtherAwaitSeen(w: World, id: ActorId, x: SessionId, q: RunId)
    requires Inv(w) && RolesFit(w) && IsGroupRun(w, q) && id in w.actors && w.actors[id].run != q
    ensures IsGroupRun(HandleStep(w, id, x), q) && OtherAwait(ViewOf(w, q), ViewOf(HandleStep(w, id, x), q))
  {
    match w.actors[id].call
    case Find(_) => FindElsewhere(w, id, x, q);
    case Unlock(_, _, _, _) => ReleaseElsewhere(w, id, x, q);
    case Close(_, _) => CloseElsewhere(w, id, x, q);
    case _ => TouchElsewhere(w, id, x, q);
  }

  lemma FoundIsDuty(actors: Actors, r: RunId)
    ensures Found(actors, r) <==> !(Duties(r, actors, ToRelease) == {} && Duties(r, actors, ToClose) == {})
  {
    forall id | id in actors && actors[id].run == r
      ensures actors[id].call.Unlock? <==> id in Duties(r, actors, ToRelease)
      ensures actors[id].call.Close? <==> id in Duties(r, actors, ToClose)
    {
    }
    if Found(actors, r) {
      var id :| id in actors && actors[id].run == r && (actors[id].call.Unlock? || actors[id].call.Close?);
      assert id in Duties(r, actors, ToRelease) || id in Duties(r, actors, ToClose);
    } else {
      assert Duties(r, actors, ToRelease) == {} && Duties(r, actors, ToClose) == {};
    }
  }

  lemma HandleStepFine(w: World, id: ActorId, x: SessionId)
    requires AllFine(w) && Inv(w)
    ensures AllFine(HandleStep(w, id, x))
  {
    HandleRoles(w, id, x);
    if id in w.actors {
      var w' := HandleStep(w, id, x);
      forall q | IsGroupRun(w', q) ensures Fine(ViewOf(w', q)) {
        HandlingMovesNoStatus(w, id, x);
        assert IsGroupRun(w, q) && Fine(ViewOf(w, q));
        if q == w.actors[id].run {
          OwnAwaitSeen(w, id, x);
          OwnAwaitIsFine(ViewOf(w, q), ViewOf(w', q), id);
        } else {
          OtherAwaitSeen(w, id, x, q);
          OtherAwaitIsFine(ViewOf(w, q), ViewOf(w', q));
        }
      }
    }
  }

  lemma HandleFine(w: World, id: ActorId, x: SessionId)
    requires AllFine(w) && Inv(w)
    ensures AllFine(HandleAtOnce(w, id, x))
  {
    HandleAtOnceIsItsParts(w, id, x);
    if id in w.actors && w.actors[id].call.Find? {
      var w1 := HandleStep(w, id, x);
      var w2 := HandleStep(w1, id, x);
      HandleStepFine(w, id, x);
      HandleStepKeeps(w, id, x);
      HandleStepFine(w1, id, x);
      HandleStepKeeps(w1, id, x);
      HandleStepFine(w2, id, x);
    }
  }

  // ---- every run of the system

  ghost predicate Closing(w: World) {
    Inv(w) && AllFine(w) && Locked(w.st.locks, w.subs, w.st.runs, w.lapsed)
  }

  lemma SubmissionFine(w: World, l: Label)
    requires Closing(w) && SubmissionLabel(l)
    ensures AllFine(Apply(w, l))
  {
    match l
    case AcquireLock(t, chat, sid, i) => TryLockFine(w, t, chat, sid, i);
    case GiveUp(t) => RelinquishFine(w, t);
    case CreateRun(t, r) => CreateGroupRunFine(w, t, r);
    case MarkRun(t) => MarkGroupRunFine(w, t);
    case EnqueueRun(t) => EnqueueGroupRunFine(w, t);
  }

  lemma JobFine(w: World, l: Label)
    requires Closing(w)
    requires l.CreatePlainRun? || l.TakeRunJob? || l.TakeSyncJob? || l.TakeRetryJob? || l.Retry? || l.Cancel?
    ensures AllFine(Apply(w, l))
  {
    match l
    case CreatePlainRun(r) => CreateOtherRunFine(w, r);
    case TakeRunJob(id, r) => StartRunWorkerFine(w, id, r);
    case TakeSyncJob(id, r) => SyncJobsAreRuns(w); StartSyncerFine(w, id, r);
    case TakeRetryJob(id, r) => StartRetryFine(w, id, r);
    case Retry(r) => AskRetryFine(w, r);
    case Cancel(id, r) => CancelRunFine(w, id, r);
  }

  lemma SyncJobsAreRuns(w: World)
    requires Inv(w)
    ensures w.st.syncJobs <= w.st.runs.Keys
  {
  }

  lemma StepFine(w: World, l: Label)
    requires Closing(w)
    ensures AllFine(Apply(w, l))
  {
    if SubmissionLabel(l) {
      SubmissionFine(w, l);
    } else {
      match l
      case Advance(id, c) => AdvanceFine(w, id, c);
      case Handle(id, x) => HandleFine(w, id, x);
      case HandlePart(id, x) => HandleStepFine(w, id, x);
      case Expire(chat) => ExpireFine(w, chat);
      case _ => JobFine(w, l);
    }
  }

  lemma ClosingStep(w: World, l: Label)
    requires Closing(w)
    ensures Closing(Apply(w, l))
  {
    StepFine(w, l);
    if l.Expire? { ExpireKeeps(w, l.chat); } else { StepKeeps(w, l); }
  }

  lemma {:induction false} RunCloses(w: World, ls: seq<Label>)
    requires Closing(w)
    ensures Closing(Run(w, ls))
  {
    if ls != [] {
      RunCloses(w, ls[..|ls| - 1]);
      ClosingStep(Run(w, ls[..|ls| - 1]), ls[|ls| - 1]);
    }
  }

  // Nobody has anything left to do.
  ghost predicate Quiescent(w: World) {
    && w.st.runJobs == {} && w.st.syncJobs == {}
    && (forall id :: id in w.actors ==> w.actors[id].pc.Done? && w.actors[id].call.NoCall?)
    && (forall t :: t in w.subs ==> w.subs[t].phase.Accepted? || w.subs[t].phase.Released?)
  }

  // When everything has come to rest, whatever interleaved or expired, every
  // group run has ended. Its lock is still held exactly when the run was stranded
  // or erased and the lock has not expired under it; and unless it has, the
  // session still points at the run exactly when stranded and not erased.
  lemma AtRest(w0: World, ls: seq<Label>, r: RunId)
    requires Initial(w0) && Quiescent(Run(w0, ls)) && r in Run(w0, ls).origin
    ensures var w := Run(w0, ls);
      && IsGroupRun(w, r) && Terminal(w.st.runs[r].status)
      && var t := w.origin[r]; var s := w.subs[t];
      && (Holding(w.st.locks, s.chat, t) <==> t !in w.lapsed && (r in w.stranded || r in w.erased))
      && (PointsTo(w.st, s.sid, r) ==> r in w.stranded && r !in w.erased)
      && (t !in w.lapsed && r in w.stranded && r !in w.erased ==> PointsTo(w.st, s.sid, r))
      && (r in w.stranded ==> w.st.runs[r].status == Canceled)
  {
    RunKeeps(w0, ls);
    RunCloses(w0, ls);
    QuiescentView(Run(w0, ls), r);
    NothingLeft(ViewOf(Run(w0, ls), r));
  }

  lemma QuiescentView(w: World, r: RunId)
    requires Closing(w) && Quiescent(w) && r in w.origin
    ensures IsGroupRun(w, r)
    ensures var v := ViewOf(w, r);
      && Fine(v) && !v.job && !v.sync && Unhandled(v) && v.phase.Accepted?
      && (v.worker.Some? ==> v.worker.value.Done?) && (v.syncer.Some? ==> v.syncer.value.Done?)
  {
    assert w.subs[w.origin[r]].Has(r);
    assert forall d :: Duties(r, w.actors, d) == {};
  }

  lemma NothingLeft(v: View)
    requires Fine(v) && !v.job && !v.sync && Unhandled(v) && v.phase.Accepted?
    requires (v.worker.Some? ==> v.worker.value.Done?) && (v.syncer.Some? ==> v.syncer.value.Done?)
    ensures Terminal(v.status) && (v.points ==> v.stranded && !v.erased) && (v.stranded ==> v.status == Canceled)
    ensures !v.lapsed ==> (v.held <==> v.stranded || v.erased) && (v.points <==> v.stranded && !v.erased)
  {
  }

  // ---- handling in one step

  ghost predicate WholeHandling(ls: seq<Label>) {
    forall i :: 0 <= i < |ls| ==> !ls[i].HandlePart?
  }

  // No handling is ever caught between its awaits.
  ghost predicate AllWhole(actors: Actors) {
    forall id :: id in actors ==> actors[id].call.NoCall? || actors[id].call.Find?
  }

  // A submission of the session of t whose lock expired under it.
  ghost predicate LostIts(subs: Subs, lapsed: set<Token>, u: Token, t: Token) {
    u in lapsed && u in subs && t in subs && subs[u].sid == subs[t].sid
  }

  // What was erased was overwritten by such a submission's late mark.
  ghost predicate LateMarksOnly(w: World) {
    forall q :: q in w.erased && q in w.origin && w.origin[q] !in w.lapsed ==>
      exists u :: LostIts(w.subs, w.lapsed, u, w.origin[q])
  }

  lemma StepKeepsWhole(w: World, l: Label)
    requires AllWhole(w.actors) && !l.HandlePart?
    ensures AllWhole(Apply(w, l).actors)
  {
    if l.Advance? && l.actor in w.actors { NextFacts(w.st, w.actors[l.actor], l.choice); }
  }

  // A mark that overwrites the pointer of a run whose lock is its own comes from
  // a submission whose lock is not.
  lemma OverwritesOnlyLate(w: World, t: Token)
    requires Closing(w) && Overwrites(w, t)
    ensures var q := w.st.sessions[w.subs[t].sid].run.value;
      && q in w.origin && w.origin[q] in w.subs && w.subs[w.origin[q]].sid == w.subs[t].sid
      && (w.origin[q] in w.lapsed || t in w.lapsed)
  {
    var x := w.subs[t].sid;
    var q, r := w.st.sessions[x].run.value, w.subs[t].phase.run;
    assert PointerOk(x, w.st.sessions[x], w.subs, w.origin);
    assert IsGroupRun(w, q) && Fine(ViewOf(w, q)) && IsGroupRun(w, r) && Fine(ViewOf(w, r));
    FoundIsDuty(w.actors, q);
  }

  // Submissions keep their session, and lapsed tokens stay lapsed.
  ghost predicate SubsStay(w: World, w': World) {
    && w.lapsed <= w'.lapsed
    && (forall u :: u in w.subs ==> u in w'.subs && w'.subs[u].sid == w.subs[u].sid)
  }

  lemma LateMarksStay(w: World, w': World)
    requires Inv(w) && LateMarksOnly(w) && ErasesNothing(w, w') && w.erased <= w.origin.Keys
    ensures LateMarksOnly(w')
  {
    forall q | q in w'.erased && q in w'.origin && w'.origin[q] !in w'.lapsed
      ensures exists u :: LostIts(w'.subs, w'.lapsed, u, w'.origin[q])
    {
      var u :| LostIts(w.subs, w.lapsed, u, w.origin[q]);
      assert LostIts(w'.subs, w'.lapsed, u, w'.origin[q]);
    }
  }

  lemma MarkErasesLate(w: World, t: Token)
    requires Closing(w) && LateMarksOnly(w)
    ensures LateMarksOnly(MarkGroupRun(w, t))
  {
    var w' := MarkGroupRun(w, t);
    forall q | q in w'.erased && q in w'.origin && w'.origin[q] !in w'.lapsed
      ensures exists u :: LostIts(w'.subs, w'.lapsed, u, w'.origin[q])
    {
      MarkErased(w, t, q);
    }
  }

  lemma MarkErased(w: World, t: Token, q: RunId)
    requires Closing(w) && LateMarksOnly(w) && q in w.origin && w.origin[q] !in w.lapsed
    requires q in MarkGroupRun(w, t).erased
    ensures exists u :: LostIts(MarkGroupRun(w, t).subs, w.lapsed, u, w.origin[q])
  {
    var w' := MarkGroupRun(w, t);
    var late := t;
    if q in w.erased {
      late :| LostIts(w.subs, w.lapsed, late, w.origin[q]);
    } else {
      OverwritesOnlyLate(w, t);
    }
    assert LostIts(w'.subs, w.lapsed, late, w.origin[q]);
  }

  ghost predicate ErasesNothing(w: World, w': World) {
    && w'.erased == w.erased && SubsStay(w, w')
    && (forall q :: q in w.origin ==> q in w'.origin && w'.origin[q] == w.origin[q])
  }

  // The steps other than marks erase nothing when handling is whole.
  lemma LockingErasesNothing(w: World, t: Token, chat: ChatId, sid: SessionId, interactive: bool)
    ensures ErasesNothing(w, TryLock(w, t, chat, sid, interactive))
  {
  }

  lemma RelinquishErasesNothing(w: World, t: Token)
    ensures ErasesNothing(w, Relinquish(w, t))
  {
  }

  lemma CreationErasesNothing(w: World, t: Token, r: RunId)
    requires Inv(w)
    ensures ErasesNothing(w, CreateGroupRun(w, t, r))
  {
  }

  lemma EnqueueErasesNothing(w: World, t: Token)
    ensures ErasesNothing(w, EnqueueGroupRun(w, t))
  {
  }

  lemma SubmissionsEraseNothing(w: World, l: Label)
    requires Inv(w) && SubmissionLabel(l) && !l.MarkRun?
    ensures ErasesNothing(w, Apply(w, l))
  {
    match l {
      case AcquireLock(t, chat, sid, i) => LockingErasesNothing(w, t, chat, sid, i);
      case GiveUp(t) => RelinquishErasesNothing(w, t);
      case CreateRun(t, r) => CreationErasesNothing(w, t, r);
      case EnqueueRun(t) => EnqueueErasesNothing(w, t);
    }
  }

  lemma OthersEraseNothing(w: World, l: Label)
    requires !SubmissionLabel(l) && !l.HandlePart?
    ensures ErasesNothing(w, Apply(w, l))
  {
  }

  lemma StepKeepsLateMarks(w: World, l: Label)
    requires Closing(w) && LateMarksOnly(w) && !l.HandlePart?
    ensures LateMarksOnly(Apply(w, l))
  {
    if l.MarkRun? {
      MarkErasesLate(w, l.token);
    } else {
      if SubmissionLabel(l) { SubmissionsEraseNothing(w, l); } else { OthersEraseNothing(w, l); }
      LateMarksStay(w, Apply(w, l));
    }
  }

  // Sessions are busy exactly while they point at a run.
  ghost predicate BusyExact(sessions: Sessions) {
    forall sid :: sid in sessions ==> (sessions[sid].status == Busy <==> sessions[sid].run.Some?)
  }

  lemma StepKeepsBusy(w: World, l: Label)
    requires BusyExact(w.st.sessions) && !l.HandlePart?
    ensures BusyExact(Apply(w, l).st.sessions)
  {
    if l.Advance? && l.actor in w.actors { NextFacts(w.st, w.actors[l.actor], l.choice); }
  }

  lemma {:induction false} WholeHandlingErasesLate(w: World, ls: seq<Label>)
    requires Closing(w) && LateMarksOnly(w) && BusyExact(w.st.sessions) && WholeHandling(ls)
    ensures LateMarksOnly(Run(w, ls)) && BusyExact(Run(w, ls).st.sessions)
  {
    if ls != [] {
      var before, l := ls[..|ls| - 1], ls[|ls| - 1];
      assert ls == before + [l];
      WholeHandlingErasesLate(w, before);
      RunCloses(w, before);
      StepKeepsLateMarks(Run(w, before), l);
      StepKeepsBusy(Run(w, before), l);
    }
  }

  // With handling in one step, the lock of a run that ended is held at rest
  // exactly if it has not expired under the run and the run was stranded or its
  // pointer was overwritten; and that only happens by the mark of a submission
  // of the same session whose own lock had expired.
  lemma WholeAtRest(w0: World, ls: seq<Label>, r: RunId)
    requires Initial(w0) && WholeHandling(ls) && Quiescent(Run(w0, ls)) && r in Run(w0, ls).origin
    ensures var w := Run(w0, ls);
      && IsGroupRun(w, r)
      && var t := w.origin[r]; var s := w.subs[t];
      && (Holding(w.st.locks, s.chat, t) <==> t !in w.lapsed && (r in w.stranded || r in w.erased))
      && (t !in w.lapsed ==> (PointsTo(w.st, s.sid, r) <==> r in w.stranded && r !in w.erased))
      && (r in w.erased && t !in w.lapsed ==> exists u :: LostIts(w.subs, w.lapsed, u, t))
      && (PointsTo(w.st, s.sid, r) ==> w.st.sessions[s.sid].status == Busy)
  {
    AtRest(w0, ls, r);
    WholeHandlingErasesLate(w0, ls);
  }

  // So where no submission of the session lost its lock by expiry, pointer, busy
  // session and held lock remain exactly in the two stranded cases.
  lemma WholeAtRestUnlapsed(w0: World, ls: seq<Label>, r: RunId)
    requires Initial(w0) && WholeHandling(ls) && Quiescent(Run(w0, ls)) && r in Run(w0, ls).origin
    requires var w := Run(w0, ls); forall u :: !LostIts(w.subs, w.lapsed, u, w.origin[r])
    ensures var w := Run(w0, ls);
      && IsGroupRun(w, r)
      && var t := w.origin[r]; var s := w.subs[t];
      && (r in w.stranded <==> PointsTo(w.st, s.sid, r)) && (r in w.stranded <==> Holding(w.st.locks, s.chat, t))
      && (r in w.stranded ==> w.st.runs[r].status == Canceled && w.st.sessions[s.sid].status == Busy)
  {
    WholeAtRest(w0, ls, r);
    AtRest(w0, ls, r);
    var w := Run(w0, ls);
    assert !LostIts(w.subs, w.lapsed, w.origin[r], w.origin[r]);
  }

  // ---- session rows at rest

  // With handling in one step a session at rest is busy exactly if it points at
  // a run, and that is one that was stranded and not erased.
  lemma SessionsAtRest(w0: World, ls: seq<Label>, sid: SessionId)
    requires Initial(w0) && WholeHandling(ls) && Quiescent(Run(w0, ls)) && sid in Run(w0, ls).st.sessions
    ensures var w := Run(w0, ls); var row := w.st.sessions[sid];
      && (row.status == Busy <==> row.run.Some?) && (row.token.Some? <==> row.run.Some?)
      && (row.run.Some? ==> row.run.value in w.stranded && row.run.value !in w.erased)
  {
    RunKeeps(w0, ls);
    WholeHandlingErasesLate(w0, ls);
    var w := Run(w0, ls);
    assert PointerOk(sid, w.st.sessions[sid], w.subs, w.origin);
    if w.st.sessions[sid].run.Some? {
      AtRest(w0, ls, w.st.sessions[sid].run.value);
    }
  }

  // The session is busy but points at no run.
  predicate BusyForNothing(st: Store, sid: SessionId) {
    sid in st.sessions && st.sessions[sid].status == Busy && st.sessions[sid].run.None?
  }

  ghost predicate PointedIsBusy(sessions: Sessions) {
    forall sid :: sid in sessions && sessions[sid].run.Some? ==> sessions[sid].status == Busy
  }

  lemma StepKeepsPointedBusy(w: World, l: Label)
    requires PointedIsBusy(w.st.sessions)
    ensures PointedIsBusy(Apply(w, l).st.sessions)
  {
    if l.Advance? && l.actor in w.actors { NextFacts(w.st, w.actors[l.actor], l.choice); }
  }

  // However the awaits are interleaved, a session that points at a run is busy.
  lemma {:induction false} PointedSessionsAreBusy(w0: World, ls: seq<Label>)
    requires Initial(w0)
    ensures PointedIsBusy(Run(w0, ls).st.sessions)
  {
    if ls != [] {
      PointedSessionsAreBusy(w0, ls[..|ls| - 1]);
      StepKeepsPointedBusy(Run(w0, ls[..|ls| - 1]), ls[|ls| - 1]);
    }
  }

  // The await that touches the session lands after its pointer was cleared.
  predicate TouchesLate(w: World, l: Label, sid: SessionId) {
    && l.HandlePart? && l.actor in w.actors && w.actors[l.actor].call == Touch(sid)
    && sid in w.st.sessions && w.st.sessions[sid].run.None?
  }

  lemma AwaitTouchesLate(w: World, id: ActorId, x: SessionId, sid: SessionId)
    requires id in w.actors && !BusyForNothing(w.st, sid)
    ensures BusyForNothing(HandleStep(w, id, x).st, sid) <==> TouchesLate(w, HandlePart(id, x), sid)
  {
    match w.actors[id].call
    case Find(_) => FindResult(w, id, x);
    case Unlock(_, _, _, _) => ReleaseResult(w, id, x);
    case Close(_, _) => CloseResult(w, id, x);
    case _ => TouchResult(w, id, x);
  }

  lemma OthersNeverBusyForNothing(w: World, l: Label, sid: SessionId)
    requires !l.HandlePart? && !BusyForNothing(w.st, sid)
    ensures !BusyForNothing(Apply(w, l).st, sid)
  {
    if l.Advance? && l.actor in w.actors { NextFacts(w.st, w.actors[l.actor], l.choice); }
  }

  // A step makes a session busy for nothing exactly if it touches it late.
  lemma BusyForNothingIffTouchedLate(w: World, l: Label, sid: SessionId)
    requires !BusyForNothing(w.st, sid)
    ensures BusyForNothing(Apply(w, l).st, sid) <==> TouchesLate(w, l, sid)
  {
    if l.HandlePart? && l.actor in w.actors {
      AwaitTouchesLate(w, l.actor, l.sid, sid);
    } else if !l.HandlePart? {
      OthersNeverBusyForNothing(w, l, sid);
    }
  }

  // And only a mark or a later closing ends that.
  lemma OnlyMarksAndClosesEndIt(w: World, l: Label, sid: SessionId)
    requires BusyForNothing(w.st, sid) && !BusyForNothing(Apply(w, l).st, sid)
    ensures l.MarkRun? || (l.HandlePart? && l.actor in w.actors && w.actors[l.actor].call.Close?)
  {
    if l.Advance? && l.actor in w.actors { NextFacts(w.st, w.actors[l.actor], l.choice); }
    if l.HandlePart? && l.actor in w.actors {
      match w.actors[l.actor].call
      case Find(_) => FindResult(w, l.actor, l.sid);
      case Unlock(_, _, _, _) => ReleaseResult(w, l.actor, l.sid);
      case _ =>
    }
  }
}
