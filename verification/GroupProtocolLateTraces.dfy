// Runs of the protocol in which something lands late: the mark of a submission
// whose lock had expired, and the touch of a session that was closed meanwhile.
module GroupProtocolLateTraces {
  import opened Prelude
  import opened RunStatuses
  import opened GroupStores
  import opened GroupProtocol
  import opened GroupProtocolSafety
  import opened GroupProtocolClosing
  import opened GroupProtocolTraces

  // ---- a late mark

  // Submission 1 creates run 7 and loses its lock by expiry. Run 8 is admitted,
  // marked and queued; then submission 1 marks the session for its own run.
  // Both runs are canceled and handled in one step each.
  const LateMark: seq<Label> := [
    AcquireLock(1, "c", "s", true), CreateRun(1, 7), Expire("c"),
    AcquireLock(2, "c", "s", true), CreateRun(2, 8), MarkRun(2), EnqueueRun(2),
    MarkRun(1), EnqueueRun(1),
    Cancel(0, 8), Handle(0, "s"), Cancel(1, 7), Handle(1, "s")]

  // Lock 0 stands for none; submission 0 for not there yet.
  function Two(lock: Token, row: SessionRow, runs: Statuses, jobs: set<RunId>, subs: map<Token, Submission>,
               actors: Actors, origin: Origin, erased: set<RunId>, lapsed: set<Token>): World {
    World(Store(if lock == 0 then map[] else map["c" := lock], map["s" := row], runs, jobs, {}), {},
          subs, actors, origin, map[], map[], {}, {}, erased, lapsed)
  }

  function Both(first: Phase, second: Phase): map<Token, Submission> { map[1 := Sub(first), 2 := Sub(second)] }

  const One := map[7 := Waits]
  const BothWait := map[7 := Waits, 8 := Waits]
  const From: Origin := map[7 := 1, 8 := 2]
  const Handled8 := Actor(8, Done, NoCall)
  const Handled7 := Actor(7, Done, NoCall)

  function Late1(): World { Two(1, IDLE, map[], {}, map[1 := Sub(Deciding)], map[], map[], {}, {}) }
  function Late2(): World { Two(1, IDLE, One, {}, map[1 := Sub(Created(7))], map[], map[7 := 1], {}, {}) }
  function Late3(): World { Two(0, IDLE, One, {}, map[1 := Sub(Created(7))], map[], map[7 := 1], {}, {1}) }
  function Late4(): World { Two(2, IDLE, One, {}, Both(Created(7), Deciding), map[], map[7 := 1], {}, {1}) }
  function Late5(): World { Two(2, IDLE, BothWait, {}, Both(Created(7), Created(8)), map[], From, {}, {1}) }
  function Late6(): World { Two(2, Second, BothWait, {}, Both(Created(7), Marked(8)), map[], From, {}, {1}) }
  function Late7(): World { Two(2, Second, BothWait, {8}, Both(Created(7), Accepted(8)), map[], From, {}, {1}) }
  function Late8(): World { Two(2, BUSY, BothWait, {8}, Both(Marked(7), Accepted(8)), map[], From, {8}, {1}) }
  function Late9(): World { Two(2, BUSY, BothWait, {7, 8}, Both(Accepted(7), Accepted(8)), map[], From, {8}, {1}) }

  function Ending(row: SessionRow, seven: RunRow, jobs: set<RunId>, actors: Actors): World {
    Two(2, row, map[7 := seven, 8 := Ended], jobs, Both(Accepted(7), Accepted(8)), actors, From, {8}, {1})
  }

  function Late10(): World { Ending(BUSY, Waits, {7}, map[0 := Find8]) }
  function Late11(): World { Ending(BUSY, Waits, {7}, map[0 := Handled8]) }
  function Late12(): World { Ending(BUSY, Ended, {}, map[0 := Handled8, 1 := Find7]) }
  function Late13(): World { Ending(IDLE, Ended, {}, map[0 := Handled8, 1 := Handled7]) }

  lemma LateStep1() ensures Apply(Start(), LateMark[0]) == Late1() {}
  lemma LateStep2() ensures Apply(Late1(), LateMark[1]) == Late2() {}

  lemma LateStep3()
    ensures Apply(Late2(), LateMark[2]) == Late3()
  {
    assert map["c" := 1] - {"c"} == map[] && {} + {1} == {1};
  }

  lemma LateStep4()
    ensures Apply(Late3(), LateMark[3]) == Late4()
  {
    assert map[1 := Sub(Created(7))][2 := Sub(Deciding)] == Both(Created(7), Deciding);
  }

  lemma LateStep5()
    ensures Apply(Late4(), LateMark[4]) == Late5()
  {
    assert One[8 := Waits] == BothWait && map[7 := 1][8 := 2] == From;
    assert Both(Created(7), Deciding)[2 := Sub(Created(8))] == Both(Created(7), Created(8));
  }

  lemma LateStep6()
    ensures Apply(Late5(), LateMark[5]) == Late6()
  {
    assert Both(Created(7), Created(8))[2 := Sub(Marked(8))] == Both(Created(7), Marked(8));
  }

  lemma LateStep7()
    ensures Apply(Late6(), LateMark[6]) == Late7()
  {
    assert Both(Created(7), Marked(8))[2 := Sub(Accepted(8))] == Both(Created(7), Accepted(8));
  }

  lemma LateStep8()
    ensures Apply(Late7(), LateMark[7]) == Late8()
  {
    assert !Found(Late7().actors, 8);
    assert Overwrites(Late7(), 1) && {} + {8} == {8};
    assert Both(Created(7), Accepted(8))[1 := Sub(Marked(7))] == Both(Marked(7), Accepted(8));
  }

  lemma LateStep9()
    ensures Apply(Late8(), LateMark[8]) == Late9()
  {
    assert Both(Marked(7), Accepted(8))[1 := Sub(Accepted(7))] == Both(Accepted(7), Accepted(8)) && {8} + {7} == {7, 8};
  }

  lemma LateStep10()
    ensures Apply(Late9(), LateMark[9]) == Late10()
  {
    assert BothWait[8 := Ended] == map[7 := Waits, 8 := Ended] && {7, 8} - {8} == {7};
  }

  lemma LateStep11()
    ensures Apply(Late10(), LateMark[10]) == Late11()
  {
    assert Unfound(Late10().st, 8);
    assert map[0 := Find8][0 := Handled8] == map[0 := Handled8];
  }

  lemma LateStep12()
    ensures Apply(Late11(), LateMark[11]) == Late12()
  {
    assert map[7 := Waits, 8 := Ended][7 := Ended] == map[7 := Ended, 8 := Ended] && {7} - {7} == {};
    assert map[0 := Handled8][1 := Find7] == map[0 := Handled8, 1 := Find7];
  }

  lemma LateStep13()
    ensures Apply(Late12(), LateMark[12]) == Late13()
  {
    assert PointsTo(Late12().st, "s", 7);
    assert map[0 := Handled8, 1 := Find7][1 := Handled7] == map[0 := Handled8, 1 := Handled7];
  }

  lemma ThenLate(n: nat, w: World, w': World)
    requires 0 < n <= |LateMark| && Run(Start(), LateMark[..n - 1]) == w && Apply(w, LateMark[n - 1]) == w'
    ensures Run(Start(), LateMark[..n]) == w'
  {
    assert LateMark[..n][..n - 1] == LateMark[..n - 1];
  }

  lemma BeforeTheLateMark()
    ensures Run(Start(), LateMark[..7]) == Late7()
  {
    LateStep1(); LateStep2(); LateStep3(); LateStep4(); LateStep5(); LateStep6(); LateStep7();
    assert Run(Start(), LateMark[..0]) == Start();
    ThenLate(1, Start(), Late1());
    ThenLate(2, Late1(), Late2());
    ThenLate(3, Late2(), Late3());
    ThenLate(4, Late3(), Late4());
    ThenLate(5, Late4(), Late5());
    ThenLate(6, Late5(), Late6());
    ThenLate(7, Late6(), Late7());
  }

  lemma LateMarkIsMade()
    ensures Run(Start(), LateMark[..10]) == Late10()
  {
    BeforeTheLateMark();
    LateStep8(); LateStep9(); LateStep10();
    ThenLate(8, Late7(), Late8());
    ThenLate(9, Late8(), Late9());
    ThenLate(10, Late9(), Late10());
  }

  lemma AfterTheLateMark()
    ensures Run(Start(), LateMark) == Late13()
  {
    LateMarkIsMade();
    LateStep11(); LateStep12(); LateStep13();
    ThenLate(11, Late10(), Late11());
    ThenLate(12, Late11(), Late12());
    ThenLate(13, Late12(), Late13());
    assert LateMark[..13] == LateMark;
  }

  lemma LateIsAtRest()
    ensures Quiescent(Late13())
  {
  }

  // With every handling in one step, at rest: nothing is stranded and the session
  // is free, but the lock is still held by the token of run 8, whose own lock
  // never expired.
  lemma LateMarkLeavesTheLock()
    ensures Initial(Start()) && WholeHandling(LateMark)
    ensures var w := Run(Start(), LateMark);
      && Quiescent(w) && w.stranded == {} && w.erased == {8} && w.lapsed == {1}
      && w.st.sessions == map["s" := IDLE] && w.st.locks == map["c" := 2]
      && w.origin == From && HasStatus(w.st, 7, Canceled) && HasStatus(w.st, 8, Canceled)
  {
    AfterTheLateMark();
    LateIsAtRest();
  }

  // ---- a late touch

  // Reached without expiry, with the awaits of handling apart.
  ghost predicate ReachedApart(w: World) { exists ls :: NoExpiry(ls) && w == Run(Start(), ls) }

  lemma Go(w: World, l: Label, w': World)
    requires ReachedApart(w) && !l.Expire? && Apply(w, l) == w'
    ensures ReachedApart(w')
  {
    var ls :| NoExpiry(ls) && w == Run(Start(), ls);
    assert (ls + [l])[..|ls|] == ls;
    assert w' == Run(Start(), ls + [l]);
  }

  // Run 7 of session "s" in chat "c" with its worker 1.
  function Synced7(locks: map<ChatId, Token>, row: SessionRow, status: RunStatus,
                   syncJobs: set<RunId>, retry: set<RunId>,
                   actors: Actors, syncer: map<RunId, ActorId>, queued: set<RunId>): World {
    World(Store(locks, map["s" := row], map[7 := RunRow(status, false)], {}, syncJobs), retry,
          map[1 := Sub(Accepted(7))], actors, map[7 := 1], map[7 := 1], syncer, queued, {}, {}, {})
  }

  function Locked7(status: RunStatus, retry: set<RunId>, actors: Actors): World {
    Synced7(map["c" := 1], BUSY, status, {}, retry, actors, map[], {})
  }

  const HandingOver := Actor(7, RunEnqueueSync, NoCall)
  const FindsSyncing := Actor(7, RunEnqueueSync, Find(Syncing))
  const Touching := Actor(7, RunEnqueueSync, Touch("s"))
  const Finishing := Actor(7, SyncFinish(false), NoCall)
  const FindsEnd := Actor(7, Done, Find(Succeeded))
  const Unlocking := Actor(7, Done, Unlock("s", "c", Some(1), Succeeded))
  const ClosingIt := Actor(7, Done, Close("s", Succeeded))

  function Working7(pc: Pc): World { Locked7(Running, {}, map[1 := Actor(7, pc, NoCall)]) }

  function Retrying(a: Actor, status: RunStatus): World { Locked7(status, {}, map[1 := Touching, 2 := a]) }

  function Freed7(row: SessionRow, worker: Actor, retrier: Actor): World {
    Synced7(map[], row, Succeeded, {}, {}, map[1 := worker, 2 := retrier], map[], {})
  }

  const BusyRow := SessionRow("c", Busy, None, None)

  function Queued7(): World {
    Synced7(map[], BusyRow, Succeeded, {7}, {}, map[1 := Handled7, 2 := Handled7], map[], {7})
  }

  function Syncer3(a: Actor): World {
    Synced7(map[], BusyRow, Succeeded, {}, {}, map[1 := Handled7, 2 := Handled7, 3 := a], map[7 := 3], {7})
  }

  lemma WorkerReaches(pc: Pc, c: Choice, next: Pc)
    requires ReachedApart(Working7(pc)) && !pc.RunEnqueueSync? && !pc.RunFail?
    requires forall st ::
      HasStatus(st, 7, Running) ==> Next(st, Actor(7, pc, NoCall), c) == (st, Actor(7, next, NoCall))
    ensures ReachedApart(Working7(next))
  {
    WorkerMoves(pc, c, next);
    Go(Working7(pc), Advance(1, c), Working7(next));
  }

  lemma WorkerMoves(pc: Pc, c: Choice, next: Pc)
    requires !pc.RunEnqueueSync? && !pc.RunFail?
    requires Next(Working7(pc).st, Actor(7, pc, NoCall), c) == (Working7(pc).st, Actor(7, next, NoCall))
    ensures Apply(Working7(pc), Advance(1, c)) == Working7(next)
  {
    assert map[1 := Actor(7, pc, NoCall)][1 := Actor(7, next, NoCall)] == map[1 := Actor(7, next, NoCall)];
  }

  lemma WorkerTouches()
    ensures ReachedApart(Locked7(Syncing, {}, map[1 := Touching]))
  {
    RunStarts();
    assert Reached(Working7(RunPrepare));
    assert ReachedApart(Working7(RunPrepare));
    WorkerReaches(RunPrepare, Proceed, RunExecute);
    WorkerReaches(RunExecute, ReportSucceeded(false), RunCheckSucceeded(false));
    WorkerReaches(RunCheckSucceeded(false), Proceed, RunSyncing(false));
    SyncingIsWritten();
    Go(Working7(RunSyncing(false)), Advance(1, Proceed), Locked7(Syncing, {}, map[1 := FindsSyncing]));
    SyncingIsFound();
    Go(Locked7(Syncing, {}, map[1 := FindsSyncing]), HandlePart(1, "s"), Locked7(Syncing, {}, map[1 := Touching]));
  }

  lemma SyncingIsWritten()
    ensures Apply(Working7(RunSyncing(false)), Advance(1, Proceed)) == Locked7(Syncing, {}, map[1 := FindsSyncing])
  {
    assert map[1 := Actor(7, RunSyncing(false), NoCall)][1 := FindsSyncing] == map[1 := FindsSyncing];
    assert map[7 := RunRow(Running, false)][7 := RunRow(Syncing, false)] == map[7 := RunRow(Syncing, false)];
  }

  lemma SyncingIsFound()
    ensures Apply(Locked7(Syncing, {}, map[1 := FindsSyncing]), HandlePart(1, "s"))
      == Locked7(Syncing, {}, map[1 := Touching])
  {
    var w := Locked7(Syncing, {}, map[1 := FindsSyncing]);
    assert PointsTo(w.st, "s", 7);
    assert map[1 := FindsSyncing][1 := Touching] == map[1 := Touching];
  }

  lemma RetryStarts()
    ensures ReachedApart(Retrying(Actor(7, SyncEntry, NoCall), Syncing))
  {
    WorkerTouches();
    var w := Locked7(Syncing, {}, map[1 := Touching]);
    assert {} + {7} == {7} && {7} - {7} == {};
    Go(w, Retry(7), Locked7(Syncing, {7}, map[1 := Touching]));
    assert map[1 := Touching][2 := Actor(7, SyncEntry, NoCall)] == map[1 := Touching, 2 := Actor(7, SyncEntry, NoCall)];
    Go(Locked7(Syncing, {7}, map[1 := Touching]), TakeRetryJob(2, 7), Retrying(Actor(7, SyncEntry, NoCall), Syncing));
  }

  lemma RetryDecides()
    ensures Apply(Retrying(Actor(7, SyncEntry, NoCall), Syncing), Advance(2, Proceed)) == Retrying(Finishing, Syncing)
  {
    var a := Actor(7, SyncEntry, NoCall);
    assert map[1 := Touching, 2 := a][2 := Finishing] == map[1 := Touching, 2 := Finishing];
  }

  lemma RetryWrites()
    ensures Apply(Retrying(Finishing, Syncing), Advance(2, Proceed)) == Retrying(FindsEnd, Succeeded)
  {
    assert map[1 := Touching, 2 := Finishing][2 := FindsEnd] == map[1 := Touching, 2 := FindsEnd];
    assert map[7 := RunRow(Syncing, false)][7 := RunRow(Succeeded, false)] == map[7 := RunRow(Succeeded, false)];
  }

  lemma RetryEnds()
    ensures ReachedApart(Retrying(FindsEnd, Succeeded))
  {
    RetryStarts();
    RetryDecides();
    Go(Retrying(Actor(7, SyncEntry, NoCall), Syncing), Advance(2, Proceed), Retrying(Finishing, Syncing));
    RetryWrites();
    Go(Retrying(Finishing, Syncing), Advance(2, Proceed), Retrying(FindsEnd, Succeeded));
  }

  lemma EndIsFound()
    ensures Apply(Retrying(FindsEnd, Succeeded), HandlePart(2, "s")) == Retrying(Unlocking, Succeeded)
  {
    assert PointsTo(Retrying(FindsEnd, Succeeded).st, "s", 7);
    assert map[1 := Touching, 2 := FindsEnd][2 := Unlocking] == map[1 := Touching, 2 := Unlocking];
  }

  lemma LockIsFreed()
    ensures Apply(Retrying(Unlocking, Succeeded), HandlePart(2, "s")) == Freed7(BUSY, Touching, ClosingIt)
  {
    assert map["c" := 1] - {"c"} == map[];
    assert map[1 := Touching, 2 := Unlocking][2 := ClosingIt] == map[1 := Touching, 2 := ClosingIt];
  }

  lemma SessionIsClosed()
    ensures Apply(Freed7(BUSY, Touching, ClosingIt), HandlePart(2, "s")) == Freed7(IDLE, Touching, Handled7)
  {
    assert !Erases(Freed7(BUSY, Touching, ClosingIt), 2);
    assert map[1 := Touching, 2 := ClosingIt][2 := Handled7] == map[1 := Touching, 2 := Handled7];
  }

  lemma SessionIsTouched()
    ensures TouchesLate(Freed7(IDLE, Touching, Handled7), HandlePart(1, "s"), "s")
    ensures Apply(Freed7(IDLE, Touching, Handled7), HandlePart(1, "s")) == Freed7(BusyRow, HandingOver, Handled7)
  {
    assert map[1 := Touching, 2 := Handled7][1 := HandingOver] == map[1 := HandingOver, 2 := Handled7];
  }

  lemma TouchedAfterClosing()
    ensures ReachedApart(Freed7(BusyRow, HandingOver, Handled7))
  {
    RetryEnds();
    EndIsFound();
    Go(Retrying(FindsEnd, Succeeded), HandlePart(2, "s"), Retrying(Unlocking, Succeeded));
    LockIsFreed();
    Go(Retrying(Unlocking, Succeeded), HandlePart(2, "s"), Freed7(BUSY, Touching, ClosingIt));
    SessionIsClosed();
    Go(Freed7(BUSY, Touching, ClosingIt), HandlePart(2, "s"), Freed7(IDLE, Touching, Handled7));
    SessionIsTouched();
    Go(Freed7(IDLE, Touching, Handled7), HandlePart(1, "s"), Freed7(BusyRow, HandingOver, Handled7));
  }

  lemma WorkerHandsOver7()
    ensures Apply(Freed7(BusyRow, HandingOver, Handled7), Advance(1, Proceed)) == Queued7()
  {
    assert map[1 := HandingOver, 2 := Handled7][1 := Handled7] == map[1 := Handled7, 2 := Handled7];
    assert {} + {7} == {7};
  }

  lemma SyncerTakesJob()
    ensures Apply(Queued7(), TakeSyncJob(3, 7)) == Syncer3(Actor(7, SyncEntry, NoCall))
  {
    var a := Actor(7, SyncEntry, NoCall);
    assert map[1 := Handled7, 2 := Handled7][3 := a] == map[1 := Handled7, 2 := Handled7, 3 := a] && {7} - {7} == {};
  }

  lemma JobIsHandedOver()
    ensures ReachedApart(Syncer3(Actor(7, SyncEntry, NoCall)))
  {
    TouchedAfterClosing();
    WorkerHandsOver7();
    Go(Freed7(BusyRow, HandingOver, Handled7), Advance(1, Proceed), Queued7());
    SyncerTakesJob();
    Go(Queued7(), TakeSyncJob(3, 7), Syncer3(Actor(7, SyncEntry, NoCall)));
  }

  lemma SyncerIsReplaced(a: Actor, b: Actor)
    ensures Syncer3(a).actors[3 := b] == Syncer3(b).actors
  {
  }

  lemma SyncerDecides()
    ensures Apply(Syncer3(Actor(7, SyncEntry, NoCall)), Advance(3, Proceed)) == Syncer3(Finishing)
  {
    SyncerIsReplaced(Actor(7, SyncEntry, NoCall), Finishing);
  }

  lemma SyncerWrites()
    ensures Apply(Syncer3(Finishing), Advance(3, Proceed)) == Syncer3(FindsEnd)
  {
    SyncerIsReplaced(Finishing, FindsEnd);
    assert map[7 := RunRow(Succeeded, false)][7 := RunRow(Succeeded, false)] == map[7 := RunRow(Succeeded, false)];
  }

  lemma SyncerEnds()
    ensures ReachedApart(Syncer3(FindsEnd))
  {
    JobIsHandedOver();
    SyncerDecides();
    Go(Syncer3(Actor(7, SyncEntry, NoCall)), Advance(3, Proceed), Syncer3(Finishing));
    SyncerWrites();
    Go(Syncer3(Finishing), Advance(3, Proceed), Syncer3(FindsEnd));
  }

  // A manual retry ends the run while the worker still has to touch the session:
  // at rest and without expiry the session is busy with no run, for good.
  lemma LateTouchLeavesTheSessionBusy()
    ensures exists w :: ReachedApart(w) && Quiescent(w) && BusyForNothing(w.st, "s") && w.st.locks == map[]
  {
    SyncerEnds();
    var w := Syncer3(FindsEnd);
    assert Unfound(w.st, 7);
    assert map[1 := Handled7, 2 := Handled7, 3 := FindsEnd][3 := Handled7]
      == map[1 := Handled7, 2 := Handled7, 3 := Handled7];
    Go(w, HandlePart(3, "s"), Syncer3(Handled7));
    assert Quiescent(Syncer3(Handled7)) && BusyForNothing(Syncer3(Handled7).st, "s");
  }
}
