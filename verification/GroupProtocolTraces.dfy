// Concrete runs of the protocol that show where its guarantees stop.
module GroupProtocolTraces {
  import opened Prelude
  import opened RunStatuses
  import opened GroupStores
  import opened GroupProtocol
  import opened GroupProtocolSafety
  import opened GroupProtocolClosing

  // Worlds with one session "s" in chat "c", one submission with token 1 and
  // its run 7.
  function Solo(phase: Phase, row: SessionRow, status: RunStatus, jobs: set<RunId>, actors: map<ActorId, Actor>,
                worker: map<RunId, ActorId>, stranded: set<RunId>): World {
    World(Store(map["c" := 1], map["s" := row], map[7 := RunRow(status, false)], jobs, {}), {},
          map[1 := Submission("c", "s", true, phase)], actors, map[7 := 1], worker, map[], {}, stranded, {}, {})
  }

  const IDLE := SessionRow("c", Idle, None, None)
  const BUSY := SessionRow("c", Busy, Some(7), Some(1))

  function Start(): World {
    World(Store(map[], map["s" := IDLE], map[], {}, {}), {}, map[], map[], map[], map[], map[], {}, {}, {}, {})
  }

  // Reached without expiry and with status handling in one step.
  ghost predicate Reached(w: World) {
    exists ls :: WholeHandling(ls) && NoExpiry(ls) && w == Run(Start(), ls)
  }

  lemma Extend(w: World, l: Label)
    requires Reached(w) && !l.HandlePart? && !l.Expire?
    ensures Reached(Apply(w, l))
  {
    var ls :| WholeHandling(ls) && NoExpiry(ls) && w == Run(Start(), ls);
    assert (ls + [l])[..|ls|] == ls;
    assert Apply(w, l) == Run(Start(), ls + [l]);
  }

  lemma Admit()
    ensures Reached(Solo(Created(7), IDLE, Queued, {}, map[], map[], {}))
  {
    var none: seq<Label> := [];
    assert WholeHandling(none) && NoExpiry(none) && Start() == Run(Start(), none);
    Extend(Start(), AcquireLock(1, "c", "s", true));
    Extend(TryLock(Start(), 1, "c", "s", true), CreateRun(1, 7));
    assert CreateGroupRun(TryLock(Start(), 1, "c", "s", true), 1, 7)
      == Solo(Created(7), IDLE, Queued, {}, map[], map[], {});
  }

  // At rest, yet the session is busy with a canceled run and its chat is locked.
  ghost predicate Stuck(w: World) {
    && Quiescent(w) && PointsTo(w.st, "s", 7) && w.st.sessions["s"].status == Busy
    && HasStatus(w.st, 7, Canceled) && w.st.locks == map["c" := 1]
  }

  // Single steps between such worlds.
  type Ids = map<RunId, ActorId>

  lemma Mark(status: RunStatus, acts: Actors, worker: Ids, str: set<RunId>)
    requires Reached(Solo(Created(7), IDLE, status, {}, acts, worker, str))
    ensures Reached(Solo(Marked(7), BUSY, status, {}, acts, worker, str))
  {
    var w := Solo(Created(7), IDLE, status, {}, acts, worker, str);
    Extend(w, MarkRun(1));
    assert Apply(w, MarkRun(1)) == Solo(Marked(7), BUSY, status, {}, acts, worker, str);
  }

  lemma Enqueue(status: RunStatus, acts: Actors, worker: Ids, str: set<RunId>)
    requires Reached(Solo(Marked(7), BUSY, status, {}, acts, worker, str))
    ensures Reached(Solo(Accepted(7), BUSY, status, {7}, acts, worker, str))
  {
    var w := Solo(Marked(7), BUSY, status, {}, acts, worker, str);
    Extend(w, EnqueueRun(1));
    assert Apply(w, EnqueueRun(1)) == Solo(Accepted(7), BUSY, status, {7}, acts, worker, str);
  }

  lemma TakeJob(status: RunStatus, acts: Actors, str: set<RunId>)
    requires Reached(Solo(Accepted(7), BUSY, status, {7}, acts, map[], str)) && 1 !in acts
    ensures Reached(Solo(Accepted(7), BUSY, status, {}, acts[1 := Actor(7, RunEntry, NoCall)], map[7 := 1], str))
  {
    var w := Solo(Accepted(7), BUSY, status, {7}, acts, map[], str);
    Extend(w, TakeRunJob(1, 7));
    assert Apply(w, TakeRunJob(1, 7))
        == Solo(Accepted(7), BUSY, status, {}, acts[1 := Actor(7, RunEntry, NoCall)], map[7 := 1], str);
  }

  lemma Work(status: RunStatus, acts: Actors, c: Choice, str: set<RunId>, status': RunStatus, a': Actor)
    requires Reached(Solo(Accepted(7), BUSY, status, {}, acts, map[7 := 1], str))
    requires 1 in acts && acts[1].call.NoCall? && acts[1].run == 7 && !acts[1].pc.RunEnqueueSync?
    requires var st := Solo(Accepted(7), BUSY, status, {}, acts, map[7 := 1], str).st;
      Next(st, acts[1], c) == (st.(runs := map[7 := RunRow(status', false)]), a')
    ensures var stranded := if acts[1].pc.RunFail? && status == Canceled then str + {7} else str;
      Reached(Solo(Accepted(7), BUSY, status', {}, acts[1 := a'], map[7 := 1], stranded))
  {
    var w := Solo(Accepted(7), BUSY, status, {}, acts, map[7 := 1], str);
    Extend(w, Advance(1, c));
    var stranded := if acts[1].pc.RunFail? && status == Canceled then str + {7} else str;
    assert Apply(w, Advance(1, c)) == Solo(Accepted(7), BUSY, status', {}, acts[1 := a'], map[7 := 1], stranded);
  }

  // The two ways into Stuck. First: the run is canceled, and the cancellation
  // handled, before the submission marks its session.
  lemma CancelBeforeMarkingStrands()
    ensures exists w :: Reached(w) && Stuck(w)
  {
    EarlyCancel();
    var acts := map[0 := Actor(7, Done, NoCall)];
    Mark(Canceled, acts, map[], {7});
    Enqueue(Canceled, acts, map[], {7});
    TakeJob(Canceled, acts, {7});
    Work(Canceled, acts[1 := Actor(7, RunEntry, NoCall)], Proceed, {7}, Canceled, Actor(7, Done, NoCall));
    DoneIsStuck(acts[1 := Actor(7, RunEntry, NoCall)][1 := Actor(7, Done, NoCall)]);
  }

  lemma EarlyCancel()
    ensures Reached(Solo(Created(7), IDLE, Canceled, {}, map[0 := Actor(7, Done, NoCall)], map[], {7}))
  {
    Admit();
    EarlyCancelSteps();
    var w := Solo(Created(7), IDLE, Queued, {}, map[], map[], {});
    Extend(w, Cancel(0, 7));
    Extend(Apply(w, Cancel(0, 7)), Handle(0, "s"));
  }

  lemma EarlyCancelSteps()
    ensures var w := Solo(Created(7), IDLE, Queued, {}, map[], map[], {});
      Apply(Apply(w, Cancel(0, 7)), Handle(0, "s"))
      == Solo(Created(7), IDLE, Canceled, {}, map[0 := Actor(7, Done, NoCall)], map[], {7})
  {
    EarlyCancelHandled();
    var w := Solo(Created(7), IDLE, Queued, {}, map[], map[], {});
    assert CancelRun(w, 0, 7)
      == Solo(Created(7), IDLE, Canceled, {}, map[0 := Actor(7, Done, Find(Canceled))], map[], {});
  }

  lemma EarlyCancelHandled()
    ensures HandleAtOnce(Solo(Created(7), IDLE, Canceled, {}, map[0 := Actor(7, Done, Find(Canceled))], map[], {}),
      0, "s")
      == Solo(Created(7), IDLE, Canceled, {}, map[0 := Actor(7, Done, NoCall)], map[], {7})
  {
    var before, after := map[0 := Actor(7, Done, Find(Canceled))], map[0 := Actor(7, Done, NoCall)];
    assert before[0 := Actor(7, Done, NoCall)] == after;
  }

  // Second: the executor throws, and the cancellation lands between the catch
  // block's read of the status and its write.
  lemma CancelInCatchWindowStrands()
    ensures exists w :: Reached(w) && Stuck(w)
  {
    RunIsCanceledLate();
    var acts := map[1 := Actor(7, RunFail, NoCall)];
    Work(Canceled, acts, Proceed, {}, Canceled, Actor(7, Done, NoCall));
    assert {} + {7} == {7};
    DoneIsStuck(acts[1 := Actor(7, Done, NoCall)]);
  }

  lemma RunIsCanceledLate()
    ensures Reached(Solo(Accepted(7), BUSY, Canceled, {}, map[1 := Actor(7, RunFail, NoCall)], map[7 := 1], {}))
  {
    RunFails();
    CancelRunning(map[1 := Actor(7, RunFail, NoCall)]);
  }

  lemma DoneIsStuck(acts: Actors)
    requires forall id | id in acts :: acts[id] == Actor(7, Done, NoCall)
    ensures Stuck(Solo(Accepted(7), BUSY, Canceled, {}, acts, map[7 := 1], {7}))
  {
  }

  lemma CancelRunning(acts: Actors)
    requires Reached(Solo(Accepted(7), BUSY, Running, {}, acts, map[7 := 1], {})) && 2 !in acts
    ensures Reached(Solo(Accepted(7), BUSY, Canceled, {}, acts, map[7 := 1], {}))
  {
    var w := Solo(Accepted(7), BUSY, Running, {}, acts, map[7 := 1], {});
    Extend(w, Cancel(2, 7));
    assert CancelRun(w, 2, 7) == Solo(Accepted(7), BUSY, Canceled, {}, acts, map[7 := 1], {});
  }

  lemma RunFails()
    ensures Reached(Solo(Accepted(7), BUSY, Running, {}, map[1 := Actor(7, RunFail, NoCall)], map[7 := 1], {}))
  {
    RunStarts();
    var acts := map[1 := Actor(7, RunPrepare, NoCall)];
    Work(Running, acts, Throw, {}, Running, Actor(7, RunCatch, NoCall));
    assert acts[1 := Actor(7, RunCatch, NoCall)] == map[1 := Actor(7, RunCatch, NoCall)];
    Work(Running, map[1 := Actor(7, RunCatch, NoCall)], Proceed, {}, Running, Actor(7, RunFail, NoCall));
    assert map[1 := Actor(7, RunCatch, NoCall)][1 := Actor(7, RunFail, NoCall)] == map[1 := Actor(7, RunFail, NoCall)];
  }

  lemma RunStarts()
    ensures Reached(Solo(Accepted(7), BUSY, Running, {}, map[1 := Actor(7, RunPrepare, NoCall)], map[7 := 1], {}))
  {
    RunIsChecked();
    var start, found := Actor(7, RunStart, NoCall), Actor(7, RunPrepare, Find(Running));
    assert map[7 := RunRow(Queued, false)][7 := RunRow(Running, false)] == map[7 := RunRow(Running, false)];
    Work(Queued, map[1 := start], Proceed, {}, Running, found);
    assert map[1 := start][1 := found] == map[1 := found];
    RunHandled();
  }

  lemma RunIsChecked()
    ensures Reached(Solo(Accepted(7), BUSY, Queued, {}, map[1 := Actor(7, RunStart, NoCall)], map[7 := 1], {}))
  {
    RunIsTaken();
    var entry, start := Actor(7, RunEntry, NoCall), Actor(7, RunStart, NoCall);
    Work(Queued, map[1 := entry], Proceed, {}, Queued, start);
    assert map[1 := entry][1 := start] == map[1 := start];
  }

  lemma RunIsTaken()
    ensures Reached(Solo(Accepted(7), BUSY, Queued, {}, map[1 := Actor(7, RunEntry, NoCall)], map[7 := 1], {}))
  {
    Admit();
    Mark(Queued, map[], map[], {});
    Enqueue(Queued, map[], map[], {});
    TakeJob(Queued, map[], {});
  }

  lemma RunHandled()
    requires Reached(Solo(Accepted(7), BUSY, Running, {}, map[1 := Actor(7, RunPrepare, Find(Running))], map[7 := 1],
      {}))
    ensures Reached(Solo(Accepted(7), BUSY, Running, {}, map[1 := Actor(7, RunPrepare, NoCall)], map[7 := 1], {}))
  {
    var w := Solo(Accepted(7), BUSY, Running, {}, map[1 := Actor(7, RunPrepare, Find(Running))], map[7 := 1], {});
    Extend(w, Handle(1, "s"));
    RunningIsHandled();
  }

  lemma RunningIsHandled()
    ensures HandleAtOnce(Solo(Accepted(7), BUSY, Running, {}, map[1 := Actor(7, RunPrepare, Find(Running))],
      map[7 := 1], {}), 1, "s")
        == Solo(Accepted(7), BUSY, Running, {}, map[1 := Actor(7, RunPrepare, NoCall)], map[7 := 1], {})
  {
  }

  lemma ReachedIsReachable(w: World)
    requires Reached(w)
    ensures Reachable(w)
  {
    assert Initial(Start());
  }

  lemma ExtendAny(w: World, l: Label)
    requires Reachable(w)
    ensures Reachable(Apply(w, l))
  {
    var w0, ls :| Initial(w0) && w == Run(w0, ls);
    assert (ls + [l])[..|ls|] == ls;
    assert Apply(w, l) == Run(w0, ls + [l]);
  }

  // A lock that expires lets a second run start while the first is live.
  lemma ExpiryAllowsTwoLiveRuns()
    ensures exists w :: Reachable(w) && LiveRunOf(w, 7, "c") && LiveRunOf(w, 8, "c")
  {
    SecondAdmitted();
    TwoAdmissionsReachable();
  }

  lemma TwoAdmissionsReachable()
    ensures var w1 := ExpireLock(Solo(Created(7), IDLE, Queued, {}, map[], map[], {}), "c");
      Reachable(CreateGroupRun(TryLock(w1, 2, "c", "s", true), 2, 8))
  {
    ExpiredReachable();
    var w1 := ExpireLock(Solo(Created(7), IDLE, Queued, {}, map[], map[], {}), "c");
    var w2 := TryLock(w1, 2, "c", "s", true);
    ExtendAny(w1, AcquireLock(2, "c", "s", true));
    ExtendAny(w2, CreateRun(2, 8));
  }

  lemma ExpiredReachable()
    ensures Reachable(ExpireLock(Solo(Created(7), IDLE, Queued, {}, map[], map[], {}), "c"))
  {
    Admit();
    var w := Solo(Created(7), IDLE, Queued, {}, map[], map[], {});
    ReachedIsReachable(w);
    ExtendAny(w, Expire("c"));
  }

  lemma SecondAdmitted()
    ensures var w1 := ExpireLock(Solo(Created(7), IDLE, Queued, {}, map[], map[], {}), "c");
      var w3 := CreateGroupRun(TryLock(w1, 2, "c", "s", true), 2, 8);
      LiveRunOf(w3, 7, "c") && LiveRunOf(w3, 8, "c")
  {
  }

  // ---- handling interrupted between its awaits

  // Run 7 is canceled while it waits, and that is handled up to the release of
  // the lock. Run 8 is admitted and its session marked; only then is the session
  // of run 7 updated, which by now is run 8's. Run 8 is canceled in turn, and its
  // own handling finds no session.
  const Overtaken: seq<Label> := [
    AcquireLock(1, "c", "s", true), CreateRun(1, 7), MarkRun(1), EnqueueRun(1),
    Cancel(0, 7), HandlePart(0, "s"), HandlePart(0, "s"),
    AcquireLock(2, "c", "s", true), CreateRun(2, 8), MarkRun(2),
    HandlePart(0, "s"),
    EnqueueRun(2), Cancel(1, 8), HandlePart(1, "s")]

  type Statuses = map<RunId, RunRow>

  function Chat(holder: Token, row: SessionRow, runs: Statuses, jobs: set<RunId>, subs: map<Token, Submission>,
                actors: map<ActorId, Actor>, origin: map<RunId, Token>, erased: set<RunId>): World {
    World(Store(if holder == 0 then map[] else map["c" := holder], map["s" := row], runs, jobs, {}), {},
          subs, actors, origin, map[], map[], {}, {}, erased, {})
  }

  function Sub(phase: Phase): Submission { Submission("c", "s", true, phase) }

  const Waits := RunRow(Queued, false)
  const Ended := RunRow(Canceled, false)
  const Second := SessionRow("c", Busy, Some(8), Some(2))

  function FirstFound(): Actor { Actor(7, Done, Unlock("s", "c", Some(1), Canceled)) }

  function FirstClosing(): Actor { Actor(7, Done, Close("s", Canceled)) }

  // One more label of the sequence.
  lemma Then(n: nat, w: World, w': World)
    requires 0 < n <= |Overtaken| && Run(Start(), Overtaken[..n - 1]) == w && Apply(w, Overtaken[n - 1]) == w'
    ensures Run(Start(), Overtaken[..n]) == w'
  {
    assert Overtaken[..n][..n - 1] == Overtaken[..n - 1];
  }

  const Done7 := Actor(7, Done, NoCall)
  const Find7 := Actor(7, Done, Find(Canceled))
  const Find8 := Actor(8, Done, Find(Canceled))

  function Admitted7(phase: Phase): map<Token, Submission> { map[1 := Sub(phase)] }

  function Admitted8(phase: Phase): map<Token, Submission> { map[1 := Sub(Accepted(7)), 2 := Sub(phase)] }

  // The worlds passed, in order.
  function World1(): World { Chat(1, IDLE, map[], {}, Admitted7(Deciding), map[], map[], {}) }
  function World2(): World { Chat(1, IDLE, map[7 := Waits], {}, Admitted7(Created(7)), map[], map[7 := 1], {}) }
  function World3(): World { Chat(1, BUSY, map[7 := Waits], {}, Admitted7(Marked(7)), map[], map[7 := 1], {}) }
  function World4(): World { Chat(1, BUSY, map[7 := Waits], {7}, Admitted7(Accepted(7)), map[], map[7 := 1], {}) }
  function World5(): World {
    Chat(1, BUSY, map[7 := Ended], {}, Admitted7(Accepted(7)), map[0 := Find7], map[7 := 1], {})
  }
  function World6(): World {
    Chat(1, BUSY, map[7 := Ended], {}, Admitted7(Accepted(7)), map[0 := FirstFound()], map[7 := 1], {})
  }
  function World7(): World {
    Chat(0, BUSY, map[7 := Ended], {}, Admitted7(Accepted(7)), map[0 := FirstClosing()], map[7 := 1], {})
  }
  function World8(): World {
    Chat(2, BUSY, map[7 := Ended], {}, Admitted8(Deciding), map[0 := FirstClosing()], map[7 := 1], {})
  }

  function After8(row: SessionRow, status: RunRow, jobs: set<RunId>, phase: Phase, actors: map<ActorId, Actor>,
      erased: set<RunId>): World {
    Chat(2, row, map[7 := Ended, 8 := status], jobs, Admitted8(phase), actors, map[7 := 1, 8 := 2], erased)
  }

  function World9(): World { After8(BUSY, Waits, {}, Created(8), map[0 := FirstClosing()], {}) }
  function World10(): World { After8(Second, Waits, {}, Marked(8), map[0 := FirstClosing()], {}) }
  function World11(): World { After8(IDLE, Waits, {}, Marked(8), map[0 := Done7], {8}) }
  function World12(): World { After8(IDLE, Waits, {8}, Accepted(8), map[0 := Done7], {8}) }
  function World13(): World { After8(IDLE, Ended, {}, Accepted(8), map[0 := Done7, 1 := Find8], {8}) }
  function World14(): World { After8(IDLE, Ended, {}, Accepted(8), map[0 := Done7, 1 := Actor(8, Done, NoCall)], {8}) }

  lemma Step1() ensures Apply(Start(), Overtaken[0]) == World1() {}
  lemma Step2() ensures Apply(World1(), Overtaken[1]) == World2() {}
  lemma Step3() ensures Apply(World2(), Overtaken[2]) == World3() {}
  lemma Step4() ensures Apply(World3(), Overtaken[3]) == World4() {}

  lemma Step5()
    ensures Apply(World4(), Overtaken[4]) == World5()
  {
    assert map[7 := Waits][7 := Ended] == map[7 := Ended] && {7} - {7} == {};
  }

  lemma Step6()
    ensures Apply(World5(), Overtaken[5]) == World6()
  {
    assert PointsTo(World5().st, "s", 7);
    assert map[0 := Find7][0 := FirstFound()] == map[0 := FirstFound()];
  }

  lemma Step7()
    ensures Apply(World6(), Overtaken[6]) == World7()
  {
    assert map[0 := FirstFound()][0 := FirstClosing()] == map[0 := FirstClosing()];
  }

  lemma Step8() ensures Apply(World7(), Overtaken[7]) == World8() {}

  lemma Step9()
    ensures Apply(World8(), Overtaken[8]) == World9()
  {
    assert map[7 := Ended][8 := Waits] == map[7 := Ended, 8 := Waits] && map[7 := 1][8 := 2] == map[7 := 1, 8 := 2];
    assert Admitted8(Deciding)[2 := Sub(Created(8))] == Admitted8(Created(8));
  }

  lemma Step10()
    ensures Apply(World9(), Overtaken[9]) == World10()
  {
    assert Admitted8(Created(8))[2 := Sub(Marked(8))] == Admitted8(Marked(8));
    assert World9().actors[0].call.Close?;
    assert Found(World9().actors, 7);
  }

  lemma Step11()
    ensures Apply(World10(), Overtaken[10]) == World11()
  {
    assert !Found(World10().actors, 8);
    assert Erases(World10(), 0);
    assert map[0 := FirstClosing()][0 := Done7] == map[0 := Done7] && {} + {8} == {8};
  }

  lemma Step12()
    ensures Apply(World11(), Overtaken[11]) == World12()
  {
    assert Admitted8(Marked(8))[2 := Sub(Accepted(8))] == Admitted8(Accepted(8));
  }

  lemma Step13()
    ensures Apply(World12(), Overtaken[12]) == World13()
  {
    assert map[7 := Ended, 8 := Waits][8 := Ended] == map[7 := Ended, 8 := Ended] && {8} - {8} == {};
  }

  lemma Step14()
    ensures Apply(World13(), Overtaken[13]) == World14()
  {
    assert Unfound(World13().st, 8);
    assert map[0 := Done7, 1 := Find8][1 := Actor(8, Done, NoCall)] == map[0 := Done7, 1 := Actor(8, Done, NoCall)];
  }

  lemma FirstHalf()
    ensures Run(Start(), Overtaken[..7]) == World7()
  {
    Step1(); Step2(); Step3(); Step4(); Step5(); Step6(); Step7();
    assert Run(Start(), Overtaken[..0]) == Start();
    Then(1, Start(), World1());
    Then(2, World1(), World2());
    Then(3, World2(), World3());
    Then(4, World3(), World4());
    Then(5, World4(), World5());
    Then(6, World5(), World6());
    Then(7, World6(), World7());
  }

  lemma ThirdQuarter()
    ensures Run(Start(), Overtaken[..10]) == World10()
  {
    FirstHalf();
    Step8(); Step9(); Step10();
    Then(8, World7(), World8());
    Then(9, World8(), World9());
    Then(10, World9(), World10());
  }

  lemma WholeSequence()
    ensures Run(Start(), Overtaken) == World14()
  {
    ThirdQuarter();
    Step11(); Step12(); Step13(); Step14();
    Then(11, World10(), World11());
    Then(12, World11(), World12());
    Then(13, World12(), World13());
    Then(14, World13(), World14());
    assert Overtaken[..14] == Overtaken;
  }

  // At rest and without any expiry, nothing is stranded and the session points
  // at no run, but the chat stays locked by the token of a run that has ended.
  lemma OvertakenRunStaysLocked()
    ensures Initial(Start()) && NoExpiry(Overtaken)
    ensures var w := Run(Start(), Overtaken);
      && Quiescent(w) && w.stranded == {} && w.erased == {8}
      && w.st.sessions == map["s" := IDLE] && w.st.locks == map["c" := 2]
      && w.origin == map[7 := 1, 8 := 2] && w.subs == Admitted8(Accepted(8))
      && HasStatus(w.st, 7, Canceled) && HasStatus(w.st, 8, Canceled)
  {
    WholeSequence();
    WorldAtRest();
  }

  lemma WorldAtRest()
    ensures Quiescent(World14())
  {
  }
}
