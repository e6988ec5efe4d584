// No state is a dead end: every reachable world can be brought to rest.
module GroupProtocolRest {
  import opened Prelude
  import opened RunStatuses
  import opened GroupStores
  import opened GroupProtocol
  import opened GroupProtocolSafety
  import opened GroupProtocolClosing
  import opened GroupProtocolProgress

  ghost predicate Leads(w: World, w': World) { exists ls :: NoExpiry(ls) && w' == Run(w, ls) }

  lemma {:induction false} RunConcat(w: World, a: seq<Label>, b: seq<Label>)
    ensures Run(w, a + b) == Run(Run(w, a), b)
  {
    if b == [] {
      assert a + b == a;
    } else {
      assert (a + b)[..|a + b| - 1] == a + b[..|b| - 1];
      RunConcat(w, a, b[..|b| - 1]);
    }
  }

  lemma LeadsOn(w: World, w1: World, w2: World)
    requires Leads(w, w1) && Leads(w1, w2)
    ensures Leads(w, w2)
  {
    var a :| NoExpiry(a) && w1 == Run(w, a);
    var b :| NoExpiry(b) && w2 == Run(w1, b);
    RunConcat(w, a, b);
    assert NoExpiry(a + b);
  }

  lemma LeadsNowhere(w: World)
    ensures Leads(w, w)
  {
    assert NoExpiry([]) && w == Run(w, []);
  }

  lemma LeadsOneStep(w: World, l: Label)
    requires !l.Expire?
    ensures Leads(w, Apply(w, l))
  {
    assert [l][..0] == [];
    assert NoExpiry([l]) && Apply(w, l) == Run(w, [l]);
  }

  // ---- submissions run to their end

  predicate Settled(s: Submission) { s.phase.Accepted? || s.phase.Released? }

  function Unsettled(subs: Subs): set<Token> { set t | t in subs && !Settled(subs[t]) }

  // Only submission t moved, and it came closer to its end.
  ghost predicate Closer(subs: Subs, subs': Subs, t: Token) {
    && subs'.Keys == subs.Keys && t in subs
    && (forall u | u in subs && u != t :: subs'[u] == subs[u])
    && PhaseLeft(subs'[t].phase) < PhaseLeft(subs[t].phase)
  }

  // The next label of a submission that is not settled.
  lemma SubmissionMoves(w: World, t: Token) returns (l: Label)
    requires Inv(w) && t in w.subs && !Settled(w.subs[t])
    ensures SubmissionLabel(l) && Closer(w.subs, Apply(w, l).subs, t)
  {
    match w.subs[t].phase {
      case Deciding =>
        var r := Unused(w.st.runs.Keys);
        l := CreateRun(t, r);
      case Created(_) => l := MarkRun(t);
      case _ => l := EnqueueRun(t);
    }
  }

  function PhaseLeft(p: Phase): nat {
    match p
    case Deciding => 3
    case Created(_) => 2
    case Marked(_) => 1
    case _ => 0
  }

  lemma {:induction false} SubmissionSettles(w: World, t: Token) returns (w': World)
    requires Inv(w) && t in w.subs
    ensures Leads(w, w') && Inv(w')
    ensures w'.subs.Keys == w.subs.Keys && forall u | u in w.subs && u != t :: w'.subs[u] == w.subs[u]
    ensures Settled(w'.subs[t])
    decreases PhaseLeft(w.subs[t].phase)
  {
    if Settled(w.subs[t]) {
      w' := w;
      LeadsNowhere(w);
    } else {
      var l := SubmissionMoves(w, t);
      var w1 := Apply(w, l);
      LeadsOneStep(w, l);
      StepKeeps(w, l);
      w' := SubmissionSettles(w1, t);
      LeadsOn(w, w1, w');
    }
  }

  lemma OneSettled(subs: Subs, subs': Subs, t: Token)
    requires subs'.Keys == subs.Keys && t in subs && !Settled(subs[t]) && Settled(subs'[t])
    requires forall u | u in subs && u != t :: subs'[u] == subs[u]
    ensures Unsettled(subs') == Unsettled(subs) - {t} && t in Unsettled(subs)
  {
  }

  lemma {:induction false} AllSettle(w: World) returns (w': World)
    requires Inv(w)
    ensures Leads(w, w') && Inv(w') && Unsettled(w'.subs) == {}
    decreases |Unsettled(w.subs)|
  {
    if Unsettled(w.subs) == {} {
      w' := w;
      LeadsNowhere(w);
    } else {
      var t :| t in Unsettled(w.subs);
      var w1 := SubmissionSettles(w, t);
      OneSettled(w.subs, w1.subs, t);
      w' := AllSettle(w1);
      LeadsOn(w, w1, w');
    }
  }

  // ---- jobs find workers

  lemma {:induction false} RunJobsAreTaken(w: World) returns (w': World)
    ensures Leads(w, w') && w'.subs == w.subs && w'.st.runJobs == {}
    decreases |w.st.runJobs|
  {
    if w.st.runJobs == {} {
      w' := w;
      LeadsNowhere(w);
    } else {
      var r :| r in w.st.runJobs;
      var id := Unused(w.actors.Keys);
      var w1 := Apply(w, TakeRunJob(id, r));
      LeadsOneStep(w, TakeRunJob(id, r));
      w' := RunJobsAreTaken(w1);
      LeadsOn(w, w1, w');
    }
  }

  lemma {:induction false} SyncJobsAreTaken(w: World) returns (w': World)
    requires OnlySyncing(w.actors)
    ensures Leads(w, w') && w'.subs == w.subs && w'.st.runJobs == w.st.runJobs && w'.st.syncJobs == {}
    ensures OnlySyncing(w'.actors)
    decreases |w.st.syncJobs|
  {
    if w.st.syncJobs == {} {
      w' := w;
      LeadsNowhere(w);
    } else {
      var r :| r in w.st.syncJobs;
      var id := Unused(w.actors.Keys);
      var w1 := Apply(w, TakeSyncJob(id, r));
      LeadsOneStep(w, TakeSyncJob(id, r));
      w' := SyncJobsAreTaken(w1);
      LeadsOn(w, w1, w');
    }
  }

  // ---- actors run to their end

  predicate Finished(a: Actor) { a.pc.Done? && a.call.NoCall? }

  predicate SyncPath(pc: Pc) { pc.SyncEntry? || pc.SyncFinish? || pc.Done? }

  // No run worker is under way, so no artifact job can be added.
  ghost predicate OnlySyncing(actors: Actors) { forall id :: id in actors ==> SyncPath(actors[id].pc) }

  function Unfinished(actors: Actors): set<ActorId> { set id | id in actors && !Finished(actors[id]) }

  // An actor's own step moves nothing else that matters for rest.
  ghost predicate MovesOnly(w: World, w': World, id: ActorId) {
    && w'.subs == w.subs && w'.st.runJobs == w.st.runJobs && w'.actors.Keys == w.actors.Keys
    && (forall i :: i in w.actors && i != id ==> w'.actors[i] == w.actors[i])
    && (id in w.actors && SyncPath(w.actors[id].pc) ==> w'.st.syncJobs == w.st.syncJobs && SyncPath(w'.actors[id].pc))
  }

  lemma AdvanceMovesOnly(w: World, id: ActorId, c: Choice)
    requires id in w.actors
    ensures MovesOnly(w, AdvanceActor(w, id, c), id)
  {
    if w.actors[id].call.NoCall? { NextFacts(w.st, w.actors[id], c); }
  }

  lemma AwaitMovesOnly(w: World, id: ActorId, x: SessionId)
    requires id in w.actors
    ensures MovesOnly(w, HandleStep(w, id, x), id)
  {
    AwaitActs(w, id, x);
  }

  lemma {:induction false} ActorFinishes(w: World, id: ActorId) returns (w': World)
    requires id in w.actors
    ensures Leads(w, w') && MovesOnly(w, w', id) && id in w'.actors && Finished(w'.actors[id])
    decreases StepsLeft(w.actors[id])
  {
    if Finished(w.actors[id]) {
      w' := w;
      LeadsNowhere(w);
    } else {
      var w1 := ActorMoves(w, id);
      w' := ActorFinishes(w1, id);
      LeadsOn(w, w1, w');
    }
  }

  lemma ActorMoves(w: World, id: ActorId) returns (w': World)
    requires id in w.actors && !Finished(w.actors[id])
    ensures Leads(w, w') && MovesOnly(w, w', id) && id in w'.actors
    ensures StepsLeft(w'.actors[id]) < StepsLeft(w.actors[id])
  {
    var a := w.actors[id];
    if a.call.NoCall? {
      NextGetsCloser(w.st, a, Proceed);
      AdvanceMovesOnly(w, id, Proceed);
      LeadsOneStep(w, Advance(id, Proceed));
      w' := AdvanceActor(w, id, Proceed);
    } else {
      var x: SessionId := "";
      if !Unfound(w.st, a.run) {
        x :| PointsTo(w.st, x, a.run);
      }
      HandlingGetsCloser(w.st, a, x);
      AwaitMovesOnly(w, id, x);
      AwaitActs(w, id, x);
      LeadsOneStep(w, HandlePart(id, x));
      w' := HandleStep(w, id, x);
    }
  }

  lemma {:induction false} AllFinish(w: World) returns (w': World)
    ensures Leads(w, w') && w'.subs == w.subs && w'.st.runJobs == w.st.runJobs && Unfinished(w'.actors) == {}
    ensures OnlySyncing(w.actors) ==> w'.st.syncJobs == w.st.syncJobs
    decreases |Unfinished(w.actors)|
  {
    if Unfinished(w.actors) == {} {
      w' := w;
      LeadsNowhere(w);
    } else {
      var id :| id in Unfinished(w.actors);
      var w1 := ActorFinishes(w, id);
      assert Unfinished(w1.actors) == Unfinished(w.actors) - {id};
      w' := AllFinish(w1);
      LeadsOn(w, w1, w');
    }
  }

  // ---- rest

  // From every state that any interleaving can reach, with any expiries, some
  // further steps without expiry bring everything to rest.
  lemma EveryRunCanComeToRest(w: World)
    requires Reachable(w)
    ensures exists ls :: NoExpiry(ls) && Quiescent(Run(w, ls))
  {
    ReachableInv(w);
    var w1 := AllSettle(w);
    var w2 := RunJobsAreTaken(w1);
    LeadsOn(w, w1, w2);
    var w3 := AllFinish(w2);
    LeadsOn(w, w2, w3);
    AllDoneIsOnlySyncing(w3.actors);
    var w4 := SyncJobsAreTaken(w3);
    LeadsOn(w, w3, w4);
    var w5 := AllFinish(w4);
    LeadsOn(w, w4, w5);
    RestIsQuiescent(w5);
  }

  lemma AllDoneIsOnlySyncing(actors: Actors)
    requires Unfinished(actors) == {}
    ensures OnlySyncing(actors)
  {
    forall id | id in actors ensures SyncPath(actors[id].pc) {
      assert id !in Unfinished(actors);
    }
  }

  lemma RestIsQuiescent(w: World)
    requires Unsettled(w.subs) == {} && Unfinished(w.actors) == {} && w.st.runJobs == {} && w.st.syncJobs == {}
    ensures Quiescent(w)
  {
    forall id | id in w.actors ensures Finished(w.actors[id]) {
      assert id !in Unfinished(w.actors);
    }
    forall t | t in w.subs ensures Settled(w.subs[t]) {
      assert t !in Unsettled(w.subs);
    }
  }
}
