// Every worker path ends: an actor takes a bounded number of steps, whatever
// happens around it, and until it is done it can always take one.
module GroupProtocolProgress {
  import opened Prelude
  import opened RunStatuses
  import opened GroupStores
  import opened GroupProtocol

  // Steps of the path still ahead, not counting status handling.
  function PathLeft(pc: Pc): nat {
    match pc
    case RunEntry => 8
    case RunStart => 7
    case RunPrepare => 6
    case RunExecute => 5
    case RunCheckSucceeded(_) => 4
    case RunCheckCanceled => 4
    case RunSyncing(_) => 3
    case RunCancel => 3
    case RunTimeout => 3
    case RunRepoFail => 3
    case RunCatch => 2
    case SyncEntry => 2
    case RunFail => 1
    case RunEnqueueSync => 1
    case SyncFinish(_) => 1
    case Done => 0
  }

  function CallLeft(c: Call): nat {
    match c
    case NoCall => 0
    case Find(_) => 3
    case Unlock(_, _, _, _) => 2
    case Close(_, _) => 1
    case Touch(_) => 1
  }

  function StepsLeft(a: Actor): nat { 4 * PathLeft(a.pc) + CallLeft(a.call) }

  ghost predicate StepOf(l: Label, id: ActorId) {
    (l.Advance? || l.Handle? || l.HandlePart?) && l.actor == id
  }

  lemma NextGetsCloser(st: Store, a: Actor, c: Choice)
    requires a.call.NoCall?
    ensures Next(st, a, c).1 == a || StepsLeft(Next(st, a, c).1) < StepsLeft(a)
    ensures !a.pc.Done? ==> Next(st, a, c).1 != a
  {
  }

  lemma HandlingGetsCloser(st: Store, a: Actor, x: SessionId)
    ensures Whole(st, a, x).1 == a || StepsLeft(Whole(st, a, x).1) < StepsLeft(a)
    ensures Part(st, a, x).1 == a || StepsLeft(Part(st, a, x).1) < StepsLeft(a)
    ensures !a.call.NoCall? && (PointsTo(st, x, a.run) || Unfound(st, a.run)) ==> Part(st, a, x).1 != a
  {
  }

  lemma OthersLeaveActors(w: World, l: Label, id: ActorId)
    requires id in w.actors && !StepOf(l, id)
    ensures id in Apply(w, l).actors && Apply(w, l).actors[id] == w.actors[id]
  {
  }

  lemma OwnStepGetsCloser(w: World, l: Label, id: ActorId)
    requires id in w.actors && StepOf(l, id)
    ensures id in Apply(w, l).actors
    ensures Apply(w, l).actors[id] == w.actors[id] || StepsLeft(Apply(w, l).actors[id]) < StepsLeft(w.actors[id])
  {
    match l {
      case Advance(_, c) => if w.actors[id].call.NoCall? { NextGetsCloser(w.st, w.actors[id], c); }
      case Handle(_, x) => HandlingGetsCloser(w.st, w.actors[id], x);
      case HandlePart(_, x) => HandlingGetsCloser(w.st, w.actors[id], x);
    }
  }

  lemma {:induction false} ActorsStay(w: World, ls: seq<Label>, id: ActorId)
    requires id in w.actors
    ensures id in Run(w, ls).actors
  {
    if ls != [] {
      var before, l := ls[..|ls| - 1], ls[|ls| - 1];
      ActorsStay(w, before, id);
      if StepOf(l, id) { OwnStepGetsCloser(Run(w, before), l, id); } else { OthersLeaveActors(Run(w, before), l, id); }
    }
  }

  // How often an actor really moves along a run of the system.
  ghost function Moves(w: World, ls: seq<Label>, id: ActorId): nat
    requires id in w.actors
  {
    if ls == [] then 0
    else
      var before := ls[..|ls| - 1];
      ActorsStay(w, before, id);
      ActorsStay(w, ls, id);
      Moves(w, before, id) + if Run(w, ls).actors[id] == Run(w, before).actors[id] then 0 else 1
  }

  // In every interleaving each worker, each artifact worker and each
  // cancellation is over after a bounded number of its own moves.
  lemma {:induction false} EveryActorEnds(w: World, ls: seq<Label>, id: ActorId)
    requires id in w.actors
    ensures id in Run(w, ls).actors
    ensures Moves(w, ls, id) + StepsLeft(Run(w, ls).actors[id]) <= StepsLeft(w.actors[id]) <= 35
  {
    ActorsStay(w, ls, id);
    if ls != [] {
      var before, l := ls[..|ls| - 1], ls[|ls| - 1];
      EveryActorEnds(w, before, id);
      if StepOf(l, id) { OwnStepGetsCloser(Run(w, before), l, id); } else { OthersLeaveActors(Run(w, before), l, id); }
    }
  }

  // Until it is over, some step moves it: nothing an actor waits for is missing.
  lemma AnActorCanAlwaysMove(w: World, id: ActorId)
    requires id in w.actors && !(w.actors[id].pc.Done? && w.actors[id].call.NoCall?)
    ensures exists l :: StepOf(l, id) && id in Apply(w, l).actors && Apply(w, l).actors[id] != w.actors[id]
  {
    var a := w.actors[id];
    if a.call.NoCall? {
      NextGetsCloser(w.st, a, Proceed);
      assert StepOf(Advance(id, Proceed), id) && Apply(w, Advance(id, Proceed)).actors[id] != a;
    } else {
      var x: SessionId := "";
      if !Unfound(w.st, a.run) {
        x :| PointsTo(w.st, x, a.run);
      }
      HandlingGetsCloser(w.st, a, x);
      assert StepOf(HandlePart(id, x), id) && Apply(w, HandlePart(id, x)).actors[id] != a;
    }
  }
}
