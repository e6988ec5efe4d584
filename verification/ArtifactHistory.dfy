// What any sequence of runs, syncs and retries keeps of the artifacts, and how
// often each of them is written to Feishu.
module ArtifactHistory {
  import opened Prelude
  import opened Text
  import opened Artifacts

  // One output of a run synced, or one artifact synced again.
  datatype Step = SyncOutput(project: string, output: Output, world: World) | SyncAgain(id: nat, world: World)

  function Do(s: Store, h: Hash, step: Step): Store {
    match step
    case SyncOutput(project, o, w) =>
      var (t, id) := WithOutput(s, h, project, o);
      WithSync(t, id, w)
    case SyncAgain(id, w) => WithSync(s, id, w)
  }

  function DoAll(s: Store, h: Hash, steps: seq<Step>): Store
    decreases |steps|
  {
    if steps == [] then s else DoAll(Do(s, h, steps[0]), h, steps[1..])
  }

  const Empty := Store([], [])

  // A run is its outputs synced one after the other.
  function RunSteps(project: string, outputs: seq<Output>, worlds: seq<World>): seq<Step>
    requires |worlds| == |outputs|
    decreases |outputs|
  {
    if outputs == [] then []
      else [SyncOutput(project, outputs[0], worlds[0])] + RunSteps(project, outputs[1..], worlds[1..])
  }

  lemma {:induction false} RunIsItsOutputs(s: Store, h: Hash, project: string, outputs: seq<Output>, worlds: seq<World>)
    requires |worlds| == |outputs|
    ensures WithRun(s, h, project, outputs, worlds) == DoAll(s, h, RunSteps(project, outputs, worlds))
    decreases |outputs|
  {
    if outputs != [] {
      var first := SyncOutput(project, outputs[0], worlds[0]);
      var rest := RunSteps(project, outputs[1..], worlds[1..]);
      assert ([first] + rest)[0] == first && ([first] + rest)[1..] == rest;
      RunIsItsOutputs(Do(s, h, first), h, project, outputs[1..], worlds[1..]);
    }
  }

  // ---- what is kept

  // No two artifacts of one project, type and hash.
  ghost predicate Unique(s: Store) {
    forall i, j | 0 <= i < j < |s.artifacts| ::
      !Matches(s.artifacts[j], s.artifacts[i].project, s.artifacts[i].kind, s.artifacts[i].hash)
  }

  ghost predicate Kinds(s: Store) {
    && (forall i | 0 <= i < |s.artifacts| :: s.artifacts[i].kind == s.artifacts[i].output.kind)
    && (forall c | c in s.created :: c.artifact < |s.artifacts|)
  }

  ghost predicate Inv(s: Store) { Unique(s) && Kinds(s) }

  // An artifact later on: it is the same output, a final one has not changed at
  // all, and its status moved as the table allows.
  ghost predicate Follows(a: Artifact, b: Artifact) {
    && b.project == a.project && b.kind == a.kind && b.hash == a.hash && b.output == a.output
    && (Final(a.status) ==> b == a)
    && MayBecome(a.status, b.status)
  }

  ghost predicate Later(s: Store, t: Store) {
    && |s.artifacts| <= |t.artifacts|
    && (forall i | 0 <= i < |s.artifacts| :: Follows(s.artifacts[i], t.artifacts[i]))
  }

  lemma OutcomeFollows(a: Artifact, id: nat, w: World)
    ensures Follows(a, Outcome(a, id, w).0)
  {
  }

  lemma {:induction false} RowsAre(id: nat, n: nat)
    ensures |Rows(id, n)| == n && forall j | 0 <= j < n :: Rows(id, n)[j] == Creation(id, Task, j)
  {
    if n > 0 { RowsAre(id, n - 1); }
  }

  lemma MadeForIt(a: Artifact, id: nat, w: World)
    ensures forall j | 0 <= j < |MadeBy(a, id, w)| ::
      MadeBy(a, id, w)[j].artifact == id && MadeBy(a, id, w)[j].what == a.kind
  {
    if a.kind.Task? { RowsAre(id, RowsBy(a, w)); }
  }

  lemma SyncKeepsInv(s: Store, id: nat, w: World)
    requires Inv(s)
    ensures Inv(WithSync(s, id, w)) && Later(s, WithSync(s, id, w))
  {
    if id < |s.artifacts| {
      OutcomeFollows(s.artifacts[id], id, w);
      MadeForIt(s.artifacts[id], id, w);
    }
  }

  lemma OutputKeepsInv(s: Store, h: Hash, project: string, o: Output)
    requires Inv(s)
    ensures Inv(WithOutput(s, h, project, o).0) && Later(s, WithOutput(s, h, project, o).0)
  {
  }

  lemma LaterTransitive(s: Store, t: Store, u: Store)
    requires Later(s, t) && Later(t, u)
    ensures Later(s, u)
  {
    forall i | 0 <= i < |s.artifacts| ensures Follows(s.artifacts[i], u.artifacts[i]) {
      assert Follows(s.artifacts[i], t.artifacts[i]) && Follows(t.artifacts[i], u.artifacts[i]);
    }
  }

  lemma StepKeepsInv(s: Store, h: Hash, step: Step)
    requires Inv(s)
    ensures Inv(Do(s, h, step)) && Later(s, Do(s, h, step))
  {
    match step {
      case SyncOutput(project, o, w) =>
        var (t, id) := WithOutput(s, h, project, o);
        OutputKeepsInv(s, h, project, o);
        SyncKeepsInv(t, id, w);
        LaterTransitive(s, t, WithSync(t, id, w));
      case SyncAgain(id, w) => SyncKeepsInv(s, id, w);
    }
  }

  lemma {:induction false} HistoryKeepsInv(s: Store, h: Hash, steps: seq<Step>)
    requires Inv(s)
    ensures Inv(DoAll(s, h, steps)) && Later(s, DoAll(s, h, steps))
    decreases |steps|
  {
    if steps != [] {
      StepKeepsInv(s, h, steps[0]);
      HistoryKeepsInv(Do(s, h, steps[0]), h, steps[1..]);
      LaterTransitive(s, Do(s, h, steps[0]), DoAll(s, h, steps));
    }
  }

  // Over every history and every failure of Feishu there is at most one
  // artifact per project, type and content hash.
  lemma OneArtifactPerHash(h: Hash, steps: seq<Step>)
    ensures var s := DoAll(Empty, h, steps);
      forall i, j | 0 <= i < |s.artifacts| && 0 <= j < |s.artifacts|
                    && s.artifacts[i].project == s.artifacts[j].project
                    && s.artifacts[i].kind == s.artifacts[j].kind && s.artifacts[i].hash == s.artifacts[j].hash
        :: i == j
  {
    HistoryKeepsInv(Empty, h, steps);
    var s := DoAll(Empty, h, steps);
    forall i, j | 0 <= i < j < |s.artifacts|
      ensures !Matches(s.artifacts[i], s.artifacts[j].project, s.artifacts[j].kind, s.artifacts[j].hash)
    {
      assert !Matches(s.artifacts[j], s.artifacts[i].project, s.artifacts[i].kind, s.artifacts[i].hash);
    }
  }

  // Synced and skipped artifacts never change again.
  lemma SyncedAndSkippedAreFinal(h: Hash, before: seq<Step>, after: seq<Step>)
    ensures Later(DoAll(Empty, h, before), DoAll(DoAll(Empty, h, before), h, after))
  {
    HistoryKeepsInv(Empty, h, before);
    HistoryKeepsInv(DoAll(Empty, h, before), h, after);
  }

  // ---- one artifact's attempts, taken out of a history

  function TargetOf(s: Store, h: Hash, step: Step): nat {
    match step
    case SyncOutput(project, o, _) => WithOutput(s, h, project, o).1
    case SyncAgain(id, _) => id
  }

  // The step syncs artifact i, and i is not final.
  predicate Tries(s: Store, h: Hash, step: Step, i: nat) {
    && TargetOf(s, h, step) == i
    && (i < |s.artifacts| ==> !Final(s.artifacts[i].status))
    && (i >= |s.artifacts| ==> step.SyncOutput?)
  }

  function Attempts(s: Store, h: Hash, steps: seq<Step>, i: nat): seq<World>
    decreases |steps|
  {
    if steps == [] then []
    else (if Tries(s, h, steps[0], i) then [steps[0].world] else []) + Attempts(Do(s, h, steps[0]), h, steps[1..], i)
  }

  function TryAll(a: Artifact, ws: seq<World>): Artifact
    decreases |ws|
  {
    if ws == [] then a else TryAll(Tried(a, ws[0]), ws[1..])
  }

  // None of the attempts but the last leaves the artifact final.
  predicate Open(a: Artifact, ws: seq<World>)
    decreases |ws|
  {
    ws == [] || (!Final(a.status) && Open(Tried(a, ws[0]), ws[1..]))
  }

  function MadeByAll(a: Artifact, id: nat, ws: seq<World>): seq<Creation>
    decreases |ws|
  {
    if ws == [] then [] else MadeBy(a, id, ws[0]) + MadeByAll(Tried(a, ws[0]), id, ws[1..])
  }

  function ForArtifact(i: nat): Creation -> bool { (c: Creation) => c.artifact == i }

  function CreatedFor(s: Store, i: nat): seq<Creation> { Filter(ForArtifact(i), s.created) }

  // An artifact as it was made.
  function Fresh(a: Artifact): Artifact { Artifact(a.project, a.kind, a.hash, Pending, a.output, None, None, NoRemote) }

  lemma AllOfThem(i: nat, made: seq<Creation>)
    requires forall j | 0 <= j < |made| :: made[j].artifact == i
    ensures Filter(ForArtifact(i), made) == made
  {
    if made != [] { AllOfThem(i, made[1..]); }
  }

  // One sync, seen from artifact i.
  lemma SyncSeenFrom(s: Store, id: nat, w: World, i: nat)
    requires i < |s.artifacts|
    ensures var t := WithSync(s, id, w); var tried := id == i && !Final(s.artifacts[i].status);
      && i < |t.artifacts|
      && t.artifacts[i] == (if tried then Tried(s.artifacts[i], w) else s.artifacts[i])
      && CreatedFor(t, i) == CreatedFor(s, i) + if tried then MadeBy(s.artifacts[i], i, w) else []
  {
    if id < |s.artifacts| {
      var made := Outcome(s.artifacts[id], id, w).1;
      MadeForIt(s.artifacts[id], id, w);
      FilterConcat(ForArtifact(i), s.created, made);
      if id == i { AllOfThem(i, made); } else { NoneSatisfies(ForArtifact(i), made); }
    }
  }

  lemma StepSeenFrom(s: Store, h: Hash, step: Step, i: nat)
    requires i < |s.artifacts|
    ensures var t := Do(s, h, step);
      && i < |t.artifacts|
      && t.artifacts[i] == (if Tries(s, h, step, i) then Tried(s.artifacts[i], step.world) else s.artifacts[i])
      && CreatedFor(t, i)
        == CreatedFor(s, i) + if Tries(s, h, step, i) then MadeBy(s.artifacts[i], i, step.world) else []
  {
    match step {
      case SyncOutput(project, o, w) =>
        var (t, id) := WithOutput(s, h, project, o);
        SyncSeenFrom(t, id, w, i);
      case SyncAgain(id, w) => SyncSeenFrom(s, id, w, i);
    }
  }

  // The step that makes artifact i also tries it.
  lemma StepMakes(s: Store, h: Hash, step: Step, i: nat)
    requires Kinds(s) && i >= |s.artifacts|
    ensures var t := Do(s, h, step);
      i < |t.artifacts| ==>
        && Tries(s, h, step, i)
        && t.artifacts[i] == Tried(Fresh(t.artifacts[i]), step.world)
        && CreatedFor(t, i) == MadeBy(Fresh(t.artifacts[i]), i, step.world)
    ensures i >= |Do(s, h, step).artifacts| ==> !Tries(s, h, step, i)
  {
    if step.SyncOutput? && TargetOf(s, h, step) == i {
      var t := WithOutput(s, h, step.project, step.output).0;
      NoneSatisfies(ForArtifact(i), s.created);
      SyncSeenFrom(t, i, step.world, i);
      OutcomeFollows(t.artifacts[i], i, step.world);
      assert Fresh(Do(s, h, step).artifacts[i]) == t.artifacts[i];
      assert CreatedFor(t, i) == [];
    }
  }

  // In t, artifact i is what the attempts make of a, and `before` and what they
  // made is what Feishu was asked to make for it.
  ghost predicate Attempted(a: Artifact, before: seq<Creation>, i: nat, t: Store, ws: seq<World>) {
    && i < |t.artifacts|
    && Open(a, ws)
    && t.artifacts[i] == TryAll(a, ws)
    && CreatedFor(t, i) == before + MadeByAll(a, i, ws)
  }

  lemma FirstAttempt(a: Artifact, before: seq<Creation>, i: nat, t: Store, w: World, rest: seq<World>)
    requires !Final(a.status) && Attempted(Tried(a, w), before + MadeBy(a, i, w), i, t, rest)
    ensures Attempted(a, before, i, t, [w] + rest)
  {
    assert ([w] + rest)[0] == w && ([w] + rest)[1..] == rest;
    Assoc(before, MadeBy(a, i, w), MadeByAll(Tried(a, w), i, rest));
  }

  // Whatever else a history does, an artifact that is there is what its own
  // attempts make of it, and they are what Feishu was asked to make for it.
  lemma {:induction false} ItsOwnAttempts(s: Store, h: Hash, steps: seq<Step>, i: nat)
    requires i < |s.artifacts|
    ensures Attempted(s.artifacts[i], CreatedFor(s, i), i, DoAll(s, h, steps), Attempts(s, h, steps, i))
    decreases |steps|
  {
    if steps == [] {
      assert CreatedFor(s, i) + [] == CreatedFor(s, i);
    } else {
      var t, rest := Do(s, h, steps[0]), steps[1..];
      var ws := Attempts(t, h, rest, i);
      StepSeenFrom(s, h, steps[0], i);
      ItsOwnAttempts(t, h, rest, i);
      NothingMore(CreatedFor(s, i), []);
      if Tries(s, h, steps[0], i) {
        FirstAttempt(s.artifacts[i], CreatedFor(s, i), i, DoAll(t, h, rest), steps[0].world, ws);
      } else {
        assert [] + ws == ws;
      }
    }
  }

  ghost predicate IsItsAttempts(a: Artifact, i: nat, s: Store, ws: seq<World>) {
    && i < |s.artifacts|
    && Open(a, ws) && ws != []
    && s.artifacts[i] == TryAll(a, ws)
    && CreatedFor(s, i) == MadeByAll(a, i, ws)
  }

  lemma {:induction false} MadeAndAttempted(s: Store, h: Hash, steps: seq<Step>, i: nat)
    requires Inv(s) && |s.artifacts| <= i < |DoAll(s, h, steps).artifacts|
    ensures var t := DoAll(s, h, steps);
      IsItsAttempts(Fresh(t.artifacts[i]), i, t, Attempts(s, h, steps, i))
    decreases |steps|
  {
    if steps != [] {
      var step, rest := steps[0], steps[1..];
      var t := Do(s, h, step);
      StepKeepsInv(s, h, step);
      StepMakes(s, h, step, i);
      if i < |t.artifacts| {
        var ws := Attempts(t, h, rest, i);
        ItsOwnAttempts(t, h, rest, i);
        HistoryKeepsInv(t, h, rest);
        assert Follows(t.artifacts[i], DoAll(t, h, rest).artifacts[i]);
        assert ([step.world] + ws)[0] == step.world && ([step.world] + ws)[1..] == ws;
      } else {
        MadeAndAttempted(t, h, rest, i);
        assert [] + Attempts(t, h, rest, i) == Attempts(t, h, rest, i);
      }
    }
  }

  // The same from the empty store, where every history starts.
  lemma ArtifactsAreTheirAttempts(h: Hash, steps: seq<Step>, i: nat)
    requires i < |DoAll(Empty, h, steps).artifacts|
    ensures var s := DoAll(Empty, h, steps);
      && IsItsAttempts(Fresh(s.artifacts[i]), i, s, Attempts(Empty, h, steps, i))
      && s.artifacts[i].kind == s.artifacts[i].output.kind
  {
    HistoryKeepsInv(Empty, h, steps);
    MadeAndAttempted(Empty, h, steps, i);
  }
}
