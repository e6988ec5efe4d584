// How often each artifact is written to Feishu, over every history of runs,
// syncs and retries and every pattern of refused requests.
module ArtifactCounts {
  import opened Prelude
  import opened Text
  import opened Artifacts
  import opened ArtifactHistory

  // What an attempt makes depends only on the artifact as it was made.
  lemma SameQuestions(a: Artifact, id: nat, w: World)
    ensures SkipReason(Fresh(a), w) == SkipReason(a, w) && MadeDocument(Fresh(a), w) == MadeDocument(a, w)
    ensures RowsBy(Fresh(a), w) == RowsBy(a, w) && MadeBy(Fresh(a), id, w) == MadeBy(a, id, w)
    ensures Fresh(Tried(a, w)) == Fresh(a)
  {
  }

  // ---- documents

  // The attempt asks Feishu for something.
  predicate Asks(f: Artifact, w: World) { !NotAsked(f.kind, f.output) && !Forbidden(f.kind, w) }

  // The attempt was refused after the document had been created, or it returned.
  predicate HalfMade(o: Output, d: DocumentReplies) {
    && d.create.Done? && d.create.value.0.Some? && d.create.value.0.value != ""
    && Trim(if o.content.Some? then o.content.value else o.title) != ""
    && (d.convert.Refused? || (d.convert.value && d.add.Refused?))
  }

  function Half(f: Artifact): World -> bool { (w: World) => Asks(f, w) && HalfMade(f.output, w.document) }

  ghost function Whole(f: Artifact): World -> bool {
    (w: World) => Asks(f, w) && Artifacts.Accepted(f.kind, f.output, w)
  }

  function OneIf(b: bool): nat { if b then 1 else 0 }

  lemma OneDocumentAttempt(a: Artifact, id: nat, w: World)
    requires a.kind.Document? && !Final(a.status)
    ensures |MadeBy(a, id, w)| == OneIf(Half(Fresh(a))(w)) + OneIf(Whole(Fresh(a))(w))
    ensures Tried(a, w).status.Synced? <==> Whole(Fresh(a))(w)
    ensures !(Half(Fresh(a))(w) && Whole(Fresh(a))(w))
    ensures Half(Fresh(a))(w) ==> Tried(a, w).status.Failed?
  {
    SameQuestions(a, id, w);
    AttemptEnds(a, w);
  }

  lemma {:induction false} DocumentAttempts(f: Artifact, a: Artifact, id: nat, ws: seq<World>)
    requires f == Fresh(a) && a.kind.Document? && Open(a, ws) && !a.status.Synced?
    ensures |MadeByAll(a, id, ws)| == |Filter(Half(f), ws)| + OneIf(TryAll(a, ws).status.Synced?)
    ensures |Filter(Whole(f), ws)| == OneIf(TryAll(a, ws).status.Synced?)
    decreases |ws|
  {
    if ws != [] {
      var b, rest := Tried(a, ws[0]), ws[1..];
      SameQuestions(a, id, ws[0]);
      OneDocumentAttempt(a, id, ws[0]);
      if b.status.Synced? {
        assert rest == [];
      } else {
        DocumentAttempts(f, b, id, rest);
      }
    }
  }

  // Over every history a document artifact has one document in Feishu for its
  // successful sync, if there was one, and one more for every attempt that was
  // refused after the creation; at most one creation ever returned.
  lemma DocumentsMade(h: Hash, steps: seq<Step>, i: nat)
    requires i < |DoAll(Empty, h, steps).artifacts| && DoAll(Empty, h, steps).artifacts[i].kind.Document?
    ensures var s := DoAll(Empty, h, steps); var a := s.artifacts[i]; var ws := Attempts(Empty, h, steps, i);
      && |CreatedFor(s, i)| == |Filter(Half(Fresh(a)), ws)| + OneIf(a.status.Synced?)
      && |Filter(Whole(Fresh(a)), ws)| == OneIf(a.status.Synced?)
  {
    var s := DoAll(Empty, h, steps);
    ArtifactsAreTheirAttempts(h, steps, i);
    DocumentAttempts(Fresh(s.artifacts[i]), Fresh(s.artifacts[i]), i, Attempts(Empty, h, steps, i));
  }

  // So there is one exactly when the artifact is synced, and none otherwise, if
  // and only if no attempt was refused after the creation.
  lemma OneDocumentIffNoneHalfMade(h: Hash, steps: seq<Step>, i: nat)
    requires i < |DoAll(Empty, h, steps).artifacts| && DoAll(Empty, h, steps).artifacts[i].kind.Document?
    ensures var s := DoAll(Empty, h, steps); var a := s.artifacts[i]; var ws := Attempts(Empty, h, steps, i);
      |CreatedFor(s, i)| == OneIf(a.status.Synced?) <==> forall t | 0 <= t < |ws| :: !Half(Fresh(a))(ws[t])
  {
    var s := DoAll(Empty, h, steps);
    DocumentsMade(h, steps, i);
    NoneIffEmpty(Half(Fresh(s.artifacts[i])), Attempts(Empty, h, steps, i));
  }

  lemma NoneIffEmpty<T>(p: T -> bool, s: seq<T>)
    ensures Filter(p, s) == [] <==> forall i | 0 <= i < |s| :: !p(s[i])
  {
    if forall i | 0 <= i < |s| :: !p(s[i]) {
      NoneSatisfies(p, s);
    } else {
      var i :| 0 <= i < |s| && p(s[i]);
      assert s[i] in Filter(p, s);
    }
  }

  // One refused block conversion and a good retry make two documents.
  const Note := Output(Document, "note", Some("text"), [], true, [FeishuDoc])
  const NoRows: nat -> Reply<Option<string>> := (k: nat) => Refused("unused")
  const Busy := World(None, None, DocumentReplies(Done((Some("d1"), None)), Refused("busy"), Done(())),
      Refused("unused"), NoRows)
  const Good := World(None, None, DocumentReplies(Done((Some("d2"), None)), Done(true), Done(())), Refused("unused"),
      NoRows)

  lemma RetryMakesASecondDocument(h: Hash)
    ensures var s := DoAll(Empty, h, [SyncOutput("p", Note, Busy), SyncAgain(0, Good)]);
      && |s.artifacts| == 1 && s.artifacts[0].status.Synced? && s.artifacts[0].remote.token == Some("d2")
      && s.created == [Creation(0, Document, 0), Creation(0, Document, 0)]
  {
    var first, second := SyncOutput("p", Note, Busy), SyncAgain(0, Good);
    assert [first, second][1..] == [second] && [second][1..] == [];
    var a := Artifact("p", Document, h(Note), Pending, Note, None, None, NoRemote);
    assert Trim("text") == "text";
    assert [] + [a] == [a];
    assert WithOutput(Empty, h, "p", Note) == (Store([a], []), 0);
    var one := Do(Empty, h, first);
    assert one == Store([MarkedFailed(a, "busy")], [Creation(0, Document, 0)]);
    assert Do(one, h, second).created == [Creation(0, Document, 0)] + [Creation(0, Document, 0)];
    assert DoAll(one, h, [second]) == Do(one, h, second);
  }

  // ---- files

  lemma {:induction false} FileAttempts(a: Artifact, id: nat, ws: seq<World>)
    requires a.kind.File? && Open(a, ws) && !a.status.Synced?
    ensures |MadeByAll(a, id, ws)| == OneIf(TryAll(a, ws).status.Synced?)
    decreases |ws|
  {
    if ws != [] {
      var b := Tried(a, ws[0]);
      if b.status.Synced? { assert ws[1..] == []; } else { FileAttempts(b, id, ws[1..]); }
    }
  }

  // A file, which is one request, is uploaded once if the artifact is synced and
  // never if it is not.
  lemma FilesMade(h: Hash, steps: seq<Step>, i: nat)
    requires i < |DoAll(Empty, h, steps).artifacts| && DoAll(Empty, h, steps).artifacts[i].kind.File?
    ensures var s := DoAll(Empty, h, steps); |CreatedFor(s, i)| == OneIf(s.artifacts[i].status.Synced?)
  {
    ArtifactsAreTheirAttempts(h, steps, i);
    FileAttempts(Fresh(DoAll(Empty, h, steps).artifacts[i]), i, Attempts(Empty, h, steps, i));
  }

  // ---- task rows

  function IsRow(j: nat): Creation -> bool { (c: Creation) => c.row == j }

  // The attempt got as far as row j: it asked, and no row up to j was refused.
  ghost predicate GotTo(f: Artifact, j: nat, w: World) {
    && Asks(f, w) && j < (if f.output.tasks == [] then 1 else |f.output.tasks|)
    && forall k: nat | k <= j :: w.row(k).Done?
  }

  ghost function WroteRow(f: Artifact, j: nat): World -> bool { (w: World) => GotTo(f, j, w) }

  lemma RowsByAttempt(f: Artifact, w: World, j: nat)
    requires f.kind.Task?
    ensures GotTo(f, j, w) <==> RowsBy(f, w) > j
  {
    AttemptEnds(f, w);
  }

  function SumRows(f: Artifact, ws: seq<World>): nat {
    if ws == [] then 0 else RowsBy(f, ws[0]) + SumRows(f, ws[1..])
  }

  lemma {:induction false} RowAmong(id: nat, n: nat, j: nat)
    ensures |Filter(IsRow(j), Rows(id, n))| == OneIf(j < n)
  {
    if n > 0 {
      RowAmong(id, n - 1, j);
      FilterConcat(IsRow(j), Rows(id, n - 1), [Creation(id, Task, n - 1)]);
    }
  }

  lemma {:induction false} TaskAttempts(f: Artifact, a: Artifact, id: nat, ws: seq<World>, j: nat)
    requires f == Fresh(a) && a.kind.Task?
    ensures |MadeByAll(a, id, ws)| == SumRows(f, ws)
    ensures |Filter(IsRow(j), MadeByAll(a, id, ws))| == |Filter(WroteRow(f, j), ws)|
    decreases |ws|
  {
    if ws != [] {
      var made, rest := MadeBy(a, id, ws[0]), MadeByAll(Tried(a, ws[0]), id, ws[1..]);
      SameQuestions(a, id, ws[0]);
      RowsAre(id, RowsBy(a, ws[0]));
      RowAmong(id, RowsBy(a, ws[0]), j);
      assert made == Rows(id, RowsBy(a, ws[0]));
      FilterConcat(IsRow(j), made, rest);
      TaskAttempts(f, Tried(a, ws[0]), id, ws[1..], j);
    }
  }

  // Over every history the rows of a task artifact are those that its attempts
  // wrote, row j once for every attempt that got as far.
  lemma RowsMade(h: Hash, steps: seq<Step>, i: nat, j: nat)
    requires i < |DoAll(Empty, h, steps).artifacts| && DoAll(Empty, h, steps).artifacts[i].kind.Task?
    ensures var s := DoAll(Empty, h, steps); var f := Fresh(s.artifacts[i]); var ws := Attempts(Empty, h, steps, i);
      && |CreatedFor(s, i)| == SumRows(f, ws)
      && |Filter(IsRow(j), CreatedFor(s, i))| == |Filter(WroteRow(f, j), ws)|
  {
    var f := Fresh(DoAll(Empty, h, steps).artifacts[i]);
    ArtifactsAreTheirAttempts(h, steps, i);
    TaskAttempts(f, f, i, Attempts(Empty, h, steps, i), j);
  }

  // At most one element satisfies p.
  ghost predicate AtMostOne<T>(p: T -> bool, s: seq<T>) {
    forall i, j | 0 <= i < j < |s| :: !(p(s[i]) && p(s[j]))
  }

  lemma {:induction false} AtMostOneIffShort<T>(p: T -> bool, s: seq<T>)
    ensures |Filter(p, s)| <= 1 <==> AtMostOne(p, s)
  {
    if s != [] {
      AtMostOneIffShort(p, s[1..]);
      NoneIffEmpty(p, s[1..]);
      if p(s[0]) {
        if AtMostOne(p, s) {
          assert forall i | 0 <= i < |s[1..]| :: !p(s[1..][i]);
        } else if |Filter(p, s[1..])| == 0 {
          assert forall i | 1 <= i < |s| :: s[i] == s[1..][i - 1];
        }
      } else {
        assert forall i | 1 <= i < |s| :: s[i] == s[1..][i - 1];
      }
    }
  }

  // No row is written twice if and only if no two attempts got past their first
  // row, that is, after one had its first row accepted every other one was
  // refused at once or skipped.
  lemma NoRowTwiceIffOneAttemptWrites(h: Hash, steps: seq<Step>, i: nat)
    requires i < |DoAll(Empty, h, steps).artifacts| && DoAll(Empty, h, steps).artifacts[i].kind.Task?
    ensures var s := DoAll(Empty, h, steps); var f := Fresh(s.artifacts[i]); var ws := Attempts(Empty, h, steps, i);
      (forall j: nat :: |Filter(IsRow(j), CreatedFor(s, i))| <= 1) <==> AtMostOne(WroteRow(f, 0), ws)
  {
    var s := DoAll(Empty, h, steps);
    var f, ws := Fresh(s.artifacts[i]), Attempts(Empty, h, steps, i);
    RowsMade(h, steps, i, 0);
    AtMostOneIffShort(WroteRow(f, 0), ws);
    forall j: nat | AtMostOne(WroteRow(f, 0), ws) ensures |Filter(IsRow(j), CreatedFor(s, i))| <= 1 {
      RowsMade(h, steps, i, j);
      AtMostOneIffShort(WroteRow(f, j), ws);
      assert forall w :: WroteRow(f, j)(w) ==> WroteRow(f, 0)(w);
      assert AtMostOne(WroteRow(f, j), ws);
    }
  }

  // A synced artifact's last attempt wrote all its rows.
  lemma {:induction false} LastAttemptWritesAll(f: Artifact, a: Artifact, ws: seq<World>)
    requires f == Fresh(a) && a.kind.Task? && Open(a, ws) && !a.status.Synced? && TryAll(a, ws).status.Synced?
    ensures ws != [] && RowsBy(f, ws[|ws| - 1]) == RowCount(f.output) > 0
    decreases |ws|
  {
    SameQuestions(a, 0, ws[0]);
    var b := Tried(a, ws[0]);
    if b.status.Synced? { assert ws[1..] == []; } else { LastAttemptWritesAll(f, b, ws[1..]); }
  }

  // A synced artifact has each of its rows exactly once if and only if every
  // attempt that was refused and retried had been refused at its first row.
  lemma EachRowOnceIffRefusedAtTheFirst(h: Hash, steps: seq<Step>, i: nat)
    requires var s := DoAll(Empty, h, steps);
      i < |s.artifacts| && s.artifacts[i].kind.Task? && s.artifacts[i].status.Synced?
    ensures var s := DoAll(Empty, h, steps); var f := Fresh(s.artifacts[i]); var ws := Attempts(Empty, h, steps, i);
      EachRowOnce(CreatedFor(s, i), RowCount(f.output)) <==> forall t | 0 <= t < |ws| - 1 :: RowsBy(f, ws[t]) == 0
  {
    var s := DoAll(Empty, h, steps);
    var f, ws := Fresh(s.artifacts[i]), Attempts(Empty, h, steps, i);
    ArtifactsAreTheirAttempts(h, steps, i);
    LastAttemptWritesAll(f, f, ws);
    RowsOnce(f, ws, RowCount(f.output));
    forall j | 0 <= j < RowCount(f.output)
      ensures |Filter(IsRow(j), CreatedFor(s, i))| == |Filter(WroteRow(f, j), ws)|
    {
      RowsMade(h, steps, i, j);
    }
    SameRows(f, CreatedFor(s, i), ws, RowCount(f.output));
  }

  ghost predicate EachRowOnce(made: seq<Creation>, n: nat) {
    forall j | 0 <= j < n :: |Filter(IsRow(j), made)| == 1
  }

  ghost predicate EachWroteOnce(f: Artifact, ws: seq<World>, n: nat) {
    forall j | 0 <= j < n :: |Filter(WroteRow(f, j), ws)| == 1
  }

  lemma SameRows(f: Artifact, made: seq<Creation>, ws: seq<World>, n: nat)
    requires forall j | 0 <= j < n :: |Filter(IsRow(j), made)| == |Filter(WroteRow(f, j), ws)|
    ensures EachRowOnce(made, n) <==> EachWroteOnce(f, ws, n)
  {
  }

  lemma RowsOnce(f: Artifact, ws: seq<World>, n: nat)
    requires ws != [] && RowsBy(f, ws[|ws| - 1]) == n > 0
    ensures EachWroteOnce(f, ws, n) <==> forall t | 0 <= t < |ws| - 1 :: RowsBy(f, ws[t]) == 0
  {
    forall j | 0 <= j < n
      ensures |Filter(WroteRow(f, j), ws)| == 1 <==> forall t | 0 <= t < |ws| - 1 :: RowsBy(f, ws[t]) <= j
    {
      RowOnce(f, ws, j);
    }
    assert |Filter(WroteRow(f, 0), ws)| == 1 <==> forall t | 0 <= t < |ws| - 1 :: RowsBy(f, ws[t]) <= 0;
  }

  lemma RowOnce(f: Artifact, ws: seq<World>, j: nat)
    requires ws != [] && RowsBy(f, ws[|ws| - 1]) > j
    ensures |Filter(WroteRow(f, j), ws)| == 1 <==> forall t | 0 <= t < |ws| - 1 :: RowsBy(f, ws[t]) <= j
  {
    forall t | 0 <= t < |ws| ensures WroteRow(f, j)(ws[t]) <==> RowsBy(f, ws[t]) > j {
      RowsByAttempt(f, ws[t], j);
    }
    OnlyTheLast(WroteRow(f, j), ws);
  }

  lemma OnlyTheLast<T>(p: T -> bool, s: seq<T>)
    requires s != [] && p(s[|s| - 1])
    ensures |Filter(p, s)| == 1 <==> forall t | 0 <= t < |s| - 1 :: !p(s[t])
  {
    var front, last := s[..|s| - 1], s[|s| - 1];
    assert s == front + [last];
    FilterConcat(p, front, [last]);
    NoneIffEmpty(p, front);
    assert forall t | 0 <= t < |front| :: front[t] == s[t];
  }

  const Pair := Output(Task, "pair", None, ["a", "b"], true, [Bitable])
  const NoDocument := DocumentReplies(Refused("unused"), Refused("unused"), Refused("unused"))
  const SecondRefused := World(None, None, NoDocument, Refused("unused"),
      (k: nat) => if k == 1 then Refused("busy") else Done(Some("r")))
  const AllAccepted := World(None, None, NoDocument, Refused("unused"), (k: nat) => Done(Some("r")))

  // A refusal at the second of two rows and a retry write the first row twice.
  lemma RetryWritesRowsAgain(h: Hash)
    ensures var s := DoAll(Empty, h, [SyncOutput("p", Pair, SecondRefused), SyncAgain(0, AllAccepted)]);
      && |s.artifacts| == 1 && s.artifacts[0].status.Synced?
      && s.created == [Creation(0, Task, 0), Creation(0, Task, 0), Creation(0, Task, 1)]
  {
    var first, second := SyncOutput("p", Pair, SecondRefused), SyncAgain(0, AllAccepted);
    assert [first, second][1..] == [second] && [second][1..] == [];
    var a := Artifact("p", Task, h(Pair), Pending, Pair, None, None, NoRemote);
    assert [] + [a] == [a];
    assert WithOutput(Empty, h, "p", Pair) == (Store([a], []), 0);
    assert RowsWritten(SecondRefused, 0, 2) == RowsWritten(SecondRefused, 1, 2) == 1;
    assert RowsWritten(AllAccepted, 0, 2) == RowsWritten(AllAccepted, 1, 2) == RowsWritten(AllAccepted, 2, 2) == 2;
    assert Rows(0, 1) == [Creation(0, Task, 0)] && Rows(0, 2) == [Creation(0, Task, 0), Creation(0, Task, 1)];
    var one := Do(Empty, h, first);
    assert one == Store([MarkedFailed(a, "busy")], [Creation(0, Task, 0)]);
    assert Do(one, h, second).created == [Creation(0, Task, 0)] + [Creation(0, Task, 0), Creation(0, Task, 1)];
    assert DoAll(one, h, [second]) == Do(one, h, second);
  }

  const NoneAccepted := World(None, None, NoDocument, Refused("unused"), NoRows)

  // But a retry that is refused at once repeats no row, although the attempt
  // before it had written one: nothing short of two attempts that write does.
  lemma RetryRefusedAtOnceRepeatsNothing(h: Hash)
    ensures var s := DoAll(Empty, h, [SyncOutput("p", Pair, SecondRefused), SyncAgain(0, NoneAccepted)]);
      |s.artifacts| == 1 && s.artifacts[0].status.Failed? && s.created == [Creation(0, Task, 0)]
  {
    var first, second := SyncOutput("p", Pair, SecondRefused), SyncAgain(0, NoneAccepted);
    assert [first, second][1..] == [second] && [second][1..] == [];
    var a := Artifact("p", Task, h(Pair), Pending, Pair, None, None, NoRemote);
    assert [] + [a] == [a];
    assert WithOutput(Empty, h, "p", Pair) == (Store([a], []), 0);
    assert RowsWritten(SecondRefused, 0, 2) == RowsWritten(SecondRefused, 1, 2) == 1;
    assert Rows(0, 1) == [Creation(0, Task, 0)];
    var one := Do(Empty, h, first);
    assert one == Store([MarkedFailed(a, "busy")], [Creation(0, Task, 0)]);
    assert DoAll(one, h, [second]) == Do(one, h, second);
  }

  // ---- nothing is made that was not asked for

  ghost predicate Asked(o: Output) {
    && o.persist
    && (o.kind.Document? ==> FeishuDoc in o.channels)
    && (o.kind.Task? ==> Bitable in o.channels)
    && !o.kind.Summary? && !o.kind.ExecutionLog?
  }

  // When the attempt was made, no policy of the group forbade this kind of write.
  ghost predicate Permitted(what: Kind, w: World) {
    w.chat.None? || Trim(w.chat.value) == "" || w.policy.None? ||
    (&& (what.Document? ==> w.policy.value.allowDocWrite)
     && (what.Task? ==> w.policy.value.allowTaskBoardWrite))
  }

  lemma AttemptMakesAsAsked(a: Artifact, id: nat, w: World)
    requires a.kind == a.output.kind && MadeBy(a, id, w) != []
    ensures Asked(a.output) && Permitted(a.kind, w)
    ensures forall c | c in MadeBy(a, id, w) :: c.what == a.kind && c.artifact == id
  {
    MadeForIt(a, id, w);
    AttemptEnds(a, w);
  }

  ghost predicate MadeByOne(f: Artifact, ws: seq<World>, c: Creation) {
    exists k :: 0 <= k < |ws| && c in MadeBy(f, c.artifact, ws[k]) && Permitted(c.what, ws[k])
  }

  lemma {:induction false} MadeAsAsked(a: Artifact, id: nat, ws: seq<World>, c: Creation)
    requires a.kind == a.output.kind && c in MadeByAll(a, id, ws)
    ensures c.what == a.kind && c.artifact == id && Asked(a.output) && MadeByOne(Fresh(a), ws, c)
    decreases |ws|
  {
    SameQuestions(a, id, ws[0]);
    if c in MadeBy(a, id, ws[0]) {
      AttemptMakesAsAsked(a, id, ws[0]);
    } else {
      MadeAsAsked(Tried(a, ws[0]), id, ws[1..], c);
      var k :| 0 <= k < |ws[1..]| && c in MadeBy(Fresh(a), id, ws[1..][k]) && Permitted(c.what, ws[1..][k]);
      assert ws[k + 1] == ws[1..][k];
    }
  }

  // Over every history: whatever was created, its output asked for, and one of
  // its artifact's attempts made it while the group's policy allowed it.
  lemma OnlyWhatWasAsked(h: Hash, steps: seq<Step>, c: Creation)
    requires c in DoAll(Empty, h, steps).created
    ensures var s := DoAll(Empty, h, steps);
      && c.artifact < |s.artifacts|
      && var a := s.artifacts[c.artifact];
      && c.what == a.kind && Asked(a.output) && MadeByOne(Fresh(a), Attempts(Empty, h, steps, c.artifact), c)
  {
    var s := DoAll(Empty, h, steps);
    HistoryKeepsInv(Empty, h, steps);
    ArtifactsAreTheirAttempts(h, steps, c.artifact);
    assert ForArtifact(c.artifact)(c);
    assert c in CreatedFor(s, c.artifact);
    MadeAsAsked(Fresh(s.artifacts[c.artifact]), c.artifact, Attempts(Empty, h, steps, c.artifact), c);
  }

  // ---- the last attempt decides

  // It was asked for, not forbidden, and some request was refused.
  ghost predicate WasRefused(kind: Kind, o: Output, w: World) {
    !NotAsked(kind, o) && !Forbidden(kind, w) && !Artifacts.Accepted(kind, o, w)
  }

  ghost predicate Decided(a: Artifact, b: Artifact, ws: seq<World>) {
    && ws != [] && b.kind == a.kind && b.output == a.output
    && Ended(TryAll(a, ws[..|ws| - 1]), b, ws[|ws| - 1])
    && forall k | 0 <= k < |ws| - 1 :: WasRefused(a.kind, a.output, ws[k])
  }

  lemma {:induction false} LastAttemptDecides(a: Artifact, ws: seq<World>)
    requires Open(a, ws) && ws != []
    ensures Decided(a, TryAll(a, ws), ws)
    decreases |ws|
  {
    var b, rest := Tried(a, ws[0]), ws[1..];
    AttemptEnds(a, ws[0]);
    SameQuestions(a, 0, ws[0]);
    if rest == [] {
      assert ws[..|ws| - 1] == [];
    } else {
      LastAttemptDecides(b, rest);
      assert ws[..|ws| - 1][1..] == rest[..|rest| - 1] && ws[..|ws| - 1][0] == ws[0];
      forall k | 0 <= k < |ws| - 1 ensures WasRefused(a.kind, a.output, ws[k]) {
        if k > 0 { assert ws[k] == rest[k - 1]; }
      }
    }
  }

  // Over every history an artifact is as its last attempt ended: skipped exactly
  // if it was not asked for or the policy then forbade it, otherwise synced
  // exactly if every request was accepted; and all attempts before were refused.
  lemma ArtifactsAreAsTheirLastAttemptEnded(h: Hash, steps: seq<Step>, i: nat)
    requires i < |DoAll(Empty, h, steps).artifacts|
    ensures var s := DoAll(Empty, h, steps);
      Decided(Fresh(s.artifacts[i]), s.artifacts[i], Attempts(Empty, h, steps, i))
  {
    ArtifactsAreTheirAttempts(h, steps, i);
    LastAttemptDecides(Fresh(DoAll(Empty, h, steps).artifacts[i]), Attempts(Empty, h, steps, i));
  }
}
