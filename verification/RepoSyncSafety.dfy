// What every interleaving of repository syncs keeps.
module RepoSyncSafety {
  import opened Prelude
  import opened Text
  import opened RepoSyncs

  // ---- single flight

  ghost predicate Flights(inFlight: map<Key, SyncId>, running: map<SyncId, Sync>) {
    && (forall k | k in inFlight :: inFlight[k] in running && running[inFlight[k]].input.key == k)
    && (forall s | s in running :: running[s].input.key in inFlight && inFlight[running[s].input.key] == s)
  }

  ghost predicate Ids(w: World) {
    && (forall s | s in w.running :: s < w.started && s !in w.finished)
    && (forall s | s in w.finished :: s < w.started)
  }

  // ---- callers

  ghost predicate Answered(w: World) {
    && (forall c | c in w.callers :: w.callers[c] in w.running || w.callers[c] in w.finished)
    && (forall c :: c in w.results <==> c in w.callers && w.callers[c] in w.finished)
    && (forall c | c in w.results :: w.results[c] == w.finished[w.callers[c]])
  }

  // ---- the stores

  ghost predicate Agree(manifests: map<Key, Manifest>, rows: map<Key, Row>, k: Key) {
    k in manifests && k in rows && rows[k] == RowOf(manifests[k])
  }

  ghost predicate SyncStores(w: World, y: Sync) {
    match y.pc
    case Marking => true
    case InGit => y.input.key in w.rows && w.rows[y.input.key].status == Syncing && w.rows[y.input.key].error.None?
    case Persisting(m) => Lookup(w.manifests, y.input.key) == Some(m)
    case Returning(r) => Agree(w.manifests, w.rows, y.input.key) && r == ResultOf(w.manifests[y.input.key])
  }

  ghost predicate Stores(w: World) {
    && (forall s | s in w.running :: SyncStores(w, w.running[s]))
    && (forall k | k in w.effects && k !in w.inFlight :: Agree(w.manifests, w.rows, k))
    && (forall s | s in w.running :: w.running[s].input.key in w.rows)
  }

  // The head after some syncs: the last one that moved it, unless one without a
  // URL came later.
  function HeadAfter(first: Option<string>, effects: seq<Effect>): Option<string> {
    if effects == [] then first
    else
      match effects[|effects| - 1]
      case Cleared => None
      case Moved(head) => Some(head)
      case Kept => HeadAfter(first, effects[..|effects| - 1])
  }

  ghost predicate Heads(w0: World, w: World) {
    forall k :: ExistingHead(Lookup(w.manifests, k))
      == HeadAfter(ExistingHead(Lookup(w0.manifests, k)), EffectsOf(w.effects, k))
  }

  ghost predicate Inv(w0: World, w: World) {
    Flights(w.inFlight, w.running) && Ids(w) && Answered(w) && Stores(w) && Heads(w0, w)
  }

  lemma HeadAfterOneMore(first: Option<string>, effects: seq<Effect>, e: Effect)
    ensures HeadAfter(first, effects + [e]) ==
      match e
      case Cleared => None
      case Moved(head) => Some(head)
      case Kept => HeadAfter(first, effects)
  {
    assert (effects + [e])[..|effects|] == effects;
  }

  lemma WriteKeepsHeads(w0: World, w: World, s: SyncId, i: Input, git: Option<Git>, m: Manifest, e: Effect)
    requires Heads(w0, w)
    requires m.headRef == match e
                          case Cleared => None
                          case Moved(head) => Some(head)
                          case Kept => ExistingHead(Lookup(w.manifests, i.key))
    ensures Heads(w0, WriteManifest(w, s, i, git, m, e))
  {
    var q := WriteManifest(w, s, i, git, m, e);
    forall k
      ensures ExistingHead(Lookup(q.manifests, k))
        == HeadAfter(ExistingHead(Lookup(w0.manifests, k)), EffectsOf(q.effects, k))
    {
      if k == i.key {
        HeadAfterOneMore(ExistingHead(Lookup(w0.manifests, k)), EffectsOf(w.effects, k), e);
      } else {
        assert EffectsOf(q.effects, k) == EffectsOf(w.effects, k);
      }
    }
  }

  lemma JoinKeepsInv(w0: World, w: World, c: CallId, s: SyncId)
    requires Inv(w0, w) && c !in w.callers && s in w.running
    ensures Inv(w0, Joined(w, c, s))
  {
    var q := Joined(w, c, s);
    forall t | t in q.running ensures SyncStores(q, q.running[t]) {
      assert SyncStores(w, w.running[t]);
    }
  }

  lemma BeginKeepsFlights(w: World, c: CallId, i: Input)
    requires Flights(w.inFlight, w.running) && Ids(w) && i.key !in w.inFlight
    ensures var q := Begun(w, c, i); Flights(q.inFlight, q.running) && Ids(q)
  {
  }

  lemma BeginKeepsAnswered(w: World, c: CallId, i: Input)
    requires Ids(w) && Answered(w) && c !in w.callers
    ensures Answered(Begun(w, c, i))
  {
  }

  lemma BeginKeepsStores(w: World, c: CallId, i: Input)
    requires Stores(w) && i.key in w.rows
    ensures Stores(Begun(w, c, i))
  {
    var q := Begun(w, c, i);
    forall t | t in q.running && t != w.started ensures SyncStores(q, q.running[t]) {
      assert SyncStores(w, w.running[t]);
    }
  }

  lemma BeginKeepsInv(w0: World, w: World, c: CallId, i: Input)
    requires Inv(w0, w) && c !in w.callers && i.key in w.rows && i.key !in w.inFlight
    ensures Inv(w0, Begun(w, c, i))
  {
    BeginKeepsFlights(w, c, i);
    BeginKeepsAnswered(w, c, i);
    BeginKeepsStores(w, c, i);
  }

  // Writing the manifest for a sync that is in flight.
  lemma WriteKeepsStores(w: World, s: SyncId, i: Input, git: Option<Git>, m: Manifest, e: Effect)
    requires Stores(w) && Flights(w.inFlight, w.running) && s in w.running && w.running[s].input == i
    ensures Stores(WriteManifest(w, s, i, git, m, e))
  {
    var q := WriteManifest(w, s, i, git, m, e);
    forall t | t in q.running ensures SyncStores(q, q.running[t]) {
      assert t in w.running && SyncStores(w, w.running[t]);
    }
  }

  lemma WriteKeepsInv(w0: World, w: World, s: SyncId, i: Input, git: Option<Git>, m: Manifest, e: Effect)
    requires Inv(w0, w) && s in w.running && w.running[s].input == i
    requires m.headRef == match e
                          case Cleared => None
                          case Moved(head) => Some(head)
                          case Kept => ExistingHead(Lookup(w.manifests, i.key))
    ensures Inv(w0, WriteManifest(w, s, i, git, m, e))
  {
    WriteKeepsStores(w, s, i, git, m, e);
    WriteKeepsHeads(w0, w, s, i, git, m, e);
  }

  lemma RowKeepsStores(w: World, s: SyncId, row: Row, pc: Pc)
    requires Stores(w) && Flights(w.inFlight, w.running) && s in w.running
    requires pc.InGit? ==> row.status == Syncing && row.error.None?
    requires pc.InGit? || (&& pc.Returning? && w.running[s].pc.Persisting?
                           && row == RowOf(w.running[s].pc.m) && pc.r == ResultOf(w.running[s].pc.m))
    ensures Stores(Move(w, s, row, pc))
  {
    var q := Move(w, s, row, pc);
    assert SyncStores(w, w.running[s]);
    forall t | t in q.running ensures SyncStores(q, q.running[t]) {
      assert t in w.running && SyncStores(w, w.running[t]);
    }
  }

  lemma RowKeepsTheRest(w0: World, w: World, s: SyncId, row: Row, pc: Pc)
    requires Flights(w.inFlight, w.running) && Ids(w) && Answered(w) && Heads(w0, w) && s in w.running
    ensures var q := Move(w, s, row, pc); Flights(q.inFlight, q.running) && Ids(q) && Answered(q) && Heads(w0, q)
  {
  }

  lemma SettleKeepsStores(w: World, s: SyncId)
    requires Stores(w) && Flights(w.inFlight, w.running) && s in w.running && w.running[s].pc.Returning?
    ensures Stores(Settled(w, s))
  {
    var q := Settled(w, s);
    assert SyncStores(w, w.running[s]);
    forall t | t in q.running ensures SyncStores(q, q.running[t]) {
      assert t in w.running && SyncStores(w, w.running[t]);
    }
  }

  lemma SettleKeepsFlights(w: World, s: SyncId)
    requires Flights(w.inFlight, w.running) && Ids(w) && s in w.running && w.running[s].pc.Returning?
    ensures var q := Settled(w, s); Flights(q.inFlight, q.running) && Ids(q)
  {
  }

  lemma SettleKeepsAnswers(w0: World, w: World, s: SyncId)
    requires Ids(w) && Answered(w) && Heads(w0, w) && s in w.running && w.running[s].pc.Returning?
    ensures var q := Settled(w, s); Answered(q) && Heads(w0, q)
  {
  }

  lemma StepKeepsInv(w0: World, w: World, l: Label)
    requires Inv(w0, w) && Enabled(w, l)
    ensures Inv(w0, Next(w, l))
  {
    match l {
      case Call(c, i) =>
        if i.key in w.inFlight {
          JoinKeepsInv(w0, w, c, w.inFlight[i.key]);
        } else {
          BeginKeepsInv(w0, w, c, i);
          if Url(i).None? { WriteKeepsInv(w0, Begun(w, c, i), w.started, i, None, Unconfigured(i), Cleared); }
        }
      case RowMarked(s) =>
        RowKeepsStores(w, s, Marked(w.rows[w.running[s].input.key]), InGit);
        RowKeepsTheRest(w0, w, s, Marked(w.rows[w.running[s].input.key]), InGit);
      case GitDone(s, git, now) =>
        var i := w.running[s].input;
        var effect := if git.Head? then Moved(Trim(git.ref)) else Kept;
        WriteKeepsInv(w0, w, s, i, Some(git), Outcome(i, git, now, Lookup(w.manifests, i.key)), effect);
      case RowWritten(s) =>
        var m := w.running[s].pc.m;
        RowKeepsStores(w, s, RowOf(m), Returning(ResultOf(m)));
        RowKeepsTheRest(w0, w, s, RowOf(m), Returning(ResultOf(m)));
      case Settle(s) =>
        SettleKeepsStores(w, s);
        SettleKeepsFlights(w, s);
        SettleKeepsAnswers(w0, w, s);
    }
  }

  lemma {:induction false} RunKeepsInv(w0: World, w: World, ls: seq<Label>)
    requires Inv(w0, w) && Legal(w, ls)
    ensures Inv(w0, Run(w, ls))
    decreases |ls|
  {
    if ls != [] {
      StepKeepsInv(w0, w, ls[0]);
      RunKeepsInv(w0, Next(w, ls[0]), ls[1..]);
    }
  }

  // In every interleaving two running syncs are never of the same environment.
  lemma OneSyncPerEnvironment(w0: World, ls: seq<Label>)
    requires Initial(w0) && Legal(w0, ls)
    ensures var w := Run(w0, ls);
      && (forall s, t | s in w.running && t in w.running && w.running[s].input.key == w.running[t].input.key :: s == t)
      && (forall k :: k in w.inFlight <==> exists s :: s in w.running && w.running[s].input.key == k)
  {
    RunKeepsInv(w0, w0, ls);
  }

  // While a sync waits for git its row says that it is syncing.
  lemma RowsSayWhatIsSyncing(w0: World, ls: seq<Label>, s: SyncId)
    requires Initial(w0) && Legal(w0, ls) && s in Run(w0, ls).running && Run(w0, ls).running[s].pc.InGit?
    ensures var w := Run(w0, ls); var k := w.running[s].input.key;
      k in w.rows && w.rows[k].status == Syncing && w.rows[k].error.None?
  {
    RunKeepsInv(w0, w0, ls);
    assert SyncStores(Run(w0, ls), Run(w0, ls).running[s]);
  }

  // ---- what a result says

  predicate Blank(text: Option<string>) { text.None? || Trim(text.value) == "" }

  // What a sync writes: that there is no URL, or what git came to.
  ghost predicate Genuine(c: Record) {
    var i, m := c.input, c.manifest;
    && m.branch == (if Blank(i.repoBranch) then "main" else Trim(i.repoBranch.value))
    && if Blank(i.repoUrl) then
         && c.git.None? && m.repoUrl.None? && m.status == Uninitialized && m.syncedAt.None? && m.headRef.None?
         && m.error == Some("Repository URL is not configured for this environment.")
       else
         && c.git.Some? && m.repoUrl == Some(Trim(i.repoUrl.value)) && m.syncedAt.Some?
         && match c.git.value
            case Head(ref) => m.status == Ready && m.headRef == Some(Trim(ref)) && m.error.None?
            case Failure(message) => m.status == Error && m.error == Some(message)
  }

  ghost predicate SaysWhatWasWritten(written: map<SyncId, Record>, s: SyncId, r: Result) {
    && s in written
    && var m := written[s].manifest;
    && r.status == m.status && (r.synced <==> m.status == Ready) && r.headRef == m.headRef && r.error == m.error
  }

  ghost predicate AllGenuine(written: map<SyncId, Record>) { forall s | s in written :: Genuine(written[s]) }

  lemma OneMoreGenuine(written: map<SyncId, Record>, s: SyncId, c: Record)
    requires AllGenuine(written) && Genuine(c)
    ensures AllGenuine(written[s := c])
  {
  }

  ghost predicate Truthful(w: World) { AllGenuine(w.written) && Told(w) }

  // What syncs hold and have answered is what they wrote.
  ghost predicate Told(w: World) {
    && (forall s | s in w.running && w.running[s].pc.Persisting? ::
      s in w.written && w.written[s].manifest == w.running[s].pc.m)
    && (forall s | s in w.running && w.running[s].pc.Returning? :: SaysWhatWasWritten(w.written, s, w.running[s].pc.r))
    && (forall s | s in w.finished :: SaysWhatWasWritten(w.written, s, w.finished[s]))
    && (forall s | s in w.running && (w.running[s].pc.Marking? || w.running[s].pc.InGit?) ::
      Url(w.running[s].input).Some?)
  }

  lemma WriteIsTold(w: World, s: SyncId, i: Input, git: Option<Git>, m: Manifest, e: Effect)
    requires s !in w.finished
    requires forall t | t in w.running && t != s && w.running[t].pc.Persisting? ::
               t in w.written && w.written[t].manifest == w.running[t].pc.m
    requires forall t | t in w.running && t != s && w.running[t].pc.Returning? ::
               SaysWhatWasWritten(w.written, t, w.running[t].pc.r)
    requires forall t | t in w.finished :: SaysWhatWasWritten(w.written, t, w.finished[t])
    requires forall t | t in w.running && t != s && (w.running[t].pc.Marking? || w.running[t].pc.InGit?) ::
      Url(w.running[t].input).Some?
    ensures Told(WriteManifest(w, s, i, git, m, e))
  {
  }

  lemma BeginIsTruthful(w: World, c: CallId, i: Input)
    requires Truthful(w) && Url(i).Some? && Ids(w)
    ensures Truthful(Begun(w, c, i))
  {
  }

  lemma MoveIsTruthful(w: World, s: SyncId, row: Row, pc: Pc)
    requires Truthful(w) && s in w.running
    requires (pc.InGit? && w.running[s].pc.Marking?)
             || (pc.Returning? && w.running[s].pc.Persisting? && pc.r == ResultOf(w.running[s].pc.m))
    ensures Truthful(Move(w, s, row, pc))
  {
  }

  lemma SettleIsTruthful(w: World, s: SyncId)
    requires Truthful(w) && s in w.running && w.running[s].pc.Returning?
    ensures Truthful(Settled(w, s))
  {
  }

  lemma CallIsTruthful(w: World, c: CallId, i: Input)
    requires Truthful(w) && Ids(w)
    ensures Truthful(Called(w, c, i))
  {
    if i.key !in w.inFlight {
      if Url(i).Some? {
        BeginIsTruthful(w, c, i);
      } else {
        OneMoreGenuine(w.written, w.started, Record(i, None, Unconfigured(i)));
        WriteIsTold(Begun(w, c, i), w.started, i, None, Unconfigured(i), Cleared);
      }
    }
  }

  lemma GitIsTruthful(w: World, s: SyncId, git: Git, now: Instant)
    requires Truthful(w) && Ids(w) && At(w, s, InGit)
    ensures Truthful(AfterGit(w, s, git, now))
  {
    var i := w.running[s].input;
    var m := Outcome(i, git, now, Lookup(w.manifests, i.key));
    OneMoreGenuine(w.written, s, Record(i, Some(git), m));
    WriteIsTold(w, s, i, Some(git), m, if git.Head? then Moved(Trim(git.ref)) else Kept);
  }

  lemma StepIsTruthful(w: World, l: Label)
    requires Truthful(w) && Ids(w) && Enabled(w, l) && (l.RowMarked? ==> w.running[l.s].input.key in w.rows)
    ensures Truthful(Next(w, l))
  {
    match l {
      case Call(c, i) => CallIsTruthful(w, c, i);
      case GitDone(s, git, now) => GitIsTruthful(w, s, git, now);
      case RowMarked(s) => MoveIsTruthful(w, s, Marked(w.rows[w.running[s].input.key]), InGit);
      case RowWritten(s) => MoveIsTruthful(w, s, RowOf(w.running[s].pc.m), Returning(ResultOf(w.running[s].pc.m)));
      case Settle(s) => SettleIsTruthful(w, s);
    }
  }

  lemma {:induction false} RunIsTruthful(w0: World, w: World, ls: seq<Label>)
    requires Inv(w0, w) && Truthful(w) && Legal(w, ls)
    ensures Truthful(Run(w, ls))
    decreases |ls|
  {
    if ls != [] {
      StepKeepsInv(w0, w, ls[0]);
      StepIsTruthful(w, ls[0]);
      RunIsTruthful(w0, Next(w, ls[0]), ls[1..]);
    }
  }

  // Every call is answered exactly when the sync it started or joined settles,
  // and all calls of one sync get one result: that of the manifest it wrote,
  // which says that there is no URL or what git came to.
  lemma JoinersShareTheResult(w0: World, ls: seq<Label>)
    requires Initial(w0) && Legal(w0, ls)
    ensures var w := Run(w0, ls);
      && (forall c | c in w.callers :: c in w.results <==> w.callers[c] !in w.running)
      && (forall c | c in w.results && c in w.callers ::
            var s := w.callers[c]; SaysWhatWasWritten(w.written, s, w.results[c]) && Genuine(w.written[s]))
  {
    RunKeepsInv(w0, w0, ls);
    RunIsTruthful(w0, w0, ls);
  }

  // Whenever no sync of an environment is in flight and one has completed, its
  // manifest and its row agree; and their head is what the syncs left.
  lemma StoresAgreeAfterEverySync(w0: World, ls: seq<Label>, k: Key)
    requires Initial(w0) && Legal(w0, ls)
    ensures var w := Run(w0, ls);
      k in w.effects && k !in w.inFlight ==>
        && Agree(w.manifests, w.rows, k)
        && w.rows[k].headRef == HeadAfter(ExistingHead(Lookup(w0.manifests, k)), w.effects[k])
        && !w.rows[k].status.Syncing?
  {
    RunKeepsInv(w0, w0, ls);
    SettledStatus(w0, ls);
    var w := Run(w0, ls);
    assert ExistingHead(Lookup(w.manifests, k))
      == HeadAfter(ExistingHead(Lookup(w0.manifests, k)), EffectsOf(w.effects, k));
  }

  ghost predicate Written(w: World) { forall k | k in w.effects :: k in w.manifests && !w.manifests[k].status.Syncing? }

  lemma WriteSettles(w: World, s: SyncId, i: Input, git: Option<Git>, m: Manifest, e: Effect)
    requires Written(w) && !m.status.Syncing?
    ensures Written(WriteManifest(w, s, i, git, m, e))
  {
  }

  lemma StepSettles(w: World, l: Label)
    requires Written(w) && Enabled(w, l)
    ensures Written(Next(w, l))
  {
    match l {
      case Call(c, i) => WriteSettles(Begun(w, c, i), w.started, i, None, Unconfigured(i), Cleared);
      case GitDone(s, git, now) =>
        var i := w.running[s].input;
        var effect := if git.Head? then Moved(Trim(git.ref)) else Kept;
        WriteSettles(w, s, i, Some(git), Outcome(i, git, now, Lookup(w.manifests, i.key)), effect);
      case _ =>
    }
  }

  lemma {:induction false} SettledStatus(w: World, ls: seq<Label>)
    requires Written(w) && Legal(w, ls)
    ensures Written(Run(w, ls))
    decreases |ls|
  {
    if ls != [] {
      StepSettles(w, ls[0]);
      SettledStatus(Next(w, ls[0]), ls[1..]);
    }
  }

  ghost predicate NoneMoved(effects: seq<Effect>) { forall i | 0 <= i < |effects| :: effects[i].Kept? }

  // The effect at i moved the head there and none after it did anything.
  ghost predicate MovesAt(effects: seq<Effect>, i: int, head: string) {
    0 <= i < |effects| && effects[i] == Moved(head) && NoneMoved(effects[i + 1..])
  }

  ghost predicate MovedLast(effects: seq<Effect>, head: string) { exists i :: MovesAt(effects, i, head) }

  lemma NoneMovedNext(front: seq<Effect>, e: Effect)
    ensures NoneMoved(front + [e]) <==> NoneMoved(front) && e.Kept?
  {
    assert forall i | 0 <= i < |front| :: (front + [e])[i] == front[i];
    assert (front + [e])[|front|] == e;
  }

  lemma MovedLastNext(front: seq<Effect>, e: Effect, head: string)
    ensures MovedLast(front + [e], head) <==> e == Moved(head) || (e.Kept? && MovedLast(front, head))
  {
    var all := front + [e];
    forall i | 0 <= i < |front| ensures MovesAt(all, i, head) <==> MovesAt(front, i, head) && e.Kept? {
      assert all[i + 1..] == front[i + 1..] + [e];
      NoneMovedNext(front[i + 1..], e);
    }
    assert all[|front| + 1..] == [] && all[|front|] == e;
    assert MovesAt(all, |front|, head) <==> e == Moved(head);
  }

  // HeadAfter said directly.
  lemma {:induction false} HeadIsTheLastMove(first: Option<string>, effects: seq<Effect>, head: string)
    ensures HeadAfter(first, effects) == Some(head) <==>
      (first == Some(head) && NoneMoved(effects)) || MovedLast(effects, head)
  {
    if effects != [] {
      var front, last := effects[..|effects| - 1], effects[|effects| - 1];
      assert effects == front + [last];
      HeadIsTheLastMove(first, front, head);
      NoneMovedNext(front, last);
      MovedLastNext(front, last, head);
    }
  }
}
