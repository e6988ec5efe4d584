// Repository synchronisation: one sync per environment at a time, shared by its
// callers, and two stores, a manifest file and a row, that must agree.
module RepoSyncs {
  import opened Prelude
  import opened Text

  type Key = string       // project and environment
  type Instant = int

  datatype Status = Uninitialized | Syncing | Ready | Error

  datatype Manifest = Manifest(
    repoUrl: Option<string>, branch: string,
    status: Status, syncedAt: Option<Instant>, headRef: Option<string>, error: Option<string>)

  datatype Row = Row(status: Status, syncedAt: Option<Instant>, headRef: Option<string>, error: Option<string>)

  datatype Input = Input(key: Key, repoUrl: Option<string>, repoBranch: Option<string>)

  // What the git commands of one sync come to.
  datatype Git = Head(ref: string) | Failure(message: string)

  datatype Result = Result(synced: bool, status: Status, headRef: Option<string>, error: Option<string>)

  // ---- one sync on its own

  function Url(i: Input): Option<string> {
    if i.repoUrl.Some? && Trim(i.repoUrl.value) != "" then Some(Trim(i.repoUrl.value)) else None
  }

  function Branch(i: Input): string {
    if i.repoBranch.Some? && Trim(i.repoBranch.value) != "" then Trim(i.repoBranch.value) else "main"
  }

  const NoUrl := "Repository URL is not configured for this environment."

  // The head the manifest holds; a missing or unreadable manifest holds none.
  function ExistingHead(m: Option<Manifest>): Option<string> {
    if m.Some? then m.value.headRef else None
  }

  function Unconfigured(i: Input): Manifest {
    Manifest(None, Branch(i), Uninitialized, None, None, Some(NoUrl))
  }

  function Outcome(i: Input, git: Git, now: Instant, previous: Option<Manifest>): Manifest {
    match git
    case Head(ref) => Manifest(Url(i), Branch(i), Ready, Some(now), Some(Trim(ref)), None)
    case Failure(message) => Manifest(Url(i), Branch(i), Error, Some(now), ExistingHead(previous), Some(message))
  }

  function ResultOf(m: Manifest): Result { Result(m.status.Ready?, m.status, m.headRef, m.error) }

  function RowOf(m: Manifest): Row { Row(m.status, m.syncedAt, m.headRef, m.error) }

  function Marked(r: Row): Row { r.(status := Syncing, error := None) }

  // The two stores of one environment.
  class Environment {
    var manifest: Option<Manifest>
    var row: Row

    constructor (m: Option<Manifest>, r: Row)
      ensures manifest == m && row == r
    {
      manifest, row := m, r;
    }

    method PersistState(m: Manifest)
      modifies this
      ensures manifest == Some(m) && row == RowOf(m)
    {
      manifest := Some(m);
      row := Row(m.status, m.syncedAt, m.headRef, m.error);
    }

    // Without a URL git is not called. Whatever happens the stores agree at the
    // end, and a failure keeps the head that was there.
    method EnsureRepoFreshInternal(input: Input, git: Git, now: Instant) returns (r: Result)
      modifies this
      ensures manifest
        == Some(if Url(input).None? then Unconfigured(input) else Outcome(input, git, now, old(manifest)))
      ensures row == RowOf(manifest.value) && r == ResultOf(manifest.value)
      ensures row.status == r.status && (r.synced <==> r.status == Ready) && row.error == r.error
      ensures var blank := input.repoUrl.None? || Trim(input.repoUrl.value) == "";
        && (row.status == Ready <==> !blank && git.Head?)
        && (row.status == Error <==> !blank && git.Failure?)
        && (row.status == Uninitialized <==> blank)
        && (row.status == Ready ==> row.error.None?) && (row.status == Error ==> row.error == Some(git.message))
        && (row.syncedAt == if blank then None else Some(now))
      ensures row.headRef ==
        if Url(input).None? then None else if git.Head? then Some(Trim(git.ref)) else ExistingHead(old(manifest))
    {
      if Url(input).None? {
        PersistState(Manifest(None, Branch(input), Uninitialized, None, None, Some(NoUrl)));
        return Result(false, Uninitialized, None, Some(NoUrl));
      }
      row := Row(Syncing, row.syncedAt, row.headRef, None);
      match git {
        case Head(ref) =>
          PersistState(Manifest(Url(input), Branch(input), Ready, Some(now), Some(Trim(ref)), None));
          r := Result(true, Ready, Some(Trim(ref)), None);
        case Failure(message) =>
          var previous := ExistingHead(manifest);
          PersistState(Manifest(Url(input), Branch(input), Error, Some(now), previous, Some(message)));
          r := Result(false, Error, previous, Some(message));
      }
    }
  }

  // ---- all calls together, one step between two awaits

  type SyncId = nat
  type CallId = nat

  // Waiting for the row to be marked, for git, for the row to be written, and
  // to settle.
  datatype Pc = Marking | InGit | Persisting(m: Manifest) | Returning(r: Result)

  datatype Sync = Sync(input: Input, pc: Pc)

  // What a sync did to the head.
  datatype Effect = Cleared | Moved(head: string) | Kept

  // What git came to, if it was called, and what was written then.
  datatype Record = Record(input: Input, git: Option<Git>, manifest: Manifest)

  datatype World = World(
    manifests: map<Key, Manifest>,
    rows: map<Key, Row>,
    inFlight: map<Key, SyncId>,
    running: map<SyncId, Sync>,
    started: nat,
    callers: map<CallId, SyncId>,     // the sync each call started or joined
    finished: map<SyncId, Result>,
    results: map<CallId, Result>,
    effects: map<Key, seq<Effect>>,
    written: map<SyncId, Record>)     // what each sync wrote to the manifest file

  datatype Label =
    | Call(c: CallId, input: Input)
    | RowMarked(s: SyncId)
    | GitDone(s: SyncId, git: Git, now: Instant)
    | RowWritten(s: SyncId)
    | Settle(s: SyncId)

  function Lookup<K, V>(m: map<K, V>, k: K): Option<V> { if k in m then Some(m[k]) else None }

  function EffectsOf(effects: map<Key, seq<Effect>>, k: Key): seq<Effect> { if k in effects then effects[k] else [] }

  predicate At(w: World, s: SyncId, pc: Pc) { s in w.running && w.running[s].pc == pc }

  predicate Enabled(w: World, l: Label) {
    match l
    case Call(c, i) => c !in w.callers && i.key in w.rows
    case RowMarked(s) => At(w, s, Marking)
    case GitDone(s, _, _) => At(w, s, InGit)
    case RowWritten(s) => s in w.running && w.running[s].pc.Persisting?
    case Settle(s) => s in w.running && w.running[s].pc.Returning?
  }

  // Up to its first await a call joins the sync in flight or starts one; one
  // that has no URL writes the manifest at once.
  function Called(w: World, c: CallId, i: Input): World {
    if i.key in w.inFlight then Joined(w, c, w.inFlight[i.key])
    else if Url(i).None? then WriteManifest(Begun(w, c, i), w.started, i, None, Unconfigured(i), Cleared)
    else Begun(w, c, i)
  }

  function Joined(w: World, c: CallId, s: SyncId): World { w.(callers := w.callers[c := s]) }

  function Begun(w: World, c: CallId, i: Input): World {
    var s := w.started;
    w.(inFlight := w.inFlight[i.key := s], started := s + 1, callers := w.callers[c := s],
       running := w.running[s := Sync(i, Marking)])
  }

  function WriteManifest(w: World, s: SyncId, i: Input, git: Option<Git>, m: Manifest, e: Effect): World {
    w.(manifests := w.manifests[i.key := m],
       effects := w.effects[i.key := EffectsOf(w.effects, i.key) + [e]],
       running := w.running[s := Sync(i, Persisting(m))],
       written := w.written[s := Record(i, git, m)])
  }

  function AfterGit(w: World, s: SyncId, git: Git, now: Instant): World
    requires s in w.running
  {
    var i := w.running[s].input;
    WriteManifest(w, s, i, Some(git), Outcome(i, git, now, Lookup(w.manifests, i.key)),
                  if git.Head? then Moved(Trim(git.ref)) else Kept)
  }

  function Move(w: World, s: SyncId, row: Row, pc: Pc): World
    requires s in w.running
  {
    w.(rows := w.rows[w.running[s].input.key := row], running := w.running[s := w.running[s].(pc := pc)])
  }

  // The promise settles: its entry goes and every caller of it has its result.
  function Settled(w: World, s: SyncId): World
    requires s in w.running && w.running[s].pc.Returning?
  {
    var r := w.running[s].pc.r;
    w.(inFlight := w.inFlight - {w.running[s].input.key},
       running := w.running - {s},
       finished := w.finished[s := r],
       results := map c | c in w.callers && (c in w.results || w.callers[c] == s) ::
         if c in w.results then w.results[c] else r)
  }

  function Next(w: World, l: Label): World
    requires Enabled(w, l)
  {
    match l
    case Call(c, i) => Called(w, c, i)
    case RowMarked(s) =>
      var k := w.running[s].input.key;
      if k in w.rows then Move(w, s, Marked(w.rows[k]), InGit) else w
    case GitDone(s, git, now) => AfterGit(w, s, git, now)
    case RowWritten(s) => Move(w, s, RowOf(w.running[s].pc.m), Returning(ResultOf(w.running[s].pc.m)))
    case Settle(s) => Settled(w, s)
  }

  // The two segments that touch the map of syncs in flight, on the service's
  // own fields: joining or starting a sync, and its finally handler.
  class RepoSyncService {
    var manifests: map<Key, Manifest>
    var rows: map<Key, Row>
    var inFlight: map<Key, SyncId>
    var running: map<SyncId, Sync>
    var started: nat
    var callers: map<CallId, SyncId>
    var finished: map<SyncId, Result>
    var results: map<CallId, Result>
    var effects: map<Key, seq<Effect>>
    var written: map<SyncId, Record>

    function View(): World reads this {
      World(manifests, rows, inFlight, running, started, callers, finished, results, effects, written)
    }

    method EnsureRepoFresh(c: CallId, input: Input) returns (promise: SyncId)
      modifies this
      ensures View() == Called(old(View()), c, input)
      ensures Lookup(callers, c) == Some(promise) == Lookup(inFlight, input.key)
      ensures promise == if input.key in old(inFlight) then old(inFlight)[input.key] else old(started)
    {
      if input.key in inFlight {
        promise := inFlight[input.key];
        callers := callers[c := promise];
        return;
      }
      promise := started;
      started := started + 1;
      callers := callers[c := promise];
      running := running[promise := Sync(input, Marking)];
      inFlight := inFlight[input.key := promise];
      if Url(input).None? {
        PersistUnconfigured(promise, input);
      }
    }

    // The file is written at once; the row's update is awaited.
    method PersistUnconfigured(s: SyncId, input: Input)
      modifies this`manifests, this`effects, this`running, this`written
      ensures View() == WriteManifest(old(View()), s, input, None, Unconfigured(input), Cleared)
    {
      var m := Manifest(None, Branch(input), Uninitialized, None, None, Some(NoUrl));
      manifests := manifests[input.key := m];
      effects := effects[input.key := EffectsOf(effects, input.key) + [Cleared]];
      running := running[s := Sync(input, Persisting(m))];
      written := written[s := Record(input, None, m)];
    }

    method Finally(s: SyncId)
      requires s in running && running[s].pc.Returning?
      modifies this
      ensures View() == Settled(old(View()), s)
    {
      var r := running[s].pc.r;
      inFlight := inFlight - {running[s].input.key};
      running := running - {s};
      finished := finished[s := r];
      results := map c | c in callers && (c in results || callers[c] == s) :: if c in results then results[c] else r;
    }
  }

  predicate Legal(w: World, ls: seq<Label>)
    decreases |ls|
  {
    ls == [] || (Enabled(w, ls[0]) && Legal(Next(w, ls[0]), ls[1..]))
  }

  function Run(w: World, ls: seq<Label>): World
    requires Legal(w, ls)
    decreases |ls|
  {
    if ls == [] then w else Run(Next(w, ls[0]), ls[1..])
  }

  // A process start: any stores, nothing in flight.
  predicate Initial(w: World) {
    && w.inFlight == map[] && w.running == map[] && w.started == 0
    && w.callers == map[] && w.finished == map[] && w.results == map[] && w.effects == map[] && w.written == map[]
  }
}
