// Artifacts: rows made from a run's outputs, found again by the hash of their
// content, and synced to Feishu.
module Artifacts {
  import opened Prelude
  import opened Text

  datatype Kind = Document | Task | File | ExecutionLog | Summary
  datatype Status = Pending | Synced | Failed | Skipped
  datatype Channel = GroupMessage | FeishuDoc | Bitable | InternalDigest

  datatype Output = Output(kind: Kind, title: string, content: Option<string>, tasks: seq<string>, persist: bool,
      channels: seq<Channel>)

  datatype Remote = Remote(token: Option<string>, url: Option<string>, recordIds: string, fileKey: Option<string>)

  const NoRemote := Remote(None, None, "", None)

  datatype Artifact = Artifact(
    project: string, kind: Kind, hash: string,
    status: Status,
    output: Output,
    syncError: Option<string>, skipReason: Option<string>,
    remote: Remote)

  // What Feishu made: a document, a file or one row of a task table.
  datatype Creation = Creation(artifact: nat, what: Kind, row: nat)

  // A refused request makes nothing.
  datatype Reply<T> = Done(value: T) | Refused(error: string)

  // The requests behind one document: create it, convert its text to blocks,
  // add the blocks. The conversion may find no blocks to add.
  datatype DocumentReplies = DocumentReplies(
    create: Reply<(Option<string>, Option<string>)>,
    convert: Reply<bool>,
    add: Reply<()>)

  // How creating a document ends. It can throw with the document made.
  datatype Made =
    | Returned(token: Option<string>, url: Option<string>)
    | NotMade(error: string)
    | HalfMade(error: string)

  datatype Policy = Policy(allowDocWrite: bool, allowTaskBoardWrite: bool)

  // How the group's policy and Feishu answer one sync.
  datatype World = World(
    chat: Option<string>,
    policy: Option<Policy>,
    document: DocumentReplies,
    file: Reply<Option<string>>,
    row: nat -> Reply<Option<string>>)

  // ---- the status table

  predicate MayBecome(from: Status, to: Status) {
    from == to || ((from.Pending? || from.Failed?) && !to.Pending?)
  }

  predicate Final(s: Status) { s.Synced? || s.Skipped? }

  // Nothing follows a final status, and nothing becomes pending again.
  lemma ArtifactTableInWords(from: Status, to: Status)
    ensures MayBecome(from, to) <==> from == to || (from in {Pending, Failed} && to in {Synced, Failed, Skipped})
    ensures Final(from) <==> forall s :: MayBecome(from, s) ==> s == from
  {
    assert from in {Pending, Failed} ==> MayBecome(from, Synced);
  }

  // ---- one sync

  predicate CanWrite(w: World, kind: Kind) {
    w.chat.None? || Trim(w.chat.value) == "" || w.policy.None?
    || if kind.Document? then w.policy.value.allowDocWrite else w.policy.value.allowTaskBoardWrite
  }

  // Why an output is not written at all.
  function SkipReason(a: Artifact, w: World): Option<string> {
    if a.kind.Summary? || a.kind.ExecutionLog? then None
    else if !a.output.persist then Some("Durable persistence was not requested for this output.")
    else if a.kind.Document? then
      if FeishuDoc !in a.output.channels then Some("Document output did not target feishu_doc.")
      else if !CanWrite(w, Document) then Some("Group policy does not allow document writes.")
      else None
    else if a.kind.Task? then
      if Bitable !in a.output.channels then Some("Task output did not target bitable.")
      else if !CanWrite(w, Task) then Some("Group policy does not allow task board writes.")
      else None
    else None
  }

  function RowCount(o: Output): nat { if o.tasks == [] then 1 else |o.tasks| }

  // Rows are written one after the other until one is refused.
  function RowsWritten(w: World, from: nat, n: nat): (k: nat)
    requires from <= n
    ensures from <= k <= n
    ensures forall i | from <= i < k :: w.row(i).Done?
    ensures k < n ==> w.row(k).Refused?
    decreases n - from
  {
    if from == n || w.row(from).Refused? then from else RowsWritten(w, from + 1, n)
  }

  function JoinIds(w: World, n: nat): string {
    if n == 0 then ""
    else
      var front := JoinIds(w, n - 1);
      if w.row(n - 1).Done? && w.row(n - 1).value.Some? && w.row(n - 1).value.value != ""
      then front + (if front == "" then "" else ",") + w.row(n - 1).value.value
      else front
  }

  function MarkedSynced(a: Artifact, r: Remote): Artifact {
    a.(status := Synced, syncError := None, skipReason := None, remote := r)
  }

  function MarkedSkipped(a: Artifact, reason: string): Artifact {
    a.(status := Skipped, syncError := None, skipReason := Some(reason))
  }

  function MarkedFailed(a: Artifact, error: string): Artifact {
    a.(status := Failed, syncError := Some(error))
  }

  function DocumentText(o: Output): string { if o.content.Some? then o.content.value else o.title }

  // Without a token or a text nothing is asked after the creation.
  function CreateDocument(d: DocumentReplies, text: string): Made {
    match d.create
    case Refused(e) => NotMade(e)
    case Done(doc) =>
      if doc.0.None? || doc.0.value == "" || Trim(text) == "" then Returned(doc.0, doc.1)
      else
        match d.convert
        case Refused(e) => HalfMade(e)
        case Done(anyBlocks) =>
          if anyBlocks && d.add.Refused? then HalfMade(d.add.error) else Returned(doc.0, doc.1)
  }

  function MadeDocument(a: Artifact, w: World): Made { CreateDocument(w.document, DocumentText(a.output)) }

  function Rows(id: nat, n: nat): seq<Creation> {
    if n == 0 then [] else Rows(id, n - 1) + [Creation(id, Task, n - 1)]
  }

  // ---- one attempt to sync an artifact that is not final

  function Tried(a: Artifact, w: World): Artifact {
    if SkipReason(a, w).Some? then MarkedSkipped(a, SkipReason(a, w).value)
    else
      match a.kind
      case Summary => MarkedSynced(a, a.remote)
      case ExecutionLog => MarkedSynced(a, a.remote)
      case Document =>
        (match MadeDocument(a, w)
         case Returned(token, url) => MarkedSynced(a, a.remote.(token := token, url := url))
         case NotMade(e) => MarkedFailed(a, e)
         case HalfMade(e) => MarkedFailed(a, e))
      case File =>
        (match w.file
         case Done(key) => MarkedSynced(a, a.remote.(fileKey := key))
         case Refused(e) => MarkedFailed(a, e))
      case Task =>
        var n := RowCount(a.output);
        var k := RowsWritten(w, 0, n);
        if k == n then MarkedSynced(a, a.remote.(recordIds := JoinIds(w, n))) else MarkedFailed(a, w.row(k).error)
  }

  // How many rows, and which things at all, the attempt makes in Feishu.
  function RowsBy(a: Artifact, w: World): nat {
    if a.kind.Task? && SkipReason(a, w).None? then RowsWritten(w, 0, RowCount(a.output)) else 0
  }

  function MadeBy(a: Artifact, id: nat, w: World): seq<Creation> {
    if SkipReason(a, w).Some? then []
    else
      match a.kind
      case Summary => []
      case ExecutionLog => []
      case Document => if MadeDocument(a, w).NotMade? then [] else [Creation(id, Document, 0)]
      case File => if w.file.Done? then [Creation(id, File, 0)] else []
      case Task => Rows(id, RowsBy(a, w))
  }

  // What a sync makes of an artifact, and what Feishu makes meanwhile.
  function Outcome(a: Artifact, id: nat, w: World): (Artifact, seq<Creation>) {
    if Final(a.status) then (a, []) else (Tried(a, w), MadeBy(a, id, w))
  }

  lemma SyncEndsPending(a: Artifact, id: nat, w: World)
    ensures !Outcome(a, id, w).0.status.Pending?
  {
  }

  // ---- what an attempt comes to, from what it was asked and answered

  // A group with a policy that forbids this kind of write.
  predicate Forbidden(kind: Kind, w: World) {
    && w.chat.Some? && Trim(w.chat.value) != "" && w.policy.Some?
    && ((kind.Document? && !w.policy.value.allowDocWrite) || (kind.Task? && !w.policy.value.allowTaskBoardWrite))
  }

  // Durable persistence or the kind's own channel was not asked for.
  predicate NotAsked(kind: Kind, o: Output) {
    && !kind.Summary? && !kind.ExecutionLog?
    && (!o.persist || (kind.Document? && FeishuDoc !in o.channels) || (kind.Task? && Bitable !in o.channels))
  }

  // Every request that this kind needs is accepted.
  ghost predicate Accepted(kind: Kind, o: Output, w: World) {
    match kind
    case Summary => true
    case ExecutionLog => true
    case File => w.file.Done?
    case Task => forall j | 0 <= j < (if o.tasks == [] then 1 else |o.tasks|) :: w.row(j).Done?
    case Document =>
      && w.document.create.Done?
      && (|| w.document.create.value.0.None? || w.document.create.value.0.value == ""
          || Trim(if o.content.Some? then o.content.value else o.title) == ""
          || (w.document.convert.Done? && (w.document.convert.value ==> w.document.add.Done?)))
  }

  // The error of the first request that was refused.
  ghost predicate RefusedWith(kind: Kind, w: World, error: string) {
    match kind
    case Summary => false
    case ExecutionLog => false
    case File => w.file == Refused(error)
    case Task => exists j: nat :: w.row(j) == Refused(error) && forall k | 0 <= k < j :: w.row(k).Done?
    case Document =>
      || w.document.create == Refused(error)
      || (w.document.create.Done? && w.document.convert == Refused(error))
      || (w.document.create.Done? && w.document.convert == Done(true) && w.document.add == Refused(error))
  }

  ghost predicate Ended(a: Artifact, b: Artifact, w: World) {
    && (b.status == Skipped <==> NotAsked(a.kind, a.output) || Forbidden(a.kind, w))
    && (b.status == Synced <==> b.status != Skipped && Accepted(a.kind, a.output, w))
    && !b.status.Pending?
    && (b.status == Failed ==> b.syncError.Some? && RefusedWith(a.kind, w, b.syncError.value) && b.remote == a.remote)
    && (b.status == Skipped ==> b.syncError.None? && b.skipReason.Some? && b.remote == a.remote)
    && (b.status == Synced ==> b.syncError.None? && b.skipReason.None? && Remembers(a, b, w))
  }

  // A synced artifact keeps what Feishu answered.
  ghost predicate Remembers(a: Artifact, b: Artifact, w: World) {
    match a.kind
    case Summary => b.remote == a.remote
    case ExecutionLog => b.remote == a.remote
    case File => w.file.Done? && b.remote == a.remote.(fileKey := w.file.value)
    case Document =>
      && w.document.create.Done?
      && b.remote == a.remote.(token := w.document.create.value.0, url := w.document.create.value.1)
    case Task =>
      b.remote == a.remote.(recordIds := JoinIds(w, if a.output.tasks == [] then 1 else |a.output.tasks|))
  }

  lemma TaskIsAccepted(o: Output, w: World)
    ensures var n := if o.tasks == [] then 1 else |o.tasks|; var k := RowsWritten(w, 0, n);
      && (k == n <==> Accepted(Task, o, w))
      && (k < n ==> w.row(k).Refused? && RefusedWith(Task, w, w.row(k).error))
  {
  }

  // An attempt skips what was not asked for or is forbidden, and otherwise syncs
  // exactly when every request is accepted.
  lemma AttemptEnds(a: Artifact, w: World)
    ensures Ended(a, Tried(a, w), w)
  {
    if a.kind.Task? { TaskIsAccepted(a.output, w); }
  }

  // The ids of the rows that have one.
  function RowIds(w: World, n: nat): seq<string> {
    if n == 0 then []
    else
      match w.row(n - 1)
      case Refused(_) => RowIds(w, n - 1)
      case Done(id) => RowIds(w, n - 1) + if id.Some? && id.value != "" then [id.value] else []
  }

  // They can be read back from the text they are kept in.
  lemma {:induction false} RowIdsReadBack(w: World, n: nat)
    requires forall id | id in RowIds(w, n) :: Free(id, ',')
    ensures JoinIds(w, n) == "" <==> RowIds(w, n) == []
    ensures RowIds(w, n) != [] ==> Split(JoinIds(w, n), ',') == RowIds(w, n)
  {
    if n > 0 {
      assert forall id | id in RowIds(w, n - 1) :: id in RowIds(w, n);
      RowIdsReadBack(w, n - 1);
      var front := JoinIds(w, n - 1);
      if w.row(n - 1).Done? && w.row(n - 1).value.Some? && w.row(n - 1).value.value != "" {
        var id := w.row(n - 1).value.value;
        assert RowIds(w, n)[|RowIds(w, n - 1)|] == id;
        if front == "" {
          SplitFree(id, ',');
          assert "" + "" + id == id && [] + [id] == [id];
        } else {
          SplitLast(front, ',', id);
          assert front + [','] + id == front + "," + id;
        }
      }
    }
  }

  // ---- the store

  type Hash = Output -> string

  predicate Matches(a: Artifact, project: string, kind: Kind, hash: string) {
    a.project == project && a.kind == kind && a.hash == hash
  }

  function Find(artifacts: seq<Artifact>, project: string, kind: Kind, hash: string): (r: Option<nat>)
    ensures r.Some? ==> r.value < |artifacts| && Matches(artifacts[r.value], project, kind, hash)
    ensures r.None? ==> forall i | 0 <= i < |artifacts| :: !Matches(artifacts[i], project, kind, hash)
  {
    if artifacts == [] then None
    else if Matches(artifacts[|artifacts| - 1], project, kind, hash) then Some(|artifacts| - 1)
    else Find(artifacts[..|artifacts| - 1], project, kind, hash)
  }

  datatype Store = Store(artifacts: seq<Artifact>, created: seq<Creation>)

  function WithOutput(s: Store, h: Hash, project: string, o: Output): (r: (Store, nat))
    ensures r.1 < |r.0.artifacts|
  {
    match Find(s.artifacts, project, o.kind, h(o))
    case Some(i) => (s, i)
    case None => (s.(artifacts := s.artifacts + [Artifact(project, o.kind, h(o), Pending, o, None, None, NoRemote)]),
      |s.artifacts|)
  }

  function WithSync(s: Store, id: nat, w: World): Store {
    if id >= |s.artifacts| then s
    else
      var (a, made) := Outcome(s.artifacts[id], id, w);
      Store(s.artifacts[id := a], s.created + made)
  }

  // An output made an artifact and synced, and the status it is reported with.
  function WithOneOutput(s: Store, h: Hash, project: string, o: Output, w: World): (Store, Status) {
    var (t, id) := WithOutput(s, h, project, o);
    var u := WithSync(t, id, w);
    (u, u.artifacts[id].status)
  }

  // A run's outputs one after the other.
  function WithRun(s: Store, h: Hash, project: string, outputs: seq<Output>, worlds: seq<World>): Store
    requires |worlds| == |outputs|
    decreases |outputs|
  {
    if outputs == [] then s
    else WithRun(WithOneOutput(s, h, project, outputs[0], worlds[0]).0, h, project, outputs[1..], worlds[1..])
  }

  function ReportedBy(s: Store, h: Hash, project: string, outputs: seq<Output>, worlds: seq<World>): (r: seq<Status>)
    requires |worlds| == |outputs|
    ensures |r| == |outputs|
    decreases |outputs|
  {
    if outputs == [] then []
    else
      var (t, status) := WithOneOutput(s, h, project, outputs[0], worlds[0]);
      [status] + ReportedBy(t, h, project, outputs[1..], worlds[1..])
  }

  lemma OneOutputOfARun(s: Store, h: Hash, project: string, outputs: seq<Output>, worlds: seq<World>, i: nat)
    requires |worlds| == |outputs| && i < |outputs|
    ensures var (t, status) := WithOneOutput(s, h, project, outputs[i], worlds[i]);
      && WithRun(s, h, project, outputs[i..], worlds[i..]) == WithRun(t, h, project, outputs[i + 1..], worlds[i + 1..])
      && ReportedBy(s, h, project, outputs[i..], worlds[i..])
        == [status] + ReportedBy(t, h, project, outputs[i + 1..], worlds[i + 1..])
  {
    assert outputs[i..][1..] == outputs[i + 1..] && worlds[i..][1..] == worlds[i + 1..];
  }

  // Made from an output with this content, as far as its hash tells.
  predicate SameContent(a: Artifact, project: string, kind: Kind, hash: string) {
    (a.project, a.kind, a.hash) == (project, kind, hash)
  }

  class ArtifactService {
    const hash: Hash
    var artifacts: seq<Artifact>
    var created: seq<Creation>

    function Contents(): Store reads this { Store(artifacts, created) }

    constructor (h: Hash)
      ensures hash == h && Contents() == Store([], [])
    {
      hash, artifacts, created := h, [], [];
    }

    method CreateFromOutput(project: string, output: Output) returns (id: nat)
      modifies this
      ensures (Contents(), id) == WithOutput(old(Contents()), hash, project, output)
      ensures id < |artifacts| && SameContent(artifacts[id], project, output.kind, hash(output))
      ensures if exists a :: a in old(artifacts) && SameContent(a, project, output.kind, hash(output))
              then artifacts == old(artifacts)
              else id == |old(artifacts)| && artifacts[..id] == old(artifacts) && |artifacts| == id + 1
                   && artifacts[id].status == Pending && artifacts[id].output == output
    {
      var existing := Find(artifacts, project, output.kind, hash(output));
      if existing.Some? {
        assert artifacts[existing.value] in artifacts;
        return existing.value;
      }
      artifacts := artifacts + [Artifact(project, output.kind, hash(output), Pending, output, None, None, NoRemote)];
      id := |artifacts| - 1;
    }

    // The mark methods check the status table; a refused mark writes nothing.
    method MarkSynced(id: nat, remote: Remote) returns (ok: bool)
      requires id < |artifacts|
      modifies this`artifacts
      ensures ok <==> MayBecome(old(artifacts)[id].status, Synced)
      ensures artifacts == if ok then old(artifacts)[id := MarkedSynced(old(artifacts)[id], remote)] else old(artifacts)
    {
      ok := MayBecome(artifacts[id].status, Synced);
      if ok {
        artifacts := artifacts[
          id := artifacts[id].(status := Synced, syncError := None, skipReason := None, remote := remote)];
      }
    }

    method MarkSkipped(id: nat, reason: string) returns (ok: bool)
      requires id < |artifacts|
      modifies this`artifacts
      ensures ok <==> MayBecome(old(artifacts)[id].status, Skipped)
      ensures artifacts
        == if ok then old(artifacts)[id := MarkedSkipped(old(artifacts)[id], reason)] else old(artifacts)
    {
      ok := MayBecome(artifacts[id].status, Skipped);
      if ok {
        artifacts := artifacts[id := artifacts[id].(status := Skipped, syncError := None, skipReason := Some(reason))];
      }
    }

    method WriteRows(id: nat, w: World) returns (error: Option<string>, ids: string)
      requires id < |artifacts|
      modifies this`created
      ensures var n := RowCount(artifacts[id].output); var k := RowsWritten(w, 0, n);
        && created == old(created) + Rows(id, k)
        && error == (if k == n then None else Some(w.row(k).error))
        && (k == n ==> ids == JoinIds(w, n))
    {
      var n := RowCount(artifacts[id].output);
      ids, error := "", None;
      var i := 0;
      while i < n
        invariant 0 <= i <= n && RowsWritten(w, i, n) == RowsWritten(w, 0, n)
        invariant created == old(created) + Rows(id, i) && ids == JoinIds(w, i) && error == None
      {
        var reply := w.row(i);
        if reply.Refused? {
          error := Some(reply.error);
          return;
        }
        created := created + [Creation(id, Task, i)];
        if reply.value.Some? && reply.value.value != "" {
          ids := ids + (if ids == "" then "" else ",") + reply.value.value;
        }
        i := i + 1;
      }
    }

    // An unknown artifact is an error; no status check ever fails.
    method SyncArtifact(id: nat, w: World) returns (status: Option<Status>)
      modifies this
      ensures Contents() == WithSync(old(Contents()), id, w)
      ensures status == if id < |artifacts| then Some(artifacts[id].status) else None
      ensures id < |old(artifacts)| && !Final(old(artifacts)[id].status) ==>
        Ended(old(artifacts)[id], artifacts[id], w)
    {
      if id >= |artifacts| {
        return None;
      }
      AttemptEnds(artifacts[id], w);
      var a := artifacts[id];
      if a.status.Synced? || a.status.Skipped? {
        return Some(a.status);
      }
      var ok := true;
      var error := None;
      if a.kind.Summary? || a.kind.ExecutionLog? {
        ok := MarkSynced(id, a.remote);
      } else if !a.output.persist {
        ok := MarkSkipped(id, "Durable persistence was not requested for this output.");
      } else if a.kind.Document? {
        SyncDocument(id, w);
      } else if a.kind.Task? {
        SyncTask(id, w);
      } else if w.file.Done? {
        created := created + [Creation(id, File, 0)];
        ok := MarkSynced(id, a.remote.(fileKey := w.file.value));
      } else {
        error := Some(w.file.error);
      }
      assert ok;
      if error.Some? {
        MarkFailed(id, error.value);
      }
      status := Some(artifacts[id].status);
    }

    method MarkFailed(id: nat, error: string)
      requires id < |artifacts|
      modifies this`artifacts
      ensures artifacts == old(artifacts)[id := MarkedFailed(old(artifacts)[id], error)]
    {
      artifacts := artifacts[id := artifacts[id].(status := Failed, syncError := Some(error))];
    }

    // The requests one after the other; the creation stands whatever comes after.
    method CreateFeishuDocument(id: nat, text: string, d: DocumentReplies) returns (made: Made)
      modifies this`created
      ensures made == CreateDocument(d, text)
      ensures created == old(created) + if made.NotMade? then [] else [Creation(id, Document, 0)]
    {
      if d.create.Refused? {
        return NotMade(d.create.error);
      }
      created := created + [Creation(id, Document, 0)];
      var token := d.create.value.0;
      if token.Some? && token.value != "" && Trim(text) != "" {
        if d.convert.Refused? {
          return HalfMade(d.convert.error);
        }
        if d.convert.value && d.add.Refused? {
          return HalfMade(d.add.error);
        }
      }
      made := Returned(token, d.create.value.1);
    }

    // The branch for documents, once persistence is known to be asked for.
    method SyncDocument(id: nat, w: World)
      requires id < |artifacts| && artifacts[id].kind.Document? && artifacts[id].output.persist
      requires !Final(artifacts[id].status)
      modifies this
      ensures Contents() == WithSync(old(Contents()), id, w)
    {
      var a := artifacts[id];
      var ok := true;
      if FeishuDoc !in a.output.channels {
        ok := MarkSkipped(id, "Document output did not target feishu_doc.");
      } else if !CanWrite(w, Document) {
        ok := MarkSkipped(id, "Group policy does not allow document writes.");
      } else {
        var made := CreateFeishuDocument(id, DocumentText(a.output), w.document);
        match made {
          case Returned(token, url) => ok := MarkSynced(id, a.remote.(token := token, url := url));
          case NotMade(e) => MarkFailed(id, e);
          case HalfMade(e) => MarkFailed(id, e);
        }
      }
      assert ok;
    }

    // The branch for tasks, once persistence is known to be asked for.
    method SyncTask(id: nat, w: World)
      requires id < |artifacts| && artifacts[id].kind.Task? && artifacts[id].output.persist
      requires !Final(artifacts[id].status)
      modifies this
      ensures Contents() == WithSync(old(Contents()), id, w)
    {
      var a := artifacts[id];
      var ok := true;
      if Bitable !in a.output.channels {
        ok := MarkSkipped(id, "Task output did not target bitable.");
      } else if !CanWrite(w, Task) {
        ok := MarkSkipped(id, "Group policy does not allow task board writes.");
      } else {
        var error, ids := WriteRows(id, w);
        if error.None? {
          ok := MarkSynced(id, a.remote.(recordIds := ids));
        } else {
          MarkFailed(id, error.value);
        }
      }
      assert ok;
    }

    method RetrySync(id: nat, w: World) returns (status: Option<Status>)
      modifies this
      ensures Contents() == WithSync(old(Contents()), id, w)
      ensures status == if id < |artifacts| then Some(artifacts[id].status) else None
    {
      if id < |artifacts| && artifacts[id].status.Synced? {
        return Some(Synced);
      }
      status := SyncArtifact(id, w);
    }

    // The loop that ends a run; the run fails when any of these failed.
    method SyncOutputs(project: string, outputs: seq<Output>, worlds: seq<World>) returns (statuses: seq<Status>)
      requires |worlds| == |outputs|
      modifies this
      ensures Contents() == WithRun(old(Contents()), hash, project, outputs, worlds)
      ensures statuses == ReportedBy(old(Contents()), hash, project, outputs, worlds)
      ensures forall i | 0 <= i < |statuses| :: !statuses[i].Pending?
    {
      statuses := [];
      for i := 0 to |outputs|
        invariant WithRun(Contents(), hash, project, outputs[i..], worlds[i..])
          == WithRun(old(Contents()), hash, project, outputs, worlds)
        invariant statuses + ReportedBy(Contents(), hash, project, outputs[i..], worlds[i..])
          == ReportedBy(old(Contents()), hash, project, outputs, worlds)
        invariant |statuses| == i && forall j | 0 <= j < i :: !statuses[j].Pending?
      {
        OneOutputOfARun(Contents(), hash, project, outputs, worlds, i);
        ghost var next := WithOneOutput(Contents(), hash, project, outputs[i], worlds[i]).0;
        ghost var rest := ReportedBy(next, hash, project, outputs[i + 1..], worlds[i + 1..]);
        ghost var one := WithOneOutput(Contents(), hash, project, outputs[i], worlds[i]).1;
        Assoc(statuses, [one], rest);
        var status := SyncOutput(project, outputs[i], worlds[i]);
        statuses := statuses + [status];
      }
    }

    method SyncOutput(project: string, output: Output, w: World) returns (status: Status)
      modifies this
      ensures (Contents(), status) == WithOneOutput(old(Contents()), hash, project, output, w) && !status.Pending?
    {
      var id := CreateFromOutput(project, output);
      SyncEndsPending(artifacts[id], id, w);
      var synced := SyncArtifact(id, w);
      status := synced.value;
    }
  }
}
