// The todo list of a runtime session: an append-only list of tasks, edited in
// place through names that are ids or aliases.
module TodoLists {
  import opened Prelude
  import opened Text

  datatype Status = Queued | Running | Completed | Failed | Canceled | Blocked

  type Payload = map<string, string>

  datatype Task = Task(
    id: string,
    runtimeRef: Option<string>,       // the alias
    title: string,
    description: Option<string>,
    intent: string,
    skillHint: Option<string>,
    outputMode: Option<string>,
    orderIndex: int,
    status: Status,
    blockedReason: Option<string>,
    payload: Option<Payload>,
    resultSummary: Option<string>,
    lastError: Option<string>)

  datatype Kind = Create | Update | Start | Complete | Fail | Cancel | Block

  // Every field but the kind may be missing; a hint, mode or payload may also be null.
  datatype Action = Action(
    kind: Kind,
    taskId: Option<string>,
    title: Option<string>,
    description: Option<string>,
    intent: Option<string>,
    skillHint: Option<Option<string>>,
    outputMode: Option<Option<string>>,
    taskPayload: Option<Option<Payload>>,
    resultSummary: Option<string>,
    errorMessage: Option<string>)

  // ---- names

  predicate Hex(c: char) { '0' <= c <= '9' || 'a' <= c <= 'f' || 'A' <= c <= 'F' }

  predicate UuidChar(i: nat, c: char) { if i in [8, 13, 18, 23] then c == '-' else Hex(c) }

  predicate IsUuid(value: string) {
    var s := Trim(value);
    && |s| == 36
    && (forall i | 0 <= i < 36 :: UuidChar(i, s[i]))
    && '1' <= s[14] <= '5'
    && s[19] in "89abAB"
  }

  predicate Named(t: Task, name: string) { t.id == name || t.runtimeRef == Some(name) }

  // The first task whose id or alias is the name.
  function FindNamed(tasks: seq<Task>, n: string): (r: Option<nat>)
    ensures r.Some? ==> r.value < |tasks| && Named(tasks[r.value], n)
    ensures forall i | 0 <= i < |tasks| && (r.Some? ==> i < r.value) :: !Named(tasks[i], n)
  {
    if tasks == [] then None
    else if Named(tasks[0], n) then Some(0)
    else
      match FindNamed(tasks[1..], n)
      case None => None
      case Some(i) => Some(i + 1)
  }

  function Find(tasks: seq<Task>, name: string): (r: Option<nat>)
    ensures r.Some? ==> r.value < |tasks| && Named(tasks[r.value], Trim(name))
    ensures forall i | 0 <= i < |tasks| && (r.Some? ==> i < r.value) :: !Named(tasks[i], Trim(name))
  {
    FindNamed(tasks, Trim(name))
  }

  // The task an action names, if it names one.
  function Target(tasks: seq<Task>, a: Action): (r: Option<nat>)
    ensures r.Some? ==> r.value < |tasks|
  {
    if a.taskId.Some? && a.taskId.value != "" then Find(tasks, a.taskId.value) else None
  }

  // ---- the edits

  const RefKey := "__runtimeRef"

  function WithRef(payload: Option<Option<Payload>>, ref: Option<string>): Option<Payload> {
    var base := if payload.None? then Some(map[]) else payload.value;
    if ref.None? then base
    else if base.None? then Some(map[RefKey := ref.value])
    else Some(base.value[RefKey := ref.value])
  }

  function Or<T>(given: Option<T>, current: T): T {
    if given.Some? then given.value else current
  }

  function OrKeep<T>(given: Option<T>, current: Option<T>): Option<T> {
    if given.Some? then given else current
  }

  function RequestedName(a: Action): Option<string> {
    if a.taskId.Some? && Trim(a.taskId.value) != "" then Some(Trim(a.taskId.value)) else None
  }

  function NewTask(tasks: seq<Task>, a: Action, uuid: string): Task {
    var name := RequestedName(a);
    var ref := if name.Some? && !IsUuid(name.value) then name else None;
    Task(if name.Some? && IsUuid(name.value) then name.value else uuid,
         ref,
         Or(a.title, "Untitled runtime task"),
         a.description,
         Or(a.intent, "requirement_analysis"),
         Or(a.skillHint, None),
         Or(a.outputMode, None),
         if tasks == [] then 0 else tasks[|tasks| - 1].orderIndex + 1,
         Queued, None,
         WithRef(a.taskPayload, ref),
         a.resultSummary,
         a.errorMessage)
  }

  function WithFields(t: Task, a: Action): Task {
    t.(title := Or(a.title, t.title),
       description := OrKeep(a.description, t.description),
       intent := Or(a.intent, t.intent),
       skillHint := Or(a.skillHint, t.skillHint),
       outputMode := Or(a.outputMode, t.outputMode),
       payload := if a.taskPayload.Some? then WithRef(a.taskPayload, t.runtimeRef) else t.payload,
       resultSummary := OrKeep(a.resultSummary, t.resultSummary),
       lastError := OrKeep(a.errorMessage, t.lastError))
  }

  function WithStatus(e: Task, a: Action): Task {
    match a.kind
    case Create => e
    case Update => e
    case Start => e.(status := Running, blockedReason := None, lastError := None)
    case Complete => e.(status := Completed)
    case Fail => e.(status := Failed)
    case Cancel => e.(status := Canceled)
    case Block => e.(status := Blocked, blockedReason := Some(Or(a.resultSummary, "Task blocked")))
  }

  function Edited(t: Task, a: Action): Task { WithStatus(WithFields(t, a), a) }

  function Transition(tasks: seq<Task>, a: Action, uuid: string): seq<Task> {
    if a.kind.Create? then tasks + [NewTask(tasks, a, uuid)]
    else
      match Target(tasks, a)
      case None => tasks
      case Some(i) => tasks[i := Edited(tasks[i], a)]
  }

  class TodoList {
    var tasks: seq<Task>

    constructor ()
      ensures tasks == []
    {
      tasks := [];
    }

    // The index of what was created or edited, if anything.
    method TransitionRuntimeTask(a: Action, uuid: string) returns (at: Option<nat>)
      modifies this
      ensures tasks == Transition(old(tasks), a, uuid)
      ensures at == if a.kind.Create? then Some(|old(tasks)|) else Target(old(tasks), a)
    {
      if a.kind.Create? {
        tasks := tasks + [NewTask(tasks, a, uuid)];
        return Some(|tasks| - 1);
      }
      at := Target(tasks, a);
      if at.Some? {
        var t := EditFields(tasks[at.value], a);
        t := MoveStatus(t, a);
        tasks := tasks[at.value := t];
      }
    }
  }

  // The fields that the action gives.
  method EditFields(t: Task, a: Action) returns (e: Task)
    ensures e == WithFields(t, a)
  {
    e := t;
    if a.title.Some? { e := e.(title := a.title.value); }
    if a.description.Some? { e := e.(description := a.description); }
    if a.intent.Some? { e := e.(intent := a.intent.value); }
    if a.skillHint.Some? { e := e.(skillHint := a.skillHint.value); }
    if a.outputMode.Some? { e := e.(outputMode := a.outputMode.value); }
    if a.taskPayload.Some? { e := e.(payload := WithRef(a.taskPayload, e.runtimeRef)); }
    if a.resultSummary.Some? { e := e.(resultSummary := a.resultSummary); }
    if a.errorMessage.Some? { e := e.(lastError := a.errorMessage); }
  }

  method MoveStatus(t: Task, a: Action) returns (e: Task)
    ensures e == WithStatus(t, a)
  {
    e := t;
    match a.kind {
      case Create =>
      case Update =>
      case Start => e := e.(status := Running, blockedReason := None, lastError := None);
      case Complete => e := e.(status := Completed);
      case Fail => e := e.(status := Failed);
      case Cancel => e := e.(status := Canceled);
      case Block =>
        var reason := if a.resultSummary.Some? then a.resultSummary.value else "Task blocked";
        e := e.(status := Blocked, blockedReason := Some(reason));
    }
  }

  // ---- sequences of actions, each with the random id a creation may use

  datatype Call = Call(a: Action, uuid: string)

  function Run(tasks: seq<Task>, calls: seq<Call>): seq<Task>
    decreases |calls|
  {
    if calls == [] then tasks else Run(Transition(tasks, calls[0].a, calls[0].uuid), calls[1..])
  }

  // Same tasks as far as names go, possibly with new ones behind.
  ghost predicate Extends(tasks: seq<Task>, later: seq<Task>) {
    && |tasks| <= |later|
    && (forall i | 0 <= i < |tasks| ::
          && later[i].id == tasks[i].id && later[i].runtimeRef == tasks[i].runtimeRef
          && later[i].orderIndex == tasks[i].orderIndex)
  }

  // What one action does to a task that is already there.
  function OneEdit(tasks: seq<Task>, i: nat, a: Action): Task
    requires i < |tasks|
  {
    if !a.kind.Create? && Target(tasks, a) == Some(i) then Edited(tasks[i], a) else tasks[i]
  }

  lemma StepExtends(tasks: seq<Task>, a: Action, uuid: string)
    ensures Extends(tasks, Transition(tasks, a, uuid))
    ensures forall i | 0 <= i < |tasks| :: Transition(tasks, a, uuid)[i] == OneEdit(tasks, i, a)
  {
    if !a.kind.Create? && Target(tasks, a).Some? { EditKeepsNames(tasks[Target(tasks, a).value], a); }
  }

  lemma {:induction false} RunExtends(tasks: seq<Task>, calls: seq<Call>)
    ensures Extends(tasks, Run(tasks, calls))
    decreases |calls|
  {
    if calls != [] {
      StepExtends(tasks, calls[0].a, calls[0].uuid);
      RunExtends(Transition(tasks, calls[0].a, calls[0].uuid), calls[1..]);
    }
  }

  // In a list that extends another, a name that resolved resolves to the same
  // task, and one that resolves to an old task resolved to it before.
  lemma ExtensionResolvesTheSame(tasks: seq<Task>, later: seq<Task>, name: string)
    requires Extends(tasks, later)
    ensures forall i | 0 <= i < |tasks| :: Find(later, name) == Some(i) <==> Find(tasks, name) == Some(i)
  {
    SameNamesResolveTheSame(tasks, later, Trim(name));
  }

  lemma {:induction false} SameNamesResolveTheSame(tasks: seq<Task>, later: seq<Task>, n: string)
    requires Extends(tasks, later)
    ensures FindNamed(tasks, n).Some? ==> FindNamed(later, n) == FindNamed(tasks, n)
    ensures FindNamed(tasks, n).None? ==> FindNamed(later, n).None? || FindNamed(later, n).value >= |tasks|
  {
    if tasks != [] && !Named(tasks[0], n) {
      SameNamesResolveTheSame(tasks[1..], later[1..], n);
    }
  }

  // Once a name resolves it resolves to the same task for ever.
  lemma NamesStayResolved(tasks: seq<Task>, calls: seq<Call>, name: string)
    requires Find(tasks, name).Some?
    ensures Find(Run(tasks, calls), name) == Find(tasks, name)
  {
    RunExtends(tasks, calls);
    ExtensionResolvesTheSame(tasks, Run(tasks, calls), name);
  }

  // ---- what every list built from the empty one satisfies

  // Tasks are numbered by position, ids are UUIDs and aliases are not, and an
  // alias is written into its task's payload.
  ghost predicate WellFormedTask(t: Task, i: int) {
    && t.orderIndex == i
    && IsUuid(t.id) && Trimmed(t.id)
    && (t.runtimeRef.Some? ==> IsAlias(t.runtimeRef.value) && CarriesRef(t.payload, t.runtimeRef.value))
  }

  ghost predicate IsAlias(ref: string) { ref != "" && Trimmed(ref) && !IsUuid(ref) }

  ghost predicate CarriesRef(payload: Option<Payload>, ref: string) {
    payload.Some? && RefKey in payload.value && payload.value[RefKey] == ref
  }

  ghost predicate WellFormed(tasks: seq<Task>) {
    forall i | 0 <= i < |tasks| :: WellFormedTask(tasks[i], i)
  }

  ghost predicate UuidsGiven(calls: seq<Call>) {
    forall i | 0 <= i < |calls| :: IsUuid(calls[i].uuid) && Trimmed(calls[i].uuid)
  }

  lemma RefIsWritten(payload: Option<Option<Payload>>, ref: string)
    ensures CarriesRef(WithRef(payload, Some(ref)), ref)
  {
  }

  lemma RequestedNameIsTrimmed(a: Action)
    ensures RequestedName(a).Some? ==> RequestedName(a).value != "" && Trimmed(RequestedName(a).value)
  {
  }

  lemma NewTaskIsWellFormed(tasks: seq<Task>, a: Action, uuid: string)
    requires WellFormed(tasks) && IsUuid(uuid) && Trimmed(uuid)
    ensures WellFormedTask(NewTask(tasks, a, uuid), |tasks|)
  {
    assert tasks != [] ==> WellFormedTask(tasks[|tasks| - 1], |tasks| - 1);
    var name := RequestedName(a);
    RequestedNameIsTrimmed(a);
    if name.Some? && !IsUuid(name.value) { RefIsWritten(a.taskPayload, name.value); }
  }

  lemma EditKeepsNames(t: Task, a: Action)
    ensures Edited(t, a).id == t.id && Edited(t, a).runtimeRef == t.runtimeRef
    ensures Edited(t, a).orderIndex == t.orderIndex
  {
  }

  lemma EditCarriesRef(t: Task, a: Action, ref: string)
    requires t.runtimeRef == Some(ref) && CarriesRef(t.payload, ref)
    ensures CarriesRef(Edited(t, a).payload, ref)
  {
    RefIsWritten(a.taskPayload, ref);
  }

  lemma EditKeepsWellFormed(t: Task, a: Action, i: int)
    requires WellFormedTask(t, i)
    ensures WellFormedTask(Edited(t, a), i)
  {
    EditKeepsNames(t, a);
    if t.runtimeRef.Some? { EditCarriesRef(t, a, t.runtimeRef.value); }
  }

  lemma StepKeepsWellFormed(tasks: seq<Task>, a: Action, uuid: string)
    requires WellFormed(tasks) && IsUuid(uuid) && Trimmed(uuid)
    ensures WellFormed(Transition(tasks, a, uuid))
  {
    if a.kind.Create? {
      NewTaskIsWellFormed(tasks, a, uuid);
    } else if Target(tasks, a).Some? {
      EditKeepsWellFormed(tasks[Target(tasks, a).value], a, Target(tasks, a).value);
    }
  }

  lemma {:induction false} RunKeepsWellFormed(tasks: seq<Task>, calls: seq<Call>)
    requires WellFormed(tasks) && UuidsGiven(calls)
    ensures WellFormed(Run(tasks, calls))
    decreases |calls|
  {
    if calls != [] {
      StepKeepsWellFormed(tasks, calls[0].a, calls[0].uuid);
      RunKeepsWellFormed(Transition(tasks, calls[0].a, calls[0].uuid), calls[1..]);
    }
  }

  // Over every sequence of actions from the empty list.
  lemma TaskIStaysTaskI(before: seq<Call>, after: seq<Call>)
    requires UuidsGiven(before)
    ensures var early, late := Run([], before), Run(Run([], before), after);
      && WellFormed(early)
      && |early| <= |late|
      && forall i | 0 <= i < |early| ::
           late[i].orderIndex == i && late[i].id == early[i].id && late[i].runtimeRef == early[i].runtimeRef
  {
    RunKeepsWellFormed([], before);
    RunExtends(Run([], before), after);
  }

  // ---- a task is what its own actions made of it

  function EditAll(t: Task, edits: seq<Action>): Task
    decreases |edits|
  {
    if edits == [] then t else EditAll(Edited(t, edits[0]), edits[1..])
  }

  // The actions among the calls that name task i of a list.
  function AimedAt(tasks: seq<Task>, i: nat, calls: seq<Call>): seq<Action> {
    if calls == [] then []
    else (if !calls[0].a.kind.Create? && Target(tasks, calls[0].a) == Some(i) then [calls[0].a] else [])
         + AimedAt(tasks, i, calls[1..])
  }

  lemma {:induction false} AimStays(tasks: seq<Task>, later: seq<Task>, i: nat, calls: seq<Call>)
    requires Extends(tasks, later) && i < |tasks|
    ensures AimedAt(later, i, calls) == AimedAt(tasks, i, calls)
  {
    if calls != [] {
      var a := calls[0].a;
      if a.taskId.Some? { ExtensionResolvesTheSame(tasks, later, a.taskId.value); }
      AimStays(tasks, later, i, calls[1..]);
    }
  }

  // However actions on other tasks and creations are mixed in, task i ends as
  // the edits that name it, in order, make it; so a non-create action changes at
  // most the one task its name resolves to.
  lemma {:induction false} TaskDependsOnItsOwnActions(tasks: seq<Task>, calls: seq<Call>, i: nat)
    requires i < |tasks|
    ensures |Run(tasks, calls)| > i && Run(tasks, calls)[i] == EditAll(tasks[i], AimedAt(tasks, i, calls))
    decreases |calls|
  {
    if calls != [] {
      var a, rest := calls[0].a, AimedAt(tasks, i, calls[1..]);
      var next := Transition(tasks, a, calls[0].uuid);
      StepExtends(tasks, a, calls[0].uuid);
      assert next[i] == OneEdit(tasks, i, a);
      AimStays(tasks, next, i, calls[1..]);
      TaskDependsOnItsOwnActions(next, calls[1..], i);
      assert ([a] + rest)[0] == a && ([a] + rest)[1..] == rest && [] + rest == rest;
    }
  }

  // ---- field by field

  // The value is the last one that the actions give, or the first if none does.
  ghost predicate LastGiven<T>(first: T, edits: seq<Action>, given: Action -> Option<T>, last: T) {
    && ((forall k | 0 <= k < |edits| :: given(edits[k]).None?) ==> last == first)
    && (forall k | 0 <= k < |edits| && given(edits[k]).Some? ::
          (forall j | k < j < |edits| :: given(edits[j]).None?) ==> last == given(edits[k]).value)
  }

  lemma OneMoreGiven<T>(first: T, edits: seq<Action>, given: Action -> Option<T>, last: T)
    requires edits != []
    requires LastGiven(if given(edits[0]).Some? then given(edits[0]).value else first, edits[1..], given, last)
    ensures LastGiven(first, edits, given, last)
  {
    assert forall k | 1 <= k < |edits| :: edits[k] == edits[1..][k - 1];
    assert forall k | 0 <= k < |edits[1..]| :: edits[1..][k] == edits[k + 1];
  }

  // A field that each edit overwrites with what it gives, or else keeps.
  ghost predicate Overwrites<T>(ref: Option<string>, given: Action -> Option<T>, field: Task -> T) {
    forall t: Task, a: Action | t.runtimeRef == ref ::
      field(Edited(t, a)) == if given(a).Some? then given(a).value else field(t)
  }

  lemma {:induction false} FieldIsTheLastGiven<T>(t: Task, edits: seq<Action>, given: Action -> Option<T>,
                                                  field: Task -> T)
    requires Overwrites(t.runtimeRef, given, field)
    ensures LastGiven(field(t), edits, given, field(EditAll(t, edits)))
    decreases |edits|
  {
    if edits != [] {
      FieldIsTheLastGiven(Edited(t, edits[0]), edits[1..], given, field);
      OneMoreGiven(field(t), edits, given, field(EditAll(t, edits)));
    }
  }

  // The status that an action of this kind leaves.
  function MovesTo(kind: Kind): Option<Status> {
    match kind
    case Start => Some(Running)
    case Complete => Some(Completed)
    case Fail => Some(Failed)
    case Cancel => Some(Canceled)
    case Block => Some(Blocked)
    case _ => None
  }

  // Blocking gives a reason, starting takes it away.
  function ReasonGiven(a: Action): Option<Option<string>> {
    match a.kind
    case Start => Some(None)
    case Block => Some(Some(if a.resultSummary.Some? then a.resultSummary.value else "Task blocked"))
    case _ => None
  }

  // Starting takes an error away, even one given with it.
  function ErrorGiven(a: Action): Option<Option<string>> {
    if a.kind.Start? then Some(None) else if a.errorMessage.Some? then Some(a.errorMessage) else None
  }

  // With an alias the payload carries it.
  function PayloadGiven(ref: Option<string>): Action -> Option<Option<Payload>> {
    (a: Action) =>
      match (a.taskPayload, ref)
      case (None, _) => None
      case (Some(given), None) => Some(given)
      case (Some(None), Some(r)) => Some(Some(map["__runtimeRef" := r]))
      case (Some(Some(given)), Some(r)) => Some(Some(given["__runtimeRef" := r]))
  }

  function IfGiven<T>(given: Option<T>): Option<Option<T>> { if given.Some? then Some(given) else None }

  function StatusGiven(a: Action): Option<Status> { MovesTo(a.kind) }

  function TitleGiven(a: Action): Option<string> { a.title }

  function DescriptionGiven(a: Action): Option<Option<string>> { IfGiven(a.description) }

  function IntentGiven(a: Action): Option<string> { a.intent }

  function SkillHintGiven(a: Action): Option<Option<string>> { a.skillHint }

  function OutputModeGiven(a: Action): Option<Option<string>> { a.outputMode }

  function ResultSummaryGiven(a: Action): Option<Option<string>> { IfGiven(a.resultSummary) }

  lemma StatusAndTitle(t: Task, edits: seq<Action>)
    ensures var e := EditAll(t, edits);
      && LastGiven(t.status, edits, StatusGiven, e.status)
      && LastGiven(t.title, edits, TitleGiven, e.title)
  {
    FieldIsTheLastGiven(t, edits, StatusGiven, (x: Task) => x.status);
    FieldIsTheLastGiven(t, edits, TitleGiven, (x: Task) => x.title);
  }

  lemma DescriptionAndIntent(t: Task, edits: seq<Action>)
    ensures var e := EditAll(t, edits);
      && LastGiven(t.description, edits, DescriptionGiven, e.description)
      && LastGiven(t.intent, edits, IntentGiven, e.intent)
  {
    FieldIsTheLastGiven(t, edits, DescriptionGiven, (x: Task) => x.description);
    FieldIsTheLastGiven(t, edits, IntentGiven, (x: Task) => x.intent);
  }

  lemma HintModeAndSummary(t: Task, edits: seq<Action>)
    ensures var e := EditAll(t, edits);
      && LastGiven(t.skillHint, edits, SkillHintGiven, e.skillHint)
      && LastGiven(t.outputMode, edits, OutputModeGiven, e.outputMode)
      && LastGiven(t.resultSummary, edits, ResultSummaryGiven, e.resultSummary)
  {
    FieldIsTheLastGiven(t, edits, SkillHintGiven, (x: Task) => x.skillHint);
    FieldIsTheLastGiven(t, edits, OutputModeGiven, (x: Task) => x.outputMode);
    FieldIsTheLastGiven(t, edits, ResultSummaryGiven, (x: Task) => x.resultSummary);
  }

  lemma ReasonAndError(t: Task, edits: seq<Action>)
    ensures var e := EditAll(t, edits);
      && LastGiven(t.blockedReason, edits, ReasonGiven, e.blockedReason)
      && LastGiven(t.lastError, edits, ErrorGiven, e.lastError)
  {
    FieldIsTheLastGiven(t, edits, ReasonGiven, (x: Task) => x.blockedReason);
    FieldIsTheLastGiven(t, edits, ErrorGiven, (x: Task) => x.lastError);
  }

  lemma PayloadOnly(t: Task, edits: seq<Action>)
    ensures var e := EditAll(t, edits);
      && LastGiven(t.payload, edits, PayloadGiven(t.runtimeRef), e.payload)
  {
    FieldIsTheLastGiven(t, edits, PayloadGiven(t.runtimeRef), (x: Task) => x.payload);
  }

  // Whatever edits a task gets, each of its fields is the last value they give it.
  lemma FieldsAreTheLastGiven(t: Task, edits: seq<Action>)
    ensures var e := EditAll(t, edits);
      && LastGiven(t.status, edits, StatusGiven, e.status)
      && LastGiven(t.title, edits, TitleGiven, e.title)
      && LastGiven(t.description, edits, DescriptionGiven, e.description)
      && LastGiven(t.intent, edits, IntentGiven, e.intent)
      && LastGiven(t.skillHint, edits, SkillHintGiven, e.skillHint)
      && LastGiven(t.outputMode, edits, OutputModeGiven, e.outputMode)
      && LastGiven(t.resultSummary, edits, ResultSummaryGiven, e.resultSummary)
      && LastGiven(t.blockedReason, edits, ReasonGiven, e.blockedReason)
      && LastGiven(t.lastError, edits, ErrorGiven, e.lastError)
      && LastGiven(t.payload, edits, PayloadGiven(t.runtimeRef), e.payload)
  {
    StatusAndTitle(t, edits);
    DescriptionAndIntent(t, edits);
    HintModeAndSummary(t, edits);
    ReasonAndError(t, edits);
    PayloadOnly(t, edits);
  }

  // A task as its creation asks for it.
  lemma CreatedAsAsked(tasks: seq<Task>, a: Action, uuid: string)
    requires a.kind.Create?
    ensures var after := Transition(tasks, a, uuid);
      && |after| == |tasks| + 1 && after[..|tasks|] == tasks
      && var t := after[|tasks|];
      && t.status == Queued && t.blockedReason.None?
      && t.title == (match a.title case Some(title) => title case None => "Untitled runtime task")
      && t.intent == (match a.intent case Some(intent) => intent case None => "requirement_analysis")
      && t.description == a.description && t.resultSummary == a.resultSummary && t.lastError == a.errorMessage
      && t.skillHint == (match a.skillHint case Some(hint) => hint case None => None)
      && t.outputMode == (match a.outputMode case Some(mode) => mode case None => None)
      && t.payload == (match PayloadGiven(t.runtimeRef)(a)
                       case Some(payload) => payload
                       case None =>
                         Some(if t.runtimeRef.Some? then map["__runtimeRef" := t.runtimeRef.value] else map[]))
      && (t.id == uuid || a.taskId == Some(t.id) || RequestedName(a) == Some(t.id))
  {
  }

  // So over every sequence of actions after its creation a task is what its
  // creation asked for, overwritten by what the actions that name it give.
  lemma TasksAreWhatWasAskedLast(tasks: seq<Task>, a: Action, uuid: string, calls: seq<Call>)
    requires a.kind.Create?
    ensures var i, created := |tasks|, Transition(tasks, a, uuid);
      && i < |Run(created, calls)|
      && var edits, e := AimedAt(created, i, calls), Run(created, calls)[i];
      && LastGiven(Queued, edits, StatusGiven, e.status)
      && LastGiven(Or(a.title, "Untitled runtime task"), edits, TitleGiven, e.title)
      && LastGiven(None, edits, ReasonGiven, e.blockedReason)
      && LastGiven(a.errorMessage, edits, ErrorGiven, e.lastError)
      && LastGiven(a.resultSummary, edits, ResultSummaryGiven, e.resultSummary)
  {
    var created := Transition(tasks, a, uuid);
    TaskDependsOnItsOwnActions(created, calls, |tasks|);
    FieldsAreTheLastGiven(created[|tasks|], AimedAt(created, |tasks|, calls));
  }

  // ---- ids

  lemma HexIsOneOf(c: char)
    ensures Hex(c) <==> c in "0123456789abcdefABCDEF"
  {
  }

  predicate HexDigits(s: string) { forall i | 0 <= i < |s| :: Hex(s[i]) }

  // Five groups of hexadecimal digits, a version from 1 to 5 and the usual variant.
  predicate InGroups(s: string, a: string, b: string, c: string, d: string, e: string) {
    && s == a + "-" + b + "-" + c + "-" + d + "-" + e
    && |a| == 8 && |b| == 4 && |c| == 4 && |d| == 4 && |e| == 12
    && HexDigits(a) && HexDigits(b) && HexDigits(c) && HexDigits(d) && HexDigits(e)
    && c[0] in "12345" && d[0] in "89abAB"
  }

  // The group stands at this place of the text.
  ghost predicate StandsAt(s: string, k: nat, group: string) {
    k + |group| <= |s| && s[k..k + |group|] == group
  }

  lemma GroupsStand(s: string, a: string, b: string, c: string, d: string, e: string)
    requires |a| == 8 && |b| == 4 && |c| == 4 && |d| == 4 && |e| == 12
    ensures s == a + "-" + b + "-" + c + "-" + d + "-" + e <==>
      (&& |s| == 36 && s[8] == '-' && s[13] == '-' && s[18] == '-' && s[23] == '-'
       && StandsAt(s, 0, a) && StandsAt(s, 9, b) && StandsAt(s, 14, c) && StandsAt(s, 19, d) && StandsAt(s, 24, e))
  {
    if |s| == 36 {
      assert s == s[..8] + s[8..9] + s[9..13] + s[13..14] + s[14..18] + s[18..19] + s[19..23] + s[23..24] + s[24..36];
    }
  }

  lemma HexStands(s: string, k: nat, group: string)
    requires StandsAt(s, k, group)
    ensures HexDigits(group) <==> forall i | k <= i < k + |group| :: Hex(s[i])
  {
    assert forall i | k <= i < k + |group| :: s[i] == group[i - k];
    assert forall i | 0 <= i < |group| :: group[i] == s[k + i];
  }

  lemma GroupsAreUuid(value: string, a: string, b: string, c: string, d: string, e: string)
    requires InGroups(Trim(value), a, b, c, d, e)
    ensures IsUuid(value)
  {
    var s := Trim(value);
    GroupsStand(s, a, b, c, d, e);
    HexStands(s, 0, a);
    HexStands(s, 9, b);
    HexStands(s, 14, c);
    HexStands(s, 19, d);
    HexStands(s, 24, e);
    assert s[14..18][0] == s[14] && s[19..23][0] == s[19];
    VersionDigit(s[14]);
  }

  lemma VersionDigit(version: char)
    ensures version in "12345" <==> '1' <= version <= '5'
  {
  }

  lemma UuidHasGroups(value: string)
    requires IsUuid(value)
    ensures var s := Trim(value); InGroups(s, s[..8], s[9..13], s[14..18], s[19..23], s[24..36])
  {
    var s := Trim(value);
    assert UuidChar(8, s[8]) && UuidChar(13, s[13]) && UuidChar(18, s[18]) && UuidChar(23, s[23]);
    GroupsStand(s, s[..8], s[9..13], s[14..18], s[19..23], s[24..36]);
    HexStands(s, 0, s[..8]);
    HexStands(s, 9, s[9..13]);
    HexStands(s, 14, s[14..18]);
    HexStands(s, 19, s[19..23]);
    HexStands(s, 24, s[24..36]);
    assert s[14..18][0] == s[14] && s[19..23][0] == s[19];
    VersionDigit(s[14]);
  }

  lemma UuidsAreInGroups(value: string)
    ensures IsUuid(value) <==> exists a, b, c, d, e :: InGroups(Trim(value), a, b, c, d, e)
  {
    if IsUuid(value) {
      UuidHasGroups(value);
    }
    if a, b, c, d, e :| InGroups(Trim(value), a, b, c, d, e) {
      GroupsAreUuid(value, a, b, c, d, e);
    }
  }

  // ---- a created task answers to its name exactly when the name was new

  lemma CreatedIsFoundIffItsNameIsNew(tasks: seq<Task>, a: Action, uuid: string)
    requires a.kind.Create? && RequestedName(a).Some?
    ensures var name := RequestedName(a).value;
      Find(Transition(tasks, a, uuid), name) == Some(|tasks|) <==> Find(tasks, name).None?
  {
    var name := RequestedName(a).value;
    var after := Transition(tasks, a, uuid);
    assert Trim(name) == name;
    assert Named(after[|tasks|], name);
    assert forall i | 0 <= i < |tasks| :: after[i] == tasks[i];
    if Find(tasks, name).Some? {
      assert Named(after[Find(tasks, name).value], name);
    }
  }
}
