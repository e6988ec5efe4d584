// The shared state behind group runs: Redis locks, session rows, run rows and
// the two job queues, with the meaning of each operation on them.
module GroupStores {
  import opened Prelude
  import opened RunStatuses

  type ChatId = string
  type SessionId = string
  type RunId = nat
  type Token = nat

  datatype SessionStatus = Idle | Busy | Error | Disabled

  datatype SessionRow = SessionRow(
    chat: ChatId,
    status: SessionStatus,
    run: Option<RunId>,     // currentAgentRunId
    token: Option<Token>)   // activeLockToken

  datatype RunRow = RunRow(status: RunStatus, outputs: bool)  // outputs: rawOutputs stored and not empty

  datatype Store = Store(
    locks: map<ChatId, Token>,
    sessions: map<SessionId, SessionRow>,
    runs: map<RunId, RunRow>,
    runJobs: set<RunId>,
    syncJobs: set<RunId>)

  // SET key token EX ttl NX
  function Acquire(st: Store, chat: ChatId, token: Token): Store {
    if chat in st.locks then st else st.(locks := st.locks[chat := token])
  }

  // Without a token the key is deleted whoever holds it; with one, only if it
  // still carries that token.
  function Release(st: Store, chat: ChatId, token: Option<Token>): Store {
    match token
    case None => st.(locks := st.locks - {chat})
    case Some(t) =>
      if chat in st.locks && st.locks[chat] == t then st.(locks := st.locks - {chat}) else st
  }

  function AddRun(st: Store, run: RunId): Store {
    st.(runs := st.runs[run := RunRow(Queued, false)])
  }

  function MarkQueued(st: Store, sid: SessionId, run: RunId, token: Token): Store
    requires sid in st.sessions
  {
    st.(sessions := st.sessions[sid := st.sessions[sid].(status := Busy, run := Some(run), token := Some(token))])
  }

  predicate PointsTo(st: Store, sid: SessionId, run: RunId) {
    sid in st.sessions && st.sessions[sid].run == Some(run)
  }

  // The last update of a terminal transition. It is keyed by session id only.
  function CloseSession(st: Store, sid: SessionId, status: RunStatus): Store
    requires sid in st.sessions
  {
    var ended := if status == Failed || status == Timeout then Error else Idle;
    st.(sessions := st.sessions[sid := st.sessions[sid].(status := ended, run := None, token := None)])
  }

  function TouchSession(st: Store, sid: SessionId): Store
    requires sid in st.sessions
  {
    st.(sessions := st.sessions[sid := st.sessions[sid].(status := Busy)])
  }

  // handleRunStatusTransition once it has found the session that points at the run.
  function HandleOn(st: Store, sid: SessionId, status: RunStatus): Store
    requires sid in st.sessions
  {
    if Terminal(status) then
      CloseSession(Release(st, st.sessions[sid].chat, st.sessions[sid].token), sid, status)
    else if status == Running || status == Syncing then TouchSession(st, sid)
    else st
  }

  // Nothing but the row of one known run changes, besides artifact jobs, and
  // its status obeys the table.
  ghost predicate RunStep(st: Store, st': Store, run: RunId) {
    && st'.locks == st.locks && st'.sessions == st.sessions && st'.runJobs == st.runJobs
    && st'.runs.Keys == st.runs.Keys
    && (forall r :: r in st.runs && r != run ==> st'.runs[r] == st.runs[r])
    && (run in st.runs ==> Allowed(st.runs[run].status, st'.runs[run].status))
  }

  // "Check the status table and write the status", taken as one step. None
  // stands for the exception: unknown run or forbidden transition.
  function Attempt(st: Store, run: RunId, to: RunStatus): (r: Option<Store>)
    ensures r.Some? ==> RunStep(st, r.value, run) && r.value.syncJobs == st.syncJobs
    ensures r.Some? ==> run in st.runs && r.value.runs == st.runs[run := st.runs[run].(status := to)]
  {
    if run in st.runs && Allowed(st.runs[run].status, to)
    then Some(st.(runs := st.runs[run := st.runs[run].(status := to)]))
    else None
  }

  // The write that enters syncing also stores what the agent produced.
  function AttemptSyncing(st: Store, run: RunId, outputs: bool): (r: Option<Store>)
    ensures r.Some? ==> RunStep(st, r.value, run) && r.value.syncJobs == st.syncJobs
    ensures r.Some? ==> run in st.runs && r.value.runs[run] == RunRow(Syncing, outputs)
  {
    match Attempt(st, run, Syncing)
    case None => None
    case Some(st') => Some(st'.(runs := st'.runs[run := st'.runs[run].(outputs := outputs)]))
  }
}
