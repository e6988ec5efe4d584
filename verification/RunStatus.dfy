// The status tables of src/common/state/state-machine.ts and what every
// history that obeys them has in common.
module RunStatuses {

  datatype RunStatus = Queued | Running | Syncing | Succeeded | Failed | Canceled | Timeout

  // agentRunTransitions
  predicate MayFollow(from: RunStatus, to: RunStatus) {
    match from
    case Queued => to.Running? || to.Canceled? || to.Failed? || to.Timeout?
    case Running => to.Syncing? || to.Failed? || to.Timeout? || to.Canceled?
    case Syncing => to.Succeeded? || to.Failed? || to.Timeout?
    case Succeeded => false
    case Failed => false
    case Canceled => false
    case Timeout => false
  }

  // assertAgentRunTransition: an equal status always passes.
  predicate Allowed(from: RunStatus, to: RunStatus) {
    from == to || MayFollow(from, to)
  }

  predicate Terminal(s: RunStatus) {
    s.Succeeded? || s.Failed? || s.Canceled? || s.Timeout?
  }

  // The table in words: of a run that has not ended any status may be followed by
  // its successor on the way to success, by a failure or timeout and, until it is
  // syncing, by a cancellation; and nothing follows a terminal status.
  lemma TableInWords(from: RunStatus, to: RunStatus)
    ensures MayFollow(from, to) <==>
      && from in {Queued, Running, Syncing}
      && (|| (from, to) in {(Queued, Running), (Running, Syncing), (Syncing, Succeeded)}
          || to in {Failed, Timeout}
          || (to == Canceled && from != Syncing))
    ensures Terminal(from) <==> forall s :: Allowed(from, s) ==> s == from
  {
    assert from == Queued ==> Allowed(from, Running);
    assert from == Running ==> Allowed(from, Failed);
    assert from == Syncing ==> Allowed(from, Failed);
  }

  // How many status changes a run may still see.
  function Rank(s: RunStatus): nat {
    match s
    case Queued => 3
    case Running => 2
    case Syncing => 1
    case _ => 0
  }

  // Statuses a run can only have once it has been syncing, besides the
  // terminal ones that it can reach earlier.
  predicate CancelTooLate(s: RunStatus) {
    s.Syncing? || s.Succeeded? || s.Failed? || s.Timeout?
  }

  lemma AllowedMeansRankFalls(from: RunStatus, to: RunStatus)
    ensures Allowed(from, to) && from != to ==> Rank(to) < Rank(from)
    ensures Allowed(from, to) && Terminal(from) ==> to == from
    ensures Allowed(from, to) && CancelTooLate(from) ==> CancelTooLate(to)
  {
  }

  // A history is a nonempty list of statuses as they were written.
  ghost predicate LegalHistory(h: seq<RunStatus>) {
    && |h| > 0
    && forall i :: 0 <= i < |h| - 1 ==> Allowed(h[i], h[i + 1])
  }

  function Changes(h: seq<RunStatus>): nat {
    if |h| < 2 then 0
    else Changes(h[1..]) + if h[0] == h[1] then 0 else 1
  }

  // Each real change costs a rank, so no history has more than three.
  lemma {:induction false} ChangesAreBoundedByRank(h: seq<RunStatus>)
    requires LegalHistory(h)
    ensures Changes(h) + Rank(h[|h| - 1]) <= Rank(h[0])
    ensures Changes(h) <= 3
  {
    if |h| >= 2 {
      AllowedMeansRankFalls(h[0], h[1]);
      assert LegalHistory(h[1..]);
      ChangesAreBoundedByRank(h[1..]);
    }
  }

  // A terminal status is the last one: everything written after it equals it.
  lemma {:induction false} TerminalIsForever(h: seq<RunStatus>, i: nat, j: nat)
    requires LegalHistory(h) && i <= j < |h| && Terminal(h[i])
    ensures h[j] == h[i]
  {
    if i < j {
      TerminalIsForever(h, i, j - 1);
      AllowedMeansRankFalls(h[j - 1], h[j]);
    }
  }

  lemma {:induction false} SyncingStaysSynced(h: seq<RunStatus>, i: nat, j: nat)
    requires LegalHistory(h) && i <= j < |h| && CancelTooLate(h[i])
    ensures CancelTooLate(h[j])
  {
    if i < j {
      SyncingStaysSynced(h, i, j - 1);
      AllowedMeansRankFalls(h[j - 1], h[j]);
    }
  }

  // No legal history contains both a cancellation and a sync.
  lemma CanceledAndSyncingExclude(h: seq<RunStatus>, i: nat, j: nat)
    requires LegalHistory(h) && i < |h| && j < |h|
    ensures !(h[i] == Canceled && h[j] == Syncing)
  {
    if i <= j && h[i] == Canceled {
      TerminalIsForever(h, i, j);
    } else if j <= i && h[j] == Syncing {
      SyncingStaysSynced(h, j, i);
    }
  }
}
