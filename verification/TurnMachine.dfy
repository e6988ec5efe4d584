// The turn machine of one runtime session: what a submitted message becomes, and
// the coroutines that run the turns. Code between two awaits is one step.
module TurnMachine {
  import opened Prelude

  type Message = nat  // one submission
  type TurnId = nat

  // The session state in memory together with what its SDK session was handed.
  datatype State = State(
    currentTurn: Option<TurnId>,
    executing: bool,                  // activeExecution is a group runtime one
    waitingReason: Option<string>,
    streaming: bool,
    compacting: bool,
    confirmationQueue: seq<Message>,
    turnQueue: seq<Message>,
    steered: seq<Message>)            // what the SDK session received

  // What became of a message. Steered with delivered == false is the answer
  // given while the SDK session compacts: accepted, and handed to nothing.
  datatype Placement =
    | Started(turn: TurnId)
    | Steered(delivered: bool, active: Option<TurnId>)
    | QueuedForConfirmation(active: Option<TurnId>)
    | QueuedForTurn(current: TurnId)
    | Failed                          // steering threw: the submission is not accepted

  // An empty reason does not count as waiting.
  predicate Waiting(s: State) { s.waitingReason.Some? && s.waitingReason.value != "" }

  // ---- the last segment of a submission, from the check to the answer

  function Place(s: State, m: Message, id: TurnId, steerFails: bool): (State, Placement) {
    if s.executing && s.streaming then
      if s.compacting then (s, Steered(false, s.currentTurn))
      else if steerFails then (s, Failed)
      else (s.(steered := s.steered + [m]), Steered(true, s.currentTurn))
    else if Waiting(s) then
      (s.(confirmationQueue := s.confirmationQueue + [m]), QueuedForConfirmation(s.currentTurn))
    else if s.currentTurn.Some? then
      (s.(turnQueue := s.turnQueue + [m]), QueuedForTurn(s.currentTurn.value))
    else
      (s.(currentTurn := Some(id)), Started(id))
  }

  // The answer and the new state, from the fields of the old one: steered into
  // what executes and streams; otherwise held back while a nonempty reason waits
  // for a confirmation; otherwise queued behind the current turn; and only when
  // nothing of this holds the start of a turn.
  predicate DecidedBy(s: State, t: State, m: Message, id: TurnId, steerFails: bool, p: Placement) {
    var steers := s.executing && s.streaming;
    var waits := s.waitingReason.Some? && s.waitingReason.value != "";
    && (p.Failed? <==> steers && !s.compacting && steerFails)
    && (p == Steered(true, s.currentTurn) <==> steers && !s.compacting && !steerFails)
    && (p == Steered(false, s.currentTurn) <==> steers && s.compacting)
    && (p == QueuedForConfirmation(s.currentTurn) <==> !steers && waits)
    && (p.QueuedForTurn? <==> !steers && !waits && s.currentTurn.Some?)
    && (p.QueuedForTurn? ==> s.currentTurn == Some(p.current))
    && (p == Started(id) <==> !steers && !waits && s.currentTurn.None?)
    && t.confirmationQueue == s.confirmationQueue + (if p.QueuedForConfirmation? then [m] else [])
    && t.turnQueue == s.turnQueue + (if p.QueuedForTurn? then [m] else [])
    && t.steered == s.steered + (if p.Steered? && p.delivered then [m] else [])
    && t.currentTurn == (if p.Started? then Some(id) else s.currentTurn)
    && t.waitingReason == s.waitingReason && t.executing == s.executing
    && t.streaming == s.streaming && t.compacting == s.compacting
  }

  class RuntimeSession {
    var currentTurn: Option<TurnId>
    var activeExecution: bool
    var waitingReason: Option<string>
    var isStreaming: bool
    var isCompacting: bool
    var confirmationQueue: seq<Message>
    var turnQueue: seq<Message>
    var steered: seq<Message>

    function Snapshot(): State
      reads this
    {
      State(currentTurn, activeExecution, waitingReason, isStreaming, isCompacting, confirmationQueue, turnQueue,
        steered)
    }

    constructor ()
      ensures Snapshot() == NewSession
    {
      currentTurn, activeExecution, waitingReason := None, false, None;
      isStreaming, isCompacting := false, false;
      confirmationQueue, turnQueue, steered := [], [], [];
    }

    method SubmitMessage(m: Message, turnId: TurnId, steerFails: bool) returns (p: Placement)
      modifies this
      ensures (Snapshot(), p) == Place(old(Snapshot()), m, turnId, steerFails)
      ensures DecidedBy(old(Snapshot()), Snapshot(), m, turnId, steerFails, p)
    {
      if activeExecution && isStreaming {
        p := HandleStreamingSubmission(m, steerFails);
        return;
      }
      if waitingReason.Some? && waitingReason.value != "" {
        confirmationQueue := confirmationQueue + [m];
        return QueuedForConfirmation(currentTurn);
      }
      if currentTurn.Some? {
        turnQueue := turnQueue + [m];
        return QueuedForTurn(currentTurn.value);
      }
      currentTurn := Some(turnId);
      p := Started(turnId);
    }

    method HandleStreamingSubmission(m: Message, steerFails: bool) returns (p: Placement)
      modifies this`steered
      ensures steered == if isCompacting || steerFails then old(steered) else old(steered) + [m]
      ensures p == if !isCompacting && steerFails then Failed else Steered(!isCompacting, currentTurn)
    {
      if !isCompacting {
        if steerFails {
          return Failed;
        }
        steered := steered + [m];
      }
      p := Steered(!isCompacting, currentTurn);
    }

    // The steps of the coroutine that runs a turn, one between two awaits.

    method EnterPrompt()
      modifies this`activeExecution
      ensures Snapshot() == old(Snapshot()).(executing := true)
    {
      activeExecution := true;
    }

    method LeavePrompt()
      modifies this`activeExecution
      ensures Snapshot() == old(Snapshot()).(executing := false)
    {
      activeExecution := false;
    }

    method RequestConfirmation(reason: string)
      modifies this`waitingReason
      ensures Snapshot() == old(Snapshot()).(waitingReason := Some(reason))
    {
      waitingReason := Some(reason);
    }

    // Resuming after a confirmation: the wait is cleared, and after an await the
    // turn is set without a look at what is there by then.
    method ClearWait()
      modifies this`waitingReason
      ensures Snapshot() == old(Snapshot()).(waitingReason := None)
    {
      waitingReason := None;
    }

    method SetResumedTurn(turnId: TurnId)
      modifies this`currentTurn
      ensures Snapshot() == old(Snapshot()).(currentTurn := Some(turnId))
    {
      currentTurn := Some(turnId);
    }

    method FinishTurn()
      modifies this`currentTurn
      ensures Snapshot() == old(Snapshot()).(currentTurn := None)
    {
      currentTurn := None;
    }
  }

  const NewSession := State(None, false, None, false, false, [], [], [])

  // ---- all submissions and all turns of one session together

  // Where a turn's coroutine stands: before its prompt, in it, or after it.
  datatype Pc = Entered | Prompting | Applying

  datatype World = World(
    s: State,
    pending: set<Message>,            // submissions on their way to the check
    resuming: nat,                    // resumptions between clearing the wait and setting the turn
    turns: map<TurnId, Pc>,           // the live coroutines
    used: set<TurnId>,
    placed: seq<(Message, Placement)>)

  datatype Label =
    | Submit(m: Message)
    | Decide(m: Message, id: TurnId, steerFails: bool)
    | Enter(t: TurnId)
    | Leave(t: TurnId)
    | Request(t: TurnId, reason: string)
    | Finish(t: TurnId)               // also on any exception before or after the prompt
    | Resume                          // the first part of a resumption
    | Resumed(id: TurnId)             // and the second
    | Displace                        // another execution replaces or clears activeExecution
    | Sdk(streaming: bool, compacting: bool)

  const Idle := World(NewSession, {}, 0, map[], {}, [])

  predicate Placed(w: World, m: Message) { exists i :: 0 <= i < |w.placed| && w.placed[i].0 == m }

  predicate IsAt(w: World, t: TurnId, pc: Pc) { t in w.turns && w.turns[t] == pc }

  predicate Enabled(w: World, l: Label) {
    match l
    case Submit(m) => m !in w.pending && !Placed(w, m)
    case Decide(m, id, _) => m in w.pending && id !in w.used
    case Enter(t) => IsAt(w, t, Entered)
    case Leave(t) => IsAt(w, t, Prompting)
    case Request(t, _) => IsAt(w, t, Applying)
    case Finish(t) => IsAt(w, t, Entered) || IsAt(w, t, Applying)
    case Resume => true
    case Resumed(id) => w.resuming > 0 && id !in w.used
    case Displace => true
    case Sdk(_, _) => true
  }

  function Decided(w: World, m: Message, id: TurnId, steerFails: bool): World {
    var (s, p) := Place(w.s, m, id, steerFails);
    World(s, w.pending - {m}, w.resuming,
          if p.Started? then w.turns[id := Entered] else w.turns,
          if p.Started? then w.used + {id} else w.used,
          w.placed + [(m, p)])
  }

  function Next(w: World, l: Label): World {
    match l
    case Submit(m) => w.(pending := w.pending + {m})
    case Decide(m, id, steerFails) => Decided(w, m, id, steerFails)
    case Enter(t) => w.(s := w.s.(executing := true), turns := w.turns[t := Prompting])
    case Leave(t) => w.(s := w.s.(executing := false), turns := w.turns[t := Applying])
    case Request(_, reason) => w.(s := w.s.(waitingReason := Some(reason)))
    case Finish(t) => w.(s := w.s.(currentTurn := None), turns := w.turns - {t})
    case Resume => w.(s := w.s.(waitingReason := None), resuming := w.resuming + 1)
    case Resumed(id) =>
      World(w.s.(currentTurn := Some(id)), w.pending, if w.resuming > 0 then w.resuming - 1 else 0,
            w.turns[id := Entered], w.used + {id}, w.placed)
    case Displace => w.(s := w.s.(executing := false))
    case Sdk(streaming, compacting) => w.(s := w.s.(streaming := streaming, compacting := compacting))
  }

  predicate Legal(w: World, ls: seq<Label>)
    decreases |ls|
  {
    ls == [] || (Enabled(w, ls[0]) && Legal(Next(w, ls[0]), ls[1..]))
  }

  function Run(w: World, ls: seq<Label>): World
    decreases |ls|
  {
    if ls == [] then w else Run(Next(w, ls[0]), ls[1..])
  }

  // ---- one turn at a time

  ghost predicate OneTurn(w: World) {
    && w.turns.Keys == (if w.s.currentTurn.Some? then {w.s.currentTurn.value} else {})
    && w.turns.Keys <= w.used
  }

  // Execution only happens inside the prompt of a live turn.
  ghost predicate ExecutesInTurns(w: World) {
    w.s.executing ==> exists t :: t in w.turns && w.turns[t] == Prompting
  }

  // No turn is current when a resumption sets its own.
  predicate Careful(w: World, l: Label) { l.Resumed? ==> w.s.currentTurn.None? }

  predicate AllCareful(w: World, ls: seq<Label>)
    decreases |ls|
  {
    ls == [] || (Careful(w, ls[0]) && AllCareful(Next(w, ls[0]), ls[1..]))
  }

  // Every step keeps turns exclusive, but for a resumption that finds a turn:
  // it leaves that turn's coroutine live beside its own.
  lemma OneTurnIsKeptIffResumedIdle(w: World, l: Label)
    requires OneTurn(w) && Enabled(w, l)
    ensures OneTurn(Next(w, l)) <==> Careful(w, l)
  {
    if l.Resumed? { ResumedTurn(w, l.id); }
  }

  lemma ResumedTurn(w: World, id: TurnId)
    requires OneTurn(w) && Enabled(w, Resumed(id))
    ensures OneTurn(Next(w, Resumed(id))) <==> w.s.currentTurn.None?
  {
    var q := Next(w, Resumed(id));
    if w.s.currentTurn.Some? {
      assert w.s.currentTurn.value in w.turns.Keys;
      assert w.s.currentTurn.value in q.turns.Keys;
    }
  }

  // ---- every message placed once, and every queue in order

  function Select(placed: seq<(Message, Placement)>, which: Placement -> bool): seq<Message> {
    if placed == [] then []
    else
      var front, last := placed[..|placed| - 1], placed[|placed| - 1];
      Select(front, which) + if which(last.1) then [last.0] else []
  }

  const ToTurn: Placement -> bool := (p: Placement) => p.QueuedForTurn?
  const ToConfirmation: Placement -> bool := (p: Placement) => p.QueuedForConfirmation?
  const ToSdk: Placement -> bool := (p: Placement) => p.Steered? && p.delivered

  ghost predicate QueuesInOrder(w: World) {
    && w.s.turnQueue == Select(w.placed, ToTurn)
    && w.s.confirmationQueue == Select(w.placed, ToConfirmation)
    && w.s.steered == Select(w.placed, ToSdk)
  }

  ghost predicate PlacedOnce(w: World) {
    && (forall i, j | 0 <= i < j < |w.placed| :: w.placed[i].0 != w.placed[j].0)
    && (forall m | m in w.pending :: !Placed(w, m))
  }

  // Each placement names the turn it was made under, and turns start once.
  ghost predicate TurnsAreNamed(w: World) {
    && (forall i | 0 <= i < |w.placed| && w.placed[i].1.Started? :: w.placed[i].1.turn in w.used)
    && (forall i, j | 0 <= i < j < |w.placed| && w.placed[i].1.Started? && w.placed[j].1.Started? ::
          w.placed[i].1.turn != w.placed[j].1.turn)
  }

  ghost predicate Inv(w: World) {
    QueuesInOrder(w) && PlacedOnce(w) && TurnsAreNamed(w)
  }

  // A steered message went to a turn that was live.
  ghost predicate SteeredIntoTurns(w: World) {
    forall i | 0 <= i < |w.placed| && w.placed[i].1.Steered? :: w.placed[i].1.active.Some?
  }

  lemma DecideKeepsQueues(w: World, m: Message, id: TurnId, fails: bool)
    requires QueuesInOrder(w)
    ensures QueuesInOrder(Decided(w, m, id, fails))
  {
    var q := Decided(w, m, id, fails);
    assert q.placed[..|q.placed| - 1] == w.placed;
  }

  lemma DecideKeepsPlacedOnce(w: World, m: Message, id: TurnId, fails: bool)
    requires PlacedOnce(w) && m in w.pending
    ensures PlacedOnce(Decided(w, m, id, fails))
  {
    var q := Decided(w, m, id, fails);
    forall i | 0 <= i < |w.placed| ensures w.placed[i].0 != m {
      if w.placed[i].0 == m { assert Placed(w, m); assert false; }
    }
    forall n | n in q.pending ensures !Placed(q, n) {
      assert !Placed(w, n);
    }
  }

  lemma DecideKeepsNames(w: World, m: Message, id: TurnId, fails: bool)
    requires TurnsAreNamed(w) && id !in w.used
    ensures TurnsAreNamed(Decided(w, m, id, fails))
  {
  }

  lemma StepKeepsInv(w: World, l: Label)
    requires Inv(w) && Enabled(w, l)
    ensures Inv(Next(w, l))
  {
    match l {
      case Decide(m, id, fails) =>
        DecideKeepsQueues(w, m, id, fails);
        DecideKeepsPlacedOnce(w, m, id, fails);
        DecideKeepsNames(w, m, id, fails);
      case Submit(m) =>
        forall n | n in Next(w, l).pending ensures !Placed(Next(w, l), n) {
          assert !Placed(w, n);
        }
      case _ =>
        forall n | n in w.pending ensures !Placed(Next(w, l), n) {
          assert !Placed(w, n);
        }
    }
  }

  lemma {:induction false} RunKeepsInv(w: World, ls: seq<Label>)
    requires Inv(w) && Legal(w, ls)
    ensures Inv(Run(w, ls))
    decreases |ls|
  {
    if ls != [] {
      StepKeepsInv(w, ls[0]);
      RunKeepsInv(Next(w, ls[0]), ls[1..]);
    }
  }

  lemma {:induction false} CarefulRunKeepsOneTurn(w: World, ls: seq<Label>)
    requires OneTurn(w) && ExecutesInTurns(w) && SteeredIntoTurns(w) && Legal(w, ls) && AllCareful(w, ls)
    ensures OneTurn(Run(w, ls)) && ExecutesInTurns(Run(w, ls)) && SteeredIntoTurns(Run(w, ls))
    decreases |ls|
  {
    if ls != [] {
      OneTurnIsKeptIffResumedIdle(w, ls[0]);
      StepKeepsExecution(w, ls[0]);
      assert w.s.executing ==> w.s.currentTurn.Some?;
      CarefulRunKeepsOneTurn(Next(w, ls[0]), ls[1..]);
    }
  }

  lemma StepKeepsExecution(w: World, l: Label)
    requires OneTurn(w) && ExecutesInTurns(w) && Enabled(w, l)
    ensures ExecutesInTurns(Next(w, l))
  {
    if w.s.executing {
      var t :| t in w.turns && w.turns[t] == Prompting;
      assert l.Leave? || (t in Next(w, l).turns && Next(w, l).turns[t] == Prompting);
    }
    if l.Enter? { assert Next(w, l).turns[l.t] == Prompting; }
  }

  // In every interleaving of submissions, turns, resumptions that find no turn,
  // other executions and the SDK session, a turn's coroutine is live exactly when
  // currentTurn is set, and it is that turn's: there are never two. What is
  // steered goes to it.
  lemma OneTurnAtATime(ls: seq<Label>)
    requires Legal(Idle, ls) && AllCareful(Idle, ls)
    ensures var w := Run(Idle, ls);
      && (forall t :: t in w.turns <==> w.s.currentTurn == Some(t))
      && |w.turns| <= 1
      && (w.s.executing ==> w.s.currentTurn.Some?)
      && SteeredIntoTurns(w)
  {
    CarefulRunKeepsOneTurn(Idle, ls);
    var w := Run(Idle, ls);
    assert |w.turns| == |w.turns.Keys|;
  }

  // Said the other way too: turns are exclusive in every state that a run passes
  // if and only if no resumption in it sets its turn while another is current.
  lemma {:induction false} ExclusiveThroughoutIffCareful(w: World, ls: seq<Label>)
    requires OneTurn(w) && Legal(w, ls)
    ensures AllCareful(w, ls) <==> forall n | 0 <= n <= |ls| :: OneTurn(Run(w, ls[..n]))
    decreases |ls|
  {
    if ls == [] {
      assert ls[..0] == [];
    } else {
      var w1, rest := Next(w, ls[0]), ls[1..];
      OneTurnIsKeptIffResumedIdle(w, ls[0]);
      forall n | 0 <= n <= |rest| ensures Run(w1, rest[..n]) == Run(w, ls[..n + 1]) {
        assert ls[..n + 1][1..] == rest[..n];
      }
      assert ls[..0] == [] && rest[..0] == [];
      if OneTurn(w1) {
        ExclusiveThroughoutIffCareful(w1, rest);
        forall n | 0 <= n <= |ls| && AllCareful(w, ls) ensures OneTurn(Run(w, ls[..n])) {
          if n > 0 { assert Run(w, ls[..n]) == Run(w1, rest[..n - 1]); }
        }
      } else {
        assert Run(w, ls[..1]) == w1;
      }
    }
  }

  lemma ExclusiveIffCareful(ls: seq<Label>)
    requires Legal(Idle, ls)
    ensures AllCareful(Idle, ls) <==> forall n | 0 <= n <= |ls| :: OneTurn(Run(Idle, ls[..n]))
  {
    ExclusiveThroughoutIffCareful(Idle, ls);
  }

  // Such a resumption happens: a message decided while the resumption is being
  // recorded starts a turn, and then there are two.
  lemma ResumptionCanStartASecondTurn(m: Message, first: TurnId, second: TurnId)
    requires first != second
    ensures var ls := [Submit(m), Resume, Decide(m, first, false), Resumed(second)];
      Legal(Idle, ls) && |Run(Idle, ls).turns| == 2
  {
    var w1 := Next(Idle, Submit(m));
    var w2 := Next(w1, Resume);
    var w3 := Next(w2, Decide(m, first, false));
    var w4 := Next(w3, Resumed(second));
    assert w4.turns == map[first := Entered, second := Entered];
    assert w4.turns.Keys == {first, second};
    LegalFour(Submit(m), Resume, Decide(m, first, false), Resumed(second));
  }

  lemma LegalFour(a: Label, b: Label, c: Label, d: Label)
    requires Enabled(Idle, a)
    requires var w1 := Next(Idle, a); var w2 := Next(w1, b); var w3 := Next(w2, c);
      Enabled(w1, b) && Enabled(w2, c) && Enabled(w3, d)
    ensures Legal(Idle, [a, b, c, d])
    ensures Run(Idle, [a, b, c, d]) == Next(Next(Next(Next(Idle, a), b), c), d)
  {
    assert [a, b, c, d][1..] == [b, c, d] && [b, c, d][1..] == [c, d] && [c, d][1..] == [d] && [d][1..] == [];
    var w2 := Next(Next(Idle, a), b);
    var w3 := Next(w2, c);
    assert Legal(w3, [d]) && Run(w3, [d]) == Next(w3, d);
    assert Legal(w2, [c, d]) && Run(w2, [c, d]) == Run(w3, [d]);
  }

  // How often a message stands in a queue.
  function Count(q: seq<Message>, m: Message): nat { multiset(q)[m] }

  // Every submitted message is still on its way or was placed exactly once; the
  // queues and the SDK session hold the messages placed there, in that order,
  // and no others.
  lemma EachMessageIsPlacedOnce(ls: seq<Label>)
    requires Legal(Idle, ls)
    ensures var w := Run(Idle, ls);
      && QueuesInOrder(w)
      && (forall m | Submit(m) in ls :: m in w.pending <==> !Placed(w, m))
      && (forall i, j | 0 <= i < j < |w.placed| :: w.placed[i].0 != w.placed[j].0)
      && (forall i, j | 0 <= i < j < |w.placed| && w.placed[i].1.Started? && w.placed[j].1.Started? ::
            w.placed[i].1.turn != w.placed[j].1.turn)
  {
    RunKeepsInv(Idle, ls);
    forall m | Submit(m) in ls ensures m in Run(Idle, ls).pending <==> !Placed(Run(Idle, ls), m) {
      SubmittedIsKnown(Idle, ls, m);
    }
  }

  predicate DistinctMessages(placed: seq<(Message, Placement)>) {
    forall i, j | 0 <= i < j < |placed| :: placed[i].0 != placed[j].0
  }

  lemma {:induction false} SelectsNone(placed: seq<(Message, Placement)>, which: Placement -> bool, m: Message)
    requires forall i | 0 <= i < |placed| :: placed[i].0 != m
    ensures Count(Select(placed, which), m) == 0
  {
    if placed != [] { SelectsNone(placed[..|placed| - 1], which, m); }
  }

  lemma {:induction false} SelectsOnce(placed: seq<(Message, Placement)>, which: Placement -> bool, i: nat)
    requires DistinctMessages(placed) && i < |placed|
    ensures Count(Select(placed, which), placed[i].0) == if which(placed[i].1) then 1 else 0
  {
    var front := placed[..|placed| - 1];
    if i < |front| {
      SelectsOnce(front, which, i);
      assert front[i] == placed[i];
    } else {
      SelectsNone(front, which, placed[i].0);
    }
  }

  predicate Known(w: World, m: Message) { m in w.pending || Placed(w, m) }

  lemma StepKeepsKnown(w: World, l: Label, m: Message)
    requires Known(w, m) || l == Submit(m)
    ensures Known(Next(w, l), m)
  {
    var q := Next(w, l);
    if Placed(w, m) {
      var i :| 0 <= i < |w.placed| && w.placed[i].0 == m;
      assert q.placed[i].0 == m;
    } else if l.Decide? && l.m == m {
      assert q.placed[|w.placed|].0 == m;
    }
  }

  lemma {:induction false} SubmittedIsKnown(w: World, ls: seq<Label>, m: Message)
    requires Inv(w) && Legal(w, ls)
    requires Known(w, m) || Submit(m) in ls
    ensures var q := Run(w, ls); m in q.pending <==> !Placed(q, m)
    decreases |ls|
  {
    if ls != [] {
      StepKeepsInv(w, ls[0]);
      if Known(w, m) || ls[0] == Submit(m) { StepKeepsKnown(w, ls[0], m); }
      SubmittedIsKnown(Next(w, ls[0]), ls[1..], m);
    }
  }

  // ---- messages that nothing holds

  const ToStart: Placement -> bool := (p: Placement) => p.Started?

  // How often a message waits in a queue, was handed to the SDK session or
  // started a turn.
  function Times(w: World, m: Message): nat {
    Count(w.s.turnQueue, m) + Count(w.s.confirmationQueue, m) + Count(w.s.steered, m)
    + Count(Select(w.placed, ToStart), m)
  }

  // A session that streams a turn's answer takes messages by steering; while it
  // compacts it is not asked, and steering may throw.
  predicate Drops(s: State, steerFails: bool) { s.executing && s.streaming && (s.compacting || steerFails) }

  lemma DroppedIffDrops(s: State, m: Message, id: TurnId, steerFails: bool)
    ensures var p := Place(s, m, id, steerFails).1;
      p.Failed? || (p.Steered? && !p.delivered) <==> Drops(s, steerFails)
  {
  }

  lemma {:induction false} RunConcat(w: World, a: seq<Label>, b: seq<Label>)
    ensures Run(w, a + b) == Run(Run(w, a), b)
    ensures Legal(w, a + b) <==> Legal(w, a) && Legal(Run(w, a), b)
    decreases |a|
  {
    if a == [] {
      assert a + b == b;
    } else {
      assert (a + b)[0] == a[0] && (a + b)[1..] == a[1..] + b;
      RunConcat(Next(w, a[0]), a[1..], b);
    }
  }

  lemma {:induction false} PlacedGrows(w: World, ls: seq<Label>)
    ensures w.placed <= Run(w, ls).placed
    decreases |ls|
  {
    if ls != [] { PlacedGrows(Next(w, ls[0]), ls[1..]); }
  }

  // A placement is in one of the four places, or in none.
  lemma SelectedAsPlaced(placed: seq<(Message, Placement)>, i: nat)
    requires DistinctMessages(placed) && i < |placed|
    ensures var (m, p) := placed[i];
      Count(Select(placed, ToTurn), m) + Count(Select(placed, ToConfirmation), m) + Count(Select(placed, ToSdk), m)
      + Count(Select(placed, ToStart), m) == if p.Failed? || (p.Steered? && !p.delivered) then 0 else 1
  {
    SelectsOnce(placed, ToTurn, i);
    SelectsOnce(placed, ToConfirmation, i);
    SelectsOnce(placed, ToSdk, i);
    SelectsOnce(placed, ToStart, i);
  }

  lemma HeldAsPlaced(w: World, i: nat)
    requires Inv(w) && i < |w.placed|
    ensures var (m, p) := w.placed[i]; Times(w, m) == if p.Failed? || (p.Steered? && !p.delivered) then 0 else 1
  {
    SelectedAsPlaced(w.placed, i);
  }

  // Over every run: once its submission has been decided a message stands exactly
  // once among the started turns, the two queues and what the SDK session
  // received, and for ever; but nowhere if and only if at that moment the session
  // was streaming a turn's answer while compacting, or while steering threw.
  lemma AcceptedIsHeldOnce(ls: seq<Label>, m: Message, id: TurnId, steerFails: bool, later: seq<Label>)
    requires Legal(Idle, ls + ([Decide(m, id, steerFails)] + later))
    ensures Times(Run(Idle, ls + ([Decide(m, id, steerFails)] + later)), m)
         == if Drops(Run(Idle, ls).s, steerFails) then 0 else 1
  {
    var d := Decide(m, id, steerFails);
    var w := Run(Idle, ls);
    RunConcat(Idle, ls, [d] + later);
    RunConcat(w, [d], later);
    assert [d][1..] == [] && Run(w, [d]) == Next(w, d);
    var v := Run(Next(w, d), later);
    PlacedGrows(Next(w, d), later);
    assert v.placed[|w.placed|] == (m, Place(w.s, m, id, steerFails).1);
    RunKeepsInv(Idle, ls + ([d] + later));
    HeldAsPlaced(v, |w.placed|);
    DroppedIffDrops(w.s, m, id, steerFails);
  }

  // ---- what a message becomes, in every state that is reached

  lemma MessagesAreDecidedByTheState(ls: seq<Label>, m: Message, id: TurnId, steerFails: bool)
    requires Legal(Idle, ls + [Decide(m, id, steerFails)])
    ensures var w, v := Run(Idle, ls), Run(Idle, ls + [Decide(m, id, steerFails)]);
      && |v.placed| == |w.placed| + 1 && v.placed[..|w.placed|] == w.placed && v.placed[|w.placed|].0 == m
      && DecidedBy(w.s, v.s, m, id, steerFails, v.placed[|w.placed|].1)
      && v.turns == if v.placed[|w.placed|].1.Started? then w.turns[id := Entered] else w.turns
  {
    var d := Decide(m, id, steerFails);
    RunConcat(Idle, ls, [d]);
    var w := Run(Idle, ls);
    assert [d][1..] == [] && Run(w, [d]) == Next(w, d);
    NothingMore(w.s.confirmationQueue, []);
    NothingMore(w.s.turnQueue, []);
    NothingMore(w.s.steered, []);
  }

  // The reason given by the last request since the last resumption.
  function LastReason(ls: seq<Label>): Option<string> {
    if ls == [] then None
    else
      match ls[|ls| - 1]
      case Request(_, reason) => Some(reason)
      case Resume => None
      case _ => LastReason(ls[..|ls| - 1])
  }

  // Whether the last turn to enter its prompt is still known to be in it.
  function LastExecution(ls: seq<Label>): bool {
    if ls == [] then false
    else
      match ls[|ls| - 1]
      case Enter(_) => true
      case Leave(_) => false
      case Displace => false
      case _ => LastExecution(ls[..|ls| - 1])
  }

  // What the SDK session last reported.
  function LastReport(ls: seq<Label>): (bool, bool) {
    if ls == [] then (false, false)
    else
      match ls[|ls| - 1]
      case Sdk(streaming, compacting) => (streaming, compacting)
      case _ => LastReport(ls[..|ls| - 1])
  }

  lemma LastStep(ls: seq<Label>)
    requires Legal(Idle, ls) && ls != []
    ensures Legal(Idle, ls[..|ls| - 1]) && Run(Idle, ls) == Next(Run(Idle, ls[..|ls| - 1]), ls[|ls| - 1])
  {
    var front, l := ls[..|ls| - 1], ls[|ls| - 1];
    assert ls == front + [l];
    RunConcat(Idle, front, [l]);
    var w := Run(Idle, front);
    assert [l][1..] == [] && Run(w, [l]) == Next(w, l);
  }

  lemma {:induction false} WaitsAsRequested(ls: seq<Label>)
    requires Legal(Idle, ls)
    ensures var s := Run(Idle, ls).s; s.waitingReason == LastReason(ls)
  {
    if ls != [] {
      LastStep(ls);
      WaitsAsRequested(ls[..|ls| - 1]);
    }
  }

  lemma {:induction false} ExecutesAsEntered(ls: seq<Label>)
    requires Legal(Idle, ls)
    ensures var s := Run(Idle, ls).s; s.executing == LastExecution(ls)
  {
    if ls != [] {
      LastStep(ls);
      ExecutesAsEntered(ls[..|ls| - 1]);
    }
  }

  lemma {:induction false} StreamsAsReported(ls: seq<Label>)
    requires Legal(Idle, ls)
    ensures var s := Run(Idle, ls).s; (s.streaming, s.compacting) == LastReport(ls)
  {
    if ls != [] {
      LastStep(ls);
      StreamsAsReported(ls[..|ls| - 1]);
    }
  }

  // So what decides a message is what happened last.
  lemma ReasonIsTheLastRequest(ls: seq<Label>)
    requires Legal(Idle, ls)
    ensures var s := Run(Idle, ls).s;
      && s.waitingReason == LastReason(ls) && s.executing == LastExecution(ls)
      && (s.streaming, s.compacting) == LastReport(ls)
  {
    WaitsAsRequested(ls);
    ExecutesAsEntered(ls);
    StreamsAsReported(ls);
  }

  // The wait for a confirmation is ended by a resumption and replaced only by
  // another request.
  predicate KeepsWaiting(l: Label) { !l.Resume? && (l.Request? ==> l.reason != "") }

  predicate StartsNothing(p: Placement) { p.QueuedForConfirmation? || p.Steered? || p.Failed? }

  lemma WaitingStepStartsNothing(w: World, l: Label)
    requires Waiting(w.s) && Enabled(w, l) && KeepsWaiting(l)
    ensures Waiting(Next(w, l).s)
    ensures forall i | |w.placed| <= i < |Next(w, l).placed| :: StartsNothing(Next(w, l).placed[i].1)
  {
  }

  // Until then no message starts a turn or queues for one, whatever else happens.
  lemma {:induction false} NoMessageStartsATurnWhileWaiting(w: World, ls: seq<Label>)
    requires w.s.waitingReason.Some? && w.s.waitingReason.value != ""
    requires Legal(w, ls) && forall i | 0 <= i < |ls| :: KeepsWaiting(ls[i])
    ensures |w.placed| <= |Run(w, ls).placed|
    ensures forall i | |w.placed| <= i < |Run(w, ls).placed| :: StartsNothing(Run(w, ls).placed[i].1)
    decreases |ls|
  {
    if ls != [] {
      var v := Next(w, ls[0]);
      WaitingStepStartsNothing(w, ls[0]);
      NoMessageStartsATurnWhileWaiting(v, ls[1..]);
      PlacedGrows(v, ls[1..]);
    }
  }

  // It happens: message 2 is answered as steered into turn 10 and is nowhere.
  const ToCompacting: seq<Label> := [Submit(1), Decide(1, 10, false), Enter(10), Sdk(true, true)]
  const WhileCompacting: seq<Label> := ToCompacting + [Submit(2), Decide(2, 11, false)]

  lemma LegalTwo(w: World, e: Label, f: Label)
    requires Enabled(w, e) && Enabled(Next(w, e), f)
    ensures Legal(w, [e, f]) && Run(w, [e, f]) == Next(Next(w, e), f)
  {
    assert [e, f][1..] == [f] && [f][1..] == [];
    var w1 := Next(w, e);
    assert Legal(w1, [f]) && Run(w1, [f]) == Next(w1, f);
  }

  // Turn 10 streams its answer and the session compacts.
  const Compacting := World(
    State(Some(10), true, None, true, true, [], [], []), {}, 0, map[10 := Prompting], {10}, [(1, Started(10))])

  lemma CompactingIsReached()
    ensures Legal(Idle, ToCompacting) && Run(Idle, ToCompacting) == Compacting
  {
    LegalFour(Submit(1), Decide(1, 10, false), Enter(10), Sdk(true, true));
  }

  lemma CompactingTakesAMessage()
    ensures Legal(Idle, WhileCompacting)
    ensures Run(Idle, WhileCompacting) == Compacting.(
      placed := [(1, Started(10)), (2, Steered(false, Some(10)))])
  {
    CompactingIsReached();
    LegalTwo(Compacting, Submit(2), Decide(2, 11, false));
    RunConcat(Idle, ToCompacting, [Submit(2), Decide(2, 11, false)]);
  }

  lemma CompactingDropsAMessage()
    ensures Legal(Idle, WhileCompacting)
    ensures var w := Run(Idle, WhileCompacting);
      w.placed == [(1, Started(10)), (2, Steered(false, Some(10)))] && Times(w, 2) == 0
  {
    CompactingTakesAMessage();
    RunKeepsInv(Idle, WhileCompacting);
    HeldAsPlaced(Run(Idle, WhileCompacting), 1);
  }
}
