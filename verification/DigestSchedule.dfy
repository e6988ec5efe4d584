// Which digests are due, and the jobs the scans queue for them.
module DigestSchedules {
  import opened Prelude
  import opened Text
  import opened Crons

  type Instant = int

  // Local time of an instant in a time zone; the conversion is a parameter.
  datatype Zoned = Zoned(year: nat, parts: Parts)
  type Zones = (Instant, string) -> Zoned

  datatype DigestType = DailyStatus | WeeklyReportDraft
  datatype Channel = InternalDigest | GroupMessage | FeishuDoc

  datatype Policy = Policy(
    enabled: bool, internalOnly: bool, dailyStatus: bool, weeklyDraft: bool,
    timezone: string, dailyStatusChannel: Channel, weeklyDraftChannel: Channel)

  datatype Session = Session(
    id: string,
    inProject: bool, active: bool, disabled: bool, busy: bool,
    policy: Policy,
    lastDigestAt: Option<Instant>, lastDigestType: Option<DigestType>)

  datatype Config = Config(dailyCron: string, weeklyCron: string, zones: Zones)

  datatype Due = Due(digestType: DigestType, periodKey: string, channels: seq<Channel>)

  datatype Job = Job(sessionId: string, due: Due, internalOnly: bool)

  // ---- dates and keys

  datatype Date = Date(year: nat, month: nat, day: nat)

  function LocalDate(c: Config, now: Instant, timezone: string): Date {
    var z := c.zones(now, timezone);
    Date(z.year, z.parts.month, z.parts.day)
  }

  function PadStart2(s: string): string {
    if |s| == 0 then "00" else if |s| == 1 then "0" + s else s
  }

  function DateKey(d: Date): string {
    PrintNat(d.year) + "-" + (PadStart2(PrintNat(d.month)) + "-" + PadStart2(PrintNat(d.day)))
  }

  function TypeName(t: DigestType): string {
    match t
    case DailyStatus => "daily_status"
    case WeeklyReportDraft => "weekly_report_draft"
  }

  function PeriodKey(d: Date, t: DigestType): string { DateKey(d) + ":" + TypeName(t) }

  function JobId(sessionId: string, periodKey: string): string { sessionId + ":" + periodKey }

  // ---- keys determine what they are made of

  lemma SplitTwo(a: string, b: string, sep: char, rest: string, rest': string)
    requires Free(a, sep) && Free(b, sep) && a + [sep] + rest == b + [sep] + rest'
    ensures a == b && rest == rest'
  {
    var all := a + [sep] + rest;
    SplitFirst(a, sep, rest);
    SplitFirst(b, sep, rest');
    assert a == Split(all, sep)[0] && b == Split(all, sep)[0];
    assert rest == all[|a| + 1..] && rest' == all[|b| + 1..];
  }

  // A padded numeral still reads as its number.
  lemma PaddedReads(n: nat)
    ensures Digits(PadStart2(PrintNat(n))) && ParseNat(PadStart2(PrintNat(n))) == n
    ensures n < 100 ==> |PadStart2(PrintNat(n))| == 2
  {
    var s := PrintNat(n);
    ParseUndoesPrint(n);
    if |s| == 1 {
      assert ("0" + s)[..1] == "0" && s[..0] == "0"[..0] == "";
      assert ParseNat("0") == 0;
    }
  }

  lemma DateKeyIsInjective(d: Date, e: Date)
    ensures DateKey(d) == DateKey(e) ==> d == e
    ensures Free(DateKey(d), ':')
  {
    PaddedReads(d.month);
    PaddedReads(d.day);
    PaddedReads(e.month);
    PaddedReads(e.day);
    PrintIsInjective(d.year, e.year);
    var y, m, n := PrintNat(d.year), PadStart2(PrintNat(d.month)), PadStart2(PrintNat(d.day));
    var y', m', n' := PrintNat(e.year), PadStart2(PrintNat(e.month)), PadStart2(PrintNat(e.day));
    if DateKey(d) == DateKey(e) {
      assert DateKey(d) == y + ['-'] + (m + "-" + n) && DateKey(e) == y' + ['-'] + (m' + "-" + n');
      SplitTwo(y, y', '-', m + "-" + n, m' + "-" + n');
      SplitTwo(m, m', '-', n, n');
    }
  }

  predicate TwoDigits(text: string, n: nat) { |text| == 2 && Digits(text) && ParseNat(text) == n }

  ghost predicate LooksLike(key: string, d: Date, t: DigestType, m: string, n: string) {
    && TwoDigits(m, d.month) && TwoDigits(n, d.day)
    && key == PrintNat(d.year) + "-" + m + "-" + n + if t.DailyStatus? then ":daily_status" else ":weekly_report_draft"
  }

  lemma KeyParts(y: string, m: string, n: string, t: DigestType)
    ensures y + "-" + (m + "-" + n) + ":" + TypeName(t)
         == y + "-" + m + "-" + n + if t.DailyStatus? then ":daily_status" else ":weekly_report_draft"
  {
    assert ":" + TypeName(t) == if t.DailyStatus? then ":daily_status" else ":weekly_report_draft";
    assert y + "-" + (m + "-" + n) == y + "-" + m + "-" + n;
    Assoc(y + "-" + m + "-" + n, ":", TypeName(t));
  }

  // Year, month and day, the latter two with two digits, and the type's name.
  lemma PeriodKeyLooks(d: Date, t: DigestType)
    requires d.month < 100 && d.day < 100
    ensures exists m, n :: LooksLike(PeriodKey(d, t), d, t, m, n)
  {
    var m, n := PadStart2(PrintNat(d.month)), PadStart2(PrintNat(d.day));
    PaddedReads(d.month);
    PaddedReads(d.day);
    KeyParts(PrintNat(d.year), m, n, t);
    assert LooksLike(PeriodKey(d, t), d, t, m, n);
  }

  // A session id with no colon in it, the date and the type can be read back.
  lemma JobIdIsInjective(s: string, d: Date, t: DigestType, s': string, d': Date, t': DigestType)
    requires Free(s, ':') && Free(s', ':')
    ensures JobId(s, PeriodKey(d, t)) == JobId(s', PeriodKey(d', t')) <==> s == s' && d == d' && t == t'
  {
    DateKeyIsInjective(d, d');
    DateKeyIsInjective(d', d);
    if JobId(s, PeriodKey(d, t)) == JobId(s', PeriodKey(d', t')) {
      SplitTwo(s, s', ':', PeriodKey(d, t), PeriodKey(d', t'));
      SplitTwo(DateKey(d), DateKey(d'), ':', TypeName(t), TypeName(t'));
      assert TypeName(t)[0] == TypeName(t')[0];
    }
  }

  // ---- what is due

  predicate DidRunForCurrentDay(c: Config, s: Session, t: DigestType, now: Instant) {
    && s.lastDigestAt.Some?
    && s.lastDigestType == Some(t)
    && DateKey(LocalDate(c, s.lastDigestAt.value, s.policy.timezone)) == DateKey(LocalDate(c, now, s.policy.timezone))
  }

  function TargetChannels(t: DigestType, p: Policy): (cs: seq<Channel>)
    ensures cs != []
    ensures p.internalOnly ==> cs == [InternalDigest]
    ensures GroupMessage in cs <==>
      !p.internalOnly && (if t.DailyStatus? then p.dailyStatusChannel else p.weeklyDraftChannel) == GroupMessage
    ensures FeishuDoc in cs <==> !p.internalOnly && t.WeeklyReportDraft? && p.weeklyDraftChannel != InternalDigest
    ensures InternalDigest in cs <==> GroupMessage !in cs && FeishuDoc !in cs
    ensures |cs| == if GroupMessage in cs && FeishuDoc in cs then 2 else 1
  {
    if p.internalOnly then [InternalDigest]
    else
      match t
      case DailyStatus => if p.dailyStatusChannel.GroupMessage? then [GroupMessage] else [InternalDigest]
      case WeeklyReportDraft =>
        match p.weeklyDraftChannel
        case InternalDigest => [InternalDigest]
        case FeishuDoc => [FeishuDoc]
        case GroupMessage => [GroupMessage, FeishuDoc]
  }

  predicate Wanted(p: Policy, t: DigestType) {
    p.enabled && if t.DailyStatus? then p.dailyStatus else p.weeklyDraft
  }

  predicate IsDue(c: Config, s: Session, t: DigestType, now: Instant) {
    Wanted(s.policy, t) && OnTime(c, s, t, now) && !DidRunForCurrentDay(c, s, t, now)
  }

  predicate OnTime(c: Config, s: Session, t: DigestType, now: Instant) {
    MatchesCron(if t.DailyStatus? then c.dailyCron else c.weeklyCron, c.zones(now, s.policy.timezone).parts)
  }

  function DueFor(c: Config, s: Session, t: DigestType, now: Instant): Due {
    Due(t, PeriodKey(LocalDate(c, now, s.policy.timezone), t), TargetChannels(t, s.policy))
  }

  function If(due: bool, d: Due): seq<Due> { if due then [d] else [] }

  function DueJobs(c: Config, s: Session, now: Instant): seq<Due> {
    If(IsDue(c, s, DailyStatus, now), DueFor(c, s, DailyStatus, now))
    + If(IsDue(c, s, WeeklyReportDraft, now), DueFor(c, s, WeeklyReportDraft, now))
  }

  lemma DueJobsAreTheDueTypes(c: Config, s: Session, t: DigestType, now: Instant)
    ensures DueFor(c, s, t, now) in DueJobs(c, s, now) <==> IsDue(c, s, t, now)
    ensures |DueJobs(c, s, now)| == 2 ==> DueJobs(c, s, now)[0].digestType != DueJobs(c, s, now)[1].digestType
    ensures forall i | 0 <= i < |DueJobs(c, s, now)| ::
      var d := DueJobs(c, s, now)[i]; d == DueFor(c, s, DailyStatus, now) || d == DueFor(c, s, WeeklyReportDraft, now)
  {
    BothOrOne(IsDue(c, s, DailyStatus, now), DueFor(c, s, DailyStatus, now),
              IsDue(c, s, WeeklyReportDraft, now), DueFor(c, s, WeeklyReportDraft, now));
  }

  lemma BothOrOne(p: bool, d: Due, q: bool, e: Due)
    requires d.digestType != e.digestType
    ensures d in If(p, d) + If(q, e) <==> p
    ensures e in If(p, d) + If(q, e) <==> q
    ensures forall i | 0 <= i < |If(p, d) + If(q, e)| :: var x := (If(p, d) + If(q, e))[i]; x == d || x == e
    ensures |If(p, d) + If(q, e)| == 2 ==> (If(p, d) + If(q, e))[0] == d && (If(p, d) + If(q, e))[1] == e
  {
  }

  // ---- the same from the policy and the clock

  ghost predicate SameDay(c: Config, a: Instant, b: Instant, timezone: string) {
    var x, y := c.zones(a, timezone), c.zones(b, timezone);
    x.year == y.year && x.parts.month == y.parts.month && x.parts.day == y.parts.day
  }

  // The policy wants this type, its own schedule matches the local time, and it
  // is not the type that finished last, today.
  ghost predicate Calls(c: Config, s: Session, t: DigestType, now: Instant) {
    var parts := c.zones(now, s.policy.timezone).parts;
    && s.policy.enabled
    && (t == DailyStatus ==> s.policy.dailyStatus && MatchesCron(c.dailyCron, parts))
    && (t == WeeklyReportDraft ==> s.policy.weeklyDraft && MatchesCron(c.weeklyCron, parts))
    && !(&& s.lastDigestType == Some(t) && s.lastDigestAt.Some?
         && SameDay(c, s.lastDigestAt.value, now, s.policy.timezone))
  }

  lemma DueMeansCalledFor(c: Config, s: Session, t: DigestType, now: Instant)
    ensures IsDue(c, s, t, now) <==> Calls(c, s, t, now)
  {
    if s.lastDigestAt.Some? {
      DateKeyIsInjective(
        LocalDate(c, s.lastDigestAt.value, s.policy.timezone), LocalDate(c, now, s.policy.timezone));
    }
  }

  // Its key is of the local date, its channels are the policy's.
  ghost predicate DatedAndAddressed(c: Config, s: Session, now: Instant, j: Due) {
    var z := c.zones(now, s.policy.timezone);
    && j.periodKey == PeriodKey(Date(z.year, z.parts.month, z.parts.day), j.digestType)
    && j.channels == TargetChannels(j.digestType, s.policy)
  }

  ghost predicate Holds(jobs: seq<Due>, t: DigestType) { exists i :: 0 <= i < |jobs| && jobs[i].digestType == t }

  lemma DueJobsAreCalledFor(c: Config, s: Session, now: Instant)
    ensures var jobs := DueJobs(c, s, now);
      && (Holds(jobs, DailyStatus) <==> Calls(c, s, DailyStatus, now))
      && (Holds(jobs, WeeklyReportDraft) <==> Calls(c, s, WeeklyReportDraft, now))
      && (|jobs| == 2 ==> jobs[0].digestType == DailyStatus && jobs[1].digestType == WeeklyReportDraft)
  {
    DueMeansCalledFor(c, s, DailyStatus, now);
    DueMeansCalledFor(c, s, WeeklyReportDraft, now);
    TypesAmong(IsDue(c, s, DailyStatus, now), DueFor(c, s, DailyStatus, now),
               IsDue(c, s, WeeklyReportDraft, now), DueFor(c, s, WeeklyReportDraft, now));
  }

  lemma DueJobsAreAddressed(c: Config, s: Session, now: Instant)
    ensures forall j | j in DueJobs(c, s, now) :: DatedAndAddressed(c, s, now, j)
  {
    DueJobsAreTheDueTypes(c, s, DailyStatus, now);
  }

  lemma TypesAmong(p: bool, d: Due, q: bool, e: Due)
    requires d.digestType == DailyStatus && e.digestType == WeeklyReportDraft
    ensures var jobs := If(p, d) + If(q, e);
      && (Holds(jobs, DailyStatus) <==> p) && (Holds(jobs, WeeklyReportDraft) <==> q)
      && (|jobs| == 2 ==> jobs[0] == d && jobs[1] == e)
  {
    var jobs := If(p, d) + If(q, e);
    assert p ==> jobs[0] == d;
    assert q ==> jobs[|jobs| - 1] == e;
  }

  method GetScheduledDigestJobs(c: Config, s: Session, now: Instant) returns (jobs: seq<Due>)
    ensures jobs == DueJobs(c, s, now)
    ensures Holds(jobs, DailyStatus) <==> Calls(c, s, DailyStatus, now)
    ensures Holds(jobs, WeeklyReportDraft) <==> Calls(c, s, WeeklyReportDraft, now)
    ensures |jobs| == 2 ==> jobs[0].digestType == DailyStatus && jobs[1].digestType == WeeklyReportDraft
    ensures forall j | j in jobs :: DatedAndAddressed(c, s, now, j)
  {
    DueJobsAreCalledFor(c, s, now);
    DueJobsAreAddressed(c, s, now);
    jobs := [];
    if !s.policy.enabled {
      return;
    }
    var daily := CheckDue(c, s, DailyStatus, now);
    if daily {
      jobs := jobs + [DueFor(c, s, DailyStatus, now)];
    }
    var weekly := CheckDue(c, s, WeeklyReportDraft, now);
    if weekly {
      jobs := jobs + [DueFor(c, s, WeeklyReportDraft, now)];
    }
    PushedInOrder(daily, DueFor(c, s, DailyStatus, now), weekly, DueFor(c, s, WeeklyReportDraft, now));
  }

  lemma PushedInOrder(p: bool, d: Due, q: bool, e: Due)
    ensures If(p, d) + If(q, e) == (if p then [] + [d] else []) + (if q then [e] else [])
    ensures !p ==> If(p, d) + If(q, e) == if q then [] + [e] else []
  {
  }

  // The condition of one branch, in the order it is tested.
  method CheckDue(c: Config, s: Session, t: DigestType, now: Instant) returns (due: bool)
    requires s.policy.enabled
    ensures due == IsDue(c, s, t, now)
  {
    due := if t.DailyStatus? then s.policy.dailyStatus else s.policy.weeklyDraft;
    if due {
      due := OnTime(c, s, t, now);
    }
    if due {
      due := !DidRunForCurrentDay(c, s, t, now);
    }
  }

  // ---- the queue and the scans

  predicate Internal(channels: seq<Channel>) { forall i | 0 <= i < |channels| :: channels[i] == InternalDigest }

  function JobFor(s: Session, due: Due): Job { Job(s.id, due, Internal(due.channels)) }

  function IdOf(j: Job): string { JobId(j.sessionId, j.due.periodKey) }

  // Jobs in the order they were accepted; a repeated id is ignored.
  function Add(jobs: seq<Job>, j: Job): seq<Job> {
    if exists i :: 0 <= i < |jobs| && IdOf(jobs[i]) == IdOf(j) then jobs else jobs + [j]
  }

  function AddDue(jobs: seq<Job>, s: Session, due: seq<Due>): seq<Job>
    decreases |due|
  {
    if due == [] then jobs else AddDue(Add(jobs, JobFor(s, due[0])), s, due[1..])
  }

  predicate Scanned(s: Session) { s.inProject && s.active && !s.disabled && !s.busy }

  // What a scan wants queued: the due digests of each session it does not skip.
  datatype Batch = Batch(s: Session, due: seq<Due>)

  function Batches(c: Config, sessions: seq<Session>, now: Instant): seq<Batch> {
    if sessions == [] then []
    else
      (if Scanned(sessions[0]) then [Batch(sessions[0], DueJobs(c, sessions[0], now))] else []) +
      Batches(c, sessions[1..], now)
  }

  function AddBatches(jobs: seq<Job>, bs: seq<Batch>): seq<Job>
    decreases |bs|
  {
    if bs == [] then jobs else AddBatches(AddDue(jobs, bs[0].s, bs[0].due), bs[1..])
  }

  function ScanAll(c: Config, jobs: seq<Job>, sessions: seq<Session>, now: Instant): seq<Job> {
    AddBatches(jobs, Batches(c, sessions, now))
  }

  class DigestQueue {
    var jobs: seq<Job>

    constructor ()
      ensures jobs == []
    {
      jobs := [];
    }

    method Enqueue(j: Job)
      modifies this
      ensures jobs == Add(old(jobs), j)
    {
      if !exists i :: 0 <= i < |jobs| && IdOf(jobs[i]) == IdOf(j) {
        jobs := jobs + [j];
      }
    }

    // `rows` are the sessions the query selects, oldest update first.
    method ProcessScan(c: Config, rows: seq<Session>, now: Instant)
      requires forall i | 0 <= i < |rows| :: rows[i].inProject && rows[i].active && !rows[i].disabled
      modifies this
      ensures jobs == ScanAll(c, old(jobs), rows, now)
    {
      for k := 0 to |rows|
        invariant AddBatches(jobs, Batches(c, rows[k..], now)) == ScanAll(c, old(jobs), rows, now)
      {
        assert rows[k..][1..] == rows[k + 1..];
        ghost var first, rest := Batch(rows[k], DueJobs(c, rows[k], now)), Batches(c, rows[k + 1..], now);
        assert Batches(c, rows[k..], now) == if rows[k].busy then rest else [first] + rest;
        if rows[k].busy {
          continue;
        }
        assert ([first] + rest)[1..] == rest;
        var due := GetScheduledDigestJobs(c, rows[k], now);
        EnqueueAll(rows[k], due);
      }
    }

    method EnqueueAll(session: Session, due: seq<Due>)
      modifies this
      ensures jobs == AddDue(old(jobs), session, due)
    {
      for i := 0 to |due|
        invariant AddDue(jobs, session, due[i..]) == AddDue(old(jobs), session, due)
      {
        assert due[i..][1..] == due[i + 1..];
        Enqueue(JobFor(session, due[i]));
      }
    }
  }

  // ---- any scans, with any digests finishing and any edits in between

  datatype World = World(sessions: seq<Session>, jobs: seq<Job>)

  datatype Step =
    | Scan(now: Instant)
    | Finish(i: nat, digestType: DigestType, at: Instant)  // the end of a digest updates its session
    | Change(sessions: seq<Session>)                       // anything else that happens to the rows

  function Do(c: Config, w: World, s: Step): World {
    match s
    case Scan(now) => w.(jobs := ScanAll(c, w.jobs, w.sessions, now))
    case Finish(i, t, at) =>
      if i < |w.sessions|
      then w.(sessions := w.sessions[i := w.sessions[i].(lastDigestAt := Some(at), lastDigestType := Some(t))])
      else w
    case Change(sessions) => w.(sessions := sessions)
  }

  function Run(c: Config, w: World, steps: seq<Step>): World
    decreases |steps|
  {
    if steps == [] then w else Run(c, Do(c, w, steps[0]), steps[1..])
  }

  ghost predicate PlainIds(sessions: seq<Session>) {
    forall i | 0 <= i < |sessions| :: Free(sessions[i].id, ':')
  }

  ghost predicate PlainSteps(steps: seq<Step>) {
    forall i | 0 <= i < |steps| && steps[i].Change? :: PlainIds(steps[i].sessions)
  }

  // A job was queued for this session, type and local date.
  ghost predicate For(j: Job, sessionId: string, t: DigestType, d: Date) {
    j.sessionId == sessionId && j.due.digestType == t && j.due.periodKey == PeriodKey(d, t)
  }

  ghost predicate Dated(j: Job) {
    (j.internalOnly <==> GroupMessage !in j.due.channels && FeishuDoc !in j.due.channels) &&
    Free(j.sessionId, ':') && exists d :: For(j, j.sessionId, j.due.digestType, d)
  }

  ghost predicate Distinct(jobs: seq<Job>) {
    && (forall i | 0 <= i < |jobs| :: Dated(jobs[i]))
    && (forall i, j | 0 <= i < j < |jobs| :: IdOf(jobs[i]) != IdOf(jobs[j]))
  }

  lemma AddKeepsDistinct(jobs: seq<Job>, j: Job)
    requires Distinct(jobs) && Dated(j)
    ensures Distinct(Add(jobs, j))
  {
  }

  lemma {:induction false} AddDueKeepsDistinct(jobs: seq<Job>, s: Session, due: seq<Due>)
    requires Distinct(jobs) && forall i | 0 <= i < |due| :: Dated(JobFor(s, due[i]))
    ensures Distinct(AddDue(jobs, s, due))
    decreases |due|
  {
    if due != [] {
      AddKeepsDistinct(jobs, JobFor(s, due[0]));
      AddDueKeepsDistinct(Add(jobs, JobFor(s, due[0])), s, due[1..]);
    }
  }

  lemma DueIsDated(c: Config, s: Session, now: Instant)
    requires Free(s.id, ':')
    ensures forall i | 0 <= i < |DueJobs(c, s, now)| :: Dated(JobFor(s, DueJobs(c, s, now)[i]))
  {
    DueJobsAreTheDueTypes(c, s, DailyStatus, now);
    DueForIsDated(c, s, DailyStatus, now);
    DueForIsDated(c, s, WeeklyReportDraft, now);
  }

  lemma DueForIsDated(c: Config, s: Session, t: DigestType, now: Instant)
    requires Free(s.id, ':')
    ensures Dated(JobFor(s, DueFor(c, s, t, now)))
  {
    assert For(JobFor(s, DueFor(c, s, t, now)), s.id, t, LocalDate(c, now, s.policy.timezone));
  }

  ghost predicate DatedBatches(bs: seq<Batch>) {
    forall i | 0 <= i < |bs| :: forall k | 0 <= k < |bs[i].due| :: Dated(JobFor(bs[i].s, bs[i].due[k]))
  }

  lemma {:induction false} BatchesAreDated(c: Config, sessions: seq<Session>, now: Instant)
    requires PlainIds(sessions)
    ensures DatedBatches(Batches(c, sessions, now))
  {
    if sessions != [] {
      DueIsDated(c, sessions[0], now);
      BatchesAreDated(c, sessions[1..], now);
    }
  }

  lemma {:induction false} BatchesKeepDistinct(jobs: seq<Job>, bs: seq<Batch>)
    requires Distinct(jobs) && DatedBatches(bs)
    ensures Distinct(AddBatches(jobs, bs))
    decreases |bs|
  {
    if bs != [] {
      AddDueKeepsDistinct(jobs, bs[0].s, bs[0].due);
      BatchesKeepDistinct(AddDue(jobs, bs[0].s, bs[0].due), bs[1..]);
    }
  }

  lemma {:induction false} RunKeepsDistinct(c: Config, w: World, steps: seq<Step>)
    requires Distinct(w.jobs) && PlainIds(w.sessions) && PlainSteps(steps)
    ensures Distinct(Run(c, w, steps).jobs)
    decreases |steps|
  {
    if steps != [] {
      if steps[0].Scan? {
        BatchesAreDated(c, w.sessions, steps[0].now);
        BatchesKeepDistinct(w.jobs, Batches(c, w.sessions, steps[0].now));
      }
      RunKeepsDistinct(c, Do(c, w, steps[0]), steps[1..]);
    }
  }

  // Over any scans at any times, with digests finishing and rows changing in any
  // way in between, at most one job is queued per session, type and local date.
  lemma OneJobPerSessionTypeAndDate(c: Config, sessions: seq<Session>, steps: seq<Step>)
    requires PlainIds(sessions) && PlainSteps(steps)
    ensures var jobs := Run(c, World(sessions, []), steps).jobs;
      && (forall j | j in jobs :: j.internalOnly <==> GroupMessage !in j.due.channels && FeishuDoc !in j.due.channels)
      && forall i, j, id, t, d
        | 0 <= i < |jobs| && 0 <= j < |jobs| && For(jobs[i], id, t, d) && For(jobs[j], id, t, d) :: i == j
  {
    RunKeepsDistinct(c, World(sessions, []), steps);
  }

  // And different sessions, types or dates never share one.
  lemma EachJobIsForOneSessionTypeAndDate(j: Job, k: Job, d: Date, e: Date)
    requires Free(j.sessionId, ':') && Free(k.sessionId, ':')
    requires For(j, j.sessionId, j.due.digestType, d) && For(k, k.sessionId, k.due.digestType, e)
    ensures IdOf(j) == IdOf(k) <==> j.sessionId == k.sessionId && j.due.digestType == k.due.digestType && d == e
  {
    JobIdIsInjective(j.sessionId, d, j.due.digestType, k.sessionId, e, k.due.digestType);
  }

  ghost predicate HasId(jobs: seq<Job>, id: string) { exists i :: 0 <= i < |jobs| && IdOf(jobs[i]) == id }

  lemma AddExtends(jobs: seq<Job>, j: Job)
    ensures jobs <= Add(jobs, j) && HasId(Add(jobs, j), IdOf(j))
  {
    if !exists i :: 0 <= i < |jobs| && IdOf(jobs[i]) == IdOf(j) {
      assert Add(jobs, j)[|jobs|] == j;
    }
  }

  lemma HasIdStays(jobs: seq<Job>, later: seq<Job>, id: string)
    requires HasId(jobs, id) && jobs <= later
    ensures HasId(later, id)
  {
    var i :| 0 <= i < |jobs| && IdOf(jobs[i]) == id;
    assert later[i] == jobs[i];
  }

  lemma {:induction false} AddDueExtends(jobs: seq<Job>, s: Session, due: seq<Due>)
    ensures jobs <= AddDue(jobs, s, due)
    ensures forall i | 0 <= i < |due| :: HasId(AddDue(jobs, s, due), IdOf(JobFor(s, due[i])))
    decreases |due|
  {
    if due != [] {
      var next := Add(jobs, JobFor(s, due[0]));
      AddExtends(jobs, JobFor(s, due[0]));
      AddDueExtends(next, s, due[1..]);
      HasIdStays(next, AddDue(next, s, due[1..]), IdOf(JobFor(s, due[0])));
      forall i | 1 <= i < |due| ensures HasId(AddDue(jobs, s, due), IdOf(JobFor(s, due[i]))) {
        assert due[i] == due[1..][i - 1];
      }
    }
  }

  ghost predicate Covered(jobs: seq<Job>, b: Batch) {
    forall i | 0 <= i < |b.due| :: HasId(jobs, IdOf(JobFor(b.s, b.due[i])))
  }

  lemma CoverStays(jobs: seq<Job>, later: seq<Job>, b: Batch)
    requires Covered(jobs, b) && jobs <= later
    ensures Covered(later, b)
  {
    forall i | 0 <= i < |b.due| ensures HasId(later, IdOf(JobFor(b.s, b.due[i]))) {
      HasIdStays(jobs, later, IdOf(JobFor(b.s, b.due[i])));
    }
  }

  lemma {:induction false} AddBatchesExtends(jobs: seq<Job>, bs: seq<Batch>)
    ensures jobs <= AddBatches(jobs, bs)
    ensures forall b | b in bs :: Covered(AddBatches(jobs, bs), b)
    decreases |bs|
  {
    if bs != [] {
      var next := AddDue(jobs, bs[0].s, bs[0].due);
      AddDueExtends(jobs, bs[0].s, bs[0].due);
      AddBatchesExtends(next, bs[1..]);
      CoverStays(next, AddBatches(next, bs[1..]), bs[0]);
      assert forall b | b in bs :: b == bs[0] || b in bs[1..];
    }
  }

  lemma {:induction false} BatchOf(c: Config, sessions: seq<Session>, now: Instant, k: nat)
    requires k < |sessions| && Scanned(sessions[k])
    ensures Batch(sessions[k], DueJobs(c, sessions[k], now)) in Batches(c, sessions, now)
  {
    if k > 0 { BatchOf(c, sessions[1..], now, k - 1); }
  }

  // Nothing due is lost: after a scan the queue holds a job for every digest
  // that was due for a scanned session, and what it held before.
  lemma ScanQueuesEverythingDue(c: Config, jobs: seq<Job>, sessions: seq<Session>, now: Instant, k: nat, t: DigestType)
    requires k < |sessions| && Scanned(sessions[k]) && IsDue(c, sessions[k], t, now)
    ensures jobs <= ScanAll(c, jobs, sessions, now)
    ensures HasId(ScanAll(c, jobs, sessions, now), IdOf(JobFor(sessions[k], DueFor(c, sessions[k], t, now))))
  {
    var s := sessions[k];
    BatchOf(c, sessions, now, k);
    AddBatchesExtends(jobs, Batches(c, sessions, now));
    DueJobsAreTheDueTypes(c, s, t, now);
    CoveredDue(ScanAll(c, jobs, sessions, now), Batch(s, DueJobs(c, s, now)), DueFor(c, s, t, now));
  }

  lemma CoveredDue(jobs: seq<Job>, b: Batch, d: Due)
    requires Covered(jobs, b) && d in b.due
    ensures HasId(jobs, IdOf(JobFor(b.s, d)))
  {
    var i :| 0 <= i < |b.due| && b.due[i] == d;
  }

  // Nothing else is queued.
  ghost predicate FromDue(j: Job, s: Session, due: seq<Due>) { exists i :: 0 <= i < |due| && j == JobFor(s, due[i]) }

  ghost predicate FromBatches(j: Job, bs: seq<Batch>) { exists b :: b in bs && FromDue(j, b.s, b.due) }

  lemma {:induction false} AddDueAddsOnly(jobs: seq<Job>, s: Session, due: seq<Due>, j: Job)
    requires j in AddDue(jobs, s, due) && j !in jobs
    ensures FromDue(j, s, due)
    decreases |due|
  {
    if j == JobFor(s, due[0]) {
      assert FromDue(j, s, due);
    } else {
      AddDueAddsOnly(Add(jobs, JobFor(s, due[0])), s, due[1..], j);
      var i :| 0 <= i < |due[1..]| && j == JobFor(s, due[1..][i]);
      assert j == JobFor(s, due[i + 1]);
    }
  }

  lemma {:induction false} AddBatchesAddsOnly(jobs: seq<Job>, bs: seq<Batch>, j: Job)
    requires j in AddBatches(jobs, bs) && j !in jobs
    ensures FromBatches(j, bs)
    decreases |bs|
  {
    var next := AddDue(jobs, bs[0].s, bs[0].due);
    if j in next {
      AddDueAddsOnly(jobs, bs[0].s, bs[0].due, j);
      assert bs[0] in bs;
    } else {
      AddBatchesAddsOnly(next, bs[1..], j);
      var b :| b in bs[1..] && FromDue(j, b.s, b.due);
      assert b in bs;
    }
  }

  lemma {:induction false} BatchesAreScanned(c: Config, sessions: seq<Session>, now: Instant, b: Batch)
    requires b in Batches(c, sessions, now)
    ensures b.s in sessions && b.due == DueJobs(c, b.s, now)
    ensures b.s.inProject && b.s.active && !b.s.disabled && !b.s.busy
  {
    if !(Scanned(sessions[0]) && b == Batch(sessions[0], DueJobs(c, sessions[0], now))) {
      BatchesAreScanned(c, sessions[1..], now, b);
    }
  }

  // A job that a scan adds is for a session it was given that is not busy, of a
  // type its policy and the clock call for.
  lemma ScanQueuesOnlyWhatIsDue(c: Config, jobs: seq<Job>, sessions: seq<Session>, now: Instant, j: Job)
    requires j in ScanAll(c, jobs, sessions, now) && j !in jobs
    ensures exists s :: s in sessions && j.sessionId == s.id && Calls(c, s, j.due.digestType, now)
                        && s.inProject && s.active && !s.disabled && !s.busy
  {
    AddBatchesAddsOnly(jobs, Batches(c, sessions, now), j);
    var b :| b in Batches(c, sessions, now) && FromDue(j, b.s, b.due);
    var i :| 0 <= i < |b.due| && j == JobFor(b.s, b.due[i]);
    BatchesAreScanned(c, sessions, now, b);
    DueJobsAreTheDueTypes(c, b.s, DailyStatus, now);
    DueJobsAreTheDueTypes(c, b.s, WeeklyReportDraft, now);
    assert b.due[i] in b.due;
    DueMeansCalledFor(c, b.s, j.due.digestType, now);
  }

  // ---- the last-digest check on its own

  datatype Finished = Finished(digestType: DigestType, at: Instant)

  // A session after its digests have finished in this order.
  function AfterDigests(s: Session, done: seq<Finished>): Session {
    if done == [] then s
    else
      var last := done[|done| - 1];
      s.(lastDigestAt := Some(last.at), lastDigestType := Some(last.digestType))
  }

  // The instants of one local date form an interval, as they do unless clocks
  // are put back across midnight.
  ghost predicate DaysAreIntervals(c: Config, timezone: string) {
    forall a, b, d | a <= b <= d && LocalDate(c, a, timezone) == LocalDate(c, d, timezone) ::
      LocalDate(c, b, timezone) == LocalDate(c, a, timezone)
  }

  ghost predicate InOrder(done: seq<Finished>, now: Instant) {
    && (forall i, j | 0 <= i <= j < |done| :: done[i].at <= done[j].at)
    && (forall i | 0 <= i < |done| :: done[i].at <= now)
  }

  // The check remembers one digest only: one that has finished today is due
  // again if and only if the last to finish since is of the other type.
  lemma DueAgainIffOtherFinishedLast(c: Config, s: Session, done: seq<Finished>, k: nat, now: Instant)
    requires k < |done| && InOrder(done, now) && DaysAreIntervals(c, s.policy.timezone)
    requires LocalDate(c, done[k].at, s.policy.timezone) == LocalDate(c, now, s.policy.timezone)
    requires Wanted(s.policy, done[k].digestType) && OnTime(c, s, done[k].digestType, now)
    ensures IsDue(c, AfterDigests(s, done), done[k].digestType, now)
        <==> done[|done| - 1].digestType != done[k].digestType
  {
    var last := done[|done| - 1];
    assert done[k].at <= last.at <= now;
    assert LocalDate(c, last.at, s.policy.timezone) == LocalDate(c, now, s.policy.timezone);
  }

  // All instants of this example lie in the minute of ten o'clock on a Friday.
  const Friday := Parts(0, 10, 5, 1, 5)
  const FridayConfig := Config(DefaultDaily, DefaultWeekly, (now: Instant, timezone: string) => Zoned(2024, Friday))
  const Everything := Policy(true, true, true, true, "Asia/Shanghai", InternalDigest, InternalDigest)
  const Group := Session("g", true, true, false, false, Everything, None, None)

  // The daily digest is due, is not due once it has finished, and is due again
  // when a weekly one has finished after it.
  lemma WeeklyMakesDailyDueAgain(c: Config, s: Session)
    requires c == FridayConfig && s == Group
    ensures var daily := AfterDigests(s, [Finished(DailyStatus, 0)]);
      var both := AfterDigests(s, [Finished(DailyStatus, 0), Finished(WeeklyReportDraft, 1)]);
      IsDue(c, s, DailyStatus, 0) && !IsDue(c, daily, DailyStatus, 2) && IsDue(c, both, DailyStatus, 2)
  {
    FridayAtTen(c, s);
    DueAgainIffOtherFinishedLast(c, s, [Finished(DailyStatus, 0)], 0, 2);
    DueAgainIffOtherFinishedLast(c, s, [Finished(DailyStatus, 0), Finished(WeeklyReportDraft, 1)], 0, 2);
  }

  lemma FridayAtTen(c: Config, s: Session)
    requires c == FridayConfig
    ensures forall now :: OnTime(c, s, DailyStatus, now)
  {
    DefaultSchedules(Friday);
  }
}
