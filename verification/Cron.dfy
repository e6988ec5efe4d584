// The cron matcher, which works on text, and the set of times a schedule denotes.
module Crons {
  import opened Prelude
  import opened Text

  // An instant in some time zone; year is not looked at.
  datatype Parts = Parts(minute: nat, hour: nat, day: nat, month: nat, weekday: nat)

  predicate InRange(p: Parts) {
    p.minute <= 59 && p.hour <= 23 && 1 <= p.day <= 31 && 1 <= p.month <= 12 && p.weekday <= 6
  }

  // ---- the matcher

  // None is NaN. The empty text reads as zero.
  function Number(s: string): Option<nat> {
    if Digits(s) then Some(ParseNat(s)) else None
  }

  // Comparisons with NaN are false.
  predicate Below(v: nat, bound: Option<nat>) { bound.Some? && v < bound.value }

  predicate Above(v: nat, bound: Option<nat>) { bound.Some? && v > bound.value }

  predicate MatchToken(token: string, value: nat, min: nat, max: nat) {
    if token == "" || token == "*" then true
    else
      var pieces := Split(token, '/');
      var base := pieces[0];
      var step := if |pieces| > 1 && pieces[1] != "" then Some(Number(pieces[1])) else None;
      if step.Some? && (step.value.None? || step.value.value == 0) then false
      else if base == "" || base == "*" then InSteps(value, Some(min), Some(max), step)
      else if '-' in base then
        var ends := Split(base, '-');
        InSteps(value, Number(ends[0]), if |ends| > 1 then Number(ends[1]) else None, step)
      else if step.None? then Number(base) == Some(value)
      else InSteps(value, Number(base), Some(max), step)
  }

  predicate InSteps(value: nat, start: Option<nat>, end: Option<nat>, step: Option<Option<nat>>)
    requires step.Some? ==> step.value.Some? && step.value.value > 0
  {
    && !Below(value, start)
    && !Above(value, end)
    && (step.None? || (start.Some? && (value - start.value) % step.value.value == 0))
  }

  predicate MatchField(expression: string, value: nat, min: nat, max: nat) {
    MatchOneOf(Split(expression, ','), value, min, max)
  }

  predicate MatchOneOf(tokens: seq<string>, value: nat, min: nat, max: nat) {
    exists i :: 0 <= i < |tokens| && MatchToken(Trim(tokens[i]), value, min, max)
  }

  // Fewer than five fields never match; more than five are cut off. Unlike the
  // usual crontab, day and weekday must both match.
  predicate MatchesCron(cron: string, p: Parts) { MatchFields(SplitSpace(Trim(cron)), p) }

  predicate MatchFields(fields: seq<string>, p: Parts) {
    && |fields| >= 5
    && fields[4] != ""
    && MatchField(fields[0], p.minute, 0, 59)
    && MatchField(fields[1], p.hour, 0, 23)
    && MatchField(fields[2], p.day, 1, 31)
    && MatchField(fields[3], p.month, 1, 12)
    && MatchField(fields[4], p.weekday, 0, 6)
  }

  // ---- schedules as trees, what they denote and how they are written

  datatype Base = Star | Num(n: nat) | Range(first: nat, last: nat)
  datatype Term = Term(base: Base, step: Option<nat>)
  type Field = ts: seq<Term> | ts != [] witness [Term(Star, None)]
  datatype Schedule = Schedule(minute: Field, hour: Field, day: Field, month: Field, weekday: Field)

  // Where a term starts and ends: a number with a step runs to the field's end.
  function First(t: Term, min: nat): nat {
    match t.base
    case Star => min
    case Num(n) => n
    case Range(a, _) => a
  }

  function LastOf(t: Term, max: nat): nat {
    match t.base
    case Star => max
    case Num(n) => if t.step.Some? then max else n
    case Range(_, b) => b
  }

  ghost predicate Denotes(t: Term, v: nat, min: nat, max: nat) {
    var step := if t.step.Some? then t.step.value else 1;
    step > 0 && v <= LastOf(t, max) && Reaches(First(t, min), step, v)
  }

  ghost predicate Reaches(start: nat, step: nat, v: nat) { exists k: nat :: v == start + k * step }

  ghost predicate FieldDenotes(ts: seq<Term>, v: nat, min: nat, max: nat) {
    exists i :: 0 <= i < |ts| && Denotes(ts[i], v, min, max)
  }

  ghost predicate ScheduleDenotes(s: Schedule, p: Parts) {
    && FieldDenotes(s.minute, p.minute, 0, 59)
    && FieldDenotes(s.hour, p.hour, 0, 23)
    && FieldDenotes(s.day, p.day, 1, 31)
    && FieldDenotes(s.month, p.month, 1, 12)
    && FieldDenotes(s.weekday, p.weekday, 0, 6)
  }

  function PrintBase(b: Base): string {
    match b
    case Star => "*"
    case Num(n) => PrintNat(n)
    case Range(a, z) => PrintNat(a) + "-" + PrintNat(z)
  }

  function PrintTerm(t: Term): string {
    PrintBase(t.base) + if t.step.Some? then "/" + PrintNat(t.step.value) else ""
  }

  function PrintField(ts: Field): string
    decreases |ts|
  {
    if |ts| == 1 then PrintTerm(ts[0]) else PrintTerm(ts[0]) + "," + PrintField(ts[1..])
  }

  function Print(s: Schedule): string {
    PrintField(s.minute) + " " + (PrintField(s.hour) + " " + (
      PrintField(s.day) + " " + (PrintField(s.month) + " " + PrintField(s.weekday))))
  }

  // ---- printed text has no stray separators

  predicate Plain(c: char) { Digit(c) || c == '*' || c == '-' }

  predicate Written(s: string) { s != "" && forall i | 0 <= i < |s| :: Plain(s[i]) || s[i] == '/' }

  lemma BaseIsPlain(b: Base)
    ensures PrintBase(b) != "" && forall i | 0 <= i < |PrintBase(b)| :: Plain(PrintBase(b)[i])
  {
  }

  lemma TermIsWritten(t: Term)
    ensures Written(PrintTerm(t))
  {
    BaseIsPlain(t.base);
  }

  predicate WrittenField(s: string) { s != "" && forall i | 0 <= i < |s| :: Plain(s[i]) || s[i] == '/' || s[i] == ',' }

  lemma {:induction false} FieldIsWritten(ts: Field)
    ensures WrittenField(PrintField(ts))
    decreases |ts|
  {
    TermIsWritten(ts[0]);
    if |ts| > 1 { FieldIsWritten(ts[1..]); }
  }

  lemma WrittenIsSpaceless(s: string)
    requires WrittenField(s)
    ensures Spaceless(s)
  {
  }

  // ---- one term

  lemma StepsAreMultiples(v: nat, start: nat, step: nat)
    requires step > 0
    ensures v >= start && (v - start) % step == 0 <==> Reaches(start, step, v)
  {
    if v >= start && (v - start) % step == 0 {
      var k: nat := (v - start) / step;
      assert v == start + k * step;
    }
    if k: nat :| v == start + k * step {
      MultipleLeavesNothing(k, step);
    }
  }

  lemma MultipleLeavesNothing(k: nat, step: nat)
    requires step > 0
    ensures k * step >= 0 && (k * step) % step == 0
  {
    var m := k * step;
    var q, r := m / step, m % step;
    assert m == q * step + r;
    assert r == (k - q) * step;
    assert k - q >= 1 ==> (k - q - 1) * step >= 0;
    assert k - q <= -1 ==> (q - k - 1) * step >= 0;
  }

  lemma NumeralIsRead(n: nat)
    ensures Number(PrintNat(n)) == Some(n)
    ensures Free(PrintNat(n), '/') && Free(PrintNat(n), '-') && PrintNat(n) != "*"
  {
    ParseUndoesPrint(n);
  }

  // The pieces the matcher cuts a printed term into.
  lemma TermSplits(t: Term)
    ensures Split(PrintTerm(t), '/') == [PrintBase(t.base)] + if t.step.Some? then [PrintNat(t.step.value)] else []
  {
    BaseIsPlain(t.base);
    if t.step.Some? {
      NumeralIsRead(t.step.value);
      SplitFirst(PrintBase(t.base), '/', PrintNat(t.step.value));
      SplitFree(PrintNat(t.step.value), '/');
      assert PrintTerm(t) == PrintBase(t.base) + ['/'] + PrintNat(t.step.value);
    } else {
      SplitFree(PrintBase(t.base), '/');
      assert PrintTerm(t) == PrintBase(t.base);
    }
  }

  lemma RangeSplits(a: nat, z: nat)
    ensures var s := PrintBase(Range(a, z));
      s != "*" && '-' in s && Split(s, '-') == [PrintNat(a), PrintNat(z)]
  {
    NumeralIsRead(a);
    NumeralIsRead(z);
    SplitFirst(PrintNat(a), '-', PrintNat(z));
    SplitFree(PrintNat(z), '-');
    assert PrintBase(Range(a, z)) == PrintNat(a) + ['-'] + PrintNat(z);
    assert PrintBase(Range(a, z))[|PrintNat(a)|] == '-';
  }

  // With a step the text has a slash in it, without one it is the base's text.
  lemma TermText(t: Term)
    ensures PrintTerm(t) != ""
    ensures t.step.None? ==> PrintTerm(t) == PrintBase(t.base)
    ensures t.step.Some? ==> PrintTerm(t) != "*"
  {
    BaseIsPlain(t.base);
    if t.step.Some? { assert PrintTerm(t)[|PrintBase(t.base)|] == '/'; }
  }

  // The matcher's three cases, once the text is cut.
  lemma TermMatches(t: Term, v: nat, min: nat, max: nat)
    requires min <= v <= max
    ensures MatchToken(PrintTerm(t), v, min, max) <==>
      (&& t.step != Some(0)
       && First(t, min) <= v <= LastOf(t, max)
       && (t.step.None? || (v - First(t, min)) % t.step.value == 0))
  {
    TermSplits(t);
    TermText(t);
    if t.step.Some? { NumeralIsRead(t.step.value); }
    BaseIsRead(t.base);
  }

  // How the matcher tells the bases apart.
  lemma BaseIsRead(b: Base)
    ensures PrintBase(b) != ""
    ensures PrintBase(b) == "*" <==> b.Star?
    ensures '-' in PrintBase(b) <==> b.Range?
    ensures b.Num? ==> Number(PrintBase(b)) == Some(b.n)
    ensures b.Range? ==> var ends := Split(PrintBase(b), '-');
      |ends| == 2 && Number(ends[0]) == Some(b.first) && Number(ends[1]) == Some(b.last)
  {
    BaseIsPlain(b);
    match b {
      case Star =>
      case Num(n) => NumeralIsRead(n);
      case Range(a, z) => NumeralIsRead(a); NumeralIsRead(z); RangeSplits(a, z);
    }
  }

  lemma TermMatchesItsMeaning(t: Term, v: nat, min: nat, max: nat)
    requires min <= v <= max
    ensures MatchToken(PrintTerm(t), v, min, max) <==> Denotes(t, v, min, max)
  {
    TermMatches(t, v, min, max);
    if t.step.None? {
      StepsAreMultiples(v, First(t, min), 1);
    } else if t.step.value > 0 {
      StepsAreMultiples(v, First(t, min), t.step.value);
    }
  }

  lemma UnreadableStep(a: string, b: string, v: nat, min: nat, max: nat)
    requires Free(a, '/') && Free(b, '/') && b != "" && (!Digits(b) || ParseNat(b) == 0)
    ensures !MatchToken(a + "/" + b, v, min, max)
  {
    SplitFirst(a, '/', b);
    SplitFree(b, '/');
    assert a + "/" + b == a + ['/'] + b && (a + "/" + b)[|a|] == '/';
  }

  lemma UnreadableNumber(a: string, v: nat, min: nat, max: nat)
    requires a != "" && a != "*" && Free(a, '/') && Free(a, '-') && !Digits(a)
    ensures !MatchToken(a, v, min, max)
  {
    SplitFree(a, '/');
  }

  lemma RangeEnds(a: string, b: string)
    requires Free(a, '/') && Free(b, '/') && Free(a, '-') && Free(b, '-')
    ensures var range := a + "-" + b;
      range != "" && range != "*" && '-' in range && Split(range, '/') == [range] && Split(range, '-') == [a, b]
  {
    var range := a + "-" + b;
    assert range == a + ['-'] + b && range[|a|] == '-';
    SplitFree(range, '/');
    SplitFirst(a, '-', b);
    SplitFree(b, '-');
  }

  lemma UnreadableBound(a: string, b: string, v: nat, min: nat, max: nat)
    requires Free(a, '/') && Free(b, '/') && Free(a, '-') && Free(b, '-')
    ensures MatchToken(a + "-" + b, v, min, max) <==>
      (Digits(a) ==> ParseNat(a) <= v) && (Digits(b) ==> v <= ParseNat(b))
  {
    RangeEnds(a, b);
  }

  // Texts that are not numbers: as a step they rule the term out, as a number
  // they match nothing, and as an end of a range they are no bound.
  lemma TextsThatAreNotNumbers(a: string, b: string, v: nat, min: nat, max: nat)
    requires Free(a, '/') && Free(b, '/')
    ensures b != "" && (!Digits(b) || ParseNat(b) == 0) ==> !MatchToken(a + "/" + b, v, min, max)
    ensures a != "" && a != "*" && Free(a, '-') && !Digits(a) ==> !MatchToken(a, v, min, max)
    ensures Free(a, '-') && Free(b, '-') ==>
      (MatchToken(a + "-" + b, v, min, max) <==>
        (Digits(a) ==> ParseNat(a) <= v) && (Digits(b) ==> v <= ParseNat(b)))
  {
    if b != "" && (!Digits(b) || ParseNat(b) == 0) { UnreadableStep(a, b, v, min, max); }
    if a != "" && a != "*" && Free(a, '-') && !Digits(a) { UnreadableNumber(a, v, min, max); }
    if Free(a, '-') && Free(b, '-') { UnreadableBound(a, b, v, min, max); }
  }

  // ---- one field

  function PrintTerms(ts: seq<Term>): (r: seq<string>)
    ensures |r| == |ts| && forall i | 0 <= i < |ts| :: r[i] == PrintTerm(ts[i])
  {
    if ts == [] then [] else [PrintTerm(ts[0])] + PrintTerms(ts[1..])
  }

  lemma {:induction false} FieldSplits(ts: Field)
    ensures Split(PrintField(ts), ',') == PrintTerms(ts)
    decreases |ts|
  {
    TermIsWritten(ts[0]);
    if |ts| == 1 {
      SplitFree(PrintTerm(ts[0]), ',');
    } else {
      FieldSplits(ts[1..]);
      SplitFirst(PrintTerm(ts[0]), ',', PrintField(ts[1..]));
      assert PrintField(ts) == PrintTerm(ts[0]) + [','] + PrintField(ts[1..]);
    }
  }

  lemma PrintedTokenMatches(t: Term, v: nat, min: nat, max: nat)
    requires min <= v <= max
    ensures MatchToken(Trim(PrintTerm(t)), v, min, max) <==> Denotes(t, v, min, max)
  {
    TermIsWritten(t);
    assert Trim(PrintTerm(t)) == PrintTerm(t);
    TermMatchesItsMeaning(t, v, min, max);
  }

  lemma FieldMatchesItsMeaning(ts: Field, v: nat, min: nat, max: nat)
    requires min <= v <= max
    ensures MatchField(PrintField(ts), v, min, max) <==> FieldDenotes(ts, v, min, max)
  {
    FieldSplits(ts);
    TokensMatch(PrintTerms(ts), ts, v, min, max);
  }

  lemma TokensMatch(tokens: seq<string>, ts: seq<Term>, v: nat, min: nat, max: nat)
    requires min <= v <= max && |tokens| == |ts|
    requires forall i | 0 <= i < |ts| :: tokens[i] == PrintTerm(ts[i])
    ensures MatchOneOf(tokens, v, min, max) <==> FieldDenotes(ts, v, min, max)
  {
    forall i | 0 <= i < |ts|
      ensures MatchToken(Trim(tokens[i]), v, min, max) <==> Denotes(ts[i], v, min, max)
    {
      PrintedTokenMatches(ts[i], v, min, max);
    }
  }

  // ---- the whole text

  lemma JoinedWord(s: string, rest: string)
    requires s != "" && Spaceless(s) && rest != "" && Trimmed(rest)
    ensures Trimmed(s + " " + rest)
    ensures SplitSpace(s + " " + rest) == [s] + SplitSpace(rest)
  {
    SplitFirstWord(s, rest);
  }

  lemma PrintedHasFiveFields(s: Schedule)
    ensures Trim(Print(s)) == Print(s)
    ensures SplitSpace(Print(s)) ==
      [PrintField(s.minute), PrintField(s.hour), PrintField(s.day), PrintField(s.month), PrintField(s.weekday)]
  {
    WordOf(s.minute);
    WordOf(s.hour);
    WordOf(s.day);
    WordOf(s.month);
    WordOf(s.weekday);
    FiveWords(PrintField(s.minute), PrintField(s.hour), PrintField(s.day), PrintField(s.month), PrintField(s.weekday));
  }

  predicate Word(s: string) { s != "" && Spaceless(s) && Trimmed(s) }

  lemma FiveWords(a: string, b: string, c: string, d: string, e: string)
    requires Word(a) && Word(b) && Word(c) && Word(d) && Word(e)
    ensures var all := a + " " + (b + " " + (c + " " + (d + " " + e)));
      Trim(all) == all && SplitSpace(all) == [a, b, c, d, e]
  {
    SplitSpaceless(e);
    JoinedWord(d, e);
    JoinedWord(c, d + " " + e);
    JoinedWord(b, c + " " + (d + " " + e));
    JoinedWord(a, b + " " + (c + " " + (d + " " + e)));
  }

  lemma WordOf(ts: Field)
    ensures Word(PrintField(ts))
  {
    FieldIsWritten(ts);
    WrittenIsSpaceless(PrintField(ts));
  }

  // For every schedule, matching its text is membership in what it denotes.
  lemma MatchingIsMembership(s: Schedule, p: Parts)
    requires InRange(p)
    ensures MatchesCron(Print(s), p) <==> ScheduleDenotes(s, p)
  {
    PrintedHasFiveFields(s);
    WordOf(s.weekday);
    FieldsMatchTheirMeaning(s, SplitSpace(Print(s)), p);
  }

  ghost predicate Reads(field: string, ts: Field) { field == PrintField(ts) }

  lemma FieldReads(field: string, ts: Field, v: nat, min: nat, max: nat)
    requires Reads(field, ts) && min <= v <= max
    ensures MatchField(field, v, min, max) == FieldDenotes(ts, v, min, max)
  {
    FieldMatchesItsMeaning(ts, v, min, max);
  }

  lemma FieldsMatchTheirMeaning(s: Schedule, fields: seq<string>, p: Parts)
    requires InRange(p)
    requires |fields| == 5 && fields[4] != ""
    requires Reads(fields[0], s.minute) && Reads(fields[1], s.hour) && Reads(fields[2], s.day)
    requires Reads(fields[3], s.month) && Reads(fields[4], s.weekday)
    ensures MatchFields(fields, p) == ScheduleDenotes(s, p)
  {
    FieldReads(fields[0], s.minute, p.minute, 0, 59);
    FieldReads(fields[1], s.hour, p.hour, 0, 23);
    FieldReads(fields[2], s.day, p.day, 1, 31);
    FieldReads(fields[3], s.month, p.month, 1, 12);
    FieldReads(fields[4], s.weekday, p.weekday, 0, 6);
  }

  // ---- the schedules used when none is configured

  function One(b: Base): Field { [Term(b, None)] }

  lemma OneDenotes(b: Base, v: nat, min: nat, max: nat)
    requires min <= v <= max
    ensures FieldDenotes(One(b), v, min, max) <==> First(Term(b, None), min) <= v <= LastOf(Term(b, None), max)
  {
    var t := Term(b, None);
    StepsAreMultiples(v, First(t, min), 1);
    assert One(b)[0] == t;
  }

  lemma OneSchedule(m: Base, h: Base, wd: Base, p: Parts)
    requires InRange(p)
    ensures ScheduleDenotes(Schedule(One(m), One(h), One(Star), One(Star), One(wd)), p) <==>
      (&& First(Term(m, None), 0) <= p.minute <= LastOf(Term(m, None), 59)
       && First(Term(h, None), 0) <= p.hour <= LastOf(Term(h, None), 23)
       && First(Term(wd, None), 0) <= p.weekday <= LastOf(Term(wd, None), 6))
  {
    OneDenotes(m, p.minute, 0, 59);
    OneDenotes(h, p.hour, 0, 23);
    OneDenotes(Star, p.day, 1, 31);
    OneDenotes(Star, p.month, 1, 12);
    OneDenotes(wd, p.weekday, 0, 6);
  }

  const DefaultDaily := "0 10 * * 1-5"
  const DefaultWeekly := "0 17 * * 5"

  lemma OneOfEach(m: Base, h: Base, wd: Base)
    ensures Print(Schedule(One(m), One(h), One(Star), One(Star), One(wd)))
         == PrintBase(m) + " " + (PrintBase(h) + " " + ("*" + " " + ("*" + " " + PrintBase(wd))))
  {
    OnePrints(m);
    OnePrints(h);
    OnePrints(Star);
    OnePrints(wd);
  }

  lemma DailyText()
    ensures "0" + " " + ("10" + " " + ("*" + " " + ("*" + " " + "1-5"))) == DefaultDaily
  {
    assert "*" + " " + "1-5" == "* 1-5";
    assert "*" + " " + "* 1-5" == "* * 1-5";
    assert "10" + " " + "* * 1-5" == "10 * * 1-5";
  }

  lemma WeeklyText()
    ensures "0" + " " + ("17" + " " + ("*" + " " + ("*" + " " + "5"))) == DefaultWeekly
  {
    assert "*" + " " + "5" == "* 5";
    assert "*" + " " + "* 5" == "* * 5";
    assert "17" + " " + "* * 5" == "17 * * 5";
  }

  lemma DefaultTexts()
    ensures Print(Schedule(One(Num(0)), One(Num(10)), One(Star), One(Star), One(Range(1, 5)))) == DefaultDaily
    ensures Print(Schedule(One(Num(0)), One(Num(17)), One(Star), One(Star), One(Num(5)))) == DefaultWeekly
  {
    Numerals();
    assert PrintBase(Range(1, 5)) == "1-5";
    OneOfEach(Num(0), Num(10), Range(1, 5));
    OneOfEach(Num(0), Num(17), Num(5));
    DailyText();
    WeeklyText();
  }

  lemma Numerals()
    ensures PrintNat(0) == "0" && PrintNat(1) == "1" && PrintNat(5) == "5" && PrintNat(10) == "10"
    ensures PrintNat(17) == "17"
  {
    assert PrintNat(7) == "7";
  }

  lemma OnePrints(b: Base)
    ensures PrintField(One(b)) == PrintBase(b)
  {
    assert PrintBase(b) + "" == PrintBase(b);
  }

  // Weekdays at ten, and Fridays at five in the afternoon.
  lemma DefaultSchedules(p: Parts)
    requires InRange(p)
    ensures MatchesCron(DefaultDaily, p) <==> p.minute == 0 && p.hour == 10 && 1 <= p.weekday <= 5
    ensures MatchesCron(DefaultWeekly, p) <==> p.minute == 0 && p.hour == 17 && p.weekday == 5
  {
    DefaultTexts();
    MatchingIsMembership(Schedule(One(Num(0)), One(Num(10)), One(Star), One(Star), One(Range(1, 5))), p);
    MatchingIsMembership(Schedule(One(Num(0)), One(Num(17)), One(Star), One(Star), One(Num(5))), p);
    OneSchedule(Num(0), Num(10), Range(1, 5), p);
    OneSchedule(Num(0), Num(17), Num(5), p);
  }
}
