// The project configuration text: the form's printer and the markdown parser.
module ProjectConfigs {
  import opened Prelude
  import opened Text

  // ---- the section expression, piece by piece

  // What ends a line for ^, $ and the dot.
  predicate Terminator(c: char) { c == '\n' || c == '\r' || c == '\U{2028}' || c == '\U{2029}' }

  predicate OneLine(s: string) { forall i | 0 <= i < |s| :: !Terminator(s[i]) }

  predicate WordChar(c: char) { 'a' <= c <= 'z' || 'A' <= c <= 'Z' || '0' <= c <= '9' || c == '_' }

  function WordRun(t: string): (w: string)
    ensures w <= t && forall i | 0 <= i < |w| :: WordChar(w[i])
    ensures |w| < |t| ==> !WordChar(t[|w|])
  {
    if t == "" || !WordChar(t[0]) then "" else [t[0]] + WordRun(t[1..])
  }

  function FirstLine(t: string): (line: string)
    ensures line <= t && OneLine(line)
    ensures |line| < |t| ==> Terminator(t[|line|])
  {
    if t == "" || Terminator(t[0]) then "" else [t[0]] + FirstLine(t[1..])
  }

  // ## at the start of t, white space, a word.
  function HeaderWord(t: string): (r: Option<(string, string)>)
    ensures r.Some? ==> r.value.0 != "" && |r.value.0| + |r.value.1| + 3 <= |t|
  {
    if !("##" <= t) then None
    else
      var rest := TrimStart(t[2..]);
      var w := WordRun(rest);
      if |rest| == |t| - 2 || w == "" then None else Some((w, rest[|w|..]))
  }

  // The same with the line feed behind it: the name and what follows.
  function Header(t: string): (r: Option<(string, string)>)
    ensures r.Some? ==> |r.value.1| < |t|
  {
    var h := HeaderWord(t);
    if h.Some? && h.value.1 != "" && h.value.1[0] == '\n' then Some((h.value.0, h.value.1[1..])) else None
  }

  // The look-ahead that ends a section's text: a line feed and a header word, or
  // any number of line feeds and then an end of line.
  ghost predicate Ahead(t: string) {
    || (t != "" && t[0] == '\n' && HeaderWord(t[1..]).Some?)
    || exists m :: LineFeedsThenEnd(t, m)
  }

  ghost predicate LineFeedsThenEnd(t: string, m: nat) {
    m <= |t| && (forall i | 0 <= i < m :: t[i] == '\n') && (m == |t| || Terminator(t[m]))
  }

  // The section text is matched lazily, so it ends at the first place the
  // look-ahead holds; and that is the end of its first line, whatever follows.
  lemma SectionEndsWithItsFirstLine(t: string)
    ensures Ahead(t[|FirstLine(t)|..])
    ensures forall k | 0 <= k < |FirstLine(t)| :: !Ahead(t[k..])
  {
    var line := FirstLine(t);
    assert LineFeedsThenEnd(t[|line|..], 0);
    forall k | 0 <= k < |line| ensures !Ahead(t[k..]) {
      assert t[k..][0] == line[k] && !Terminator(line[k]);
    }
  }

  // All matches in order, from a place that is or is not the start of a line.
  function Scan(t: string, lineStart: bool): seq<(string, string)>
    decreases |t|
  {
    if t == "" then []
    else
      var h := Header(t);
      if lineStart && h.Some? then
        var body := FirstLine(h.value.1);
        [(h.value.0, Trim(body))] + Scan(h.value.1[|body|..], body == "")
      else Scan(t[1..], Terminator(t[0]))
  }

  // A later section of the same name replaces an earlier one.
  function ToMap(found: seq<(string, string)>): map<string, string> {
    if found == [] then map[] else ToMap(found[..|found| - 1])[found[|found| - 1].0 := found[|found| - 1].1]
  }

  lemma OneMoreSection(found: seq<(string, string)>, s: (string, string), rest: seq<(string, string)>)
    ensures found + [s] + rest == found + ([s] + rest)
    ensures ToMap(found + [s]) == ToMap(found)[s.0 := s.1]
  {
    assert (found + [s])[..|found|] == found;
  }

  method ExtractSections(markdown: string) returns (sections: map<string, string>)
    ensures sections == ToMap(Scan(markdown, true))
  {
    sections := map[];
    var rest, lineStart := markdown, true;
    ghost var found: seq<(string, string)> := [];
    while rest != ""
      invariant found + Scan(rest, lineStart) == Scan(markdown, true)
      invariant sections == ToMap(found)
      decreases |rest|
    {
      var h := Header(rest);
      if lineStart && h.Some? {
        var body := FirstLine(h.value.1);
        sections := sections[h.value.0 := Trim(body)];
        OneMoreSection(found, (h.value.0, Trim(body)), Scan(h.value.1[|body|..], body == ""));
        found := found + [(h.value.0, Trim(body))];
        rest, lineStart := h.value.1[|body|..], body == "";
      } else {
        rest, lineStart := rest[1..], Terminator(rest[0]);
      }
    }
    assert found + [] == found;
  }

  // ---- the parsed configuration

  datatype Project = Project(name: string, description: Option<string>, status: string)
  datatype Environment = Environment(name: string, repoUrl: Option<string>, repoBranch: Option<string>,
      modelName: Option<string>)
  datatype Policy = Policy(enabled: bool, mentionOnly: bool, defaultEnvironmentId: Option<string>)

  datatype Member = Member(name: string, openId: string, role: string, responsibilities: string)

  datatype Config = Config(
    project: Project, environment: Environment, members: seq<Member>, policy: Policy, skills: seq<string>,
    memory: string)

  datatype Parsed = Parsed(config: Config, rawSections: map<string, string>, parseErrors: seq<string>)

  // "- key:" at the start of the text, and what stands behind it. A section's
  // text is one line, so its start is the only start of a line in it.
  function Behind(content: string, key: string): Option<string> {
    if content == "" || content[0] != '-' then None
    else
      var rest := TrimStart(content[1..]);
      if |rest| == |content| - 1 || !(key + ":" <= rest) then None else Some(rest[|key| + 1..])
  }

  function Field(content: string, key: string): Option<string> {
    var rest := Behind(content, key);
    if rest.Some? && rest.value != "" then Some(Trim(rest.value)) else None
  }

  predicate Flag(content: string, key: string) {
    var rest := Behind(content, key);
    rest.Some? && TrimStart(rest.value) == "true"
  }

  function Or<T>(o: Option<T>, otherwise: T): T { if o.Some? then o.value else otherwise }

  function Section(sections: map<string, string>, name: string): string {
    if name in sections then sections[name] else ""
  }

  const DefaultEnvironment := "默认主环境"

  function ParseProject(c: string): Project {
    Project(Or(Field(c, "Name"), ""), Field(c, "Description"), Or(Field(c, "Status"), "pending"))
  }

  function ParseEnvironment(c: string): Environment {
    Environment(Or(Field(c, "Name"), DefaultEnvironment), Field(c, "Repo URL"), Field(c, "Branch"), Field(c, "Model"))
  }

  function ParsePolicy(c: string): Policy {
    Policy(Flag(c, "Enabled"), Flag(c, "Mention Only"), Field(c, "Default Environment"))
  }

  // A table row at the start of the text, unless it is the table's head. One
  // line holds one row at most.
  function ParseMembers(c: string): (ms: seq<Member>)
    ensures |ms| <= 1
  {
    var cells := Split(c, '|');
    if |cells| < 6 || cells[0] != "" || cells[1] == "" || cells[2] == "" || cells[3] == "" || cells[4] == "" then []
    else if Contains(Lower(Trim(cells[1])), "name") && Contains(Lower(Trim(cells[2])), "open") then []
    else [Member(Trim(cells[1]), Trim(cells[2]), Trim(cells[3]), Trim(cells[4]))]
  }

  // A list item at the start of the text; of blanks alone the last is the item.
  function ParseSkills(c: string): (skills: seq<string>)
    ensures |skills| <= 1
  {
    if c == "" || c[0] != '-' then []
    else
      var rest := TrimStart(c[1..]);
      if |rest| == |c| - 1 || (rest == "" && |c| < 3) then [] else [Trim(rest)]
  }

  function ParseWithErrors(markdown: string): Parsed {
    var sections := ToMap(Scan(markdown, true));
    Parsed(
      Config(ParseProject(Section(sections, "Project")),
             ParseEnvironment(Section(sections, "Environment")),
             ParseMembers(Section(sections, "Members")),
             ParsePolicy(Section(sections, "Policy")),
             ParseSkills(Section(sections, "Skills")),
             Section(sections, "Memory")),
      sections,
      (if Section(sections, "Project") == "" then ["Missing Project section"] else [])
      + (if Section(sections, "Environment") == "" then ["Missing Environment section"] else []))
  }

  // ---- the form and its printer

  datatype Form = Form(
    projectName: string, description: string, repoUrl: string, repoBranch: string, modelName: string,
    enabled: bool, mentionOnly: bool)

  function OrElse(s: string, otherwise: string): string { if s == "" then otherwise else s }

  function Bool(b: bool): string { if b then "true" else "false" }

  function Lines(f: Form): seq<string> {
    ["# PROJECT-CONFIG",
     "",
     "## Project",
     "- Name: " + f.projectName,
     "- Description: " + OrElse(f.description, "N/A"),
     "",
     "## Environment",
     "- Name: " + DefaultEnvironment,
     "- Repo URL: " + OrElse(f.repoUrl, "N/A"),
     "- Branch: " + OrElse(f.repoBranch, "main"),
     "- Model: " + OrElse(f.modelName, "default"),
     "",
     "## Policy",
     "- Enabled: " + Bool(f.enabled),
     "- Mention Only: " + Bool(f.mentionOnly)]
  }

  function JoinLines(ls: seq<string>): string
    requires ls != []
  {
    if |ls| == 1 then ls[0] else ls[0] + "\n" + JoinLines(ls[1..])
  }

  function GenerateConfigMarkdown(f: Form): string { JoinLines(Lines(f)) }

  // No field of the form holds a line terminator.
  predicate FlatForm(f: Form) {
    OneLine(f.projectName) && OneLine(f.description) && OneLine(f.repoUrl) && OneLine(f.repoBranch)
      && OneLine(f.modelName)
  }

  predicate FreeLines(ls: seq<string>) { forall line | line in ls :: Free(line, '\n') }

  // The text split at its line feeds gives the lines back,
  lemma {:induction false} LinesSplitBack(ls: seq<string>)
    requires ls != [] && FreeLines(ls)
    ensures Split(JoinLines(ls), '\n') == ls
    decreases |ls|
  {
    if |ls| == 1 {
      SplitFree(ls[0], '\n');
    } else {
      LinesSplitBack(ls[1..]);
      SplitFirst(ls[0], '\n', JoinLines(ls[1..]));
      assert JoinLines(ls) == ls[0] + ['\n'] + JoinLines(ls[1..]);
    }
  }

  lemma FlatItem(prefix: string, value: string)
    requires OneLine(prefix) && OneLine(value)
    ensures Free(prefix + value, '\n')
  {
  }

  lemma FirstLinesAreLines(f: Form)
    requires FlatForm(f)
    ensures FreeLines(Lines(f)[..7])
  {
    FlatItem("- Name: ", f.projectName);
    FlatItem("- Description: ", OrElse(f.description, "N/A"));
    var ls := ["# PROJECT-CONFIG", "", "## Project", "- Name: " + f.projectName,
               "- Description: " + OrElse(f.description, "N/A"), "", "## Environment"];
    assert Lines(f)[..7] == ls;
  }

  lemma MiddleLinesAreLines(f: Form)
    requires FlatForm(f)
    ensures FreeLines(Lines(f)[7..12])
  {
    FlatItem("- Name: ", DefaultEnvironment);
    FlatItem("- Repo URL: ", OrElse(f.repoUrl, "N/A"));
    FlatItem("- Branch: ", OrElse(f.repoBranch, "main"));
    FlatItem("- Model: ", OrElse(f.modelName, "default"));
    var ls := ["- Name: " + DefaultEnvironment, "- Repo URL: " + OrElse(f.repoUrl, "N/A"),
               "- Branch: " + OrElse(f.repoBranch, "main"), "- Model: " + OrElse(f.modelName, "default"), ""];
    assert Lines(f)[7..12] == ls;
  }

  lemma LastLinesAreLines(f: Form)
    ensures FreeLines(Lines(f)[12..])
  {
    FlatItem("- Enabled: ", Bool(f.enabled));
    FlatItem("- Mention Only: ", Bool(f.mentionOnly));
    var ls := ["## Policy", "- Enabled: " + Bool(f.enabled), "- Mention Only: " + Bool(f.mentionOnly)];
    assert Lines(f)[12..] == ls;
  }

  lemma FormLinesAreLines(f: Form)
    requires FlatForm(f)
    ensures FreeLines(Lines(f))
  {
    FirstLinesAreLines(f);
    MiddleLinesAreLines(f);
    LastLinesAreLines(f);
    JoinedThirds(Lines(f));
  }

  lemma JoinedThirds(ls: seq<string>)
    requires |ls| >= 12 && FreeLines(ls[..7]) && FreeLines(ls[7..12]) && FreeLines(ls[12..])
    ensures FreeLines(ls)
  {
    assert ls == ls[..7] + ls[7..12] + ls[12..];
  }

  // and each field of the form stands on one of them, behind its label.
  lemma EveryFieldIsPrinted(f: Form)
    requires FlatForm(f)
    ensures var ls := Split(GenerateConfigMarkdown(f), '\n');
      && |ls| == 15
      && ls[3] == "- Name: " + f.projectName
      && ls[4] == "- Description: " + (if f.description == "" then "N/A" else f.description)
      && ls[8] == "- Repo URL: " + (if f.repoUrl == "" then "N/A" else f.repoUrl)
      && ls[9] == "- Branch: " + (if f.repoBranch == "" then "main" else f.repoBranch)
      && ls[10] == "- Model: " + (if f.modelName == "" then "default" else f.modelName)
      && ls[13] == "- Enabled: " + (if f.enabled then "true" else "false")
      && ls[14] == "- Mention Only: " + (if f.mentionOnly then "true" else "false")
  {
    FormLinesAreLines(f);
    LinesSplitBack(Lines(f));
  }

  // ---- sections of a text given by its lines

  predicate Word(w: string) { w != "" && forall i | 0 <= i < |w| :: WordChar(w[i]) }

  predicate HeaderLine(line: string) { "## " <= line && Word(line[3..]) }

  predicate Tame(line: string) { OneLine(line) && (HeaderLine(line) || !("##" <= line)) }

  // Each header takes the line below it, if there is one, and nothing else.
  function LineSections(ls: seq<string>): seq<(string, string)>
    decreases |ls|
  {
    if ls == [] then []
    else if HeaderLine(ls[0]) && |ls| > 1 then [(ls[0][3..], Trim(ls[1]))] + LineSections(ls[2..])
    else LineSections(ls[1..])
  }

  lemma {:induction false} WordRunStops(w: string, t: string)
    requires forall i | 0 <= i < |w| :: WordChar(w[i])
    requires t == "" || !WordChar(t[0])
    ensures WordRun(w + t) == w
  {
    if w == "" {
      assert w + t == t;
    } else {
      assert (w + t)[0] == w[0] && (w + t)[1..] == w[1..] + t;
      WordRunStops(w[1..], t);
    }
  }

  lemma {:induction false} FirstLineStops(line: string, t: string)
    requires OneLine(line) && (t == "" || Terminator(t[0]))
    ensures FirstLine(line + t) == line
  {
    if line == "" {
      assert line + t == t;
    } else {
      assert (line + t)[0] == line[0] && (line + t)[1..] == line[1..] + t;
      FirstLineStops(line[1..], t);
    }
  }

  lemma HeaderLineIsAHeader(line: string, t: string)
    requires HeaderLine(line) && (t == "" || t[0] == '\n')
    ensures HeaderWord(line + t) == Some((line[3..], t))
    ensures Header(line + t) == if t == "" then None else Some((line[3..], t[1..]))
  {
    var w := line[3..];
    var all := line + t;
    assert all[2..] == " " + (w + t) && all[2..][1..] == w + t;
    assert WordChar(w[0]) && !Space(w[0]);
    assert TrimStart(all[2..]) == w + t;
    WordRunStops(w, t);
  }

  // Inside a line nothing matches.
  lemma {:induction false} RestOfLine(line: string, t: string)
    requires OneLine(line) && (t == "" || t[0] == '\n')
    ensures Scan(line + t, false) == if t == "" then [] else Scan(t[1..], true)
  {
    if line == "" {
      assert line + t == t;
    } else {
      assert (line + t)[0] == line[0] && (line + t)[1..] == line[1..] + t;
      RestOfLine(line[1..], t);
    }
  }

  lemma PlainLineIsSkipped(line: string, t: string)
    requires OneLine(line) && !("##" <= line) && (t == "" || t[0] == '\n')
    ensures Scan(line + t, true) == if t == "" then [] else Scan(t[1..], true)
  {
    var all := line + t;
    assert forall i | 0 <= i < |line| :: all[i] == line[i];
    assert |line| < |all| ==> all[|line|] == '\n';
    if line == "" {
      assert all == t;
    } else {
      assert Header(all).None?;
      assert all[1..] == line[1..] + t;
      RestOfLine(line[1..], t);
    }
  }

  lemma HeaderTakesTheNextLine(line: string, body: string, u: string)
    requires HeaderLine(line) && OneLine(body) && (u == "" || u[0] == '\n')
    ensures Scan(line + ("\n" + (body + u)), true)
         == [(line[3..], Trim(body))] + if u == "" then [] else Scan(u[1..], true)
  {
    var t := "\n" + (body + u);
    HeaderLineIsAHeader(line, t);
    assert t[1..] == body + u;
    FirstLineStops(body, u);
    assert (body + u)[|body|..] == u;
    PlainLineIsSkipped("", u);
    RestOfLine("", u);
    assert "" + u == u;
  }

  // What follows the first line.
  function Tail(ls: seq<string>): string
    requires ls != []
  {
    if |ls| == 1 then "" else "\n" + JoinLines(ls[1..])
  }

  lemma {:induction false} ScanIsByLines(ls: seq<string>)
    requires ls != [] && forall i | 0 <= i < |ls| :: Tame(ls[i])
    ensures Scan(JoinLines(ls), true) == LineSections(ls)
    decreases |ls|
  {
    var line, t := ls[0], Tail(ls);
    assert JoinLines(ls) == line + t;
    if |ls| > 1 { assert t[1..] == JoinLines(ls[1..]); }
    if !HeaderLine(line) {
      PlainLineIsSkipped(line, t);
      if |ls| > 1 { ScanIsByLines(ls[1..]); }
    } else if |ls| == 1 {
      HeaderLineIsAHeader(line, t);
      assert line + t == line;
      RestOfLine(line[1..], "");
      assert line[1..] + "" == line[1..];
    } else {
      var body, u := ls[1], Tail(ls[1..]);
      assert JoinLines(ls[1..]) == body + u;
      HeaderTakesTheNextLine(line, body, u);
      if |ls| > 2 {
        assert ls[1..][1..] == ls[2..];
        assert u[1..] == JoinLines(ls[2..]);
        ScanIsByLines(ls[2..]);
      }
    }
  }

  // ---- what a printed form parses to

  lemma {:induction false} PlainLinesHoldNothing(plain: seq<string>, rest: seq<string>)
    requires forall i | 0 <= i < |plain| :: !HeaderLine(plain[i])
    ensures LineSections(plain + rest) == LineSections(rest)
  {
    if plain == [] {
      assert plain + rest == rest;
    } else {
      assert (plain + rest)[0] == plain[0] && (plain + rest)[1..] == plain[1..] + rest;
      PlainLinesHoldNothing(plain[1..], rest);
    }
  }

  lemma HeaderAndBody(name: string, body: string, rest: seq<string>)
    requires Word(name)
    ensures LineSections(["## " + name, body] + rest) == [(name, Trim(body))] + LineSections(rest)
  {
    var ls := ["## " + name, body] + rest;
    assert ("## " + name)[3..] == name;
    assert ls[2..] == rest;
  }

  predicate PlainLine(s: string) { OneLine(s) && !("##" <= s) }

  ghost predicate Plain(ls: seq<string>) { forall i | 0 <= i < |ls| :: PlainLine(ls[i]) }

  // Three sections, each with its header, its first line and more lines.
  function ThreeParts(pre: seq<string>, n1: string, b1: string, p1: seq<string>,
                      n2: string, b2: string, p2: seq<string>,
                      n3: string, b3: string, p3: seq<string>): (ls: seq<string>)
    ensures ls != []
  {
    pre + (["## " + n1, b1] + (p1 + (["## " + n2, b2] + (p2 + (["## " + n3, b3] + p3)))))
  }

  lemma ThreePartsHoldThreeSections(pre: seq<string>, n1: string, b1: string, p1: seq<string>,
                                    n2: string, b2: string, p2: seq<string>, n3: string, b3: string, p3: seq<string>)
    requires Plain(pre) && Plain(p1) && Plain(p2) && Plain(p3) && PlainLine(b1) && PlainLine(b2) && PlainLine(b3)
    requires Word(n1) && Word(n2) && Word(n3)
    ensures var ls := ThreeParts(pre, n1, b1, p1, n2, b2, p2, n3, b3, p3);
      Scan(JoinLines(ls), true) == [(n1, Trim(b1)), (n2, Trim(b2)), (n3, Trim(b3))]
  {
    var c := ["## " + n3, b3] + p3;
    var b := ["## " + n2, b2] + (p2 + c);
    var a := ["## " + n1, b1] + (p1 + b);
    PartIsTame(n3, b3, p3, []);
    PartIsTame(n2, b2, p2, c);
    PartIsTame(n1, b1, p1, b);
    assert p3 + [] == p3;
    ScanIsByLines(pre + a);
    PlainLinesHoldNothing(pre, a);
  }

  ghost predicate TameLines(ls: seq<string>) { forall i | 0 <= i < |ls| :: Tame(ls[i]) }

  lemma PartIsTame(n: string, b: string, p: seq<string>, rest: seq<string>)
    requires Word(n) && Plain(p) && PlainLine(b) && TameLines(rest)
    ensures TameLines(["## " + n, b] + (p + rest))
    ensures LineSections(["## " + n, b] + (p + rest)) == [(n, Trim(b))] + LineSections(rest)
  {
    HeaderNameIsTame(n);
    PlainLinesHoldNothing(p, rest);
    HeaderAndBody(n, b, p + rest);
  }

  lemma HeaderNameIsTame(n: string)
    requires Word(n)
    ensures Tame("## " + n)
  {
    assert ("## " + n)[3..] == n;
  }

  predicate ItemStart(prefix: string) { OneLine(prefix) && prefix != "" && prefix[0] == '-' }

  lemma ItemIsPlain(prefix: string, value: string)
    requires ItemStart(prefix) && OneLine(value)
    ensures PlainLine(prefix + value)
  {
    assert (prefix + value)[0] == '-';
  }

  lemma Prefixes()
    ensures ItemStart("- Name: ") && ItemStart("- Description: ") && ItemStart("- Repo URL: ")
    ensures ItemStart("- Branch: ")
    ensures ItemStart("- Model: ") && ItemStart("- Enabled: ") && ItemStart("- Mention Only: ")
    ensures Word("Project") && Word("Environment") && Word("Policy")
  {
  }

  lemma FormLinesArePlain(f: Form)
    requires FlatForm(f)
    ensures Plain(["# PROJECT-CONFIG", ""])
    ensures Plain(["- Description: " + OrElse(f.description, "N/A"), ""])
    ensures Plain(["- Repo URL: " + OrElse(f.repoUrl, "N/A"), "- Branch: " + OrElse(f.repoBranch, "main"),
                   "- Model: " + OrElse(f.modelName, "default"), ""])
    ensures Plain(["- Mention Only: " + Bool(f.mentionOnly)])
    ensures PlainLine("- Name: " + f.projectName) && PlainLine("- Name: " + DefaultEnvironment)
    ensures PlainLine("- Enabled: " + Bool(f.enabled))
  {
    Prefixes();
    assert "# PROJECT-CONFIG"[1] == ' ' && "##"[1] == '#';
    ItemIsPlain("- Description: ", OrElse(f.description, "N/A"));
    ItemIsPlain("- Repo URL: ", OrElse(f.repoUrl, "N/A"));
    ItemIsPlain("- Branch: ", OrElse(f.repoBranch, "main"));
    ItemIsPlain("- Model: ", OrElse(f.modelName, "default"));
    ItemIsPlain("- Mention Only: ", Bool(f.mentionOnly));
    ItemIsPlain("- Name: ", f.projectName);
    ItemIsPlain("- Name: ", DefaultEnvironment);
    ItemIsPlain("- Enabled: ", Bool(f.enabled));
  }

  lemma InThreeParts(n1: string, n2: string, n3: string, a: string, b: string, b1: string, c: string,
                     b2: string, d: string, e: string, g: string, b3: string, h: string)
    ensures [a, b, "## " + n1, b1, c, b, "## " + n2, b2, d, e, g, b, "## " + n3, b3, h]
         == ThreeParts([a, b], n1, b1, [c, b], n2, b2, [d, e, g, b], n3, b3, [h])
  {
  }

  lemma FormSections(f: Form)
    requires FlatForm(f)
    ensures Scan(GenerateConfigMarkdown(f), true) ==
      [("Project", Trim("- Name: " + f.projectName)),
       ("Environment", Trim("- Name: " + DefaultEnvironment)),
       ("Policy", Trim("- Enabled: " + Bool(f.enabled)))]
  {
    Prefixes();
    FormLinesArePlain(f);
    assert "## Project" == "## " + "Project" && "## Environment" == "## " + "Environment"
      && "## Policy" == "## " + "Policy";
    InThreeParts("Project", "Environment", "Policy", "# PROJECT-CONFIG", "",
                 "- Name: " + f.projectName, "- Description: " + OrElse(f.description, "N/A"),
                 "- Name: " + DefaultEnvironment,
                 "- Repo URL: " + OrElse(f.repoUrl, "N/A"), "- Branch: " + OrElse(f.repoBranch, "main"),
                 "- Model: " + OrElse(f.modelName, "default"),
                 "- Enabled: " + Bool(f.enabled), "- Mention Only: " + Bool(f.mentionOnly));
    ThreePartsHoldThreeSections(
      ["# PROJECT-CONFIG", ""],
      "Project", "- Name: " + f.projectName, ["- Description: " + OrElse(f.description, "N/A"), ""],
      "Environment", "- Name: " + DefaultEnvironment,
      ["- Repo URL: " + OrElse(f.repoUrl, "N/A"), "- Branch: " + OrElse(f.repoBranch, "main"),
       "- Model: " + OrElse(f.modelName, "default"), ""],
      "Policy", "- Enabled: " + Bool(f.enabled), ["- Mention Only: " + Bool(f.mentionOnly)]);
  }

  // ---- reading a line back

  lemma {:induction false} TrimEndOfBoth(a: string, v: string)
    ensures TrimEnd(a + v) == if TrimEnd(v) == "" then TrimEnd(a) else a + TrimEnd(v)
  {
    if v == "" {
      assert a + v == a;
    } else if Space(v[|v| - 1]) {
      assert (a + v)[..|a + v| - 1] == a + v[..|v| - 1];
      TrimEndOfBoth(a, v[..|v| - 1]);
    }
  }

  lemma {:induction false} TrimFromEitherEnd(v: string)
    ensures TrimStart(TrimEnd(v)) == Trim(v)
  {
    if v != "" && Space(v[0]) {
      TrimFromEitherEnd(v[1..]);
      TrimEndOfBoth(v[..1], v[1..]);
      assert v == v[..1] + v[1..];
      assert TrimEnd(v[..1]) == "";
    }
  }

  // An item's text: a dash, a blank, its key and a colon, and the rest.
  lemma BehindDash(c: string, key: string)
    requires |c| > 2 && c[0] == '-' && c[1] == ' ' && !Space(c[2])
    ensures Behind(c, key) == if key + ":" <= c[2..] then Some(c[2..][|key| + 1..]) else None
  {
    assert c[1..][0] == c[1] && c[1..][1..] == c[2..];
    assert TrimStart(c[1..]) == TrimStart(c[2..]) == c[2..];
  }

  lemma BehindItem(key: string, value: string)
    requires key != "" && !Space(key[0])
    ensures Behind("- " + key + ":" + value, key) == Some(value)
    ensures NothingElse("- " + key + ":" + value, key[0])
  {
    var c := "- " + key + ":" + value;
    assert c[2..] == key + ":" + value && c[2] == key[0];
    BehindDash(c, key);
    assert (key + ":" + value)[|key| + 1..] == value;
    forall other | other != "" && other[0] != key[0] ensures Behind(c, other).None? {
      BehindDash(c, other);
      assert (other + ":")[0] == other[0] && c[2..][0] == key[0];
    }
  }

  lemma TrimAfterBlank(x: string)
    ensures Trim(" " + x) == Trim(x)
  {
    assert (" " + x)[0] == ' ' && (" " + x)[1..] == x;
  }

  lemma TrimTwice(v: string)
    ensures Trim(TrimEnd(v)) == Trim(v)
  {
    TrimFromEitherEnd(v);
  }

  // Trimming an item keeps its key and trims the end of its value.
  lemma TrimItem(key: string, v: string)
    requires key != ""
    ensures Trim("- " + key + ": " + v) == "- " + key + ":" + if TrimEnd(v) == "" then "" else " " + TrimEnd(v)
  {
    var front := "- " + key + ":";
    assert front[0] == '-' && front[|front| - 1] == ':';
    assert "- " + key + ": " + v == front + (" " + v);
    TrimFront(front, v);
  }

  lemma TrimFront(front: string, v: string)
    requires front != "" && Trimmed(front)
    ensures Trim(front + (" " + v)) == front + if TrimEnd(v) == "" then "" else " " + TrimEnd(v)
  {
    var c := front + (" " + v);
    assert c[0] == front[0];
    assert TrimStart(c) == c;
    assert TrimEnd(front) == front;
    TrimEndOfBoth(front, " " + v);
    TrimEndOfBoth(" ", v);
    assert " "[..0] == "";
    assert TrimEnd(" ") == TrimEnd(" "[..0]) == "";
  }

  lemma {:induction false} StartKeepsSolidEnd(s: string)
    requires s != "" && !Space(s[|s| - 1])
    ensures TrimStart(s) != ""
  {
    if Space(s[0]) { StartKeepsSolidEnd(s[1..]); }
  }

  lemma ValueTrims(v: string, value: string)
    requires value == if TrimEnd(v) == "" then "" else " " + TrimEnd(v)
    ensures value == "" <==> Trim(v) == ""
    ensures Trim(value) == Trim(v)
  {
    TrimFromEitherEnd(v);
    TrimTwice(v);
    TrimAfterBlank(TrimEnd(v));
    if TrimEnd(v) != "" { StartKeepsSolidEnd(TrimEnd(v)); }
  }

  lemma FieldOf(c: string, key: string, value: string)
    requires Behind(c, key) == Some(value)
    ensures Field(c, key) == if value == "" then None else Some(Trim(value))
  {
  }

  ghost predicate NothingElse(c: string, initial: char) {
    forall other | other != "" && other[0] != initial :: Behind(c, other).None?
  }

  lemma ItemReadsBack(key: string, v: string)
    requires key != "" && !Space(key[0])
    ensures var c := Trim("- " + key + ": " + v);
      && c != ""
      && Field(c, key) == (if Trim(v) == "" then None else Some(Trim(v)))
      && NothingElse(c, key[0])
  {
    var value := if TrimEnd(v) == "" then "" else " " + TrimEnd(v);
    var c := "- " + key + ":" + value;
    TrimItem(key, v);
    BehindItem(key, value);
    ValueTrims(v, value);
    FieldOf(c, key, value);
  }

  lemma NameReadsBack(v: string)
    ensures var c := Trim("- Name: " + v);
      && c != ""
      && Field(c, "Name") == (if Trim(v) == "" then None else Some(Trim(v)))
      && NothingElse(c, 'N')
  {
    assert "- " + "Name" + ": " == "- Name: ";
    ItemReadsBack("Name", v);
  }

  lemma FlagOf(c: string, key: string, b: bool)
    requires Behind(c, key) == Some(" " + Bool(b))
    ensures Flag(c, key) == b
  {
    assert (" " + Bool(b))[0] == ' ' && (" " + Bool(b))[1..] == Bool(b);
    assert TrimStart(" " + Bool(b)) == TrimStart(Bool(b)) == Bool(b);
  }

  lemma EnabledIsTrimmed(b: bool)
    ensures Trimmed("- Enabled: " + Bool(b)) && "- Enabled: " + Bool(b) == "- " + "Enabled" + ":" + (" " + Bool(b))
  {
  }

  lemma EnabledReadsBack(b: bool)
    ensures var c := "- Enabled: " + Bool(b);
      && Trim(c) == c
      && Flag(c, "Enabled") == b
      && NothingElse(c, 'E')
  {
    EnabledIsTrimmed(b);
    BehindItem("Enabled", " " + Bool(b));
    FlagOf("- Enabled: " + Bool(b), "Enabled", b);
  }

  lemma ThreeSections(p: string, e: string, q: string)
    ensures ToMap([("Project", p), ("Environment", e), ("Policy", q)])
      == map["Project" := p, "Environment" := e, "Policy" := q]
  {
    var s1, s2 := [("Project", p)], [("Project", p), ("Environment", e)];
    var s := [("Project", p), ("Environment", e), ("Policy", q)];
    assert s[..2] == s2 && s2[..1] == s1 && s1[..0] == [];
    assert ToMap(s1) == map["Project" := p];
    assert ToMap(s2) == map["Project" := p, "Environment" := e];
  }

  lemma OnlyTheNameOfAProject(c: string, name: Option<string>)
    requires Field(c, "Name") == name && NothingElse(c, 'N')
    ensures ParseProject(c) == Project(Or(name, ""), None, "pending")
  {
    NoField(c, "Description", 'N');
    NoField(c, "Status", 'N');
  }

  lemma NoField(c: string, key: string, initial: char)
    requires NothingElse(c, initial) && key != "" && key[0] != initial
    ensures Field(c, key) == None && !Flag(c, key)
  {
  }

  lemma ProjectReadsBack(v: string)
    ensures ParseProject(Trim("- Name: " + v)) == Project(Trim(v), None, "pending")
  {
    NameReadsBack(v);
    OnlyTheNameOfAProject(Trim("- Name: " + v), if Trim(v) == "" then None else Some(Trim(v)));
  }

  lemma EnvironmentReadsBack(v: string)
    requires Trim(v) != ""
    ensures ParseEnvironment(Trim("- Name: " + v)) == Environment(Trim(v), None, None, None)
  {
    var c := Trim("- Name: " + v);
    NameReadsBack(v);
    NoField(c, "Repo URL", 'N');
    NoField(c, "Branch", 'N');
    NoField(c, "Model", 'N');
  }

  lemma PolicyReadsBack(b: bool)
    ensures ParsePolicy("- Enabled: " + Bool(b)) == Policy(b, false, None)
  {
    EnabledReadsBack(b);
  }

  // The parser gives back the trimmed project name, the fixed environment name
  // and the enabled flag, and reports nothing missing. Everything that is not on
  // the first line of its section is lost: mention only always reads as off.
  lemma ParsedForm(f: Form)
    requires FlatForm(f)
    ensures ParseWithErrors(GenerateConfigMarkdown(f)) ==
      Parsed(
        Config(Project(Trim(f.projectName), None, "pending"),
               Environment(DefaultEnvironment, None, None, None),
               [],
               Policy(f.enabled, false, None),
               [],
               ""),
        map["Project" := Trim("- Name: " + f.projectName),
            "Environment" := "- Name: " + DefaultEnvironment,
            "Policy" := "- Enabled: " + Bool(f.enabled)],
        [])
  {
    FormSections(f);
    NameReadsBack(f.projectName);
    ProjectReadsBack(f.projectName);
    EnvironmentName();
    PolicyReadsBack(f.enabled);
    EnabledReadsBack(f.enabled);
    AssembledFrom(
      GenerateConfigMarkdown(f), Trim("- Name: " + f.projectName),
      "- Name: " + DefaultEnvironment, "- Enabled: " + Bool(f.enabled));
  }

  lemma EnvironmentName()
    ensures Trim("- Name: " + DefaultEnvironment) == "- Name: " + DefaultEnvironment
    ensures ParseEnvironment("- Name: " + DefaultEnvironment) == Environment(DefaultEnvironment, None, None, None)
  {
    assert Trim(DefaultEnvironment) == DefaultEnvironment;
    EnvironmentReadsBack(DefaultEnvironment);
  }

  lemma AssembledFrom(markdown: string, p: string, e: string, q: string)
    requires Scan(markdown, true) == [("Project", p), ("Environment", e), ("Policy", q)] && p != "" && e != ""
    ensures ParseWithErrors(markdown) ==
      Parsed(Config(ParseProject(p), ParseEnvironment(e), [], ParsePolicy(q), [], ""),
        map["Project" := p, "Environment" := e, "Policy" := q], [])
  {
    ThreeSections(p, e, q);
    var sections := map["Project" := p, "Environment" := e, "Policy" := q];
    assert Section(sections, "Project") == p && Section(sections, "Environment") == e
      && Section(sections, "Policy") == q;
    assert Section(sections, "Memory") == "" && Section(sections, "Members") == "" && Section(sections, "Skills") == "";
    assert Split("", '|') == [""];
  }

  // So a form comes back with the flags it was saved with exactly when mention
  // only was off.
  lemma FlagsComeBackUnlessMentionOnly(f: Form)
    requires FlatForm(f)
    ensures var policy := ParseWithErrors(GenerateConfigMarkdown(f)).config.policy;
      policy.enabled == f.enabled && policy.mentionOnly == f.mentionOnly <==> !f.mentionOnly
  {
    ParsedForm(f);
  }

  // ---- every other text

  // The text that counts for a name: its last section's, or none.
  ghost predicate TextOf(found: seq<(string, string)>, name: string, text: string) {
    || (exists i :: 0 <= i < |found| && found[i] == (name, text) && forall j | i < j < |found| :: found[j].0 != name)
    || (text == "" && forall i | 0 <= i < |found| :: found[i].0 != name)
  }

  lemma {:induction false} MapHoldsTheLast(found: seq<(string, string)>, name: string, text: string)
    requires TextOf(found, name, text)
    ensures Section(ToMap(found), name) == text
  {
    if found != [] {
      var front, last := found[..|found| - 1], found[|found| - 1];
      if last.0 != name {
        assert TextOf(front, name, text) by {
          if i :| 0 <= i < |found| && found[i] == (name, text) && forall j | i < j < |found| :: found[j].0 != name {
            assert front[i] == (name, text);
          }
        }
        MapHoldsTheLast(front, name, text);
      }
    }
  }

  // Whatever the text, each part of the configuration is read from the last
  // section of its name, and exactly the project and the environment are reported
  // when their text is empty or missing.
  lemma ParsedByItsSections(markdown: string, p: string, e: string, members: string, q: string, skills: string,
                            memory: string)
    requires var found := Scan(markdown, true);
      && TextOf(found, "Project", p) && TextOf(found, "Environment", e) && TextOf(found, "Members", members)
      && TextOf(found, "Policy", q) && TextOf(found, "Skills", skills) && TextOf(found, "Memory", memory)
    ensures var parsed := ParseWithErrors(markdown);
      && parsed.config.project == ParseProject(p) && parsed.config.environment == ParseEnvironment(e)
      && parsed.config.members == ParseMembers(members) && parsed.config.policy == ParsePolicy(q)
      && parsed.config.skills == ParseSkills(skills) && parsed.config.memory == memory
      && ("Missing Project section" in parsed.parseErrors <==> p == "")
      && ("Missing Environment section" in parsed.parseErrors <==> e == "")
      && |parsed.parseErrors| == (if p == "" then 1 else 0) + (if e == "" then 1 else 0)
      && (|parsed.parseErrors| == 2 ==> parsed.parseErrors[0] == "Missing Project section")
  {
    var found := Scan(markdown, true);
    MapHoldsTheLast(found, "Project", p);
    MapHoldsTheLast(found, "Environment", e);
    MapHoldsTheLast(found, "Members", members);
    MapHoldsTheLast(found, "Policy", q);
    MapHoldsTheLast(found, "Skills", skills);
    MapHoldsTheLast(found, "Memory", memory);
    ErrorsAre(p == "", e == "");
  }

  lemma ErrorsAre(noProject: bool, noEnvironment: bool)
    ensures var errors := (if noProject then ["Missing Project section"] else [])
                          + (if noEnvironment then ["Missing Environment section"] else []);
      && ("Missing Project section" in errors <==> noProject)
      && ("Missing Environment section" in errors <==> noEnvironment)
      && |errors| == (if noProject then 1 else 0) + (if noEnvironment then 1 else 0)
      && (|errors| == 2 ==> errors[0] == "Missing Project section")
  {
    assert "Missing Project section"[8] == 'P' && "Missing Environment section"[8] == 'E';
  }

  lemma OnlyRepoUrl(c: string, x: string)
    requires Field(c, "Repo URL") == Some(x) && NothingElse(c, 'R')
    ensures ParseEnvironment(c) == Environment(DefaultEnvironment, Some(x), None, None)
  {
    NoField(c, "Name", 'R');
    NoField(c, "Branch", 'R');
    NoField(c, "Model", 'R');
  }

  lemma RepoUrlReadsBack(v: string)
    requires Trim(v) != ""
    ensures ParseEnvironment(Trim("- Repo URL: " + v)) == Environment(DefaultEnvironment, Some(Trim(v)), None, None)
  {
    assert "- " + "Repo URL" + ": " == "- Repo URL: ";
    ItemReadsBack("Repo URL", v);
    OnlyRepoUrl(Trim("- Repo URL: " + v), Trim(v));
  }

  lemma OnlyBranch(c: string, x: string)
    requires Field(c, "Branch") == Some(x) && NothingElse(c, 'B')
    ensures ParseEnvironment(c) == Environment(DefaultEnvironment, None, Some(x), None)
  {
    NoField(c, "Name", 'B');
    NoField(c, "Repo URL", 'B');
    NoField(c, "Model", 'B');
  }

  lemma BranchReadsBack(v: string)
    requires Trim(v) != ""
    ensures ParseEnvironment(Trim("- Branch: " + v)) == Environment(DefaultEnvironment, None, Some(Trim(v)), None)
  {
    assert "- " + "Branch" + ": " == "- Branch: ";
    ItemReadsBack("Branch", v);
    OnlyBranch(Trim("- Branch: " + v), Trim(v));
  }

  lemma OnlyModel(c: string, x: string)
    requires Field(c, "Model") == Some(x) && NothingElse(c, 'M')
    ensures ParseEnvironment(c) == Environment(DefaultEnvironment, None, None, Some(x))
  {
    NoField(c, "Name", 'M');
    NoField(c, "Repo URL", 'M');
    NoField(c, "Branch", 'M');
  }

  lemma ModelReadsBack(v: string)
    requires Trim(v) != ""
    ensures ParseEnvironment(Trim("- Model: " + v)) == Environment(DefaultEnvironment, None, None, Some(Trim(v)))
  {
    assert "- " + "Model" + ": " == "- Model: ";
    ItemReadsBack("Model", v);
    OnlyModel(Trim("- Model: " + v), Trim(v));
  }

  lemma OnlyDescription(c: string, x: string)
    requires Field(c, "Description") == Some(x) && NothingElse(c, 'D')
    ensures ParseProject(c) == Project("", Some(x), "pending")
  {
    NoField(c, "Name", 'D');
    NoField(c, "Status", 'D');
  }

  lemma DescriptionReadsBack(v: string)
    requires Trim(v) != ""
    ensures ParseProject(Trim("- Description: " + v)) == Project("", Some(Trim(v)), "pending")
  {
    assert "- " + "Description" + ": " == "- Description: ";
    ItemReadsBack("Description", v);
    OnlyDescription(Trim("- Description: " + v), Trim(v));
  }

  lemma OnlyStatus(c: string, x: string)
    requires Field(c, "Status") == Some(x) && NothingElse(c, 'S')
    ensures ParseProject(c) == Project("", None, x)
  {
    NoField(c, "Name", 'S');
    NoField(c, "Description", 'S');
  }

  lemma StatusReadsBack(v: string)
    requires Trim(v) != ""
    ensures ParseProject(Trim("- Status: " + v)) == Project("", None, Trim(v))
  {
    assert "- " + "Status" + ": " == "- Status: ";
    ItemReadsBack("Status", v);
    OnlyStatus(Trim("- Status: " + v), Trim(v));
  }

  lemma OnlyDefaultEnvironmentId(c: string, x: string)
    requires Field(c, "Default Environment") == Some(x) && NothingElse(c, 'D')
    ensures ParsePolicy(c) == Policy(false, false, Some(x))
  {
    NoField(c, "Enabled", 'D');
    NoField(c, "Mention Only", 'D');
  }

  lemma DefaultEnvironmentIdReadsBack(v: string)
    requires Trim(v) != ""
    ensures ParsePolicy(Trim("- Default Environment: " + v)) == Policy(false, false, Some(Trim(v)))
  {
    assert "- " + "Default Environment" + ": " == "- Default Environment: ";
    ItemReadsBack("Default Environment", v);
    OnlyDefaultEnvironmentId(Trim("- Default Environment: " + v), Trim(v));
  }

  // A section with one item sets that item's field and no other.
  lemma EachItemSetsItsField(v: string)
    requires Trim(v) != ""
    ensures ParseProject(Trim("- Description: " + v)) == Project("", Some(Trim(v)), "pending")
    ensures ParseProject(Trim("- Status: " + v)) == Project("", None, Trim(v))
    ensures ParseEnvironment(Trim("- Repo URL: " + v)) == Environment(DefaultEnvironment, Some(Trim(v)), None, None)
    ensures ParseEnvironment(Trim("- Branch: " + v)) == Environment(DefaultEnvironment, None, Some(Trim(v)), None)
    ensures ParseEnvironment(Trim("- Model: " + v)) == Environment(DefaultEnvironment, None, None, Some(Trim(v)))
    ensures ParsePolicy(Trim("- Default Environment: " + v)) == Policy(false, false, Some(Trim(v)))
  {
    RepoUrlReadsBack(v);
    BranchReadsBack(v);
    ModelReadsBack(v);
    DescriptionReadsBack(v);
    StatusReadsBack(v);
    DefaultEnvironmentIdReadsBack(v);
  }

  lemma OnlyMentionOnly(c: string, b: bool)
    requires Flag(c, "Mention Only") == b && NothingElse(c, 'M')
    ensures ParsePolicy(c) == Policy(false, b, None)
  {
    NoField(c, "Enabled", 'M');
    NoField(c, "Default Environment", 'M');
  }

  // On its own line "mention only" is read; the form's second line never is.
  lemma MentionOnlyReadsBack(b: bool)
    ensures ParsePolicy("- Mention Only: " + Bool(b)) == Policy(false, b, None)
  {
    var c := "- Mention Only: " + Bool(b);
    assert c == "- " + "Mention Only" + ":" + (" " + Bool(b));
    BehindItem("Mention Only", " " + Bool(b));
    FlagOf(c, "Mention Only", b);
    OnlyMentionOnly(c, b);
  }

  // A row of a member table, four cells between bars, comes back trimmed, unless
  // it is the table's head.
  lemma MemberRowReadsBack(name: string, openId: string, role: string, duty: string)
    requires Free(name, '|') && Free(openId, '|') && Free(role, '|') && Free(duty, '|')
    requires name != "" && openId != "" && role != "" && duty != ""
    ensures ParseMembers("|" + (name + "|" + (openId + "|" + (role + "|" + (duty + "|"))))) ==
      if Contains(Lower(Trim(name)), "name") && Contains(Lower(Trim(openId)), "open") then []
      else [Member(Trim(name), Trim(openId), Trim(role), Trim(duty))]
  {
    RowSplits(name, openId, role, duty);
  }

  lemma RowSplits(name: string, openId: string, role: string, duty: string)
    requires Free(name, '|') && Free(openId, '|') && Free(role, '|') && Free(duty, '|')
    ensures Split("|" + (name + "|" + (openId + "|" + (role + "|" + (duty + "|")))), '|')
         == ["", name, openId, role, duty, ""]
  {
    var d := duty + "|";
    var c := role + "|" + d;
    var b := openId + "|" + c;
    var a := name + "|" + b;
    SplitFirst("", '|', a);
    SplitFirst(name, '|', b);
    SplitFirst(openId, '|', c);
    SplitFirst(role, '|', d);
    SplitFirst(duty, '|', "");
    assert "" + ['|'] + a == "|" + a && duty + ['|'] + "" == d;
  }

  lemma SkillReadsBack(skill: string)
    requires Trim(skill) != ""
    ensures ParseSkills("- " + skill) == [Trim(skill)]
  {
    var c := "- " + skill;
    assert c[1..] == " " + skill && (" " + skill)[1..] == skill;
    assert TrimStart(c[1..]) == TrimStart(skill);
    assert TrimStart(TrimStart(skill)) == TrimStart(skill);
  }
}
