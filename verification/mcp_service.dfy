/** The pure text handling of the MCP client service: turning the text blob
    of a `get_projects` tool-call response into project records, and
    extracting the text of other tool-call responses. The HTTP calls that
    produce the responses are not modelled; a response is an input. */
module McpService {
  import opened Wrappers
  import opened Seqs
  import opened Text

  /** One item of a response's `content` array. */
  datatype ContentItem = ContentItem(text: Option<string>)

  /** A tool-call response: `content` may be missing, and its first item may
      be missing or `null`. */
  datatype Response = Response(content: Option<seq<Option<ContentItem>>>)

  /** A project record as parsed from the text; the creation timestamp the
      source stamps on each record is not modelled. */
  datatype McpProject = McpProject(
    id: string,
    title: string,
    description: string,
    hasAnalysis: bool,
    hasKanban: bool,
    hasWorkflow: bool)

  /** `content[0].text` when every step of that path is present and the text
      is truthy, i.e. non-empty. */
  function ResponseText(resp: Response): (r: Option<string>)
    ensures r.Some? ==> r.value != []
  {
    match resp.content
    case None => None
    case Some(items) =>
      if items == [] then None
      else match items[0]
        case None => None
        case Some(item) =>
          match item.text
          case None => None
          case Some(t) => if t == [] then None else Some(t)
  }

  const NoResponseText: string := "No response text available"

  /** `extractTextFromResponse`. */
  function ExtractText(resp: Response): (r: string)
    ensures r != []
    ensures ResponseText(resp).Some? ==> r == ResponseText(resp).value
    ensures ResponseText(resp).None? ==> r == NoResponseText
  {
    match ResponseText(resp)
    case Some(t) => t
    case None => NoResponseText
  }

  // ---------------------------------------------------------------------
  // The pattern `• (.+?) \(ID: (.+?)\)` as a declarative predicate.

  const Bullet: char := '\U{2022}'
  const IdOpen: string := " (ID: "

  /** The characters a regular-expression `.` matches: all but the four
      ECMAScript line terminators. */
  predicate IsLineChar(c: char) {
    c != '\n' && c != '\r' && c != '\U{2028}' && c != '\U{2029}'
  }

  /** Every position in [a, b) of `line` holds a character `.` matches. */
  predicate LineCharsIn(line: string, a: nat, b: nat) {
    forall k :: a <= k < b && k < |line| ==> IsLineChar(line[k])
  }

  /** The pattern matches `line` with the bullet at `i`, a title of `t`
      characters, and the closing parenthesis at `e`. */
  predicate MatchAt(line: string, i: nat, t: nat, e: nat) {
    && 1 <= t
    && i + 2 + t + 6 < e < |line|
    && line[i] == Bullet && line[i + 1] == ' '
    && OccursAt(line, IdOpen, i + 2 + t)
    && line[e] == ')'
    && LineCharsIn(line, i + 2, i + 2 + t)
    && LineCharsIn(line, i + 2 + t + 6, e)
  }

  /** A match: bullet position, title length and closing-parenthesis position. */
  datatype Match = Match(start: nat, titleLen: nat, idEnd: nat)

  /** The match the regular-expression engine reports: the leftmost start,
      then the shortest title (lazy `+?`), then the shortest id. */
  ghost predicate IsEngineMatch(line: string, m: Match) {
    && MatchAt(line, m.start, m.titleLen, m.idEnd)
    && (forall i: nat, t: nat, e: nat :: i < m.start ==> !MatchAt(line, i, t, e))
    && (forall t: nat, e: nat :: t < m.titleLen ==> !MatchAt(line, m.start, t, e))
    && (forall e: nat :: e < m.idEnd ==> !MatchAt(line, m.start, m.titleLen, e))
  }

  /** The engine's choice is determined: two engine matches coincide. */
  lemma EngineMatchUnique(line: string, m1: Match, m2: Match)
    requires IsEngineMatch(line, m1) && IsEngineMatch(line, m2)
    ensures m1 == m2
  {
  }

  /** Captured title and id of a match. */
  function Title(line: string, m: Match): string
    requires MatchAt(line, m.start, m.titleLen, m.idEnd)
  {
    line[m.start + 2..m.start + 2 + m.titleLen]
  }

  function Id(line: string, m: Match): string
    requires MatchAt(line, m.start, m.titleLen, m.idEnd)
  {
    line[m.start + 2 + m.titleLen + 6..m.idEnd]
  }

  // ---------------------------------------------------------------------
  // The search that computes the engine match.

  /** Lazy id: the first `)` at or after `j`, the id having started at `s`. */
  function IdEndFrom(line: string, s: nat, j: nat): (r: Option<nat>)
    requires s < j <= |line|
    requires LineCharsIn(line, s, j)
    ensures r.Some? ==> j <= r.value < |line| && line[r.value] == ')' && LineCharsIn(line, s, r.value)
    ensures r.Some? ==> forall e :: j <= e < r.value ==> line[e] != ')'
    ensures r.None? ==> forall e :: j <= e < |line| && LineCharsIn(line, s, e) ==> line[e] != ')'
    decreases |line| - j
  {
    if j == |line| then None
    else if line[j] == ')' then Some(j)
    else if !IsLineChar(line[j]) then None
    else IdEndFrom(line, s, j + 1)
  }

  /** Lazy id starting at `s`: at least one character, then the first `)`. */
  function IdEnd(line: string, s: nat): (r: Option<nat>)
    ensures r.Some? ==> s < r.value < |line| && line[r.value] == ')' && LineCharsIn(line, s, r.value)
    ensures r.Some? ==> forall e :: s < e < r.value ==> line[e] != ')'
    ensures r.None? ==> forall e :: s < e < |line| && LineCharsIn(line, s, e) ==> line[e] != ')'
  {
    if s < |line| && IsLineChar(line[s]) then IdEndFrom(line, s, s + 1) else None
  }

  /** Lazy title: try title lengths `t`, `t + 1`, ... for the bullet at `i`. */
  function TitleFrom(line: string, i: nat, t: nat): (r: Option<Match>)
    requires 1 <= t && i + 2 + t <= |line|
    requires line[i] == Bullet && line[i + 1] == ' '
    requires LineCharsIn(line, i + 2, i + 2 + t)
    ensures r.Some? ==> r.value.start == i && t <= r.value.titleLen
    ensures r.Some? ==> MatchAt(line, i, r.value.titleLen, r.value.idEnd)
    ensures r.Some? ==> forall t': nat, e: nat :: t <= t' < r.value.titleLen ==> !MatchAt(line, i, t', e)
    ensures r.Some? ==> forall e: nat :: e < r.value.idEnd ==> !MatchAt(line, i, r.value.titleLen, e)
    ensures r.None? ==> forall t': nat, e: nat :: t <= t' ==> !MatchAt(line, i, t', e)
    decreases |line| - t
  {
    var os := i + 2 + t;
    if os + 7 >= |line| then None
    else if OccursAt(line, IdOpen, os) && IdEnd(line, os + 6).Some? then
      Some(Match(i, t, IdEnd(line, os + 6).value))
    else
      NoMatchWithTitle(line, i, t);
      if !IsLineChar(line[os]) then
        NoLongerTitle(line, i, t);
        None
      else TitleFrom(line, i, t + 1)
  }

  /** When ` (ID: ` and a lazy id do not follow a title of `t` characters,
      no match has that title length. */
  lemma NoMatchWithTitle(line: string, i: nat, t: nat)
    requires i + 2 + t + 7 < |line|
    requires !(OccursAt(line, IdOpen, i + 2 + t) && IdEnd(line, i + 2 + t + 6).Some?)
    ensures forall e: nat :: !MatchAt(line, i, t, e)
  {

  }

  /** A title cannot run over a character `.` does not match. */
  lemma NoLongerTitle(line: string, i: nat, t: nat)
    requires i + 2 + t < |line| && !IsLineChar(line[i + 2 + t])
    ensures forall t': nat, e: nat :: t < t' ==> !MatchAt(line, i, t', e)
  {

  }

  /** The match with its bullet at `i`, if there is one. */
  function MatchFromStart(line: string, i: nat): (r: Option<Match>)
    ensures r.Some? ==> r.value.start == i && MatchAt(line, i, r.value.titleLen, r.value.idEnd)
    ensures r.Some? ==> forall t: nat, e: nat :: t < r.value.titleLen ==> !MatchAt(line, i, t, e)
    ensures r.Some? ==> forall e: nat :: e < r.value.idEnd ==> !MatchAt(line, i, r.value.titleLen, e)
    ensures r.None? ==> forall t: nat, e: nat :: !MatchAt(line, i, t, e)
  {
    if i + 3 <= |line| && line[i] == Bullet && line[i + 1] == ' ' && IsLineChar(line[i + 2]) then
      TitleFrom(line, i, 1)
    else None
  }

  /** The leftmost match with its bullet at or after `i`. */
  function SearchFrom(line: string, i: nat): (r: Option<Match>)
    ensures r.Some? ==> i <= r.value.start && IsEngineMatchFrom(line, r.value, i)
    ensures r.None? ==> forall i': nat, t: nat, e: nat :: i <= i' ==> !MatchAt(line, i', t, e)
    decreases |line| - i
  {
    if i >= |line| then None
    else match MatchFromStart(line, i)
      case Some(m) => Some(m)
      case None => SearchFrom(line, i + 1)
  }

  /** `IsEngineMatch` restricted to starts at or after `from`. */
  ghost predicate IsEngineMatchFrom(line: string, m: Match, from: nat) {
    && MatchAt(line, m.start, m.titleLen, m.idEnd)
    && (forall i: nat, t: nat, e: nat :: from <= i < m.start ==> !MatchAt(line, i, t, e))
    && (forall t: nat, e: nat :: t < m.titleLen ==> !MatchAt(line, m.start, t, e))
    && (forall e: nat :: e < m.idEnd ==> !MatchAt(line, m.start, m.titleLen, e))
  }

  /** `line.match(/• (.+?) \(ID: (.+?)\)/)`. */
  function FirstMatch(line: string): (r: Option<Match>)
    ensures r.Some? ==> IsEngineMatch(line, r.value)
    ensures r.None? ==> forall i: nat, t: nat, e: nat :: !MatchAt(line, i, t, e)
  {
    SearchFrom(line, 0)
  }

  /** The `includes('•') && includes('(ID:')` pre-filter never rejects a line
      the pattern matches, so it does not change the parse. */
  lemma PrefilterRedundant(line: string)
    requires FirstMatch(line).Some?
    ensures Contains(line, [Bullet]) && Contains(line, "(ID:")
  {
    var m := FirstMatch(line).value;
    var os := m.start + 2 + m.titleLen;
    assert OccursAt(line, [Bullet], m.start);
    assert line[os..os + 6] == IdOpen;
    forall k | 0 <= k < 4 ensures line[os + 1 + k] == "(ID:"[k] {
      assert line[os + 1 + k] == line[os..os + 6][1 + k] == IdOpen[1 + k];
    }
    assert line[os + 1..os + 5] == "(ID:";
    assert OccursAt(line, "(ID:", os + 1);
  }

  // ---------------------------------------------------------------------
  // Lines to projects.

  /** Where a project's description is taken from. The source takes the
      line after the FIRST line equal to the project line (`indexOf`);
      `OwnLine` takes the line after the project line itself. */
  datatype DescriptionSource = FirstCopy | OwnLine

  /** Index of the line whose trimmed text becomes the description of the
      project on line `j`. */
  function DescriptionIndex(lines: seq<string>, j: nat, src: DescriptionSource): (d: int)
    requires j < |lines|
    ensures src == OwnLine ==> d == j + 1
    ensures src == FirstCopy ==> 1 <= d <= j + 1 && lines[d - 1] == lines[j]
    ensures src == FirstCopy ==> forall k :: 0 <= k < d - 1 ==> lines[k] != lines[j]
  {
    match src
    case FirstCopy => IndexOf(lines, lines[j]) + 1
    case OwnLine => j + 1
  }

  const AnalysisDone: string := "Analysis: \U{2705}"
  const KanbanDone: string := "Kanban: \U{2705}"
  const WorkflowDone: string := "Workflow: \U{2705}"

  /** The project a line describes, given the description chosen for it:
      none unless the line has both markers and the pattern matches. */
  function ProjectLine(line: string, description: string): (r: Option<McpProject>)
    ensures r.Some? <==> Contains(line, [Bullet]) && Contains(line, "(ID:") && FirstMatch(line).Some?
    ensures r.Some? ==> r.value.description == description
    ensures r.Some? ==> && r.value.hasAnalysis == Contains(line, AnalysisDone)
                        && r.value.hasKanban == Contains(line, KanbanDone)
                        && r.value.hasWorkflow == Contains(line, WorkflowDone)
  {
    if !(Contains(line, [Bullet]) && Contains(line, "(ID:")) then None
    else match FirstMatch(line)
      case None => None
      case Some(m) =>
        Some(McpProject(Id(line, m), Title(line, m), description,
          Contains(line, AnalysisDone), Contains(line, KanbanDone), Contains(line, WorkflowDone)))
  }

  /** The trimmed line at index `d`, or empty past the last line. */
  function DescriptionAt(lines: seq<string>, d: int): string
  {
    if 0 <= d < |lines| then Trim(lines[d]) else ""
  }

  /** The project on line `j`, if that line is a project line. */
  function ParseLineAt(lines: seq<string>, j: nat, src: DescriptionSource): (r: Option<McpProject>)
    requires j < |lines|
    ensures r.Some? <==> Contains(lines[j], [Bullet]) && Contains(lines[j], "(ID:") && FirstMatch(lines[j]).Some?
  {
    ProjectLine(lines[j], DescriptionAt(lines, DescriptionIndex(lines, j, src)))
  }

  /** A parsed project's title and id are non-empty captures of the match:
      the id ends at the first `)` after its first character, and the line
      holds bullet, space, title, ` (ID: `, id, `)` in a row. */
  lemma ParsedTitleAndId(lines: seq<string>, j: nat, src: DescriptionSource)
    requires j < |lines| && ParseLineAt(lines, j, src).Some?
    ensures var p := ParseLineAt(lines, j, src).value;
      && |p.title| >= 1 && |p.id| >= 1
      && (forall k :: 1 <= k < |p.id| ==> p.id[k] != ')')
      && Contains(lines[j], [Bullet, ' '] + p.title + IdOpen + p.id + ")")
  {
    MatchedText(lines[j], FirstMatch(lines[j]).value);
  }

  /** The description is the description line without its surrounding
      whitespace, or empty when the description index runs past the last
      line. */
  lemma ParsedDescription(lines: seq<string>, j: nat, src: DescriptionSource)
    requires j < |lines| && ParseLineAt(lines, j, src).Some?
    ensures var d, desc := DescriptionIndex(lines, j, src), ParseLineAt(lines, j, src).value.description;
      && (d < |lines| ==> exists i: nat :: PaddedBy(lines[d], desc, i))
      && (desc == [] || (!IsWhitespace(desc[0]) && !IsWhitespace(desc[|desc| - 1])))
      && (d >= |lines| ==> desc == [])
  {
    var d := DescriptionIndex(lines, j, src);
    if d < |lines| {
      assert PaddedBy(lines[d], Trim(lines[d]), LeadingSpace(lines[d]));
    }
  }

  /** The matched text is bullet, space, title, ` (ID: `, id, `)`. */
  lemma MatchedText(line: string, m: Match)
    requires IsEngineMatch(line, m)
    ensures forall k :: 1 <= k < |Id(line, m)| ==> Id(line, m)[k] != ')'
    ensures Contains(line, [Bullet, ' '] + Title(line, m) + IdOpen + Id(line, m) + ")")
  {
    LazyIdStopsAtFirstParen(line, m);
    MatchSpellsPattern(line, m);
  }

  /** The lazy id ends at the first `)` after its first character. */
  lemma LazyIdStopsAtFirstParen(line: string, m: Match)
    requires IsEngineMatch(line, m)
    ensures forall k :: 1 <= k < |Id(line, m)| ==> Id(line, m)[k] != ')'
  {
    var i, t := m.start, m.titleLen;
    var s := i + 2 + t + 6;
    var id := Id(line, m);
    forall k | 1 <= k < |id| ensures id[k] != ')' {
      assert id[k] == line[s + k];
      assert !MatchAt(line, i, t, s + k);
      assert LineCharsIn(line, s, s + k);
    }
  }

  /** The text of a match is bullet, space, title, ` (ID: `, id, `)`. */
  lemma MatchSpellsPattern(line: string, m: Match)
    requires MatchAt(line, m.start, m.titleLen, m.idEnd)
    ensures OccursAt(line, [Bullet, ' '] + Title(line, m) + IdOpen + Id(line, m) + ")", m.start)
  {
    var i, t, e := m.start, m.titleLen, m.idEnd;
    var o, s := i + 2 + t, i + 2 + t + 6;
    assert line[i..i + 2] == [Bullet, ' '];
    assert line[o..s] == IdOpen;
    assert line[e..e + 1] == ")";
    SliceSplit(line, i, i + 2, o);
    SliceSplit(line, i, o, s);
    SliceSplit(line, i, s, e);
    SliceSplit(line, i, e, e + 1);
  }

  lemma SliceSplit(s: string, a: nat, b: nat, c: nat)
    requires a <= b <= c <= |s|
    ensures s[a..c] == s[a..b] + s[b..c]
  {
  }

  /** The project of line `m`, for any index. */
  function LineParser(lines: seq<string>, src: DescriptionSource): nat -> Option<McpProject> {
    (m: nat) => if m < |lines| then ParseLineAt(lines, m, src) else None
  }

  /** The projects of `lines`, in line order. */
  function ParseLines(lines: seq<string>, src: DescriptionSource): (r: seq<McpProject>)
    ensures |r| <= |lines|
  {
    Collect(LineParser(lines, src), 0, |lines|)
  }

  /** Each project comes from one project line, projects keep the order of
      their lines, and every project line yields exactly one project. */
  lemma ParseLinesCharacterized(lines: seq<string>, src: DescriptionSource)
    ensures var P, S := ParseLines(lines, src), CollectedAt(LineParser(lines, src), 0, |lines|);
      && |S| == |P|
      && (forall k :: 0 <= k < |S| ==> S[k] < |lines| && ParseLineAt(lines, S[k], src) == Some(P[k]))
      && (forall k1, k2 :: 0 <= k1 < k2 < |S| ==> S[k1] < S[k2])
      && (forall m :: 0 <= m < |lines| ==> (ParseLineAt(lines, m, src).Some? <==> m in S))
    ensures var P, S := ParseLines(lines, src), CollectedAt(LineParser(lines, src), 0, |lines|);
      forall k :: 0 <= k < |S| && k < |P| && S[k] < |lines| ==>
        && (P[k].hasAnalysis <==> Contains(lines[S[k]], AnalysisDone))
        && (P[k].hasKanban <==> Contains(lines[S[k]], KanbanDone))
        && (P[k].hasWorkflow <==> Contains(lines[S[k]], WorkflowDone))
  {
    CollectSources(LineParser(lines, src), 0, |lines|);
    CollectedExactly(LineParser(lines, src), 0, |lines|);
  }

  /** The lines of a text and the projects parsed from them. */
  function ParseText(text: string, src: DescriptionSource): seq<McpProject> {
    ParseLines(Split(text, '\n'), src)
  }

  /** `parseProjectsFromResponse` as written: descriptions come from the
      line after the first copy of each project line. */
  function ParseProjects(resp: Response): (r: seq<McpProject>)
    ensures ResponseText(resp).None? ==> r == []
    ensures ResponseText(resp).Some? ==> |r| <= |Split(ResponseText(resp).value, '\n')|
  {
    match ResponseText(resp)
    case None => []
    case Some(text) => ParseText(text, FirstCopy)
  }

  /** The corrected parser: the description is the line after the project
      line itself. */
  function ParseProjectsCorrected(resp: Response): (r: seq<McpProject>)
    ensures ResponseText(resp).None? ==> r == []
    ensures ResponseText(resp).Some? ==> |r| <= |Split(ResponseText(resp).value, '\n')|
  {
    match ResponseText(resp)
    case None => []
    case Some(text) => ParseText(text, OwnLine)
  }

  /** A text without a bullet character yields no projects. */
  lemma NoBulletNoProjects(text: string, src: DescriptionSource)
    requires Bullet !in text
    ensures ParseText(text, src) == []
  {
    var lines := Split(text, '\n');
    SplitPiecesFrom(text, '\n');
    forall m | 0 <= m < |lines| ensures LineParser(lines, src)(m).None? {
      ContainsChar(lines[m], Bullet);
    }
    CollectNone(LineParser(lines, src), 0, |lines|);
  }

  /** The fallback text contains no bullet, so parsing the extracted text
      always agrees with parsing the response. */
  lemma ParseAgreesWithExtract(resp: Response)
    ensures ParseProjects(resp) == ParseText(ExtractText(resp), FirstCopy)
  {
    if ResponseText(resp).None? {
      NoBulletNoProjects(NoResponseText, FirstCopy);
    }
  }

  /** The two description rules agree whenever no line repeats an earlier
      line; they differ only on duplicated lines. */
  lemma ParseAgreesWithoutDuplicates(lines: seq<string>)
    requires forall a, b :: 0 <= a < b < |lines| ==> lines[a] != lines[b]
    ensures ParseLines(lines, FirstCopy) == ParseLines(lines, OwnLine)
  {
    forall m | 0 <= m < |lines|
      ensures LineParser(lines, FirstCopy)(m) == LineParser(lines, OwnLine)(m)
    {
      assert DescriptionIndex(lines, m, FirstCopy) == m + 1;
      SameDescriptionLine(lines, m);
    }
    CollectExt(LineParser(lines, FirstCopy), LineParser(lines, OwnLine), 0, |lines|);
  }

  /** A line whose first copy is itself parses the same under both rules. */
  lemma SameDescriptionLine(lines: seq<string>, m: nat)
    requires m < |lines| && DescriptionIndex(lines, m, FirstCopy) == m + 1
    ensures ParseLineAt(lines, m, FirstCopy) == ParseLineAt(lines, m, OwnLine)
  {
  }

  /** Under the source's rule, a later copy of a project line takes its
      description from the line after the FIRST copy. */
  lemma DescriptionFromFirstCopy(lines: seq<string>, k: nat, j: nat)
    requires k < j < |lines| && lines[k] == lines[j]
    requires forall a :: 0 <= a < k ==> lines[a] != lines[j]
    requires ParseLineAt(lines, j, FirstCopy).Some?
    ensures ParseLineAt(lines, j, FirstCopy).value.description == Trim(lines[k + 1])
  {
    FirstCopyIndex(lines, k, j);
    DescriptionIsAt(lines, j, FirstCopy);
  }

  /** `indexOf` finds the first copy. */
  lemma FirstCopyIndex(lines: seq<string>, k: nat, j: nat)
    requires k < j < |lines| && lines[k] == lines[j]
    requires forall a :: 0 <= a < k ==> lines[a] != lines[j]
    ensures DescriptionIndex(lines, j, FirstCopy) == k + 1
  {
  }

  /** A project's description is the trimmed line at its description index. */
  lemma DescriptionIsAt(lines: seq<string>, j: nat, src: DescriptionSource)
    requires j < |lines| && ParseLineAt(lines, j, src).Some?
    ensures ParseLineAt(lines, j, src).value.description == DescriptionAt(lines, DescriptionIndex(lines, j, src))
  {
  }

  /** Under the corrected rule the description comes from the next line. */
  lemma DescriptionFromOwnLine(lines: seq<string>, j: nat)
    requires j + 1 < |lines| && ParseLineAt(lines, j, OwnLine).Some?
    ensures ParseLineAt(lines, j, OwnLine).value.description == Trim(lines[j + 1])
  {
  }

  /** The sample descriptions have nothing to trim. */
  lemma TrimWord(w: string)
    requires w == "first" || w == "second"
    ensures Trim(w) == w
  {
    TrimNoPadding(w);
  }

  /** The sample project line used below is a project line. */
  lemma SampleLineParses(line: string)
    requires line == "\U{2022} A (ID: 1)"
    ensures Contains(line, [Bullet]) && Contains(line, "(ID:") && FirstMatch(line).Some?
  {
    assert |line| == 11 && line[0] == Bullet && line[1] == ' ' && line[10] == ')';
    assert line[3..9] == IdOpen;
    assert LineCharsIn(line, 2, 3) && LineCharsIn(line, 9, 10);
    assert MatchAt(line, 0, 1, 10);
    ContainsChar(line, Bullet);
    assert line[4..8] == "(ID:";
    assert OccursAt(line, "(ID:", 4);
  }

  /** The four-line sample used below: one project line, repeated. */
  predicate DuplicateSample(line: string, first: string, second: string, lines: seq<string>)
  {
    line == "\U{2022} A (ID: 1)" && first == "first" && second == "second"
    && lines == [line, first, line, second]
  }

  lemma DuplicateSampleParses(line: string, first: string, second: string, lines: seq<string>)
    requires DuplicateSample(line, first, second, lines)
    ensures ParseLineAt(lines, 2, FirstCopy).Some? && ParseLineAt(lines, 2, OwnLine).Some?
  {
    SampleLineParses(line);
    assert lines[2] == line;
  }

  lemma DuplicateSampleFirstCopy(line: string, first: string, second: string, lines: seq<string>)
    requires DuplicateSample(line, first, second, lines)
    requires ParseLineAt(lines, 2, FirstCopy).Some?
    ensures ParseLineAt(lines, 2, FirstCopy).value.description == first
  {
    assert lines[0] == lines[2] && lines[1] == first;
    DescriptionFromFirstCopy(lines, 0, 2);
    TrimWord(first);
  }

  lemma DuplicateSampleOwnLine(line: string, first: string, second: string, lines: seq<string>)
    requires DuplicateSample(line, first, second, lines)
    requires ParseLineAt(lines, 2, OwnLine).Some?
    ensures ParseLineAt(lines, 2, OwnLine).value.description == second
  {
    assert lines[3] == second;
    DescriptionFromOwnLine(lines, 2);
    TrimWord(second);
  }

  /** A concrete input on which the source's rule is observably wrong: the
      second copy of a project line gets the first copy's description. */
  lemma DuplicateLineSharesDescription(line: string, first: string, second: string, lines: seq<string>)
    requires DuplicateSample(line, first, second, lines)
    ensures ParseLineAt(lines, 2, FirstCopy).Some?
    ensures ParseLineAt(lines, 2, FirstCopy).value.description == "first"
    ensures ParseLineAt(lines, 2, OwnLine).value.description == "second"
  {
    DuplicateSampleParses(line, first, second, lines);
    DuplicateSampleFirstCopy(line, first, second, lines);
    DuplicateSampleOwnLine(line, first, second, lines);
  }
}
