/** The project details screen: a working copy of the selected project, the
    view tabs and what each shows, the two generate handlers that merge a new
    blob into the copy and report it upward, and the small classifiers of the
    overview (score colour, task status class, file icon, summary counts). */
module ProjectDetails {
  import opened Wrappers
  import opened Text
  import opened Projects
  import ProjectAnalysis
  import KanbanBoard
  import WorkflowVisualization

  datatype View = Overview | AnalysisView | KanbanView | WorkflowView | DatabaseView

  /** `currentView`, `loading` and `currentProject`. */
  datatype DetailsState = DetailsState(view: View, loading: bool, project: Project)

  function Initial(p: Project): DetailsState
  {
    DetailsState(Overview, false, p)
  }

  /** The score colour of the analysis summary, written out again here. */
  function ScoreColor(score: real): (c: string)
    ensures c == "text-accent-green" <==> score >= 80.0
    ensures c == "text-accent-yellow" <==> 60.0 <= score < 80.0
    ensures c == "text-red-400" <==> score < 60.0
  {
    if score >= 80.0 then "text-accent-green"
    else if score >= 60.0 then "text-accent-yellow"
    else "text-red-400"
  }

  /** The summary and the analysis screen colour every score alike. */
  lemma ScoreColorsAgree(score: real)
    ensures ScoreColor(score) == ProjectAnalysis.ScoreColor(score)
  {
  }

  /** The file icons exactly as the source spells them: UTF-8 emoji that were
      re-read as Windows-1252 and saved again. The icons for "doc" and the
      default lost their last byte that way and came out identical. */
  const PdfIcon: string := "\U{00F0}\U{0178}\U{201C}\U{201E}"
  const FigmaIcon: string := "\U{00F0}\U{0178}\U{017D}\U{00A8}"
  const DocIcon: string := "\U{00F0}\U{0178}\U{201C}"
  const DefaultFileIcon: string := "\U{00F0}\U{0178}\U{201C}"

  function FileIcon(fileType: string): (icon: string)
    ensures icon == PdfIcon <==> fileType == "pdf"
    ensures icon == FigmaIcon <==> fileType == "figma"
    ensures icon == DefaultFileIcon <==> fileType != "pdf" && fileType != "figma"
  {
    match fileType
    case "pdf" => PdfIcon
    case "figma" => FigmaIcon
    case "doc" => DocIcon
    case _ => DefaultFileIcon
  }

  /** Any type outside the three named ones gets the default icon, which
      cannot be told apart from the document icon. */
  lemma UnknownFileTypeIcon(fileType: string)
    requires fileType !in {"pdf", "figma", "doc"}
    ensures FileIcon(fileType) == DefaultFileIcon == FileIcon("doc")
  {
  }

  /** The badge class of a task status, chosen by its lower-cased spelling. */
  function StatusColor(status: string): (c: string)
    ensures var s := ToLower(status);
      (c == "status-badge in-progress" <==> s == "in progress")
      && (c == "status-badge completed" <==> s == "completed")
      && (c == "status-badge pending" <==> s == "todo")
      && (c == "status-badge" <==> s !in {"in progress", "completed", "todo"})
  {
    match ToLower(status)
    case "in progress" => "status-badge in-progress"
    case "completed" => "status-badge completed"
    case "todo" => "status-badge pending"
    case _ => "status-badge"
  }

  /** The status class ignores ASCII case. */
  lemma StatusColorCaseInsensitive(status: string)
    ensures StatusColor(ToLower(status)) == StatusColor(status)
  {
    ToLowerIdempotent(status);
  }

  /** `list?.length || 0`. */
  function LengthOrZero<T>(list: Option<seq<T>>): (n: nat)
    ensures list.None? ==> n == 0
    ensures list.Some? ==> n == |list.value|
  {
    match list
    case None => 0
    case Some(s) => |s|
  }

  /** The analysis summary: the score with its colour and three counts. It
      is shown only when the project has an analysis. */
  datatype Summary = Summary(score: real, scoreColor: string, pillars: nat, features: nat, recommendations: nat)

  function AnalysisSummary(p: Project): (r: Option<Summary>)
    ensures r.Some? <==> p.analysis.Some?
    ensures r.Some? ==> var a := p.analysis.value;
      r.value.score == a.score
      && r.value.scoreColor == ProjectAnalysis.ScoreColor(a.score)
      && r.value.pillars == LengthOrZero(a.pillars)
      && r.value.features == LengthOrZero(a.features)
      && r.value.recommendations == LengthOrZero(a.recommendations)
  {
    match p.analysis
    case None => None
    case Some(a) =>
      ScoreColorsAgree(a.score);
      Some(Summary(a.score, ScoreColor(a.score), LengthOrZero(a.pillars), LengthOrZero(a.features),
                   LengthOrZero(a.recommendations)))
  }

  /** Missing lists count as zero in every summary field. */
  lemma MissingListsCountZero(p: Project)
    requires p.analysis.Some?
    requires p.analysis.value.pillars.None? && p.analysis.value.features.None?
    requires p.analysis.value.recommendations.None?
    ensures var s := AnalysisSummary(p).value; s.pillars == s.features == s.recommendations == 0
  {
  }

  /** A tab button is disabled while its blob is missing; Overview never is. */
  function TabDisabled(p: Project, v: View): (disabled: bool)
    ensures v == Overview ==> !disabled
    ensures v == AnalysisView ==> (disabled <==> p.analysis.None?)
    ensures v == KanbanView ==> (disabled <==> p.kanban.None?)
    ensures v == WorkflowView ==> (disabled <==> p.workflow.None?)
  {
    match v
    case Overview => false
    case AnalysisView => p.analysis.None?
    case KanbanView => p.kanban.None?
    case WorkflowView => p.workflow.None?
    case DatabaseView => false
  }

  /** A click on one of the four tab buttons; a disabled button ignores it. */
  function ClickTab(s: DetailsState, v: View): (r: DetailsState)
    requires v != DatabaseView
    ensures r.loading == s.loading && r.project == s.project
    ensures r.view == (if TabDisabled(s.project, v) then s.view else v)
  {
    if TabDisabled(s.project, v) then s else s.(view := v)
  }

  /** The content area. */
  datatype Content =
    | OverviewContent
    | AnalysisContent(analysis: ProjectAnalysis.Analysis)
    | KanbanContent(kanban: KanbanBoard.KanbanData)
    | WorkflowContent(workflow: WorkflowVisualization.WorkflowData)
    | NoContent

  /** Each view shows its blob when present; the database view has no
      content at all. */
  function Render(s: DetailsState): (c: Content)
    ensures c == NoContent <==>
      s.view == DatabaseView
      || (s.view == AnalysisView && s.project.analysis.None?)
      || (s.view == KanbanView && s.project.kanban.None?)
      || (s.view == WorkflowView && s.project.workflow.None?)
    ensures s.view == Overview ==> c == OverviewContent
    ensures c.AnalysisContent? ==> s.view == AnalysisView && s.project.analysis == Some(c.analysis)
    ensures c.KanbanContent? ==> s.view == KanbanView && s.project.kanban == Some(c.kanban)
    ensures c.WorkflowContent? ==> s.view == WorkflowView && s.project.workflow == Some(c.workflow)
  {
    match s.view
    case Overview => OverviewContent
    case AnalysisView => if s.project.analysis.Some? then AnalysisContent(s.project.analysis.value) else NoContent
    case KanbanView => if s.project.kanban.Some? then KanbanContent(s.project.kanban.value) else NoContent
    case WorkflowView => if s.project.workflow.Some? then WorkflowContent(s.project.workflow.value) else NoContent
    case DatabaseView => NoContent
  }

  /** Tabs reached by clicking never leave the content area blank, starting
      from any view that was not blank. */
  lemma ClickedTabShowsContent(s: DetailsState, v: View)
    requires v != DatabaseView
    requires Render(s) != NoContent
    ensures Render(ClickTab(s, v)) != NoContent
  {
  }

  /** The outcome of a generate handler: the new state and the project passed
      to `onProjectUpdate`, if it was called. */
  datatype Generated = Generated(state: DetailsState, notified: Option<Project>)

  /** The kanban generator. Without an analysis it returns at once, before
      touching `loading`. A success merges the board into the working copy,
      reports the copy upward and switches to the board; any failure only
      ends loading. */
  function GenerateKanban(s: DetailsState, reply: Reply<KanbanBoard.KanbanData>): (r: Generated)
    ensures s.project.analysis.None? ==> r == Generated(s, None)
    ensures s.project.analysis.Some? ==> !r.state.loading
    ensures s.project.analysis.Some? && reply.Failed? ==> r == Generated(s.(loading := false), None)
    ensures s.project.analysis.Some? && reply.Succeeded? ==>
      r.state.project == s.project.(kanban := Some(reply.data))
      && r.state.view == KanbanView && r.notified == Some(r.state.project)
  {
    if s.project.analysis.None? then Generated(s, None)
    else match reply
      case Failed => Generated(s.(loading := false), None)
      case Succeeded(data) =>
        var p := s.project.(kanban := Some(data));
        Generated(DetailsState(KanbanView, false, p), Some(p))
  }

  /** The workflow generator, the same handler for the workflow blob. */
  function GenerateWorkflow(s: DetailsState, reply: Reply<WorkflowVisualization.WorkflowData>): (r: Generated)
    ensures s.project.analysis.None? ==> r == Generated(s, None)
    ensures s.project.analysis.Some? ==> !r.state.loading
    ensures s.project.analysis.Some? && reply.Failed? ==> r == Generated(s.(loading := false), None)
    ensures s.project.analysis.Some? && reply.Succeeded? ==>
      r.state.project == s.project.(workflow := Some(reply.data))
      && r.state.view == WorkflowView && r.notified == Some(r.state.project)
  {
    if s.project.analysis.None? then Generated(s, None)
    else match reply
      case Failed => Generated(s.(loading := false), None)
      case Succeeded(data) =>
        var p := s.project.(workflow := Some(data));
        Generated(DetailsState(WorkflowView, false, p), Some(p))
  }

  /** A successful generation changes no field of the project but its own
      blob, and the new blob is what the screen shows next. */
  lemma GenerateKanbanKeepsFields(s: DetailsState, data: KanbanBoard.KanbanData)
    requires s.project.analysis.Some?
    ensures var p := GenerateKanban(s, Succeeded(data)).state.project;
      p.id == s.project.id && p.title == s.project.title && p.description == s.project.description
      && p.analysis == s.project.analysis && p.workflow == s.project.workflow
      && p.createdAt == s.project.createdAt && p.updatedAt == s.project.updatedAt
    ensures Render(GenerateKanban(s, Succeeded(data)).state) == KanbanContent(data)
  {
  }

  lemma GenerateWorkflowKeepsFields(s: DetailsState, data: WorkflowVisualization.WorkflowData)
    requires s.project.analysis.Some?
    ensures var p := GenerateWorkflow(s, Succeeded(data)).state.project;
      p.id == s.project.id && p.title == s.project.title && p.description == s.project.description
      && p.analysis == s.project.analysis && p.kanban == s.project.kanban
      && p.createdAt == s.project.createdAt && p.updatedAt == s.project.updatedAt
    ensures Render(GenerateWorkflow(s, Succeeded(data)).state) == WorkflowContent(data)
  {
  }

  /** The two generators touch different fields, so both successes together
      leave a copy holding both new blobs, in either order. */
  lemma GeneratorsCommute(s: DetailsState, k: KanbanBoard.KanbanData, w: WorkflowVisualization.WorkflowData)
    requires s.project.analysis.Some?
    ensures GenerateWorkflow(GenerateKanban(s, Succeeded(k)).state, Succeeded(w)).state.project
         == GenerateKanban(GenerateWorkflow(s, Succeeded(w)).state, Succeeded(k)).state.project
         == s.project.(kanban := Some(k), workflow := Some(w))
  {
  }
}
