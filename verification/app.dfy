/** The app shell: the wizard step, the data gathered along the way, the
    shared project list and selection, and the handlers that move between
    steps. Every backend call is abstracted to its reply. */
module App {
  import opened Wrappers
  import opened Projects
  import ProjectForm
  import ProjectAnalysis
  import KanbanBoard
  import WorkflowVisualization
  import ProjectManagement

  datatype Step = ProjectsStep | FormStep | AnalysisStep | KanbanStep | WorkflowStep | DetailsStep | McpStep

  /** The shell's state. `projectId` is whatever the analysis reply carried;
      the empty id is falsy. */
  datatype AppState = AppState(
    step: Step,
    projectData: Option<ProjectForm.ProjectData>,
    projectId: Option<string>,
    analysisData: Option<ProjectAnalysis.Analysis>,
    kanbanData: Option<KanbanBoard.KanbanData>,
    workflowData: Option<WorkflowVisualization.WorkflowData>,
    selected: Option<Project>,
    projects: seq<Project>,
    loading: bool)

  function Initial(): AppState
  {
    AppState(ProjectsStep, None, None, None, None, None, None, [], false)
  }

  /** What a successful analysis reply carries: the new project's id and the analysis. */
  datatype Analyzed = Analyzed(projectId: string, analysis: ProjectAnalysis.Analysis)

  /** The form was submitted. A success keeps the form data, the id and the
      analysis and moves to the analysis step; a failure changes nothing but
      `loading`, which ends false either way. */
  function Submit(s: AppState, data: ProjectForm.ProjectData, reply: Reply<Analyzed>): (r: AppState)
    ensures !r.loading
    ensures reply.Failed? ==> r == s.(loading := false)
    ensures reply.Succeeded? ==>
      r == s.(step := AnalysisStep, projectData := Some(data), projectId := Some(reply.data.projectId),
              analysisData := Some(reply.data.analysis), loading := false)
  {
    match reply
    case Failed => s.(loading := false)
    case Succeeded(a) =>
      s.(step := AnalysisStep, projectData := Some(data), projectId := Some(a.projectId),
         analysisData := Some(a.analysis), loading := false)
  }

  /** `analysisData && projectId && projectData`: the guard of both generators. */
  predicate CanGenerate(s: AppState) {
    s.analysisData.Some? && s.projectId.Some? && s.projectId.value != "" && s.projectData.Some?
  }

  /** The kanban generator. When the guard fails it returns before touching
      anything, `loading` included. */
  function GenerateKanban(s: AppState, reply: Reply<KanbanBoard.KanbanData>): (r: AppState)
    ensures !CanGenerate(s) ==> r == s
    ensures CanGenerate(s) ==> !r.loading
    ensures CanGenerate(s) && reply.Failed? ==> r == s.(loading := false)
    ensures CanGenerate(s) && reply.Succeeded? ==>
      r == s.(step := KanbanStep, kanbanData := Some(reply.data), loading := false)
  {
    if !CanGenerate(s) then s
    else match reply
      case Failed => s.(loading := false)
      case Succeeded(k) => s.(step := KanbanStep, kanbanData := Some(k), loading := false)
  }

  /** The workflow generator, the same handler for the workflow step. */
  function GenerateWorkflow(s: AppState, reply: Reply<WorkflowVisualization.WorkflowData>): (r: AppState)
    ensures !CanGenerate(s) ==> r == s
    ensures CanGenerate(s) ==> !r.loading
    ensures CanGenerate(s) && reply.Failed? ==> r == s.(loading := false)
    ensures CanGenerate(s) && reply.Succeeded? ==>
      r == s.(step := WorkflowStep, workflowData := Some(reply.data), loading := false)
  {
    if !CanGenerate(s) then s
    else match reply
      case Failed => s.(loading := false)
      case Succeeded(w) => s.(step := WorkflowStep, workflowData := Some(w), loading := false)
  }

  /** A successful analysis with a non-empty id opens the way to both generators. */
  lemma SubmitEnablesGenerators(s: AppState, data: ProjectForm.ProjectData, a: Analyzed)
    requires a.projectId != ""
    ensures CanGenerate(Submit(s, data, Succeeded(a)))
  {
  }

  /** `onSelectProject`: whatever it is given becomes the selection, and the
      step becomes the details step. */
  function SelectProject(s: AppState, p: Option<Project>): (r: AppState)
    ensures r.step == DetailsStep && r.selected == p
    ensures r.projects == s.projects && r.loading == s.loading
    ensures r.(selected := s.selected, step := s.step) == s
  {
    s.(selected := p, step := DetailsStep)
  }

  /** The navigation buttons and the back buttons of the details and MCP
      screens only set the step. */
  function Navigate(s: AppState, step: Step): (r: AppState)
    requires step in {ProjectsStep, FormStep, McpStep}
    ensures r.step == step && r.(step := s.step) == s
  {
    s.(step := step)
  }

  /** `onProjectUpdate` from the details screen: the update becomes the
      selection and replaces every list entry with its id. */
  function UpdateProject(s: AppState, p: Project): (r: AppState)
    ensures r.selected == Some(p) && r.projects == ReplaceById(s.projects, p)
    ensures r.step == s.step && r.loading == s.loading
    ensures r.(selected := s.selected, projects := s.projects) == s
  {
    s.(selected := Some(p), projects := ReplaceById(s.projects, p))
  }

  /** The fetch of the project list screen hands its list to the shell. */
  function ProjectsFetched(s: AppState, projects: seq<Project>): (r: AppState)
    ensures r.projects == projects && r.(projects := s.projects) == s
  {
    s.(projects := projects)
  }

  /** The main area. */
  datatype Screen =
    | ListScreen
    | FormScreen
    | AnalysisScreen(analysis: ProjectAnalysis.Analysis)
    | KanbanScreen(kanban: KanbanBoard.KanbanData)
    | WorkflowScreen(workflow: WorkflowVisualization.WorkflowData)
    | DetailsScreen(project: Project)
    | McpScreen
    | Blank

  /** Each step shows its screen; the steps that need data show nothing
      without it. */
  function MainView(s: AppState): (v: Screen)
    ensures v == Blank <==>
      (s.step == AnalysisStep && s.analysisData.None?)
      || (s.step == KanbanStep && s.kanbanData.None?)
      || (s.step == WorkflowStep && s.workflowData.None?)
      || (s.step == DetailsStep && s.selected.None?)
    ensures s.step == ProjectsStep ==> v == ListScreen
    ensures s.step == FormStep ==> v == FormScreen
    ensures s.step == McpStep ==> v == McpScreen
    ensures v.AnalysisScreen? ==> s.step == AnalysisStep && s.analysisData == Some(v.analysis)
    ensures v.KanbanScreen? ==> s.step == KanbanStep && s.kanbanData == Some(v.kanban)
    ensures v.WorkflowScreen? ==> s.step == WorkflowStep && s.workflowData == Some(v.workflow)
    ensures v.DetailsScreen? ==> s.step == DetailsStep && s.selected == Some(v.project)
  {
    match s.step
    case ProjectsStep => ListScreen
    case FormStep => FormScreen
    case AnalysisStep => if s.analysisData.Some? then AnalysisScreen(s.analysisData.value) else Blank
    case KanbanStep => if s.kanbanData.Some? then KanbanScreen(s.kanbanData.value) else Blank
    case WorkflowStep => if s.workflowData.Some? then WorkflowScreen(s.workflowData.value) else Blank
    case DetailsStep => if s.selected.Some? then DetailsScreen(s.selected.value) else Blank
    case McpStep => McpScreen
  }

  /** The extra navigation button naming the open project. */
  function DetailsButton(s: AppState): (title: Option<string>)
    ensures title.Some? <==> s.step == DetailsStep && s.selected.Some?
    ensures title.Some? ==> title.value == s.selected.value.title
  {
    if s.step == DetailsStep && s.selected.Some? then Some(s.selected.value.title) else None
  }

  /** Every step that needs data has it: the main area is never blank. */
  predicate Consistent(s: AppState) {
    && (s.step == AnalysisStep ==> s.analysisData.Some?)
    && (s.step == KanbanStep ==> s.kanbanData.Some?)
    && (s.step == WorkflowStep ==> s.workflowData.Some?)
    && (s.step == DetailsStep ==> s.selected.Some?)
  }

  lemma ConsistentNeverBlank(s: AppState)
    requires Consistent(s)
    ensures MainView(s) != Blank
  {
  }

  /** The shell starts consistent, and the wizard handlers keep it so. */
  lemma WizardKeepsConsistent(s: AppState, data: ProjectForm.ProjectData, a: Reply<Analyzed>)
    requires Consistent(s)
    ensures Consistent(Initial())
    ensures Consistent(Submit(s, data, a))
  {
  }

  lemma GeneratorsKeepConsistent(s: AppState, k: Reply<KanbanBoard.KanbanData>,
                                 w: Reply<WorkflowVisualization.WorkflowData>)
    requires Consistent(s)
    ensures Consistent(GenerateKanban(s, k))
    ensures Consistent(GenerateWorkflow(s, w))
  {
  }

  /** Clicking a card, navigating and updating the open project keep the
      shell consistent. */
  lemma NavigationKeepsConsistent(s: AppState, p: Project, step: Step)
    requires Consistent(s)
    requires step in {ProjectsStep, FormStep, McpStep}
    ensures Consistent(SelectProject(s, Some(p)))
    ensures Consistent(Navigate(s, step))
    ensures Consistent(UpdateProject(s, p))
  {
  }

  /** A delete on the list screen as written: the list is replaced and, when
      the selected project was deleted, `onSelectProject(null)` runs, which
      selects nothing and still moves to the details step. */
  function DeleteProjectAsWritten(s: AppState, id: string, ok: bool): (r: AppState)
    ensures var d := ProjectManagement.Delete(s.projects, s.selected, id, ok);
      r.projects == d.projects
      && (d.selectNull ==> r.step == DetailsStep && r.selected.None?)
      && (!d.selectNull ==> r.step == s.step && r.selected == s.selected)
    ensures r.(projects := s.projects, selected := s.selected, step := s.step) == s
  {
    var d := ProjectManagement.Delete(s.projects, s.selected, id, ok);
    var s1 := s.(projects := d.projects);
    if d.selectNull then SelectProject(s1, None) else s1
  }

  /** Deleting the selected project from the list leaves a blank page with no
      way back but the navigation bar: the details step without a project. */
  lemma DeleteSelectedBlanksPage(s: AppState)
    requires Consistent(s) && s.step == ProjectsStep && s.selected.Some?
    ensures var r := DeleteProjectAsWritten(s, s.selected.value.id, true);
      MainView(r) == Blank && !Consistent(r) && DetailsButton(r).None?
  {
  }

  /** The evidently intended delete: the selection is cleared and the list
      screen stays. */
  function DeleteProject(s: AppState, id: string, ok: bool): (r: AppState)
    ensures var d := ProjectManagement.Delete(s.projects, s.selected, id, ok);
      r.projects == d.projects && r.step == s.step
      && (d.selectNull ==> r.selected.None?)
      && (!d.selectNull ==> r.selected == s.selected)
    ensures r.(projects := s.projects, selected := s.selected, step := s.step) == s
  {
    var d := ProjectManagement.Delete(s.projects, s.selected, id, ok);
    var s1 := s.(projects := d.projects);
    if d.selectNull then s1.(selected := None) else s1
  }

  /** The corrected delete keeps the shell consistent, and it agrees with the
      delete as written whenever the selection survives. */
  lemma DeleteProjectKeepsConsistent(s: AppState, id: string, ok: bool)
    requires Consistent(s) && s.step == ProjectsStep
    ensures Consistent(DeleteProject(s, id, ok))
    ensures MainView(DeleteProject(s, id, ok)) == ListScreen
    ensures !ProjectManagement.Delete(s.projects, s.selected, id, ok).selectNull ==>
      DeleteProject(s, id, ok) == DeleteProjectAsWritten(s, id, ok)
  {
  }
}
