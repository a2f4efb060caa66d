/** The project list screen: the fetch on mount, the loading / error / empty /
    grid precedence, the project cards with their truncated description and
    status marks, and deletion. The list itself belongs to the app shell and
    is passed in and handed back. */
module ProjectManagement {
  import opened Wrappers
  import opened Projects

  /** The screen's own state; the error is `null` or a message. */
  datatype ListState = ListState(loading: bool, error: Option<string>)

  const FetchError: string := "Failed to fetch projects"

  function Initial(): ListState
  {
    ListState(true, None)
  }

  /** The fetch on mount completes: a success hands its list to the shell, a
      failure (an unsuccessful reply or a network error) records the error
      and leaves the list alone; loading ends either way. */
  function Fetched(s: ListState, projects: seq<Project>, reply: Reply<seq<Project>>): (r: (ListState, seq<Project>))
    ensures !r.0.loading
    ensures reply.Succeeded? ==> r.1 == reply.data && r.0.error == s.error
    ensures reply.Failed? ==> r.1 == projects && r.0.error == Some(FetchError)
  {
    match reply
    case Succeeded(data) => (s.(loading := false), data)
    case Failed => (ListState(false, Some(FetchError)), projects)
  }

  /** At most the first 100 characters of a description, marked with "..."
      when something was cut. */
  function Preview(description: string): (r: string)
    ensures |r| <= 103
    ensures |description| <= 100 ==> r == description
    ensures |description| > 100 ==> |r| == 103 && r[..100] == description[..100] && r[100..] == "..."
  {
    if |description| > 100 then description[..100] + "..." else description
  }

  /** A preview is its own preview: cutting again keeps the same 100
      characters and the same marker. */
  lemma PreviewIdempotent(description: string)
    ensures Preview(Preview(description)) == Preview(description)
  {
    var r := Preview(description);
    if |description| > 100 {
      assert r[..100] + "..." == r;
    }
  }

  const Done: string := "\U{2705}"
  const Pending: string := "\U{23F3}"

  /** The mark before "Analysis", "Kanban" and "Workflow". */
  function StatusMark(present: bool): (m: string)
    ensures m == Done <==> present
    ensures m == Pending <==> !present
  {
    if present then Done else Pending
  }

  datatype Card = Card(id: string, title: string, preview: string, selected: bool,
                       analysisMark: string, kanbanMark: string, workflowMark: string,
                       score: Option<real>)

  /** One project card; it is highlighted when its id is the selected project's. */
  function ProjectCard(p: Project, selected: Option<Project>): (c: Card)
    ensures c.id == p.id && c.title == p.title && c.preview == Preview(p.description)
    ensures c.selected <==> selected.Some? && selected.value.id == p.id
    ensures c.analysisMark == Done <==> p.analysis.Some?
    ensures c.kanbanMark == Done <==> p.kanban.Some?
    ensures c.workflowMark == Done <==> p.workflow.Some?
    ensures c.score.Some? <==> p.analysis.Some?
    ensures c.score.Some? ==> c.score.value == p.analysis.value.score
  {
    Card(p.id, p.title, Preview(p.description), selected.Some? && selected.value.id == p.id,
         StatusMark(p.analysis.Some?), StatusMark(p.kanban.Some?), StatusMark(p.workflow.Some?),
         if p.analysis.Some? then Some(p.analysis.value.score) else None)
  }

  datatype View = LoadingProjects | ErrorView(message: string) | NoProjects | Grid(cards: seq<Card>)

  /** Loading over an error over an empty list over the grid of cards. */
  function Render(s: ListState, projects: seq<Project>, selected: Option<Project>): (v: View)
    ensures v == LoadingProjects <==> s.loading
    ensures v.ErrorView? <==> !s.loading && s.error.Some?
    ensures v.ErrorView? ==> v.message == s.error.value
    ensures v == NoProjects <==> !s.loading && s.error.None? && |projects| == 0
    ensures v.Grid? ==> |v.cards| == |projects|
    ensures v.Grid? ==> forall i :: 0 <= i < |projects| ==> v.cards[i] == ProjectCard(projects[i], selected)
  {
    if s.loading then LoadingProjects
    else if s.error.Some? then ErrorView(s.error.value)
    else if |projects| == 0 then NoProjects
    else Grid(seq(|projects|, (i: int) requires 0 <= i < |projects| => ProjectCard(projects[i], selected)))
  }

  /** A failed first fetch always ends on the error message. */
  lemma FailedFetchShowsError(projects: seq<Project>, selected: Option<Project>)
    ensures var (s, ps) := Fetched(Initial(), projects, Failed);
      Render(s, ps, selected) == ErrorView(FetchError)
  {
  }

  /** The outcome of a delete: the list handed back to the shell and whether
      `onSelectProject(null)` is called. */
  datatype DeleteOutcome = DeleteOutcome(projects: seq<Project>, selectNull: bool)

  /** A delete whose response was ok removes every project with that id and
      clears the selection when it was the deleted project; otherwise (a
      response that is not ok, or a network error) nothing happens. */
  function Delete(projects: seq<Project>, selected: Option<Project>, id: string, ok: bool): (r: DeleteOutcome)
    ensures !ok ==> r.projects == projects && !r.selectNull
    ensures ok ==> r.projects == RemoveById(projects, id)
    ensures r.selectNull <==> ok && selected.Some? && selected.value.id == id
  {
    if ok then DeleteOutcome(RemoveById(projects, id), selected.Some? && selected.value.id == id)
    else DeleteOutcome(projects, false)
  }

  /** After a successful delete no card carries the deleted id, and every
      other card is still there. */
  lemma DeleteRemovesCard(projects: seq<Project>, selected: Option<Project>, id: string)
    ensures var r := Delete(projects, selected, id, true);
      id !in Ids(r.projects)
      && forall i :: 0 <= i < |projects| && projects[i].id != id ==> projects[i] in r.projects
  {
    var r := Delete(projects, selected, id, true);
    assert forall i :: 0 <= i < |r.projects| ==> Ids(r.projects)[i] == r.projects[i].id;
  }
}
