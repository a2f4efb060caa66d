/** The stored project record shared by the app shell, the project list and
    the project details screen, and the two list updates they perform:
    replacing a project by id and removing every project with an id. */
module Projects {
  import opened Wrappers
  import opened Seqs
  import ProjectAnalysis
  import KanbanBoard
  import WorkflowVisualization

  /** A project. The three generated blobs are optional; a present blob is an
      object and therefore truthy. Dates are opaque strings. */
  datatype Project = Project(id: string, title: string, description: string,
                             analysis: Option<ProjectAnalysis.Analysis>,
                             kanban: Option<KanbanBoard.KanbanData>,
                             workflow: Option<WorkflowVisualization.WorkflowData>,
                             createdAt: string, updatedAt: string)

  /** `prev.map(p => p._id === updated._id ? updated : p)`. */
  function ReplaceById(projects: seq<Project>, updated: Project): (r: seq<Project>)
    ensures |r| == |projects|
    ensures forall i :: 0 <= i < |r| && projects[i].id == updated.id ==> r[i] == updated
    ensures forall i :: 0 <= i < |r| && projects[i].id != updated.id ==> r[i] == projects[i]
  {
    seq(|projects|, (i: int) requires 0 <= i < |projects| =>
      if projects[i].id == updated.id then updated else projects[i])
  }

  /** The ids of a list. */
  function Ids(projects: seq<Project>): (r: seq<string>)
    ensures |r| == |projects|
    ensures forall i :: 0 <= i < |r| ==> r[i] == projects[i].id
  {
    seq(|projects|, (i: int) requires 0 <= i < |projects| => projects[i].id)
  }

  /** Replacing keeps every id in place. */
  lemma ReplaceKeepsIds(projects: seq<Project>, updated: Project)
    ensures Ids(ReplaceById(projects, updated)) == Ids(projects)
  {
  }

  /** An update whose id is not in the list changes nothing. */
  lemma ReplaceAbsent(projects: seq<Project>, updated: Project)
    requires updated.id !in Ids(projects)
    ensures ReplaceById(projects, updated) == projects
  {
    assert forall i :: 0 <= i < |projects| ==> projects[i].id == Ids(projects)[i];
  }

  /** Applying the same update twice is applying it once. */
  lemma ReplaceIdempotent(projects: seq<Project>, updated: Project)
    ensures ReplaceById(ReplaceById(projects, updated), updated) == ReplaceById(projects, updated)
  {
  }

  /** The updated project is in the result exactly when its id was in the list. */
  lemma ReplacedPresent(projects: seq<Project>, updated: Project)
    ensures updated.id in Ids(projects) ==> updated in ReplaceById(projects, updated)
    ensures updated.id !in Ids(projects) ==> ReplaceById(projects, updated) == projects
  {
    var r := ReplaceById(projects, updated);
    if updated.id in Ids(projects) {
      var i :| 0 <= i < |projects| && Ids(projects)[i] == updated.id;
      assert r[i] == updated;
    } else {
      ReplaceAbsent(projects, updated);
    }
  }

  /** `projects.filter(p => p._id !== id)`. */
  function RemoveById(projects: seq<Project>, id: string): (r: seq<Project>)
    ensures |r| <= |projects|
    ensures forall i :: 0 <= i < |r| ==> r[i].id != id && r[i] in projects
    ensures forall i :: 0 <= i < |projects| && projects[i].id != id ==> projects[i] in r
  {
    Filter(projects, (p: Project) => p.id != id)
  }

  /** Removal keeps the survivors in order: it distributes over concatenation. */
  lemma RemoveKeepsOrder(a: seq<Project>, b: seq<Project>, id: string)
    ensures RemoveById(a + b, id) == RemoveById(a, id) + RemoveById(b, id)
  {
    FilterAppend(a, b, (p: Project) => p.id != id);
  }

  /** Removing an id that is not in the list changes nothing. */
  lemma RemoveAbsent(projects: seq<Project>, id: string)
    requires id !in Ids(projects)
    ensures RemoveById(projects, id) == projects
  {
    assert forall i :: 0 <= i < |projects| ==> projects[i].id == Ids(projects)[i];
    FilterAll(projects, (p: Project) => p.id != id);
  }

  /** Removing twice is removing once. */
  lemma RemoveIdempotent(projects: seq<Project>, id: string)
    ensures RemoveById(RemoveById(projects, id), id) == RemoveById(projects, id)
  {
    FilterIdempotent(projects, (p: Project) => p.id != id);
  }

  /** A removal wipes out any earlier update of the same id. */
  lemma {:induction false} RemoveAfterReplace(projects: seq<Project>, updated: Project)
    ensures RemoveById(ReplaceById(projects, updated), updated.id) == RemoveById(projects, updated.id)
  {
    if projects != [] {
      var r := ReplaceById(projects, updated);
      assert r == [r[0]] + ReplaceById(projects[1..], updated);
      assert projects == [projects[0]] + projects[1..];
      RemoveKeepsOrder([r[0]], ReplaceById(projects[1..], updated), updated.id);
      RemoveKeepsOrder([projects[0]], projects[1..], updated.id);
      RemoveAfterReplace(projects[1..], updated);
      assert RemoveById([r[0]], updated.id) == RemoveById([projects[0]], updated.id) by {
        assert [r[0]][1..] == [] && [projects[0]][1..] == [];
      }
    }
  }
}
