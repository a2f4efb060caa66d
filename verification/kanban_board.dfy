/** The Kanban board: a task list shown as one column per pipeline, where
    dragging a card onto a column moves the task to that pipeline. */
module KanbanBoard {
  import opened Wrappers
  import opened Seqs

  /** `estimatedHours` is a JavaScript number; the board never computes with it. */
  datatype Task = Task(id: string, title: string, description: string, pipeline: string,
                       priority: string, estimatedHours: real, userStory: string)

  datatype Pipeline = Pipeline(id: string, name: string, color: string)

  datatype KanbanData = KanbanData(pipelines: seq<Pipeline>, tasks: seq<Task>)

  /** The component's state: its own copy of the tasks and the card being dragged. */
  datatype Board = Board(tasks: seq<Task>, activeTask: Option<Task>)

  function Init(data: KanbanData): Board
  {
    Board(data.tasks, None)
  }

  /** Drag-start: the dragged card is the first task carrying the active id. */
  function DragStart(b: Board, activeId: string): (r: Board)
    ensures r.tasks == b.tasks
    ensures r.activeTask.Some? <==> exists j :: 0 <= j < |b.tasks| && b.tasks[j].id == activeId
    ensures r.activeTask.Some? ==>
      exists j :: 0 <= j < |b.tasks| && b.tasks[j] == r.activeTask.value
        && b.tasks[j].id == activeId
        && forall k :: 0 <= k < j ==> b.tasks[k].id != activeId
  {
    var found := FindIndex(b.tasks, (t: Task) => t.id == activeId);
    Board(b.tasks, if found.Some? then Some(b.tasks[found.value]) else None)
  }

  /** The task with `pipeline` set to the drop target when its id matches. */
  function MoveOne(t: Task, taskId: string, newPipeline: string): Task
  {
    if t.id == taskId then t.(pipeline := newPipeline) else t
  }

  /** The map-update applied on a drop: every task with the dragged id goes to
      the target, whatever the target's id is. */
  function MoveTask(tasks: seq<Task>, taskId: string, newPipeline: string): (r: seq<Task>)
    ensures |r| == |tasks|
    ensures forall j :: 0 <= j < |r| ==>
      r[j].id == tasks[j].id && r[j].title == tasks[j].title
      && r[j].description == tasks[j].description && r[j].priority == tasks[j].priority
      && r[j].estimatedHours == tasks[j].estimatedHours && r[j].userStory == tasks[j].userStory
    ensures forall j :: 0 <= j < |r| && tasks[j].id == taskId ==> r[j].pipeline == newPipeline
    ensures forall j :: 0 <= j < |r| && tasks[j].id != taskId ==> r[j] == tasks[j]
  {
    seq(|tasks|, (j: int) requires 0 <= j < |tasks| => MoveOne(tasks[j], taskId, newPipeline))
  }

  /** Drag-end always clears the dragged card; without a drop target the
      tasks are left alone, otherwise the dragged task moves. */
  function DragEnd(b: Board, activeId: string, over: Option<string>): (r: Board)
    ensures r.activeTask.None?
    ensures over.None? ==> r.tasks == b.tasks
    ensures over.Some? ==> r.tasks == MoveTask(b.tasks, activeId, over.value)
  {
    if over.None? then Board(b.tasks, None)
    else Board(MoveTask(b.tasks, activeId, over.value), None)
  }

  /** Moving a task twice to the same pipeline is the same as moving it once. */
  lemma MoveTaskIdempotent(tasks: seq<Task>, taskId: string, newPipeline: string)
    ensures MoveTask(MoveTask(tasks, taskId, newPipeline), taskId, newPipeline)
         == MoveTask(tasks, taskId, newPipeline)
  {
  }

  /** Moving a task no task carries changes nothing. */
  lemma MoveTaskAbsent(tasks: seq<Task>, taskId: string, newPipeline: string)
    requires forall j :: 0 <= j < |tasks| ==> tasks[j].id != taskId
    ensures MoveTask(tasks, taskId, newPipeline) == tasks
  {
  }

  /** Moving a task back to the pipeline every copy of it came from restores the board. */
  lemma MoveTaskBack(tasks: seq<Task>, taskId: string, from: string, to: string)
    requires forall j :: 0 <= j < |tasks| && tasks[j].id == taskId ==> tasks[j].pipeline == from
    ensures MoveTask(MoveTask(tasks, taskId, to), taskId, from) == tasks
  {
  }

  /** The tasks a pipeline's column shows. */
  function Column(tasks: seq<Task>, pipelineId: string): (r: seq<Task>)
    ensures forall j :: 0 <= j < |r| ==> r[j].pipeline == pipelineId && r[j] in tasks
    ensures forall j :: 0 <= j < |tasks| && tasks[j].pipeline == pipelineId ==> tasks[j] in r
  {
    Filter(tasks, (t: Task) => t.pipeline == pipelineId)
  }

  /** Columns keep board order: the column of a concatenation is the
      concatenation of the columns. */
  lemma ColumnKeepsOrder(a: seq<Task>, b: seq<Task>, pipelineId: string)
    ensures Column(a + b, pipelineId) == Column(a, pipelineId) + Column(b, pipelineId)
  {
    FilterAppend(a, b, (t: Task) => t.pipeline == pipelineId);
  }

  /** The count in a column's header. */
  function TaskCount(tasks: seq<Task>, pipelineId: string): (n: nat)
    ensures n <= |tasks|
    ensures n == |Column(tasks, pipelineId)|
  {
    Count(tasks, (t: Task) => t.pipeline == pipelineId)
  }

  /** After a drop on `target`, every other column has lost exactly the moved
      task's cards. */
  lemma {:induction false} DropColumns(tasks: seq<Task>, taskId: string, target: string, other: string)
    requires other != target
    ensures Column(MoveTask(tasks, taskId, target), other)
         == Filter(Column(tasks, other), (t: Task) => t.id != taskId)
  {
    if tasks != [] {
      var moved := MoveTask(tasks, taskId, target);
      assert tasks == [tasks[0]] + tasks[1..];
      assert moved == [moved[0]] + MoveTask(tasks[1..], taskId, target);
      ColumnKeepsOrder([moved[0]], MoveTask(tasks[1..], taskId, target), other);
      ColumnKeepsOrder([tasks[0]], tasks[1..], other);
      FilterAppend(Column([tasks[0]], other), Column(tasks[1..], other), (t: Task) => t.id != taskId);
      DropColumns(tasks[1..], taskId, target, other);
    }
  }

  predicate DistinctIds(pipelines: seq<Pipeline>)
  {
    forall i, k :: 0 <= i < k < |pipelines| ==> pipelines[i].id != pipelines[k].id
  }

  /** With distinct pipeline ids a task is shown in at most one column. */
  lemma AtMostOneColumn(pipelines: seq<Pipeline>, tasks: seq<Task>, t: Task, i: nat, k: nat)
    requires DistinctIds(pipelines)
    requires i < |pipelines| && k < |pipelines|
    requires t in Column(tasks, pipelines[i].id) && t in Column(tasks, pipelines[k].id)
    ensures i == k
  {
    var a :| 0 <= a < |Column(tasks, pipelines[i].id)| && Column(tasks, pipelines[i].id)[a] == t;
    var c :| 0 <= c < |Column(tasks, pipelines[k].id)| && Column(tasks, pipelines[k].id)[c] == t;
  }

  /** A task whose pipeline is no column's id is shown nowhere. */
  lemma UnknownPipelineHidden(pipelines: seq<Pipeline>, tasks: seq<Task>, t: Task)
    requires forall i :: 0 <= i < |pipelines| ==> pipelines[i].id != t.pipeline
    ensures forall i :: 0 <= i < |pipelines| ==> t !in Column(tasks, pipelines[i].id)
  {
    forall i | 0 <= i < |pipelines| ensures t !in Column(tasks, pipelines[i].id) {
      var col := Column(tasks, pipelines[i].id);
      assert forall a :: 0 <= a < |col| ==> col[a] != t;
    }
  }

  /** The number of cards on the whole board. */
  function CardsShown(pipelines: seq<Pipeline>, tasks: seq<Task>): nat
  {
    if pipelines == [] then 0 else TaskCount(tasks, pipelines[0].id) + CardsShown(pipelines[1..], tasks)
  }

  /** The tasks whose pipeline is one of the board's columns. */
  function OnBoard(pipelines: seq<Pipeline>, tasks: seq<Task>): seq<Task>
  {
    Filter(tasks, (t: Task) => exists i :: 0 <= i < |pipelines| && pipelines[i].id == t.pipeline)
  }

  /** How many columns have the given id. */
  function ColumnsWithId(pipelines: seq<Pipeline>, id: string): nat
  {
    if pipelines == [] then 0 else (if pipelines[0].id == id then 1 else 0) + ColumnsWithId(pipelines[1..], id)
  }

  lemma {:induction false} ColumnsWithIdDistinct(pipelines: seq<Pipeline>, id: string)
    requires DistinctIds(pipelines)
    ensures ColumnsWithId(pipelines, id) == if exists i :: 0 <= i < |pipelines| && pipelines[i].id == id then 1 else 0
  {
    if pipelines != [] {
      var rest := pipelines[1..];
      assert DistinctIds(rest) by {
        forall i, k | 0 <= i < k < |rest| ensures rest[i].id != rest[k].id {
          assert rest[i] == pipelines[i + 1] && rest[k] == pipelines[k + 1];
        }
      }
      ColumnsWithIdDistinct(rest, id);
      if pipelines[0].id == id {
        forall i | 0 <= i < |rest| ensures rest[i].id != id {
          assert rest[i] == pipelines[i + 1];
        }
      } else if exists i :: 0 <= i < |pipelines| && pipelines[i].id == id {
        var i :| 0 <= i < |pipelines| && pipelines[i].id == id;
        assert rest[i - 1] == pipelines[i];
      } else {
        forall i | 0 <= i < |rest| ensures rest[i].id != id {
          assert rest[i] == pipelines[i + 1];
        }
      }
    }
  }

  /** Adding one task in front adds one card per column carrying its pipeline. */
  lemma {:induction false} CardsShownCons(pipelines: seq<Pipeline>, t: Task, tasks: seq<Task>)
    ensures CardsShown(pipelines, [t] + tasks) == ColumnsWithId(pipelines, t.pipeline) + CardsShown(pipelines, tasks)
  {
    if pipelines != [] {
      assert ([t] + tasks)[1..] == tasks;
      CardsShownCons(pipelines[1..], t, tasks);
    }
  }

  lemma {:induction false} CardsShownEmpty(pipelines: seq<Pipeline>)
    ensures CardsShown(pipelines, []) == 0
  {
    if pipelines != [] {
      CardsShownEmpty(pipelines[1..]);
    }
  }

  /** The columns partition the tasks on the board: with distinct pipeline ids
      the cards shown are exactly the tasks whose pipeline is a column's id. */
  lemma {:induction false} ColumnsPartition(pipelines: seq<Pipeline>, tasks: seq<Task>)
    requires DistinctIds(pipelines)
    ensures CardsShown(pipelines, tasks) == |OnBoard(pipelines, tasks)|
  {
    if tasks == [] {
      CardsShownEmpty(pipelines);
    } else {
      assert tasks == [tasks[0]] + tasks[1..];
      CardsShownCons(pipelines, tasks[0], tasks[1..]);
      ColumnsWithIdDistinct(pipelines, tasks[0].pipeline);
      ColumnsPartition(pipelines, tasks[1..]);
    }
  }

  /** The priority badge colour. */
  function PriorityColor(priority: string): (c: string)
    ensures c == "#ef4444" <==> priority == "high"
    ensures c == "#f59e0b" <==> priority == "medium"
    ensures c == "#10b981" <==> priority == "low"
    ensures c == "#6b7280" <==> priority != "high" && priority != "medium" && priority != "low"
  {
    match priority
    case "high" => "#ef4444"
    case "medium" => "#f59e0b"
    case "low" => "#10b981"
    case _ => "#6b7280"
  }
}
