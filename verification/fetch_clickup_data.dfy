/** The webhook pipeline that turns ClickUp tasks into project stages.
    The same code stands in three files of the repository (a library copy, a
    TypeScript script and a JavaScript script); this module models all three.
    The HTTP request and the JSON file the scripts write are not modelled: the
    response, or the error it failed with, is a parameter. */
module FetchClickUpData {
  import opened Wrappers
  import opened Text
  import opened Rounding
  import opened ProjectTypes
  import opened Counting

  /** A date field as the webhook sends it: text or a millisecond timestamp. */
  datatype DateValue = DateText(text: string) | DateNumber(millis: int)

  datatype ClickUpUser = ClickUpUser(id: string, name: string)

  datatype ClickUpSubtask = ClickUpSubtask(id: string, name: string, status: string, dueDate: Option<DateValue>)

  datatype ClickUpComment = ClickUpComment(id: string, text: string, date: DateValue, user: Option<ClickUpUser>)

  datatype ClickUpTask = ClickUpTask(
    id: string,
    name: string,
    description: Option<string>,
    status: string,
    startDate: Option<DateValue>,
    dueDate: Option<DateValue>,
    subtasks: Option<seq<ClickUpSubtask>>,
    comments: Option<seq<ClickUpComment>>)

  datatype ClickUpResponse = ClickUpResponse(tasks: Option<seq<ClickUpTask>>)

  datatype ProjectData = ProjectData(projectStages: seq<Checkpoint>)

  /** The lower-case ClickUp statuses the dashboard knows. */
  const StatusTable: map<string, Status> := map[
    "complete" := Completed,
    "in progress" := InProgress,
    "to do" := Pending,
    "open" := Pending,
    "in review" := InProgress,
    "closed" := Completed,
    "done" := Completed]

  /** `mapStatus`: a case-insensitive lookup with `pending` as the default. */
  function MapStatus(clickupStatus: string): (r: Status)
    ensures r == Completed <==> Lower(clickupStatus) in {"complete", "closed", "done"}
    ensures r == InProgress <==> Lower(clickupStatus) in {"in progress", "in review"}
    ensures r == Pending <==> Lower(clickupStatus) !in {"complete", "closed", "done", "in progress", "in review"}
  {
    var key := Lower(clickupStatus);
    if key in StatusTable then StatusTable[key] else Pending
  }

  /** Statuses that differ only in the case of ASCII letters map alike, and a
      status maps as its own lower-case form does. */
  lemma MapStatusIgnoresCase(a: string, b: string)
    ensures Lower(a) == Lower(b) ==> MapStatus(a) == MapStatus(b)
    ensures MapStatus(Lower(a)) == MapStatus(a)
  {
    LowerIdempotent(a);
  }

  /** JavaScript truthiness of a date field (`NaN` is not modelled). */
  predicate Truthy(d: DateValue)
  {
    match d
    case DateText(t) => t != ""
    case DateNumber(n) => n != 0
  }

  /** `formatDate`: '' for a missing or falsy value, otherwise the locale
      rendering, which is a parameter of the model. */
  function FormatDate(d: Option<DateValue>, render: DateValue -> string): (r: string)
    ensures d.Some? && Truthy(d.value) ==> r == render(d.value)
    ensures d.None? || !Truthy(d.value) ==> r == ""
  {
    if d.Some? && Truthy(d.value) then render(d.value) else ""
  }

  predicate IsCompleted(s: Subtask) { s.completed }

  /** `subtasks.filter(task => task.completed).length`. */
  function CompletedCount(subtasks: seq<Subtask>): nat
  {
    Count(subtasks, IsCompleted)
  }

  /** `calculateProgress`: the rounded percentage of completed subtasks. */
  function CalculateProgress(subtasks: seq<Subtask>): (r: int)
    ensures 0 <= r <= 100
    ensures |subtasks| == 0 ==> r == 0
  {
    if |subtasks| == 0 then 0
    else
      PercentBounds(CompletedCount(subtasks), |subtasks|);
      Percent(CompletedCount(subtasks), |subtasks|)
  }

  /** All subtasks done gives 100; none done gives 0. */
  lemma {:induction false} CalculateProgressExtremes(subtasks: seq<Subtask>)
    ensures |subtasks| > 0 && (forall k :: 0 <= k < |subtasks| ==> subtasks[k].completed) ==> CalculateProgress(subtasks) == 100
    ensures (forall k :: 0 <= k < |subtasks| ==> !subtasks[k].completed) ==> CalculateProgress(subtasks) == 0
  {
    CountAllOrNone(subtasks, IsCompleted);
    if |subtasks| > 0 {
      PercentBounds(CompletedCount(subtasks), |subtasks|);
    }
  }

  // ---------------------------------------------------------------------
  // The task-to-stage mapping

  function StageId(index: nat): string { "phase-" + NatToString(index + 1) }

  function SubtaskId(index: nat, subIndex: nat): string
  {
    "subtask-" + NatToString(index) + "-" + NatToString(subIndex)
  }

  function CommentId(index: nat, commentIndex: nat): string
  {
    "comment-" + NatToString(index) + "-" + NatToString(commentIndex)
  }

  function DefaultDescription(index: nat): string
  {
    "Etapa " + NatToString(index + 1) + " do projeto"
  }

  /** A ClickUp subtask counts as done only for the exact statuses 'complete' and 'done'. */
  predicate SubtaskDone(status: string) { status == "complete" || status == "done" }

  /** One subtask of the task at `index`: its id names both positions, and it
      is completed exactly for the raw statuses 'complete' and 'done'. */
  function ToSubtask(s: ClickUpSubtask, index: nat, subIndex: nat, render: DateValue -> string): (r: Subtask)
    ensures r.id == SubtaskId(index, subIndex) && r.title == s.name
    ensures r.completed <==> s.status == "complete" || s.status == "done"
    ensures r.dueDate == FormatDate(s.dueDate, render)
  {
    Subtask(SubtaskId(index, subIndex), s.name, SubtaskDone(s.status), FormatDate(s.dueDate, render))
  }

  /** One comment of the task at `index`: the author is the user's name, or
      'Usuário' when the comment has no user. */
  function ToComment(c: ClickUpComment, index: nat, commentIndex: nat, render: DateValue -> string): (r: Comment)
    ensures r.id == CommentId(index, commentIndex) && r.text == c.text
    ensures c.user.Some? ==> r.author == c.user.value.name
    ensures c.user.None? ==> r.author == "Usuário"
    ensures r.date == FormatDate(Some(c.date), render)
  {
    Comment(
      CommentId(index, commentIndex),
      if c.user.Some? then c.user.value.name else "Usuário",
      FormatDate(Some(c.date), render),
      c.text)
  }

  function ToSubtasks(raw: Option<seq<ClickUpSubtask>>, index: nat, render: DateValue -> string): seq<Subtask>
  {
    match raw
    case None => []
    case Some(xs) => seq(|xs|, j requires 0 <= j < |xs| => ToSubtask(xs[j], index, j, render))
  }

  function ToComments(raw: Option<seq<ClickUpComment>>, index: nat, render: DateValue -> string): seq<Comment>
  {
    match raw
    case None => []
    case Some(xs) => seq(|xs|, k requires 0 <= k < |xs| => ToComment(xs[k], index, k, render))
  }

  /** The stage built from the task at position `index`. */
  function ToStage(task: ClickUpTask, index: nat, render: DateValue -> string): (st: Checkpoint)
    ensures st.id == StageId(index) && st.name == task.name && st.status == MapStatus(task.status)
    ensures |st.subtasks| == (if task.subtasks.Some? then |task.subtasks.value| else 0)
    ensures |st.comments| == (if task.comments.Some? then |task.comments.value| else 0)
    ensures st.progress == CalculateProgress(st.subtasks) && 0 <= st.progress <= 100
    ensures st.startDate == FormatDate(task.startDate, render) && st.endDate == FormatDate(task.dueDate, render)
  {
    var subtasks := ToSubtasks(task.subtasks, index, render);
    Checkpoint(
      StageId(index),
      task.name,
      MapStatus(task.status),
      if task.description.Some? && task.description.value != "" then task.description.value
      else DefaultDescription(index),
      FormatDate(task.startDate, render),
      FormatDate(task.dueDate, render),
      CalculateProgress(subtasks),
      subtasks,
      ToComments(task.comments, index, render))
  }

  /** `clickupData.tasks.map((task, index) => ...)`. */
  function TransformTasks(tasks: seq<ClickUpTask>, render: DateValue -> string): (stages: seq<Checkpoint>)
    ensures |stages| == |tasks|
  {
    seq(|tasks|, i requires 0 <= i < |tasks| => ToStage(tasks[i], i, render))
  }

  /** `fetchClickUpData`: `response` is what the webhook request produced — the
      response body (`None` for an empty one) or the error it failed with. */
  function FetchClickUpData(response: Result<Option<ClickUpResponse>>, render: DateValue -> string): (r: Option<ProjectData>)
    ensures r.Some? <==> response.Success? && response.value.Some? && response.value.value.tasks.Some?
    ensures r.Some? ==> |r.value.projectStages| == |response.value.value.tasks.value|
  {
    match response
    case Failure(_) => None
    case Success(None) => None
    case Success(Some(data)) =>
      if data.tasks.None? then None
      else Some(ProjectData(TransformTasks(data.tasks.value, render)))
  }

  // ---------------------------------------------------------------------
  // Properties of the mapping

  /** Stage i keeps the task's name, gets id `phase-{i+1}`, the mapped status,
      the description or `Etapa {i+1} do projeto`, one subtask and one comment
      per raw entry (none when the list is missing), and a progress computed
      from its own subtasks. */
  lemma StageFields(tasks: seq<ClickUpTask>, render: DateValue -> string, i: nat)
    requires i < |tasks|
    ensures var st := TransformTasks(tasks, render)[i];
      && st.id == "phase-" + NatToString(i + 1)
      && st.name == tasks[i].name
      && st.status == MapStatus(tasks[i].status)
      && (tasks[i].description.None? || tasks[i].description.value == "" ==> st.description == "Etapa " + NatToString(i + 1) + " do projeto")
      && (tasks[i].description.Some? && tasks[i].description.value != "" ==> st.description == tasks[i].description.value)
      && |st.subtasks| == (if tasks[i].subtasks.Some? then |tasks[i].subtasks.value| else 0)
      && |st.comments| == (if tasks[i].comments.Some? then |tasks[i].comments.value| else 0)
      && st.progress == CalculateProgress(st.subtasks)
      && 0 <= st.progress <= 100
  {
  }

  /** Stage ids are pairwise distinct. */
  lemma StageIdsDistinct(tasks: seq<ClickUpTask>, render: DateValue -> string, i: nat, j: nat)
    requires i < |tasks| && j < |tasks| && i != j
    ensures TransformTasks(tasks, render)[i].id != TransformTasks(tasks, render)[j].id
  {
    PrefixCancel("phase-", NatToString(i + 1), NatToString(j + 1));
    NatToStringInjective(i + 1, j + 1);
  }

  /** Subtask j of task i has id `subtask-{i}-{j}`, the raw name, and is
      completed exactly when the raw status is 'complete' or 'done'. */
  lemma SubtaskFields(tasks: seq<ClickUpTask>, render: DateValue -> string, i: nat, j: nat)
    requires i < |tasks| && tasks[i].subtasks.Some? && j < |tasks[i].subtasks.value|
    ensures var s := TransformTasks(tasks, render)[i].subtasks[j];
      && s.id == "subtask-" + NatToString(i) + "-" + NatToString(j)
      && s.title == tasks[i].subtasks.value[j].name
      && (s.completed <==> tasks[i].subtasks.value[j].status in {"complete", "done"})
  {
  }

  /** No two subtasks anywhere in the output share an id. */
  lemma SubtaskIdsDistinct(tasks: seq<ClickUpTask>, render: DateValue -> string, i1: nat, j1: nat, i2: nat, j2: nat)
    requires i1 < |tasks| && tasks[i1].subtasks.Some? && j1 < |tasks[i1].subtasks.value|
    requires i2 < |tasks| && tasks[i2].subtasks.Some? && j2 < |tasks[i2].subtasks.value|
    requires (i1, j1) != (i2, j2)
    ensures TransformTasks(tasks, render)[i1].subtasks[j1].id != TransformTasks(tasks, render)[i2].subtasks[j2].id
  {
    var stages := TransformTasks(tasks, render);
    assert stages[i1].subtasks[j1].id == SubtaskId(i1, j1);
    assert stages[i2].subtasks[j2].id == SubtaskId(i2, j2);
    var x1, y1, x2, y2 := NatToString(i1), NatToString(j1), NatToString(i2), NatToString(j2);
    assert SubtaskId(i1, j1) == "subtask-" + (x1 + "-" + y1);
    assert SubtaskId(i2, j2) == "subtask-" + (x2 + "-" + y2);
    PrefixCancel("subtask-", x1 + "-" + y1, x2 + "-" + y2);
    DigitsPairInjective(x1, y1, x2, y2, '-');
    NatToStringInjective(i1, i2);
    NatToStringInjective(j1, j2);
  }

  /** Comment k of stage i has id `comment-{i}-{k}`, the raw text, and the
      user's name as author, or 'Usuário' when the comment has no user. */
  lemma CommentFields(tasks: seq<ClickUpTask>, render: DateValue -> string, i: nat, k: nat)
    requires i < |tasks| && tasks[i].comments.Some? && k < |tasks[i].comments.value|
    ensures var c := tasks[i].comments.value[k];
      var cm := TransformTasks(tasks, render)[i].comments[k];
      && cm.id == "comment-" + NatToString(i) + "-" + NatToString(k)
      && cm.text == c.text
      && (c.user.Some? ==> cm.author == c.user.value.name)
      && (c.user.None? ==> cm.author == "Usuário")
  {
  }

  /** No two comments anywhere in the output share an id. */
  lemma CommentIdsDistinct(tasks: seq<ClickUpTask>, render: DateValue -> string, i1: nat, k1: nat, i2: nat, k2: nat)
    requires i1 < |tasks| && tasks[i1].comments.Some? && k1 < |tasks[i1].comments.value|
    requires i2 < |tasks| && tasks[i2].comments.Some? && k2 < |tasks[i2].comments.value|
    requires (i1, k1) != (i2, k2)
    ensures TransformTasks(tasks, render)[i1].comments[k1].id != TransformTasks(tasks, render)[i2].comments[k2].id
  {
    var stages := TransformTasks(tasks, render);
    assert stages[i1].comments[k1].id == CommentId(i1, k1);
    assert stages[i2].comments[k2].id == CommentId(i2, k2);
    var x1, y1, x2, y2 := NatToString(i1), NatToString(k1), NatToString(i2), NatToString(k2);
    assert CommentId(i1, k1) == "comment-" + (x1 + "-" + y1);
    assert CommentId(i2, k2) == "comment-" + (x2 + "-" + y2);
    PrefixCancel("comment-", x1 + "-" + y1, x2 + "-" + y2);
    DigitsPairInjective(x1, y1, x2, y2, '-');
    NatToStringInjective(i1, i2);
    NatToStringInjective(k1, k2);
  }

  /** Subtask completion is case-sensitive, unlike `mapStatus`: a task whose
      status is 'Complete' is a completed stage, a subtask with that status is
      not completed. */
  lemma CompletionIsCaseSensitive()
    ensures MapStatus("Complete") == Completed
    ensures !SubtaskDone("Complete")
  {
    assert Lower("Complete") == "complete";
  }

  predicate IsRawDone(x: ClickUpSubtask) { SubtaskDone(x.status) }

  /** Number of raw subtasks whose status is exactly 'complete' or 'done'. */
  function DoneCount(xs: seq<ClickUpSubtask>): nat
  {
    Count(xs, IsRawDone)
  }

  /** A stage's progress is the rounded share of its raw subtasks whose status
      is 'complete' or 'done', and 0 when it has none. */
  lemma StageProgressFromRaw(tasks: seq<ClickUpTask>, render: DateValue -> string, i: nat)
    requires i < |tasks|
    ensures var raw := if tasks[i].subtasks.Some? then tasks[i].subtasks.value else [];
      TransformTasks(tasks, render)[i].progress == if |raw| == 0 then 0 else Percent(DoneCount(raw), |raw|)
  {
    var raw := if tasks[i].subtasks.Some? then tasks[i].subtasks.value else [];
    var st := TransformTasks(tasks, render)[i];
    CountPointwise(st.subtasks, IsCompleted, raw, IsRawDone);
  }
}
