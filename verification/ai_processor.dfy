/** `SimpleAIProcessor`: the second ClickUp-to-checkpoint translation, fed by
    the REST API. Checklist items become subtasks, and progress is estimated
    from the status, falling back to the share of resolved checklist items. */
module AiProcessor {
  import opened Wrappers
  import opened Text
  import opened Rounding
  import opened ProjectTypes
  import opened Counting
  import FetchClickUpData

  datatype ApiChecklistItem = ApiChecklistItem(id: string, name: string, resolved: bool, date: string)

  datatype ApiChecklist = ApiChecklist(id: string, name: string, items: Option<seq<ApiChecklistItem>>)

  datatype ApiUser = ApiUser(id: int, username: string, email: string)

  datatype ApiComment = ApiComment(id: string, text: string, user: Option<ApiUser>, date: string)

  /** A ClickUp task; `status` is the task's `status.status` text. */
  datatype ApiTask = ApiTask(
    id: string,
    name: string,
    description: Option<string>,
    status: string,
    dateCreated: string,
    dueDate: Option<string>,
    startDate: Option<string>,
    comments: Option<seq<ApiComment>>,
    checklists: Option<seq<ApiChecklist>>)

  /** The locale rendering of a millisecond timestamp (`None` is `NaN`), a
      parameter of the model. */
  type Renderer = Option<int> -> string

  // ---------------------------------------------------------------------
  // formatDate

  /** Timestamps below this are read as seconds. */
  const MillisThreshold: int := 1000000000000

  /** The seconds-to-milliseconds step of `formatDate`; `NaN` passes through. */
  function NormalizeTimestamp(t: Option<int>): Option<int>
  {
    if t.Some? && t.value < MillisThreshold then Some(t.value * 1000) else t
  }

  /** `formatDate`: '' for an empty string, otherwise the rendering of the
      `parseInt` value, scaled to milliseconds when it is below 10^12. */
  function FormatDate(dateString: string, render: Renderer): (r: string)
    ensures dateString == "" ==> r == ""
    ensures dateString != "" && ParseInt(dateString).Some? && ParseInt(dateString).value < MillisThreshold ==>
      r == render(Some(ParseInt(dateString).value * 1000))
    ensures dateString != "" && (ParseInt(dateString).None? || ParseInt(dateString).value >= MillisThreshold) ==>
      r == render(ParseInt(dateString))
  {
    if dateString == "" then "" else render(NormalizeTimestamp(ParseInt(dateString)))
  }

  /** A decimal timestamp below 10^12 is rendered as that many seconds, one at
      or above 10^12 as that many milliseconds; from 10^9 seconds on, every
      timestamp ends up at or above 10^12 milliseconds. */
  lemma FormatDateOfTimestamp(n: nat, render: Renderer)
    ensures n < MillisThreshold ==> FormatDate(NatToString(n), render) == render(Some(n * 1000))
    ensures n >= MillisThreshold ==> FormatDate(NatToString(n), render) == render(Some(n))
    ensures n >= 1000000000 ==> NormalizeTimestamp(Some(n)).value >= MillisThreshold
  {
    ParseIntRoundTrip(n);
  }

  // ---------------------------------------------------------------------
  // Checklists

  function ChecklistsOf(task: ApiTask): seq<ApiChecklist>
  {
    if task.checklists.Some? then task.checklists.value else []
  }

  function ItemsOf(checklist: ApiChecklist): seq<ApiChecklistItem>
  {
    if checklist.items.Some? then checklist.items.value else []
  }

  /** The items of all checklists, in order. */
  function AllItems(checklists: seq<ApiChecklist>): seq<ApiChecklistItem>
  {
    if |checklists| == 0 then []
    else AllItems(checklists[..|checklists| - 1]) + ItemsOf(checklists[|checklists| - 1])
  }

  predicate IsResolved(item: ApiChecklistItem) { item.resolved }

  /** `items.filter(item => item.resolved).length`. */
  function ResolvedCount(items: seq<ApiChecklistItem>): nat
  {
    Count(items, IsResolved)
  }

  /** The due date every extracted subtask carries. */
  function DueText(task: ApiTask, render: Renderer): string
  {
    if task.dueDate.Some? && task.dueDate.value != "" then FormatDate(task.dueDate.value, render) else ""
  }

  function ItemSubtask(item: ApiChecklistItem, due: string): Subtask
  {
    Subtask(item.id, item.name, item.resolved, due)
  }

  function ItemSubtasks(items: seq<ApiChecklistItem>, due: string): (r: seq<Subtask>)
    ensures |r| == |items|
  {
    seq(|items|, k requires 0 <= k < |items| => ItemSubtask(items[k], due))
  }

  /** What `extractSubtasksFromChecklists` returns: one subtask per checklist
      item, checklists and items in order. */
  function ExtractedSubtasks(task: ApiTask, render: Renderer): seq<Subtask>
  {
    ItemSubtasks(AllItems(ChecklistsOf(task)), DueText(task, render))
  }

  /** `extractSubtasksFromChecklists`: pushes one subtask per item of each checklist. */
  method ExtractSubtasksFromChecklists(task: ApiTask, render: Renderer) returns (subtasks: seq<Subtask>)
    ensures subtasks == ExtractedSubtasks(task, render)
  {
    subtasks := [];
    var due := DueText(task, render);
    if task.checklists.Some? && |task.checklists.value| > 0 {
      var checklists := task.checklists.value;
      var i := 0;
      while i < |checklists|
        invariant 0 <= i <= |checklists|
        invariant subtasks == ItemSubtasks(AllItems(checklists[..i]), due)
      {
        var checklist := checklists[i];
        assert checklists[..i + 1][..i] == checklists[..i];
        if checklist.items.Some? && |checklist.items.value| > 0 {
          var items := checklist.items.value;
          var j := 0;
          while j < |items|
            invariant 0 <= j <= |items|
            invariant subtasks == ItemSubtasks(AllItems(checklists[..i]) + items[..j], due)
          {
            assert items[..j + 1] == items[..j] + [items[j]];
            subtasks := subtasks + [ItemSubtask(items[j], due)];
            j := j + 1;
          }
          assert items[..j] == items;
        }
        i := i + 1;
      }
      assert checklists[..i] == checklists;
    }
  }

  /** Subtask k copies the id, name and resolved flag of item k of the
      concatenated checklists, and all share the task's due date ('' without one). */
  lemma ExtractedSubtaskFields(task: ApiTask, render: Renderer, k: nat)
    requires k < |AllItems(ChecklistsOf(task))|
    ensures var items := AllItems(ChecklistsOf(task));
      var s := ExtractedSubtasks(task, render)[k];
      && |ExtractedSubtasks(task, render)| == |items|
      && s.id == items[k].id && s.title == items[k].name && s.completed == items[k].resolved
      && s.dueDate == (if task.dueDate.None? || task.dueDate.value == "" then "" else FormatDate(task.dueDate.value, render))
  {
  }

  /** The concatenation has as many items as the checklists hold together. */
  lemma {:induction false} AllItemsLength(checklists: seq<ApiChecklist>)
    ensures |AllItems(checklists)| == TotalItems(checklists)
  {
    if |checklists| > 0 {
      AllItemsLength(checklists[..|checklists| - 1]);
    }
  }

  /** The per-checklist item count summed over all checklists. */
  function TotalItems(checklists: seq<ApiChecklist>): nat
  {
    if |checklists| == 0 then 0
    else TotalItems(checklists[..|checklists| - 1]) + |ItemsOf(checklists[|checklists| - 1])|
  }

  // ---------------------------------------------------------------------
  // estimateProgressFromStatus

  predicate IsDoneStatus(s: string) { s == "Concluído" || s == "Completed" || s == "Done" }

  predicate IsIdleStatus(s: string) { s == "Pendente" || s == "To Do" || s == "Blocked" }

  /** The estimate: 100 for a finished status, 0 for a waiting one, otherwise
      the rounded share of resolved checklist items, or 50 without items. */
  function ProgressEstimate(task: ApiTask): (r: int)
    ensures 0 <= r <= 100
  {
    var items := AllItems(ChecklistsOf(task));
    if IsDoneStatus(task.status) then 100
    else if IsIdleStatus(task.status) then 0
    else if |items| > 0 then
      PercentBounds(ResolvedCount(items), |items|);
      Percent(ResolvedCount(items), |items|)
    else 50
  }

  /** `estimateProgressFromStatus`: totals are accumulated checklist by checklist. */
  method EstimateProgressFromStatus(task: ApiTask) returns (progress: int)
    ensures progress == ProgressEstimate(task)
  {
    if task.status == "Concluído" || task.status == "Completed" || task.status == "Done" {
      return 100;
    }
    if task.status == "Pendente" || task.status == "To Do" || task.status == "Blocked" {
      return 0;
    }
    if task.checklists.Some? && |task.checklists.value| > 0 {
      var checklists := task.checklists.value;
      var totalItems, resolvedItems := 0, 0;
      var i := 0;
      while i < |checklists|
        invariant 0 <= i <= |checklists|
        invariant totalItems == |AllItems(checklists[..i])|
        invariant resolvedItems == ResolvedCount(AllItems(checklists[..i]))
      {
        var checklist := checklists[i];
        if checklist.items.Some? && |checklist.items.value| > 0 {
          totalItems := totalItems + |checklist.items.value|;
          resolvedItems := resolvedItems + ResolvedCount(checklist.items.value);
        }
        assert checklists[..i + 1][..i] == checklists[..i];
        CountAppend(AllItems(checklists[..i]), ItemsOf(checklist), IsResolved);
        i := i + 1;
      }
      assert checklists[..i] == checklists;
      if totalItems > 0 {
        return Percent(resolvedItems, totalItems);
      }
    }
    return 50;
  }

  /** The branches of the estimate: 100, 0, the checklist share, 50. */
  lemma ProgressEstimateCases(task: ApiTask)
    ensures IsDoneStatus(task.status) ==> ProgressEstimate(task) == 100
    ensures IsIdleStatus(task.status) ==> ProgressEstimate(task) == 0
    ensures !IsDoneStatus(task.status) && !IsIdleStatus(task.status) && TotalItems(ChecklistsOf(task)) == 0 ==>
      ProgressEstimate(task) == 50
    ensures !IsDoneStatus(task.status) && !IsIdleStatus(task.status) && TotalItems(ChecklistsOf(task)) > 0 ==>
      ProgressEstimate(task) == Percent(ResolvedCount(AllItems(ChecklistsOf(task))), TotalItems(ChecklistsOf(task)))
  {
    AllItemsLength(ChecklistsOf(task));
  }

  /** The subtasks made from checklist items are completed exactly as often as
      the items are resolved. */
  lemma CompletedMatchesResolved(items: seq<ApiChecklistItem>, due: string)
    ensures FetchClickUpData.CompletedCount(ItemSubtasks(items, due)) == ResolvedCount(items)
  {
    CountPointwise(ItemSubtasks(items, due), FetchClickUpData.IsCompleted, items, IsResolved);
  }

  /** For a task in progress with checklist items, the estimate is exactly the
      progress the webhook pipeline would compute from the extracted subtasks. */
  lemma EstimateAgreesWithSubtaskProgress(task: ApiTask, render: Renderer)
    requires !IsDoneStatus(task.status) && !IsIdleStatus(task.status)
    requires TotalItems(ChecklistsOf(task)) > 0
    ensures ProgressEstimate(task) == FetchClickUpData.CalculateProgress(ExtractedSubtasks(task, render))
  {
    AllItemsLength(ChecklistsOf(task));
    CompletedMatchesResolved(AllItems(ChecklistsOf(task)), DueText(task, render));
  }

  // ---------------------------------------------------------------------
  // translateTaskToCheckpoint

  /** The status map `interpretKanbanData` passes. */
  const KanbanStatusMap: map<string, Status> := map[
    "Concluído" := Completed,
    "Completed" := Completed,
    "Done" := Completed,
    "Em andamento" := InProgress,
    "In Progress" := InProgress,
    "Pendente" := Pending,
    "To Do" := Pending,
    "Blocked" := Pending]

  /** `task.status.status || "To Do"`. */
  function StatusKey(task: ApiTask): string
  {
    if task.status != "" then task.status else "To Do"
  }

  /** A REST comment: the author is the user's non-empty username, otherwise 'Usuário'. */
  function TranslateComment(c: ApiComment, render: Renderer): (r: Comment)
    ensures r.id == c.id && r.text == c.text && r.date == FormatDate(c.date, render)
    ensures c.user.Some? && c.user.value.username != "" ==> r.author == c.user.value.username
    ensures c.user.None? || c.user.value.username == "" ==> r.author == "Usuário"
  {
    Comment(
      c.id,
      if c.user.Some? && c.user.value.username != "" then c.user.value.username else "Usuário",
      FormatDate(c.date, render),
      c.text)
  }

  /** `translateTaskToCheckpoint`; `statusMap` defaults to the empty map in the source. */
  function TranslateTaskToCheckpoint(task: ApiTask, statusMap: map<string, Status>, render: Renderer): (cp: Checkpoint)
    ensures cp.id == task.id && cp.name == task.name
    ensures cp.status != Pending ==> StatusKey(task) in statusMap && cp.status == statusMap[StatusKey(task)]
    ensures cp.progress == ProgressEstimate(task) && 0 <= cp.progress <= 100
    ensures cp.subtasks == ExtractedSubtasks(task, render)
    ensures |cp.comments| == (if task.comments.Some? then |task.comments.value| else 0)
  {
    var key := StatusKey(task);
    Checkpoint(
      task.id,
      task.name,
      if key in statusMap then statusMap[key] else Pending,
      if task.description.Some? then task.description.value else "",
      if task.startDate.Some? && task.startDate.value != "" then FormatDate(task.startDate.value, render)
      else FormatDate(task.dateCreated, render),
      if task.dueDate.Some? && task.dueDate.value != "" then FormatDate(task.dueDate.value, render) else "",
      ProgressEstimate(task),
      ExtractedSubtasks(task, render),
      match task.comments
      case None => []
      case Some(cs) => seq(|cs|, k requires 0 <= k < |cs| => TranslateComment(cs[k], render)))
  }

  /** Id and name are copied; the description is kept, '' when missing; a
      missing or empty start date falls back to the creation date and a missing
      or empty due date gives ''; progress and subtasks are the estimate and the
      extracted checklist items. */
  lemma CheckpointFields(task: ApiTask, statusMap: map<string, Status>, render: Renderer)
    ensures var cp := TranslateTaskToCheckpoint(task, statusMap, render);
      && cp.id == task.id && cp.name == task.name
      && (task.description.Some? ==> cp.description == task.description.value)
      && (task.description.None? ==> cp.description == "")
      && (task.startDate.Some? && task.startDate.value != "" ==> cp.startDate == FormatDate(task.startDate.value, render))
      && (task.startDate.None? || task.startDate.value == "" ==> cp.startDate == FormatDate(task.dateCreated, render))
      && (task.dueDate.Some? && task.dueDate.value != "" ==> cp.endDate == FormatDate(task.dueDate.value, render))
      && (task.dueDate.None? || task.dueDate.value == "" ==> cp.endDate == "")
      && cp.progress == ProgressEstimate(task) && 0 <= cp.progress <= 100
      && |cp.subtasks| == TotalItems(ChecklistsOf(task))
  {
    AllItemsLength(ChecklistsOf(task));
  }

  /** Comment k of the checkpoint keeps the REST comment's id and text; its
      author is the non-empty username, otherwise 'Usuário'. */
  lemma CheckpointComments(task: ApiTask, statusMap: map<string, Status>, render: Renderer, k: nat)
    requires task.comments.Some? && k < |task.comments.value|
    ensures var c := task.comments.value[k];
      var cm := TranslateTaskToCheckpoint(task, statusMap, render).comments[k];
      && cm.id == c.id && cm.text == c.text
      && (c.user.Some? && c.user.value.username != "" ==> cm.author == c.user.value.username)
      && (c.user.None? || c.user.value.username == "" ==> cm.author == "Usuário")
  {
  }

  /** The status lookup: case-sensitive, a missing status reads as "To Do",
      and anything the map does not hold is `pending`. */
  lemma CheckpointStatus(task: ApiTask, statusMap: map<string, Status>, render: Renderer)
    ensures var st := TranslateTaskToCheckpoint(task, statusMap, render).status;
      && (task.status != "" && task.status in statusMap ==> st == statusMap[task.status])
      && (task.status != "" && task.status !in statusMap ==> st == Pending)
      && (task.status == "" ==> st == if "To Do" in statusMap then statusMap["To Do"] else Pending)
  {
  }

  /** With the default (empty) map every checkpoint is pending. */
  lemma DefaultMapIsAlwaysPending(task: ApiTask, render: Renderer)
    ensures TranslateTaskToCheckpoint(task, map[], render).status == Pending
  {
  }

  /** Under the Kanban map 'Done' is completed but 'done' is pending, while the
      webhook pipeline's case-insensitive map calls both completed. */
  lemma KanbanMapIsCaseSensitive(task: ApiTask, render: Renderer)
    ensures task.status == "Done" ==> TranslateTaskToCheckpoint(task, KanbanStatusMap, render).status == Completed
    ensures task.status == "done" ==> TranslateTaskToCheckpoint(task, KanbanStatusMap, render).status == Pending
    ensures FetchClickUpData.MapStatus("done") == FetchClickUpData.MapStatus("Done") == Completed
  {
    assert Lower("Done") == "done";
    assert Lower("done") == "done";
  }

  /** A task with an empty status and no checklist items is a pending
      checkpoint under the Kanban map, yet its progress is estimated at 50:
      the status lookup reads '' as "To Do", the estimate does not. */
  lemma EmptyStatusReadTwoWays(task: ApiTask, render: Renderer)
    requires task.status == "" && TotalItems(ChecklistsOf(task)) == 0
    ensures TranslateTaskToCheckpoint(task, KanbanStatusMap, render).status == Pending
    ensures TranslateTaskToCheckpoint(task, KanbanStatusMap, render).progress == 50
  {
    AllItemsLength(ChecklistsOf(task));
  }

  /** For a task in progress with checklist items, the checkpoint's progress is
      the subtask percentage of its own subtasks. */
  lemma CheckpointProgressMatchesSubtasks(task: ApiTask, statusMap: map<string, Status>, render: Renderer)
    requires !IsDoneStatus(task.status) && !IsIdleStatus(task.status)
    requires TotalItems(ChecklistsOf(task)) > 0
    ensures var cp := TranslateTaskToCheckpoint(task, statusMap, render);
      cp.progress == FetchClickUpData.CalculateProgress(cp.subtasks)
  {
    EstimateAgreesWithSubtaskProgress(task, render);
  }
}
