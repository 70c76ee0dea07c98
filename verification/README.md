# ClickUp project dashboard — a Dafny model

This project models the logic of a React dashboard that shows a client the progress of a project managed in ClickUp.

**Data pipelines.** Two pipelines turn ClickUp tasks into project checkpoints.
- The webhook pipeline, `fetchClickUpData`, appears as a library copy and two script copies. One module models all three. Each task becomes a stage with:
  - a generated id;
  - a status taken case-insensitively from a table;
  - a description, defaulted when missing;
  - subtasks and comments;
  - a progress percentage computed from the subtasks.
- The `SimpleAIProcessor` translates REST tasks instead:
  - checklist items become subtasks;
  - progress is estimated from the status, falling back to the share of resolved items;
  - timestamps in seconds are scaled to milliseconds.

**Service.** `ClickUpService` keeps a single cached project for `refreshInterval` minutes. It builds the project from the checkpoints: the mean progress, the span from the first start to the last end, and the days remaining.

**Dashboard components.**
- The Kanban board filters its tasks into four status columns.
- A task card toggles checklist items and raises a notice when an item is completed.
- The comment section appends non-blank comments and derives initials.
- The meeting schedule sorts meetings chronologically.
- The progress panel computes an overall percentage and the pie chart.

**Modelling conventions.**
- Pure code is modelled as functions.
- Components and the service that update state in place are classes, with `modifies` clauses. The methods of `ClickUpService`, `TaskCardState` and `CommentSectionState` are tied to pure step functions, and the lemmas are stated about those step functions. The two methods of the Kanban board's `BoardState` state its two fields outright.
- The two loops of the AI processor are methods with loop invariants, proved against recursive specifications.
- JavaScript primitives live in module `Text`: decimal rendering, `parseInt`, `split`/`join`, `trim` and ASCII case mapping.
- `Math.round(p/q)` is exact round-half-up, in module `Rounding`.
- Locale date rendering, the day arithmetic of `Date`, the clock and the remote calls are parameters.

## Model

| member | source | states |
|---|---|---|
| Text.ParseIntRoundTrip | src/lib/ai-processor.ts:164 | `parseInt` of a rendered natural number gives back that number |
| Text.TrimEmptyIffBlank | src/components/dashboard/CommentSection.tsx:29 | `trim()` yields '' exactly when every character is JavaScript whitespace |
| Rounding.PercentBounds | src/components/dashboard/TaskCard.tsx:43 | the rounded percentage of a part of a whole lies in 0..100, is 0 for no part and 100 for the whole |
| FetchClickUpData.MapStatus | src/lib/fetchClickUpData.ts:76-88 | the lower-cased status is 'complete', 'closed' or 'done' iff completed; 'in progress' or 'in review' iff in progress; anything else (including 'to do', 'open') iff pending |
| FetchClickUpData.MapStatusIgnoresCase | src/scripts/fetchClickUpData.js:13-25 | statuses equal up to ASCII case map alike, and a status maps as its lower-case form does |
| FetchClickUpData.CalculateProgress | src/scripts/fetchClickUpData.ts:108-113 | progress is in 0..100, and 0 for an empty subtask list |
| FetchClickUpData.CalculateProgressExtremes | src/lib/fetchClickUpData.ts:107-112 | all subtasks completed gives 100, none completed gives 0 |
| FetchClickUpData.TransformTasks | src/lib/fetchClickUpData.ts:132-161 | one stage per task |
| FetchClickUpData.FetchClickUpData | src/lib/fetchClickUpData.ts:117-177 | data is returned iff the request succeeded with a body holding a task list, and then with one stage per task; a failed request or a missing body or task list gives nothing |
| FetchClickUpData.StageFields | src/scripts/fetchClickUpData.ts:151-161 | stage i has id `phase-{i+1}`, the task's name, the mapped status, the description or `Etapa {i+1} do projeto` when it is missing or empty, one subtask/comment per raw entry (none when absent), and progress computed from its own subtasks, in 0..100 |
| FetchClickUpData.StageIdsDistinct | src/scripts/fetchClickUpData.js:88 | two different stages never share an id |
| FetchClickUpData.SubtaskFields | src/scripts/fetchClickUpData.js:71-76 | subtask j of task i has id `subtask-{i}-{j}`, the raw name, and is completed iff the raw status is exactly 'complete' or 'done' |
| FetchClickUpData.SubtaskIdsDistinct | src/lib/fetchClickUpData.ts:134-139 | no two subtasks anywhere in the output share an id |
| FetchClickUpData.CompletionIsCaseSensitive | src/lib/fetchClickUpData.ts:137 | 'Complete' makes a completed stage but not a completed subtask |
| FetchClickUpData.StageProgressFromRaw | src/lib/fetchClickUpData.ts:157 | a stage's progress is the rounded share of raw subtasks with status 'complete' or 'done', 0 without subtasks |
| FetchClickUpData.FormatDate | src/lib/fetchClickUpData.ts:95-100 | a missing or falsy date (empty string, 0) renders as '', any other date through the locale renderer |
| FetchClickUpData.ToSubtask | src/lib/fetchClickUpData.ts:134-139 | the subtask has id `subtask-{i}-{j}` and the raw name, is completed iff the raw status is exactly 'complete' or 'done', and its due date is the formatted raw one |
| FetchClickUpData.ToComment | src/lib/fetchClickUpData.ts:142-147 | the comment has id `comment-{i}-{k}` and the raw text and date; the author is the user's name, or 'Usuário' without a user |
| FetchClickUpData.ToStage | src/lib/fetchClickUpData.ts:132-161 | the stage has id `phase-{i+1}`, the task's name and mapped status, one subtask and one comment per raw entry, progress computed from its own subtasks and in 0..100, and the formatted start and due dates |
| FetchClickUpData.CommentFields | src/scripts/fetchClickUpData.ts:145 | comment k of stage i has id `comment-{i}-{k}`, the raw text, and the user's name as author, 'Usuário' without a user |
| FetchClickUpData.CommentIdsDistinct | src/lib/fetchClickUpData.ts:143 | no two comments anywhere in the output share an id |
| AiProcessor.FormatDateOfTimestamp | src/lib/ai-processor.ts:160-175 | a decimal timestamp below 10^12 is rendered as seconds (times 1000), one at or above as milliseconds |
| AiProcessor.FormatDate | src/lib/ai-processor.ts:160-175 | '' for an empty string; otherwise the `parseInt` value is rendered, times 1000 when it is below 10^12, and a string that does not parse is rendered as an invalid date |
| AiProcessor.ExtractSubtasksFromChecklists | src/lib/ai-processor.ts:96-116 | the loop returns one subtask per checklist item, checklists and items in order |
| AiProcessor.ExtractedSubtaskFields | src/lib/ai-processor.ts:100-113 | subtask k copies id, name and resolved flag of item k; all carry the task's due date or '' |
| AiProcessor.AllItemsLength | src/lib/ai-processor.ts:141-146 | the items gathered from all checklists number the sum of the checklist sizes |
| AiProcessor.CompletedMatchesResolved | src/lib/ai-processor.ts:104-109 | the completed subtasks are as many as the resolved items |
| AiProcessor.ProgressEstimate | src/lib/ai-processor.ts:121-155 | the estimate lies in 0..100 |
| AiProcessor.EstimateProgressFromStatus | src/lib/ai-processor.ts:121-155 | the accumulating loop returns exactly the estimate |
| AiProcessor.ProgressEstimateCases | src/lib/ai-processor.ts:121-155 | 100 for 'Concluído'/'Completed'/'Done', 0 for 'Pendente'/'To Do'/'Blocked', otherwise the rounded share of resolved items, or 50 with no items |
| AiProcessor.EstimateAgreesWithSubtaskProgress | src/lib/ai-processor.ts:137-150 | for other statuses with items, the estimate equals the subtask progress of the webhook pipeline over the extracted subtasks |
| AiProcessor.CheckpointFields | src/lib/ai-processor.ts:72-90 | id and name copied; the description kept, '' when missing; a missing or empty start date falls back to the creation date, a present one is formatted; a missing or empty due date gives '' as end date, a present one is formatted; progress is the estimate; one subtask per checklist item |
| AiProcessor.TranslateComment | src/lib/ai-processor.ts:64-69 | id, text and formatted date of the REST comment; the author is the non-empty username, otherwise 'Usuário' |
| AiProcessor.CheckpointComments | src/lib/ai-processor.ts:64-69 | comment k of the checkpoint keeps id and text of REST comment k and takes its author from the non-empty username, otherwise 'Usuário' |
| AiProcessor.TranslateTaskToCheckpoint | src/lib/ai-processor.ts:49-91 | id and name copied; a non-pending status comes from the status map under the task's status key; progress is the estimate, in 0..100; the subtasks are the extracted checklist items; one comment per REST comment |
| AiProcessor.CheckpointStatus | src/lib/ai-processor.ts:54-55 | the status is looked up case-sensitively, a missing status reads as 'To Do', an unknown one is pending |
| AiProcessor.DefaultMapIsAlwaysPending | src/lib/ai-processor.ts:51-55 | with the default empty map every checkpoint is pending |
| AiProcessor.KanbanMapIsCaseSensitive | src/lib/ai-processor.ts:21-30 | under the Kanban map 'Done' is completed and 'done' pending, while the webhook table makes both completed |
| AiProcessor.EmptyStatusReadTwoWays | src/lib/ai-processor.ts:54-58 | an empty status with no items gives a pending checkpoint whose progress is 50 |
| AiProcessor.CheckpointProgressMatchesSubtasks | src/lib/ai-processor.ts:58-61 | for other statuses with items, the checkpoint's progress is the percentage of its own completed subtasks |
| Service.AverageProgressBounds | src/lib/clickup-service.ts:49-52 | the project progress is the rounded mean, in 0..100 when each checkpoint's is, 0 without checkpoints |
| Service.MergeSettings | src/lib/clickup-service.ts:17-21 | each supplied field replaces the setting, each missing one keeps it; an empty patch changes nothing |
| Service.AverageProgress | src/lib/clickup-service.ts:49-52 | 0 without checkpoints; otherwise the nearest whole number to the mean progress, halves rounded up |
| Service.TranslatedCheckpointsInRange | src/lib/clickup-service.ts:49-52 | checkpoints translated from tasks, in any order, each have progress in 0..100, and so does their mean |
| Service.BuildProject | src/lib/clickup-service.ts:55-73 | the project keeps the list's id and name and the checkpoints, its progress is their mean, its days remaining are counted from its end date and never negative |
| Service.CalculateDaysRemaining | src/lib/clickup-service.ts:87-104 | the days remaining are never negative |
| Service.DaysRemainingGuards | src/lib/clickup-service.ts:88-91 | a positive count needs a non-empty date with exactly two '/' whose parts gave that count; any other number of '/' gives 0 |
| Service.ProjectSpan | src/lib/clickup-service.ts:55-73 | the project keeps the list's id and name and the checkpoints, spans from the first start to the last end (today and '' without checkpoints), has non-negative days remaining and progress in 0..100 |
| Service.FetchFromCache | src/lib/clickup-service.ts:29-36 | on a cache hit the cached project is returned and the state is unchanged, whatever the remote step would do |
| Service.FetchMissStores | src/lib/clickup-service.ts:75-79 | a successful miss returns the built project, caches it and records the entry time, keeping the settings |
| Service.FetchMissFailureKeepsState | src/lib/clickup-service.ts:80-83 | a failed miss reports 'Falha ao buscar dados do projeto: ' plus the error and changes nothing |
| Service.CacheHitIffServedWithoutRemote | src/lib/clickup-service.ts:29-33 | with a failing remote step, the fetch succeeds iff not forced, a project is cached and the interval has not elapsed |
| Service.FetchStep | src/lib/clickup-service.ts:24-84 | the settings never change; a hit returns the cached project with the state unchanged; a failed miss returns the wrapped error with the state unchanged; a successful miss returns the built project and caches it with the entry time |
| Service.UpdateStep | src/lib/clickup-service.ts:17-21 | the settings become the merge with the patch, the cached project is dropped and `lastFetch` is kept |
| Service.ForceRefreshBypassesCache | src/lib/clickup-service.ts:29-30 | a forced fetch always goes to the remote step |
| Service.UpdateInvalidates | src/lib/clickup-service.ts:17-21 | after updating settings the next fetch is a miss; supplied fields replace, others stay, `lastFetch` is kept |
| Service.FreshWithinWindow | src/lib/clickup-service.ts:25-36 | a project fetched at t is served unchanged by every unforced fetch before t plus the interval |
| Service.ClickUpService.constructor | src/lib/clickup-service.ts:12-14 | starts with the given settings, no cached project and `lastFetch` 0 |
| Service.ClickUpService.UpdateSettings | src/lib/clickup-service.ts:17-21 | the new state is the settings merge with the cache dropped |
| Service.ClickUpService.FetchProjectData | src/lib/clickup-service.ts:24-84 | the new state and result are those of the fetch step; a hit or a failure leaves the object unchanged |
| TaskCard.ChecklistProgress | src/components/dashboard/TaskCard.tsx:41-43 | the bar value is in 0..100 and 0 for an empty checklist |
| TaskCard.Toggled | src/components/dashboard/TaskCard.tsx:45-61 | the toggled checklist has the same length and the same ids in the same order |
| TaskCard.Notices | src/components/dashboard/TaskCard.tsx:45-61 | at most one notice per item, and none when no item has the id |
| TaskCard.ToggledPointwise | src/components/dashboard/TaskCard.tsx:45-61 | the toggle keeps length, order, ids and texts and flips `completed` exactly on items with the id |
| TaskCard.ToggleTwice | src/components/dashboard/TaskCard.tsx:47-60 | toggling the same id twice restores the checklist |
| TaskCard.ToggleAbsent | src/components/dashboard/TaskCard.tsx:46-62 | toggling an id no item has changes nothing |
| TaskCard.NoticesOnlyOnCompletion | src/components/dashboard/TaskCard.tsx:48-56 | one notice per matching item that was not completed, each naming such an item; none for unticking |
| TaskCard.VisibleAndHidden | src/components/dashboard/TaskCard.tsx:107-127 | at most the first three items are listed; the hidden-count note appears iff there are more than three and shows the rest |
| TaskCard.PriorityPresentationDistinct | src/components/dashboard/TaskCard.tsx:66-80 | distinct priorities have distinct labels and colours |
| TaskCard.TaskCardState.constructor | src/components/dashboard/TaskCard.tsx:39 | the card's items start as the given checklist |
| TaskCard.TaskCardState.HandleCheckboxChange | src/components/dashboard/TaskCard.tsx:45-64 | the loop leaves the toggled checklist and returns the notices in order |
| KanbanBoard.Column | src/components/dashboard/KanbanBoard.tsx:131-134 | a column holds only tasks of its status and is no longer than the board |
| KanbanBoard.ColumnMembership | src/components/dashboard/KanbanBoard.tsx:131-134 | a task is in a column iff it is on the board with that status |
| KanbanBoard.ColumnKeepsOrder | src/components/dashboard/KanbanBoard.tsx:131-134 | each column is a subsequence of the board: relative order is kept |
| KanbanBoard.ColumnMultiplicity | src/components/dashboard/KanbanBoard.tsx:131-134 | a column holds every copy of each task with its status and no other task |
| KanbanBoard.ColumnsPartition | src/components/dashboard/KanbanBoard.tsx:20 | the four columns together are exactly the board's tasks, as a multiset |
| KanbanBoard.ColumnLengthsSum | src/components/dashboard/KanbanBoard.tsx:131-134 | the column lengths add up to the number of tasks |
| KanbanBoard.HeaderShowsCount | src/components/dashboard/KanbanBoard.tsx:143-197 | each header reads back as exactly its column's length |
| KanbanBoard.MockColumnSizes | src/components/dashboard/KanbanBoard.tsx:29-120 | the fixed tasks give 2 to do and 1 in each other column |
| KanbanBoard.BoardState.constructor | src/components/dashboard/KanbanBoard.tsx:26-27 | no active task and the dialog closed |
| KanbanBoard.BoardState.OpenComments | src/components/dashboard/KanbanBoard.tsx:122-125 | the clicked task becomes active and the dialog opens |
| KanbanBoard.BoardState.CloseComments | src/components/dashboard/KanbanBoard.tsx:127-129 | the dialog closes and the active task stays |
| CommentSection.BlankSubmissionIgnored | src/components/dashboard/CommentSection.tsx:29 | a submission raises no toast iff the input is blank, and then changes nothing |
| CommentSection.SubmissionAppends | src/components/dashboard/CommentSection.tsx:31-39 | an accepted comment is appended by 'Você' with the untrimmed text and today's date; earlier comments stay, the input is cleared, the switch is kept |
| CommentSection.SubmissionIdsDiffer | src/components/dashboard/CommentSection.tsx:32 | comments submitted at different instants get different ids |
| CommentSection.ToggleInvolution | src/components/dashboard/CommentSection.tsx:49-60 | the switch negates the flag, keeps the rest, undoes itself, and its toast wording depends on the old value |
| CommentSection.SubmitStep | src/components/dashboard/CommentSection.tsx:26-47 | without a toast nothing changes; with one, the toast is the submit toast for the switch and the thread grows by one; the switch is never changed |
| CommentSection.ToggleStep | src/components/dashboard/CommentSection.tsx:49-60 | the flag is negated, thread and input are kept, and the toast is worded from the old value |
| CommentSection.GetInitials | src/components/dashboard/CommentSection.tsx:62-69 | at most two characters, none a lower-case ASCII letter |
| CommentSection.FirstLettersOfSplit | src/components/dashboard/CommentSection.tsx:63-66 | the first letters of the space-separated pieces are the characters that start a word; empty pieces contribute nothing |
| CommentSection.InitialsAreWordStarts | src/components/dashboard/CommentSection.tsx:62-69 | the initials are the first two word-starting characters, upper-cased |
| CommentSection.CommentSectionState.constructor | src/components/dashboard/CommentSection.tsx:21-23 | empty input, the given comments, WhatsApp enabled |
| CommentSection.CommentSectionState.SetNewComment | src/components/dashboard/CommentSection.tsx:103 | only the input changes |
| CommentSection.CommentSectionState.HandleCommentSubmit | src/components/dashboard/CommentSection.tsx:26-47 | the new state and toast are those of the submit step |
| CommentSection.CommentSectionState.HandleWhatsAppToggle | src/components/dashboard/CommentSection.tsx:49-60 | the new state and toast are those of the toggle step |
| MeetingSchedule.NotAfterOrder | src/components/dashboard/MeetingSchedule.tsx:68-70 | the comparison by year, month, day, hour and minute is a total order |
| MeetingSchedule.SortBy | src/components/dashboard/MeetingSchedule.tsx:67-71 | the result is sorted by key and is a permutation of the input |
| MeetingSchedule.SortByTime | src/components/dashboard/MeetingSchedule.tsx:67-71 | a new list of the same length, chronological, holding the same meetings |
| MeetingSchedule.StampOfDate | src/components/dashboard/MeetingSchedule.tsx:68-69 | "DD/MM/YYYY" and the time give the stamp "YYYY-MM-DDT" followed by the time |
| MeetingSchedule.KeyOfFields | src/components/dashboard/MeetingSchedule.tsx:68-70 | a meeting on DD/MM/YYYY at HH:MM sorts by the instant those fields name |
| MeetingSchedule.Stamp | src/components/dashboard/MeetingSchedule.tsx:68-69 | the stamp ends with "T" followed by the meeting's time |
| MeetingSchedule.Key | src/components/dashboard/MeetingSchedule.tsx:68-70 | a valid date has month 1..12, day 1..31, hour at most 23 and minute at most 59, and comes from a 16-character stamp with 'T' and ':' in place |
| MeetingSchedule.MeetingsInstants | src/components/dashboard/MeetingSchedule.tsx:17-42 | the three fixed meetings all have valid dates and are already in chronological order |
| MeetingSchedule.TypeLabel | src/components/dashboard/MeetingSchedule.tsx:44-53 | 'Revisão' iff review, 'Planejamento' iff planning, 'Reunião' iff anything else |
| MeetingSchedule.BadgeVariant | src/components/dashboard/MeetingSchedule.tsx:55-64 | amber iff review, blue iff planning, purple iff anything else |
| MeetingSchedule.LabelDeterminesBadge | src/components/dashboard/MeetingSchedule.tsx:44-64 | two types share a label iff they share a badge |
| ProjectProgress.OverallProgressBounds | src/components/dashboard/ProjectProgress.tsx:51-55 | with each phase's done within its total and some work planned, the overall progress is in 0..100, 0 when nothing is done and 100 when all is |
| ProjectProgress.OverallProgressNearest | src/components/dashboard/ProjectProgress.tsx:54 | the overall progress is within half a percent of 100 times done over planned |
| ProjectProgress.OverallProgress | src/components/dashboard/ProjectProgress.tsx:51-55 | no value iff nothing is planned; with work planned, the nearest whole percentage of done over planned, halves rounded up |
| ProjectProgress.FixedDataProgress | src/components/dashboard/ProjectProgress.tsx:33-55 | the dashboard's figures give 245 of 500, shown as 49 |
| ProjectProgress.PieData | src/components/dashboard/ProjectProgress.tsx:42-45 | one slice per phase |
| ProjectProgress.PieDataFaithful | src/components/dashboard/ProjectProgress.tsx:42-45 | slice k has phase k's name and done value, and the slices sum to the total done |
| ProjectProgress.SegmentColor | src/components/dashboard/ProjectProgress.tsx:148 | every segment gets one of the five colours |
| ProjectProgress.SegmentColorsCycle | src/components/dashboard/ProjectProgress.tsx:148 | colours repeat every five segments and neighbouring segments differ |

## Left out

- Network and remote calls are parameters of the model, not modelled. This covers:
  - the webhook request of the three fetch copies;
  - everything in `src/lib/clickup-api.ts` is not part of this model;
  - the service's `getTaskDetails`/`getTasks` calls.

  Each is a `Result` parameter: the data, or the error text. For the service, that text is the message the `catch` would interpolate, or 'Erro desconhecido'.
- `interpretKanbanData` is folded into the service's remote step. Its comparator returns 0 whenever a start date is missing, so it is not a consistent order and the resulting order cannot be specified. Its per-task translation is modelled as `TranslateTaskToCheckpoint` with the Kanban status map.
- The scripts' JSON file writes and all `console` logging are left out.
- Locale rendering (`toLocaleDateString`) is a function parameter.
- `new Date(...)` parsing and the day difference with `Math.ceil` in `calculateDaysRemaining` are a parameter; only the guards and the clamp at 0 are modelled.
- `Math.round` of a binary float is modelled as exact round-half-up of the rational value. Float discrepancies at exact .5 boundaries are not modelled.
- React rendering, `useClickUpData`, `use-clickup-project` polling, toast display and dialog markup are left out. Toasts are returned as values.
- The service is modelled as strictly sequential. Overlapping asynchronous fetches are not modelled.
- Plain-object lookups in the status tables are modelled as finite maps. Inherited JavaScript keys such as 'constructor' are not modelled.
- Case mapping covers ASCII letters only.
- `parseInt` does not model the `0x` prefix, and `NaN` is `None`.
- `getInitials` works on characters, not UTF-16 code units.
- Service.ClickUpService.UpdateSettings: a patch field that is present but explicitly `undefined` overwrites the setting in the source; the model only has supplied or missing fields.
- MeetingSchedule.SortByTime requires every meeting to have a valid "DD/MM/YYYY" date and "HH:MM" time. With an invalid date the source compares `NaN` and its order is unspecified.
  - Day-of-month validity per month and '24:00' are not modelled.
  - Stability of the sort is not claimed.
- Malformed input that makes the source throw is excluded by the types. Examples: a missing `status` object in the AI processor, or a non-string status in `mapStatus`. In the fetch copies such a throw ends in the `catch`, which the model's failed-request case covers.
- The other dashboard pieces are context and not part of this model: the settings form, statistics, sidebar, header and page layout.
