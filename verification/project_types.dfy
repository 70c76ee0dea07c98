/** The dashboard's domain records. The fetch pipeline's `ProjectStage` has the
    same fields as `Checkpoint` and is modelled by it. */
module ProjectTypes {

  /** `"completed" | "in-progress" | "pending"`. */
  datatype Status = Completed | InProgress | Pending

  datatype Subtask = Subtask(id: string, title: string, completed: bool, dueDate: string)

  datatype Comment = Comment(id: string, author: string, date: string, text: string)

  datatype Checkpoint = Checkpoint(
    id: string,
    name: string,
    status: Status,
    description: string,
    startDate: string,
    endDate: string,
    progress: int,
    subtasks: seq<Subtask>,
    comments: seq<Comment>)

  datatype Project = Project(
    id: string,
    title: string,
    client: string,
    progress: int,
    checkpoints: seq<Checkpoint>,
    startDate: string,
    endDate: string,
    budget: string,
    daysRemaining: int)

  /** `refreshInterval` is in minutes. */
  datatype ProjectSettings = ProjectSettings(teamId: string, spaceId: string, listId: string, refreshInterval: int)
}
