/**
 * The records the backend sends and the client keeps in its state, and the
 * `Partial<T>` update objects the client sends back. Optional fields
 * (`field?: T`) are `Option`s; timestamps are the strings the backend sends.
 */
module Types {
  import opened Wrappers

  /** The three task states, in board order. */
  datatype Status = Todo | InProgress | Done

  datatype Task = Task(
    id: string,
    projectId: string,
    title: string,
    description: Option<string>,
    status: Status,
    position: int,
    createdAt: string,
    updatedAt: string)

  /** The fields of a `Partial<Task>` the client ever fills in. */
  datatype TaskPatch = TaskPatch(title: Option<string>, description: Option<string>, status: Option<Status>)

  /** A call of an `onTaskUpdate(taskId, updates)` / `updateTask` callback. */
  datatype TaskUpdate = TaskUpdate(taskId: string, patch: TaskPatch)

  /** A call of an `onTaskCreate(title, description)` / `createTask` callback. */
  datatype TaskCreate = TaskCreate(title: string, description: Option<string>)

  /** A patch that sets the status and nothing else. */
  function StatusPatch(s: Status): TaskPatch {
    TaskPatch(None, None, Some(s))
  }

  datatype Milestone = Milestone(
    id: string,
    projectId: string,
    title: string,
    description: Option<string>,
    dueDate: Option<string>,
    createdAt: string)

  /** The fields of a `Partial<Milestone>` the client may send. */
  datatype MilestonePatch = MilestonePatch(title: Option<string>, description: Option<string>, dueDate: Option<string>)

  datatype SuggestedTask = SuggestedTask(title: string, description: Option<string>)

  /** The part of the originating idea dump that is embedded in an insight. */
  datatype IdeaDumpView = IdeaDumpView(
    contentText: Option<string>,
    transcript: Option<string>,
    audioUrl: Option<string>,
    createdAt: string)

  datatype Insight = Insight(
    id: string,
    ideaDumpId: string,
    shortSummary: seq<string>,
    recommendations: seq<string>,
    suggestedTasks: seq<SuggestedTask>,
    pinned: bool,
    createdAt: string,
    ideaDump: Option<IdeaDumpView>)

  /**
   * `helpful?: boolean | null`: the field can be missing, explicitly `null`
   * (asked, no feedback yet) or a boolean.
   */
  datatype Feedback = Missing | Pending | Given(helpful: bool)

  datatype QAQuestion = QAQuestion(
    id: string,
    projectId: string,
    question: string,
    answer: string,
    suggestions: seq<string>,
    examples: Option<seq<string>>,
    helpful: Feedback,
    createdAt: string,
    suggestedTasks: Option<seq<SuggestedTask>>)

  /** The body of a successful ask. */
  datatype QAResponse = QAResponse(
    id: string,
    question: string,
    answer: string,
    suggestions: seq<string>,
    examples: Option<seq<string>>,
    suggestedTasks: Option<seq<SuggestedTask>>,
    createdAt: string)

  datatype Project = Project(
    id: string,
    userId: string,
    name: string,
    summaryBanner: string,
    createdAt: string,
    updatedAt: string)

  /** `Partial<Project>`: every field may be given. */
  datatype ProjectPatch = ProjectPatch(
    id: Option<string>,
    userId: Option<string>,
    name: Option<string>,
    summaryBanner: Option<string>,
    createdAt: Option<string>,
    updatedAt: Option<string>)

  /** A patch that sets the summary banner and nothing else. */
  function SummaryPatch(summary: string): ProjectPatch {
    ProjectPatch(None, None, None, Some(summary), None, None)
  }

  datatype User = User(
    id: string,
    email: string,
    isGuest: Option<bool>,
    isGoogleUser: Option<bool>,
    displayName: Option<string>,
    photoUrl: Option<string>)

  /** `Partial<User>`. */
  datatype UserPatch = UserPatch(
    id: Option<string>,
    email: Option<string>,
    isGuest: Option<bool>,
    isGoogleUser: Option<bool>,
    displayName: Option<string>,
    photoUrl: Option<string>)

  /** The boolean key functions the list updates select by. */
  function TaskHasId(id: string): Task -> bool {
    (t: Task) => t.id == id
  }

  function MilestoneHasId(id: string): Milestone -> bool {
    (m: Milestone) => m.id == id
  }

  function InsightHasId(id: string): Insight -> bool {
    (i: Insight) => i.id == id
  }

  function QuestionHasId(id: string): QAQuestion -> bool {
    (q: QAQuestion) => q.id == id
  }
}
