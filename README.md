# ProjectMind client core in Dafny

ProjectMind is a project manager for solo makers. Its web client shows:

- a project's task board, with three status columns, drag and drop and a completion figure;
- milestones;
- insights gathered from recorded or typed thoughts, which can be pinned;
- a one-line summary banner, with an AI suggestion for projects that have none;
- a question-and-answer assistant for one project, and a canned assistant card on the dashboard;
- a voice recorder;
- a session store whose token guards the routes and is attached to every API call.

This project models that client core and proves properties of the model.

The model follows the client's own split:

- **Data-fetching hooks** (`useTasks`, `useMilestones`, `useInsights`, `useQA`, `useProject`) and the **session store** are classes. Their fields are the React state.
  - A handler takes the backend's reply as a parameter, a `Reply<T>` that is success with the body or failure with the HTTP status and the server's `error` text.
  - A handler returns the request it sends: method, path and body.
  - Each handler runs as one atomic step.
- **Components with state** (task card, board, column, the forms, Q&A panel, chat, assistant, dashboard card, summary banner, voice recorder, project page) are classes too.
  - Each event handler is a method that names exactly the fields it changes.
  - A callback prop the component calls comes back as the method's result, for example the `TaskUpdate` a drop issues or the arguments `onSubmit` receives.
- **What the components compute** is written as functions: which column a task is in, what the completion percentage is, how the timer is formatted, where the router goes, how the summary counter reads, how patches are merged, and which error message is shown.
  - Each such function has a contract that states its meaning.
  - Lemmas relate these functions to each other. Examples: the three columns partition the task list; moving right then left is the identity; merging a patch twice is merging it once; a redirect lands on a page that renders; a formatted time reads back as the minutes and seconds it came from.
- **The dashboard's focus answer** sorts the project list in place, newest first. It is an insertion sort on an `array`, proved to produce a newest-first permutation of its input.

JavaScript details are written out where they matter:

- A string is truthy when it is not empty.
- `trim()` removes JavaScript white space.
- `x || undefined` turns an empty string into no value.
- `slice(0, n)` keeps a prefix.
- `includes` is substring search.
- `padStart(2, '0')` pads on the left.

## Model

| member | source | states |
|---|---|---|
| `TaskCard.NextStatus` | src/components/projects/TaskCard.tsx:51-57 | "move right" always goes to a different state |
| `TaskCard.PreviousStatus` | src/components/projects/TaskCard.tsx:59-65 | "move left" always goes to a different state |
| `TaskCard.NextStatusCycle` | src/components/projects/TaskCard.tsx:51-57 | the three states form a single 3-cycle under "move right" |
| `TaskCard.PreviousIsInverse` | src/components/projects/TaskCard.tsx:51-65 | moving left undoes moving right, and the reverse |
| `TaskCard.SavePatch` | src/components/projects/TaskCard.tsx:28-36 | a save sends the trimmed title and no status; it sends a description exactly when the trimmed description is not empty, and then sends it trimmed |
| `TaskCard.SavePatchStable` | src/components/projects/TaskCard.tsx:28-36 | saving the values a save produced sends the same patch again |
| `TaskCard.Card.constructor` | src/components/projects/TaskCard.tsx:12-16 | a new card is not editing, not dragged, actions hidden, and its edit buffers hold the task's title and description (or "") |
| `TaskCard.Card.ReceiveTask` | src/components/projects/TaskCard.tsx:11-16 | a new `task` prop for the same card (the server copy after its own save) replaces the task and keeps every piece of state, so a later cancel restores the new values |
| `TaskCard.Card.StartEdit` | src/components/projects/TaskCard.tsx:117 | an edit button opens the form and keeps the buffers |
| `TaskCard.Card.EditFields` | src/components/projects/TaskCard.tsx:73-80 | typing sets both buffers and nothing else |
| `TaskCard.Card.HandleSave` | src/components/projects/TaskCard.tsx:28-36 | with a non-blank title and an update callback, exactly one update of this task carrying `SavePatch` is issued and the form closes; otherwise nothing is sent and the form stays |
| `TaskCard.Card.HandleCancel` | src/components/projects/TaskCard.tsx:38-42 | cancel restores the buffers to the task's values and closes the form |
| `TaskCard.Card.MoveToStatus` | src/components/projects/TaskCard.tsx:44-49 | with a callback, one update carrying only the new status is issued and the action menu closes; without one, nothing changes |
| `TaskCard.Card.MoveRight` | src/components/projects/TaskCard.tsx:152 | with an update callback the right arrow issues one update of this task to `NextStatus` and closes the action menu; without one nothing happens; the task, the form and the drag mark never change |
| `TaskCard.Card.MoveLeft` | src/components/projects/TaskCard.tsx:143 | with an update callback the left arrow issues one update of this task to `PreviousStatus` and closes the action menu; without one nothing happens; the task, the form and the drag mark never change |
| `TaskCard.Card.HandleDragStart` | src/components/projects/TaskCard.tsx:18-22 | the card is marked dragged; the transfer data holds exactly `taskId` ↦ this task's id, and the effect is "move" |
| `TaskCard.Card.HandleDragEnd` | src/components/projects/TaskCard.tsx:24-26 | the dragged mark is cleared and nothing else changes |
| `TaskCard.Card.HandleDelete` | src/components/projects/TaskCard.tsx:127 | delete is offered exactly when there is a delete callback, and it passes this task's id |
| `KanbanBoard.ColumnTasks` | src/components/projects/KanbanBoard.tsx:18-20 | a column holds exactly the tasks of its status |
| `KanbanBoard.ColumnTasksConcat` | src/components/projects/KanbanBoard.tsx:18-20 | a column keeps the list order |
| `KanbanBoard.ExactlyOneColumn` | src/components/projects/KanbanBoard.tsx:18-20 | every task lands in the column of its own status and in no other |
| `KanbanBoard.ColumnsPartition` | src/components/projects/KanbanBoard.tsx:18-20 | the three columns together hold every task exactly as often as the list does |
| `KanbanBoard.ColumnLength` | src/components/projects/KanbanBoard.tsx:18-20 | a column is as long as the number of positions in the list holding a task of its status |
| `KanbanBoard.TaskCounts` | src/components/projects/KanbanBoard.tsx:22-26 | each count is the length of its column and the number of tasks in the list with that status; the three add up to the number of tasks |
| `KanbanBoard.ProgressShown` | src/components/projects/KanbanBoard.tsx:154 | the progress section is rendered exactly when some column holds a task |
| `KanbanBoard.CompletionPercent` | src/components/projects/KanbanBoard.tsx:163 | the shown percentage is the whole number nearest to 100·done/total, with halves rounded up, and lies between 0 and 100 |
| `KanbanBoard.CompletionEnds` | src/components/projects/KanbanBoard.tsx:163 | nothing done gives 0%; everything done gives 100% |
| `KanbanBoard.CompletionMonotone` | src/components/projects/KanbanBoard.tsx:163 | more finished tasks never lower the percentage |
| `KanbanBoard.BoardCompletion` | src/components/projects/KanbanBoard.tsx:154-166 | a rendered progress section never shows more than 100% |
| `KanbanBoard.BoardCompletionEnds` | src/components/projects/KanbanBoard.tsx:154-166 | a board with no done task shows 0%; an all-done board shows 100% |
| `KanbanBoard.MobileTasks` | src/components/projects/KanbanBoard.tsx:107-135 | the mobile layout shows the selected column's list itself, in list order and with its multiplicity, and exactly the tasks of that status |
| `KanbanBoard.Board.constructor` | src/components/projects/KanbanBoard.tsx:15-16 | the form starts hidden and the mobile view on "To Do" |
| `KanbanBoard.Board.OpenNewTask` | src/components/projects/KanbanBoard.tsx:35 | "Add Task" shows the form |
| `KanbanBoard.Board.SelectMobileView` | src/components/projects/KanbanBoard.tsx:49-69 | a mobile tab selects its column and leaves the form alone |
| `KanbanBoard.Board.SubmitNewTask` | src/components/projects/KanbanBoard.tsx:171-174 | the form's arguments reach `onTaskCreate` unchanged and the form closes |
| `KanbanBoard.Board.CancelNewTask` | src/components/projects/KanbanBoard.tsx:175 | cancel only closes the form |
| `Column.EmptyMessage` | src/components/projects/Column.tsx:77-83 | an empty column reads "Drop here!" exactly while a card hovers over it, and "No tasks" otherwise |
| `Column.DropColumn.constructor` | src/components/projects/Column.tsx:15 | the hover flag starts clear |
| `Column.DropColumn.HandleDrop` | src/components/projects/Column.tsx:17-24 | a drop clears the hover flag; a non-empty transferred id gives exactly one update to this column's status, and an empty one gives none |
| `Column.DropColumn.HandleDragOver` | src/components/projects/Column.tsx:26-31 | dragging over sets the hover flag |
| `Column.DropColumn.HandleDragLeave` | src/components/projects/Column.tsx:33-35 | leaving clears the hover flag |
| `NewTaskForm.SubmitArgs` | src/components/projects/NewTaskForm.tsx:12-17 | nothing is submitted exactly for a blank title; otherwise the title goes as typed, and the description as typed or none when it is empty |
| `NewTaskForm.Form.constructor` | src/components/projects/NewTaskForm.tsx:9-10 | both fields start empty |
| `NewTaskForm.Form.SetTitle` | src/components/projects/NewTaskForm.tsx:27 | typing the title changes only the title |
| `NewTaskForm.Form.SetDescription` | src/components/projects/NewTaskForm.tsx:35 | typing the description changes only the description |
| `NewTaskForm.Form.HandleSubmit` | src/components/projects/NewTaskForm.tsx:12-17 | `onSubmit` is called exactly for a non-blank title, with `SubmitArgs` |
| `NewTaskForm.Form.HandleCancel` | src/components/projects/NewTaskForm.tsx:41 | cancel calls `onCancel` |
| `UseTasks.ReplaceTask` | src/hooks/useTasks.ts:36 | tasks with the id become the server's task; every other task, the length and the order stay |
| `UseTasks.ReplaceUnknownTask` | src/hooks/useTasks.ts:36 | an update for an id not on the list changes nothing |
| `UseTasks.ReplaceTaskTwice` | src/hooks/useTasks.ts:36 | applying the same server task twice is applying it once |
| `UseTasks.RemoveTask` | src/hooks/useTasks.ts:45 | no task with the id is left, and every other task is kept |
| `UseTasks.RemoveTaskConcat` | src/hooks/useTasks.ts:45 | removal keeps the order of the remaining tasks |
| `UseTasks.RemoveUnknownTask` | src/hooks/useTasks.ts:45 | removing an id that is not on the list changes nothing |
| `UseTasks.TasksHook.constructor` | src/hooks/useTasks.ts:7-8 | no tasks yet, loading |
| `UseTasks.TasksHook.FetchTasks` | src/hooks/useTasks.ts:10-19 | GET the project's tasks; the reply replaces the list, a failure keeps it, and loading ends on both paths |
| `UseTasks.TasksHook.CreateTask` | src/hooks/useTasks.ts:21-31 | POST title and description; on success the server's task is appended; on failure nothing changes |
| `UseTasks.TasksHook.UpdateTask` | src/hooks/useTasks.ts:33-40 | PATCH the task with the updates; on success `ReplaceTask`; on failure nothing changes |
| `UseTasks.TasksHook.DeleteTask` | src/hooks/useTasks.ts:42-49 | DELETE the task; on success `RemoveTask`; on failure nothing changes |
| `UseMilestones.BuildCreatePayload` | src/hooks/useMilestones.ts:26-38 | the payload has the title always, the description only when truthy, and the ISO due date only when a date is given; it fails exactly when the date cannot be converted |
| `UseMilestones.UpdatePayload` | src/hooks/useMilestones.ts:53-57 | the updates unchanged, except that a truthy due date is replaced by its ISO form; it fails exactly when that conversion fails |
| `UseMilestones.ReplaceMilestone` | src/hooks/useMilestones.ts:60 | milestones with the id become the server's value; the rest, the length and the order stay |
| `UseMilestones.RemoveMilestone` | src/hooks/useMilestones.ts:69 | no milestone with the id is left, and every other milestone is kept |
| `UseMilestones.RemoveMilestoneConcat` | src/hooks/useMilestones.ts:69 | removal keeps the order of the remaining milestones |
| `UseMilestones.MilestonesHook.constructor` | src/hooks/useMilestones.ts:7-8 | no milestones yet, loading |
| `UseMilestones.MilestonesHook.FetchMilestones` | src/hooks/useMilestones.ts:10-19 | GET the project's list; the reply replaces it, a failure keeps it, and loading ends |
| `UseMilestones.MilestonesHook.CreateMilestone` | src/hooks/useMilestones.ts:21-48 | an unconvertible date sends nothing; otherwise POST a body with the title, the description exactly when it is truthy and the ISO due date exactly when one is given; on success the server's milestone is appended, on failure nothing changes |
| `UseMilestones.MilestonesHook.UpdateMilestone` | src/hooks/useMilestones.ts:50-64 | an unconvertible date sends nothing; otherwise PATCH the payload, and on success `ReplaceMilestone` |
| `UseMilestones.MilestonesHook.DeleteMilestone` | src/hooks/useMilestones.ts:66-73 | DELETE; on success `RemoveMilestone`; on failure nothing changes |
| `NewMilestoneForm.SubmitArgs` | src/components/projects/NewMilestoneForm.tsx:14-24 | nothing is submitted exactly when Create is disabled; otherwise the trimmed title (never empty), the trimmed description or none when it is blank, and the due date or none when it is empty |
| `NewMilestoneForm.SubmitArgsStable` | src/components/projects/NewMilestoneForm.tsx:14-24 | submitting the forwarded values again forwards them unchanged |
| `NewMilestoneForm.CreateEnabled` | src/components/projects/NewMilestoneForm.tsx:84 | the Create button is enabled exactly when the title has a character that is not white space |
| `NewMilestoneForm.Form.constructor` | src/components/projects/NewMilestoneForm.tsx:10-12 | all three fields start empty |
| `NewMilestoneForm.Form.SetTitle` | src/components/projects/NewMilestoneForm.tsx:45 | typing in the title input sets the title only |
| `NewMilestoneForm.Form.SetDescription` | src/components/projects/NewMilestoneForm.tsx:59 | typing in the description sets the description only |
| `NewMilestoneForm.Form.SetDueDate` | src/components/projects/NewMilestoneForm.tsx:73 | picking a due date sets the due date only |
| `NewMilestoneForm.Form.HandleSubmit` | src/components/projects/NewMilestoneForm.tsx:14-24 | `onSubmit` is called exactly when the Create button is enabled (line 84), with `SubmitArgs` |
| `NewMilestoneForm.Form.HandleCancel` | src/components/projects/NewMilestoneForm.tsx:81 | cancel calls `onCancel` |
| `UseInsights.SetPinned` | src/hooks/useInsights.ts:23-25 | insights with the id get the new flag and keep every other field; all other insights, the ids, the length and the order stay |
| `UseInsights.SetPinnedTwice` | src/hooks/useInsights.ts:23-25 | setting the same flag twice is setting it once |
| `UseInsights.SetPinnedUndo` | src/hooks/useInsights.ts:23-25 | pinning then unpinning restores the list when the flag started at the opposite value |
| `UseInsights.InsightsHook.constructor` | src/hooks/useInsights.ts:6-7 | no insights yet, loading |
| `UseInsights.InsightsHook.FetchInsights` | src/hooks/useInsights.ts:9-18 | GET the list; the reply replaces it, a failure keeps it, and loading ends |
| `UseInsights.InsightsHook.TogglePin` | src/hooks/useInsights.ts:20-29 | PATCH `{ pinned }`; on success `SetPinned`; on failure nothing changes |
| `InsightsFeed.Pinned` | src/components/projects/InsightsFeed.tsx:10 | exactly the pinned insights |
| `InsightsFeed.Unpinned` | src/components/projects/InsightsFeed.tsx:11 | exactly the insights that are not pinned |
| `InsightsFeed.GroupsPartition` | src/components/projects/InsightsFeed.tsx:10-11 | the groups are disjoint and together hold every insight exactly as often as the list does |
| `InsightsFeed.DisplayOrder` | src/components/projects/InsightsFeed.tsx:17-43 | the rendered order is the pinned group followed by the unpinned group, each a filter of the list in list order; it is a permutation of the list with no pinned insight after an unpinned one |
| `InsightsFeed.DisplayOrderKeepsGroupOrder` | src/components/projects/InsightsFeed.tsx:10-43 | a list already made of a pinned run followed by an unpinned run is displayed exactly as it is, so each group keeps the list order |
| `InsightsFeed.Layout` | src/components/projects/InsightsFeed.tsx:17-49 | the pinned section exists iff some insight is pinned; the unpinned section exists iff some is not; the "Recent" header iff both; the empty message iff there are none |
| `InsightItem.ExcerptSource` | src/components/projects/InsightItem.tsx:26 | the text is `contentText` when truthy, else `transcript` when truthy, else "" |
| `InsightItem.HasExcerpt` | src/components/projects/InsightItem.tsx:23 | the excerpt block is rendered exactly when the insight has its idea dump and the excerpt source text is not empty |
| `InsightItem.Excerpt` | src/components/projects/InsightItem.tsx:23-29 | an excerpt appears exactly when the dump has a text or a transcript; it is the quoted first min(150, length) characters followed by `..."` |
| `InsightItem.ShowsSuggestedTasks` | src/components/projects/InsightItem.tsx:56 | the "Suggested Tasks" section is rendered exactly for a non-empty list |
| `InsightItem.PinClick` | src/components/projects/InsightItem.tsx:17-20 | the pin button reports this insight's id and the opposite of its flag |
| `InsightItem.ClickFlipsPin` | src/components/projects/InsightItem.tsx:17-20 | a click followed by the hook's accepted toggle flips exactly that insight's flag |
| `PinToggle.ClickValue` | src/components/projects/PinToggle.tsx:9 | a click asks for the opposite state |
| `PinToggle.ClickTwice` | src/components/projects/PinToggle.tsx:9 | two clicks come back to the start |
| `PinToggle.Title` | src/components/projects/PinToggle.tsx:11 | the title is "Unpin" iff pinned and "Pin" iff not |
| `PinToggle.Fill` | src/components/projects/PinToggle.tsx:15 | the icon is filled iff pinned |
| `UseQA.AskErrorMessage` | src/hooks/useQA.ts:63-68 | a 429 gives the rate-limit text; otherwise the server's error when it has one, else the generic text; never empty |
| `UseQA.HistoryEntry` | src/hooks/useQA.ts:44-53 | the history entry carries the response's fields, the hook's project id, `helpful` null and no suggested tasks |
| `UseQA.NextSuggestions` | src/hooks/useQA.ts:58-60 | the response's suggestions replace the current ones exactly when there are any |
| `UseQA.SetHelpful` | src/hooks/useQA.ts:79-81 | entries with the id get the verdict and nothing else of them changes; the others, the length and the order stay |
| `UseQA.SetHelpfulTwice` | src/hooks/useQA.ts:79-81 | sending the same feedback twice is sending it once |
| `UseQA.QAHook.constructor` | src/hooks/useQA.ts:6-9 | empty history and suggestions, not loading, not asking |
| `UseQA.QAHook.FetchHistory` | src/hooks/useQA.ts:11-21 | GET the history; the reply replaces it, a failure keeps it, and loading is false afterwards |
| `UseQA.QAHook.FetchSuggestions` | src/hooks/useQA.ts:23-30 | GET the suggestions; the reply replaces them, and a failure keeps them |
| `UseQA.QAHook.AskQuestion` | src/hooks/useQA.ts:32-72 | POST question and flag; on success exactly one entry is put in front of the history and the suggestions follow `NextSuggestions`; on failure both stay and the error is `AskErrorMessage`; asking is false afterwards |
| `UseQA.QAHook.ProvideFeedback` | src/hooks/useQA.ts:74-85 | PATCH `{ helpful }`; on success `SetHelpful`; on failure nothing changes |
| `UseQA.QAHook.Mount` | src/hooks/useQA.ts:87-92 | both fetches run exactly for a non-empty project id |
| `QATranscript.OutcomeMessage` | src/components/projects/QAPanel.tsx:55-72 | an answer becomes an answer line and a thrown error becomes an error line with its message |
| `QATranscript.SubmitsOnKey` | src/components/projects/QAPanel.tsx:81-86 | a key submits exactly when it is Enter and Shift is not held |
| `QATranscript.BringsTasks` | src/components/projects/QAPanel.tsx:63 | an answer brings tasks exactly when its `suggestedTasks` is present and not empty |
| `QAPanel.FeedbackHidesButtons` | src/components/projects/QAPanel.tsx:142-157 | after accepted feedback no entry with that id shows the buttons, and the others show them as before |
| `QAPanel.ShowsFeedback` | src/components/projects/QAPanel.tsx:142 | the feedback buttons are shown exactly for an entry whose `helpful` is `null`: not for a given verdict and not for a missing field |
| `QAPanel.Panel.constructor` | src/components/projects/QAPanel.tsx:12-14 | empty input, examples on, chat view, empty transcript |
| `QAPanel.Panel.SetQuestion` | src/components/projects/QAPanel.tsx:268 | typing sets the input only |
| `QAPanel.Panel.HandleSubmit` | src/components/projects/QAPanel.tsx:40-74 | a blank question or one while asking changes nothing; otherwise the input is cleared, the trimmed question and the outcome line are appended, the hook's history and suggestions follow `AskQuestion` and asking ends; `onTasksCreated` fires exactly for an answer with suggested tasks when the callback exists; the transcript only grows at its end |
| `QAPanel.Panel.HandleSuggestionClick` | src/components/projects/QAPanel.tsx:76-79 | a suggestion fills the input and asks nothing |
| `QAPanel.Panel.HandleKeyDown` | src/components/projects/QAPanel.tsx:81-86 | a submit happens exactly on Enter without Shift and then has the full effect of `HandleSubmit`; any other key changes neither the panel nor the hook |
| `QAPanel.Panel.SetIncludeExamples` | src/components/projects/QAPanel.tsx:257 | the checkbox sets the flag only |
| `QAPanel.Panel.ToggleHistory` | src/components/projects/QAPanel.tsx:106 | the header button flips between chat and history |
| `QAChat.Chat.constructor` | src/components/projects/QAChat.tsx:18-21 | empty input, examples on, empty transcript, no error |
| `QAChat.Chat.SetQuestion` | src/components/projects/QAChat.tsx:211 | typing sets the input only |
| `QAChat.Chat.HandleSubmit` | src/components/projects/QAChat.tsx:33-53 | nothing is asked exactly for a blank question or while asking; otherwise the trimmed question and the flag are asked, the input is cleared, and the question and then its answer or error line are appended, with the error line also shown as the error |
| `QAChat.Chat.HandleSuggestionClick` | src/components/projects/QAChat.tsx:55-58 | a suggestion fills the input and asks nothing |
| `QAChat.Chat.HandleKeyDown` | src/components/projects/QAChat.tsx:60-65 | Enter without Shift has the full effect of `HandleSubmit`: the trimmed question asked with the examples flag, the input cleared, the question and outcome lines appended and the error set from the outcome, or nothing for a blank input or while asking; any other key changes nothing; the examples flag never changes |
| `QAChat.Chat.SetIncludeExamples` | src/components/projects/QAChat.tsx:200 | the checkbox sets the flag only |
| `QAAssistant.LauncherBadge` | src/components/projects/QAAssistant.tsx:60-71 | the launcher shows the history count exactly when there is history, and "New" otherwise |
| `QAAssistant.Content` | src/components/projects/QAAssistant.tsx:157-171 | the chat tab shows the chat and the history tab shows the history |
| `QAAssistant.Assistant.constructor` | src/components/projects/QAAssistant.tsx:13-15 | closed, on the chat tab, no current answer |
| `QAAssistant.Assistant.HandleAskQuestion` | src/components/projects/QAAssistant.tsx:26-35 | an answer becomes the current answer and is put in front of the history; a failure keeps both and is passed on; the hook's suggestions follow `NextSuggestions` on success and stay on failure, asking ends false and loading is kept; `onTasksCreated` fires exactly for an answer with suggested tasks when the callback exists |
| `QAAssistant.Assistant.Open` | src/components/projects/QAAssistant.tsx:46 | the launcher opens the panel |
| `QAAssistant.Assistant.Close` | src/components/projects/QAAssistant.tsx:96 | the close buttons and the backdrop close it |
| `QAAssistant.Assistant.SelectTab` | src/components/projects/QAAssistant.tsx:126-140 | a tab button selects that tab |
| `DashboardQA.RouteOf` | src/components/projects/DashboardQA.tsx:56-101 | a query containing "focus" or "today", lower-cased, is the focus route; failing that "progress"; failing that "priorit"; otherwise general, each stated as an iff |
| `DashboardQA.RouteIgnoresCase` | src/components/projects/DashboardQA.tsx:57 | routing ignores letter case |
| `DashboardQA.Plural` | src/components/projects/DashboardQA.tsx:74 | "project" gets an "s" exactly when the count is not 1 |
| `DashboardQA.BannerOrDefault` | src/components/projects/DashboardQA.tsx:75-76 | the overview shows the summary, or "Getting started" when it is empty |
| `DashboardQA.OverviewLines` | src/components/projects/DashboardQA.tsx:74-76 | the overview lists the first min(3, n) projects in order, one bullet line each |
| `DashboardQA.Join` | src/components/projects/DashboardQA.tsx:76 | `join` of no lines is "", of one line is that line, and of more lines is the first line, the separator and the join of the rest |
| `DashboardQA.JoinAppend` | src/components/projects/DashboardQA.tsx:76 | joining two non-empty lists of lines is joining each with one separator between the results, so separators stand exactly between neighbours |
| `DashboardQA.JoinLength` | src/components/projects/DashboardQA.tsx:76 | a join is as long as all its lines plus one separator per pair of neighbours |
| `DashboardQA.FocusAnswer` | src/components/projects/DashboardQA.tsx:64-70 | the focus answer names the project and its date, and offers three follow-ups, the first about that project |
| `DashboardQA.ProgressAnswer` | src/components/projects/DashboardQA.tsx:73-81 | the progress answer gives the count and the overview lines, with three follow-ups |
| `DashboardQA.PrioritizeAnswer` | src/components/projects/DashboardQA.tsx:84-90 | the prioritise answer gives the count, with three follow-ups |
| `DashboardQA.GeneralAnswer` | src/components/projects/DashboardQA.tsx:93-100 | the general answer gives the count, with three follow-ups |
| `DashboardQA.SwapDown` | src/components/projects/DashboardQA.tsx:60-62 | one exchange of neighbours: the array is the old one with those two positions exchanged, a permutation of it |
| `DashboardQA.SwapKeepsTies` | src/components/projects/DashboardQA.tsx:60-62 | exchanging neighbours updated at different times keeps every group of equally recent projects in its order |
| `DashboardQA.TiesInOrderTrans` | src/components/projects/DashboardQA.tsx:60-62 | keeping equally recent projects in order is transitive across sorting steps |
| `DashboardQA.InsertNewest` | src/components/projects/DashboardQA.tsx:60-62 | one insertion step extends the newest-first prefix by one element, keeps a permutation, and keeps equally recent projects in their order |
| `DashboardQA.InsertingDone` | src/components/projects/DashboardQA.tsx:60-62 | an insertion that stops at the front or behind a project updated no earlier leaves a newest-first prefix one longer |
| `DashboardQA.SortNewestFirst` | src/components/projects/DashboardQA.tsx:60-62 | the list is reordered in place into a newest-first permutation of itself, and for every time the projects updated at that time keep their old relative order (the sort is stable, as `Array.prototype.sort` is) |
| `DashboardQA.HeadIsNewest` | src/components/projects/DashboardQA.tsx:60-62 | the head of a newest-first list was updated no earlier than any project in it |
| `DashboardQA.HeadIsFirstNewest` | src/components/projects/DashboardQA.tsx:60-65 | after a stable newest-first sort the head is the first project of the old list among the most recently updated: every project before it was updated strictly earlier |
| `DashboardQA.RoutedAnswer` | src/components/projects/DashboardQA.tsx:59-101 | each route gives its own answer, always with three follow-ups; the focus answer names the list's first project |
| `DashboardQA.MockResponse` | src/components/projects/DashboardQA.tsx:56-102 | the routed answer; only the focus route reorders the list, sorting it stably newest first, and it names the first project of the old list among those updated most recently |
| `DashboardQA.Dashboard.constructor` | src/components/projects/DashboardQA.tsx:9-12 | empty input, no answer, not loading, no error |
| `DashboardQA.Dashboard.SetQuestion` | src/components/projects/DashboardQA.tsx:205 | typing sets the input only |
| `DashboardQA.Dashboard.HandleAskQuestion` | src/components/projects/DashboardQA.tsx:22-54 | a blank query or one while loading changes nothing, the list included; otherwise loading and error end cleared, and the answer is the getting-started one for no projects or else the routed one; the input is cleared exactly for a suggestion; a focus query leaves the list sorted stably newest first with the named project the first of the most recent, and any other leaves the list as it was |
| `DashboardQA.Dashboard.HandleSubmit` | src/components/projects/DashboardQA.tsx:104-107 | a submit asks the typed text and leaves it in the input; a blank text or a submit while loading changes nothing; the list is reordered exactly as `HandleAskQuestion` states |
| `DashboardQA.Dashboard.ClickSuggestion` | src/components/projects/DashboardQA.tsx:141-144 | a click fills the input and asks the suggestion, or the previous input when the suggestion is empty; a blank text or a click while loading leaves answer, loading, error and the list alone; the input ends empty when a non-blank suggestion went through; the list is reordered exactly as `HandleAskQuestion` states |
| `VoiceRecorder.FormatTime` | src/components/projects/VoiceRecorder.tsx:143-147 | the clock reads back as the minutes, a colon and two digits of the seconds |
| `VoiceRecorder.FormatTimeUnderHundredMinutes` | src/components/projects/VoiceRecorder.tsx:143-147 | below 100 minutes the clock is exactly five characters, MM:SS |
| `VoiceRecorder.Recorder.constructor` | src/components/projects/VoiceRecorder.tsx:9-18 | idle: not recording, no timer, no stream, no recording, counter 0 |
| `VoiceRecorder.Recorder.Valid` | src/components/projects/VoiceRecorder.tsx:77 | the recorder invariant every handler keeps: the timer runs exactly while recording unpaused, and every kept chunk is non-empty |
| `VoiceRecorder.Recorder.StartRecording` | src/components/projects/VoiceRecorder.tsx:35-85 | started: a fresh recorder starts with no chunks, the counter at 0, the timer on and the warning cleared; a rejected microphone request only sets the warning; a throwing `new MediaRecorder` (line 46) sets the warning and leaves the obtained stream held; a throwing `start()` (line 71) also leaves the new recorder and the emptied chunks; after any failure nothing records and the timer and counter stay; the finished recording is kept on every path |
| `VoiceRecorder.Recorder.DataAvailable` | src/components/projects/VoiceRecorder.tsx:53-57 | only non-empty chunks are kept, in arrival order; nothing else changes |
| `VoiceRecorder.Recorder.StopRecording` | src/components/projects/VoiceRecorder.tsx:87-98 | while recording with a recorder, both flags and the timer are cleared; otherwise nothing changes; the counter, chunks, recording, warning, recorder and stream always stay |
| `VoiceRecorder.Recorder.RecorderStopped` | src/components/projects/VoiceRecorder.tsx:60-68 | the collected chunks become the recording behind a new URL and the stream is released; a different URL it replaces is released by the effect cleanup at lines 20-33; the flags, timer, counter, chunks, warning and recorder stay |
| `VoiceRecorder.Recorder.PauseRecording` | src/components/projects/VoiceRecorder.tsx:100-110 | only while recording and not paused: it pauses and stops the timer; otherwise nothing changes; the recording, its URL, the counter and the stream always stay |
| `VoiceRecorder.Recorder.ResumeRecording` | src/components/projects/VoiceRecorder.tsx:112-121 | only while paused: it resumes and restarts the timer; otherwise nothing changes; the recording, its URL, the counter and the stream always stay |
| `VoiceRecorder.Recorder.Tick` | src/components/projects/VoiceRecorder.tsx:76-78 | the counter advances by one exactly while the timer runs; nothing else changes |
| `VoiceRecorder.Recorder.HandleSubmit` | src/components/projects/VoiceRecorder.tsx:123-133 | with a recording, it is handed over and cleared with the counter, and the effect cleanup releases its URL; without one, nothing happens; the flags, chunks, warning, recorder and stream always stay |
| `VoiceRecorder.Recorder.HandleDiscard` | src/components/projects/VoiceRecorder.tsx:135-141 | with a recording, its URL is released and the recording and counter are cleared; without one, nothing happens; the flags, chunks, warning, recorder and stream always stay |
| `VoiceRecorder.Recorder.Unmount` | src/components/projects/VoiceRecorder.tsx:20-33 | unmounting stops the timer, releases the stream and releases the URL when there is one |
| `SummaryBanner.DisplayText` | src/components/projects/SummaryBanner.tsx:63 | the placeholder shows exactly for an empty summary (or one equal to the placeholder); otherwise the summary shows |
| `SummaryBanner.Counter` | src/components/projects/SummaryBanner.tsx:46 | the counter reads the buffer's length in decimal, followed by "/220" |
| `SummaryBanner.SaveLabel` | src/components/projects/SummaryBanner.tsx:52 | "Saving..." exactly while saving, "Save" otherwise |
| `SummaryBanner.Banner.constructor` | src/components/projects/SummaryBanner.tsx:11-13 | not editing, not saving, and the buffer holds the summary |
| `SummaryBanner.Banner.ReceiveSummary` | src/components/projects/SummaryBanner.tsx:12 | a new summary prop replaces the shown summary and leaves the buffer as it was |
| `SummaryBanner.Banner.StartEdit` | src/components/projects/SummaryBanner.tsx:66 | the edit button opens the editor and keeps the buffer |
| `SummaryBanner.Banner.Edit` | src/components/projects/SummaryBanner.tsx:40 | the buffer becomes exactly the value the textarea delivers; the editor and saving flags and the shown summary stay |
| `SummaryBanner.Banner.HandleSave` | src/components/projects/SummaryBanner.tsx:15-28 | PATCH the buffer; on success `onUpdate` gets the buffer and the editor closes; on failure it stays open; saving is false afterwards |
| `SummaryBanner.Banner.HandleCancel` | src/components/projects/SummaryBanner.tsx:30-33 | cancel restores the buffer to the summary and closes the editor |
| `UseProject.Merge` | src/hooks/useProject.ts:23 | each field the patch gives overwrites, and each other field stays |
| `UseProject.MergeIdempotent` | src/hooks/useProject.ts:23 | applying the same update twice is applying it once |
| `UseProject.MergeNoChange` | src/hooks/useProject.ts:23 | the empty patch changes nothing |
| `UseProject.MergeTwice` | src/hooks/useProject.ts:23 | two updates in a row equal one combined update, the later winning |
| `UseProject.Updated` | src/hooks/useProject.ts:23 | with no project loaded an update keeps none; otherwise the project is merged |
| `UseProject.ProjectHook.constructor` | src/hooks/useProject.ts:6-7 | no project, loading |
| `UseProject.ProjectHook.FetchProject` | src/hooks/useProject.ts:9-18 | GET the project; the reply is stored, a failure keeps the old one, and loading ends |
| `UseProject.ProjectHook.UpdateProject` | src/hooks/useProject.ts:20-27 | PATCH the updates; on success they are merged into the held project; a failure changes nothing |
| `ProjectPage.AcceptSetsBanner` | src/pages/ProjectPage.tsx:40-45 | accepting writes the suggestion into the banner and keeps every other project field |
| `ProjectPage.AcceptedSuggestionStopsEffect` | src/pages/ProjectPage.tsx:25-29 | once a non-empty suggestion is accepted, the suggestion effect no longer fires |
| `ProjectPage.ShouldSuggest` | src/pages/ProjectPage.tsx:25-29 | the suggestion effect fires exactly with at least three insights and a project that is not loaded or has an empty summary |
| `ProjectPage.Page.constructor` | src/pages/ProjectPage.tsx:23 | no suggestion is held |
| `ProjectPage.Page.SuggestSummary` | src/pages/ProjectPage.tsx:25-38 | a request is made exactly when there are at least three insights and no summary; a reply becomes the held suggestion, and a failure keeps what was held |
| `ProjectPage.Page.HandleAcceptSuggestion` | src/pages/ProjectPage.tsx:40-45 | acts exactly when a suggestion and a project are held: PATCH the summary, merge it on success, and drop the suggestion even on failure |
| `ProjectPage.Page.RejectSuggestion` | src/pages/ProjectPage.tsx:102 | reject drops the suggestion and hides the dialog |
| `ProjectPage.Page.DialogVisible` | src/pages/ProjectPage.tsx:98-104 | the suggestion dialog is shown exactly while a non-empty suggestion is held |
| `ProjectPage.Page.SaveSummary` | src/pages/ProjectPage.tsx:59-63 | the banner's PATCH of its buffer is always sent; only when it succeeded does the project hook send its PATCH of the same text, merged on success, and the editor close; on failure the project is unchanged and the editor stays as it was; saving is false and the buffer kept on both paths |
| `ProjectPage.Page.OnRecorded` | src/pages/ProjectPage.tsx:67 | a recorded thought refetches the insights: GET, the list replaced on success and kept on failure, loading false |
| `ProjectPage.Page.OnTasksCreated` | src/pages/ProjectPage.tsx:110 | tasks created by the assistant refetch the task list: GET, the list replaced on success and kept on failure, loading false |
| `Store.MergeUser` | src/lib/store.ts:28-30 | each user field the patch gives overwrites, and each other field stays |
| `Store.MergeUserIdempotent` | src/lib/store.ts:28-30 | the same user update twice is that update once |
| `Store.Session.constructor` | src/lib/store.ts:24-25 | signed out: no token, no user |
| `Store.Session.SetAuth` | src/lib/store.ts:26 | the token and the user are both set |
| `Store.Session.Logout` | src/lib/store.ts:27 | the token and the user are both cleared |
| `Store.Session.UpdateUser` | src/lib/store.ts:28-30 | a held user is merged with the updates; with no user there stays none; the token is untouched |
| `Api.BaseUrl` | src/lib/api.ts:4 | the configured base URL when it is non-empty, otherwise the local default; never empty |
| `Api.WithAuth` | src/lib/api.ts:10-16 | with a token the request gets exactly the `Authorization: Bearer <token>` header added; without one the request is unchanged |
| `Api.WithAuthIdempotent` | src/lib/api.ts:10-16 | attaching the token twice is attaching it once |
| `Api.Client.constructor` | src/lib/api.ts:6-8 | no redirect has happened |
| `Api.Client.OnRequest` | src/lib/api.ts:10-16 | every request carries the session's token as `WithAuth` |
| `Api.Client.OnResponse` | src/lib/api.ts:18-27 | a reply passes through unchanged; a 401 logs out and redirects to /login; any other reply leaves the session alone |
| `Routes.Route` | src/routes.tsx:13-16 | login and register render signed out and redirect home signed in; home and project pages render signed in and redirect to login signed out; other paths match nothing |
| `Routes.SignedIn` | src/routes.tsx:9-16 | the guard sees a session exactly for a token that is present and not the empty string |
| `Routes.RedirectOnce` | src/routes.tsx:13-16 | a redirect always lands on a page that renders, so there is no redirect loop |
| `Routes.RouteByTruthiness` | src/routes.tsx:9-16 | routing depends only on whether the token is truthy |
| `Routes.RendersForOneState` | src/routes.tsx:13-16 | every matched path renders in exactly one of the two session states |
| `Text.Trim` | src/components/projects/TaskCard.tsx:29 | `trim()`: the result is empty exactly for all-blank text; otherwise it starts and ends with a non-blank character and is the text between the first and last non-blank characters |
| `Text.TrimIdempotent` | src/components/projects/NewMilestoneForm.tsx:16-20 | trimming twice is trimming once |
| `Text.NonEmpty` | src/components/projects/NewTaskForm.tsx:15 | `s \|\| undefined` is no value exactly for "" and is `s` otherwise |
| `Text.ToLower` | src/components/projects/DashboardQA.tsx:57 | lower-casing keeps the length, leaves no upper-case letter and keeps every other character |
| `Text.ToLowerIdempotent` | src/components/projects/DashboardQA.tsx:57 | lower-casing twice is lower-casing once |
| `Text.ContainsIff` | src/components/projects/DashboardQA.tsx:59 | `includes` holds exactly when the text occurs at some position |
| `Text.Take` | src/components/projects/InsightItem.tsx:26 | `slice(0, n)` is the prefix of length min(n, length) |
| `Text.NatToString` | src/components/projects/VoiceRecorder.tsx:144-146 | the decimal text of a number has digits only, no leading zero, and one digit exactly below 10 |
| `Text.NatToStringRoundTrip` | src/components/projects/VoiceRecorder.tsx:144-146 | the decimal text reads back as the number |
| `Text.PadStart2` | src/components/projects/VoiceRecorder.tsx:146 | `padStart(2, '0')` keeps the text as a suffix, fills with zeros on the left, and gives length max(2, length) |
| `Lists.Filter` | src/hooks/useTasks.ts:45 | `filter` keeps exactly the elements satisfying the predicate, never more than the list has |
| `Lists.FilterConcat` | src/components/projects/KanbanBoard.tsx:18-20 | filtering distributes over concatenation, so kept elements keep their relative order |
| `Lists.FilterPartition` | src/components/projects/InsightsFeed.tsx:10-11 | a filter and the filter by the complement together hold every element exactly as often as the list |
| `Lists.FilterPartition3` | src/components/projects/KanbanBoard.tsx:18-20 | three filters by predicates of which every element satisfies exactly one split the list |
| `Lists.HitsSnoc` | src/components/projects/KanbanBoard.tsx:22-26 | appending an element adds its position to the matching positions exactly when it satisfies the predicate |
| `Lists.FilterLength` | src/components/projects/KanbanBoard.tsx:22-26 | the length of a filter is the number of positions whose element satisfies the predicate |
| `Lists.FilterAll` | src/components/projects/InsightsFeed.tsx:10-11 | when every element satisfies the predicate the filter is the list itself |
| `Lists.FilterNone` | src/components/projects/InsightsFeed.tsx:10-11 | when no element satisfies the predicate the filter is empty |
| `Lists.FilterFirst` | src/components/projects/DashboardQA.tsx:60-65 | the first element a filter keeps is the first element of the list satisfying the predicate |
| `Lists.FilterSwap` | src/components/projects/DashboardQA.tsx:60 | exchanging two neighbours that the predicate does not both keep leaves the filter unchanged |
| `Lists.FilterIdempotent` | src/hooks/useTasks.ts:45 | filtering twice by the same predicate is filtering once |
| `Lists.MapWhere` | src/hooks/useTasks.ts:36 | `map(x => hit(x) ? f(x) : x)` keeps the length, rewrites exactly the hit elements by `f` and leaves the others in place |
| `Lists.MapWhereNoHit` | src/hooks/useTasks.ts:36 | a map that hits nothing returns the list unchanged |
| `Lists.MapWhereTwice` | src/hooks/useInsights.ts:24 | when `f` is idempotent and keeps its results hit, mapping twice is mapping once |

Some definitions carry no contract of their own. The contracts above use them, and they are stated through those contracts:
- `Text.Truthy`, `Text.Present` and `Text.Blank` are JavaScript truthiness of a string and `!s.trim()`.
- `UseInsights.WithPinned` is `{ ...i, pinned }` (useInsights.ts:24), stated through `UseInsights.SetPinned`.
- `UseQA.WithHelpful` is `{ ...q, helpful }` (useQA.ts:80), stated through `UseQA.SetHelpful`.
- `DashboardQA.OverviewLine` is one bullet line (DashboardQA.tsx:75), stated through `DashboardQA.OverviewLines`.
- `DashboardQA.Dashboard.QueryText` is `q || question` (DashboardQA.tsx:23), stated through `DashboardQA.Dashboard.HandleAskQuestion` and `ClickSuggestion`.
- `DashboardQA.Render` is the prose of the canned answers (DashboardQA.tsx:64-101).

## Left out

- Network, timing and concurrency:
  - The HTTP transport and the backend are not modelled. A handler receives the reply as a parameter.
  - Each handler is one atomic step, so in-flight states are not modelled: those where `asking`, `loading` or `saving` is true mid-request, and two requests overlapping.
  - The gates on those flags are modelled, for example an ask while `asking` does nothing.
- React and the browser:
  - React's render cycle and the effect dependency lists are not modelled. So are scrolling into view, input focus and the `useRef` handles.
  - An effect is a method the caller invokes, such as `ProjectPage.Page.SuggestSummary` or `UseQA.QAHook.Mount`.
  - `window.location` is the field `redirectedTo`, and `import.meta.env` is the parameter of `Api.BaseUrl`.
  - Persistence of the session (the `zustand` persist middleware) is not modelled.
- Dates, numbers and text:
  - Parsing and formatting dates are parameters: `new Date(...).getTime()` is `timeOf`, `toLocaleDateString()` is `formatDate`, and `toISOString()` is `toIso`. An unparsable date (`NaN`) is not modelled in the sort.
  - Floating point is not modelled. `KanbanBoard.CompletionPercent` uses exact rational rounding, and the width of the progress bar is not modelled.
  - `KanbanBoard.CompletionPercent` does not model floating-point ties. Exact arithmetic rounds exact halves up, as `Math.round` does.
  - `Text.ToLower` folds only the ASCII letters, not the full Unicode case mapping of `toLowerCase`.
  - Strings are sequences of code points rather than UTF-16 units. So `length` and `slice` count code points.
- Media and files:
  - The media recorder, the microphone, blobs and object URLs are not modelled.
  - A recorded chunk is its size, the recording is the sequence of kept chunks, and creating the URL is a parameter of `RecorderStopped`.
  - The timer is the flag `timerRunning` plus `Tick`.
- Types and response shapes:
  - `QAResponse` is not part of the client's type file. Its fields are the ones the hook reads, and they are assumed present in every reply.
  - `helpful` is `Missing | Pending | Given(b)`: `Missing` is an absent field (`undefined`) and `Pending` is `null`. The entries this client builds always carry `null`.
  - Object spreads with an explicit `undefined` field are not modelled: an absent field in a patch is `None`.
- Rendering:
  - Rendering beyond the predicates and functions above is not modelled: class names, icons, the progress bar and the header texts.
  - `DashboardQA.Render`, the prose of the canned answers, carries no contract.
- Components of the repository outside this model:
  - `QAHistory`, `MilestonesPanel`, `MilestoneItem`, `RecordThoughts`, `SummarySuggestDialog` and `CreateProjectModal`.
  - The auth pages and `GoogleSignInButton`, `GuestCTA`, `Navbar`, `ProjectGrid` and `ProjectCard`.
  - `useAudioPermission`, the Firebase modules and `lib/auth.ts`.
  - These are callers or presentational components; the state they share is modelled where it lives (the hooks).
- DashboardQA answers and sort:
  - `DashboardQA.FocusAnswer`, `DashboardQA.ProgressAnswer`, `DashboardQA.PrioritizeAnswer` and `DashboardQA.GeneralAnswer` state the chosen template, its filled-in values and the follow-ups. The fixed prose around them is defined in `Render` and is not stated in the contracts.
  - `DashboardQA.MockResponse` requires a non-empty list, because its caller handles the empty list before calling it. The caller's `catch` branch cannot be reached in the model, so `error` is only ever cleared.
- `SummaryBanner.Banner.Edit` does not model the browser's `maxLength` editing rule. The browser blocks insertions past 220 characters, cuts a paste at the limit and still allows deletions in a longer buffer. Here the delivered value is a parameter, so no bound on the buffer is promised; the source promises none either for a summary already longer than 220 characters.
- `VoiceRecorder.Recorder.StartRecording` requires that no recording is running. The component offers "Start" and "Re-record" only in the idle and finished states.
- `VoiceRecorder.Recorder` does not model the `disabled` prop as a gate. It only disables the Start and Submit buttons, and the handlers never read it.
- `VoiceRecorder.Recorder` models the URL effect's cleanup only as the release of the replaced URL. The cleanup runs each time the URL changes, and its timer and stream clean-up is not modelled. Those are already stopped whenever the UI lets the URL change.
- Behaviour faithful to the source, which may surprise:
  - `DashboardQA.Dashboard.HandleSubmit` leaves the typed question in the input.
  - `SummaryBanner.Banner.ReceiveSummary` does not refresh the edit buffer until Cancel is pressed.
  - `ProjectPage.Page.HandleAcceptSuggestion` drops the suggestion even when the update fails.
