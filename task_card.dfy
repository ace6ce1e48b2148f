/**
 * One task on the board: moving it left or right through the three states,
 * editing its title and description, and dragging it to another column.
 * The `onUpdate` and `onDelete` props are optional; a handler that would
 * call one returns the call it makes instead.
 */
module TaskCard {
  import opened Wrappers
  import opened Text
  import opened Types

  /** The "move right" target: a state different from the current one. */
  function NextStatus(s: Status): (r: Status)
    ensures r != s
  {
    match s
    case Todo => InProgress
    case InProgress => Done
    case Done => Todo
  }

  /** The "move left" target: a state different from the current one. */
  function PreviousStatus(s: Status): (r: Status)
    ensures r != s
  {
    match s
    case Todo => Done
    case InProgress => Todo
    case Done => InProgress
  }

  /** Moving right three times comes back to the start: the states form one 3-cycle. */
  lemma NextStatusCycle(s: Status)
    ensures NextStatus(NextStatus(s)) != s
    ensures NextStatus(NextStatus(NextStatus(s))) == s
  {
  }

  /** Moving left undoes moving right and vice versa. */
  lemma PreviousIsInverse(s: Status)
    ensures PreviousStatus(NextStatus(s)) == s
    ensures NextStatus(PreviousStatus(s)) == s
  {
  }

  /**
   * The update a save sends: the trimmed title, the trimmed description or,
   * when that is empty, no description, and no status.
   */
  function SavePatch(title: string, description: string): (r: TaskPatch)
    ensures r.title == Some(Trim(title)) && r.status == None
    ensures r.description == None <==> Blank(description)
    ensures r.description.Some? ==> r.description.value == Trim(description)
  {
    TaskPatch(Some(Trim(title)), if Trim(description) == "" then None else Some(Trim(description)), None)
  }

  /**
   * Normalisation is stable: saving the values a save produced (a missing
   * description is the empty buffer) produces the same patch again.
   */
  lemma SavePatchStable(title: string, description: string)
    ensures var p := SavePatch(title, description);
      SavePatch(p.title.value, p.description.GetOr("")) == p
  {
    TrimIdempotent(title);
    TrimIdempotent(description);
  }

  class Card {
    var task: Task
    const hasOnUpdate: bool
    const hasOnDelete: bool
    var isEditing: bool
    var editTitle: string
    var editDescription: string
    var showActions: bool
    var isDragging: bool

    /** A fresh card shows the task, with the edit buffers holding its title and description. */
    constructor(task: Task, hasOnUpdate: bool, hasOnDelete: bool)
      ensures this.task == task && this.hasOnUpdate == hasOnUpdate && this.hasOnDelete == hasOnDelete
      ensures !isEditing && !showActions && !isDragging
      ensures editTitle == task.title && editDescription == task.description.GetOr("")
    {
      this.task := task;
      this.hasOnUpdate := hasOnUpdate;
      this.hasOnDelete := hasOnDelete;
      isEditing := false;
      editTitle := task.title;
      editDescription := task.description.GetOr("");
      showActions := false;
      isDragging := false;
    }

    /**
     * The parent renders the same card (same key) with a new `task` prop,
     * for instance the server's copy after a save: the prop is replaced and
     * every piece of state, the edit buffers included, is kept.
     */
    method ReceiveTask(t: Task)
      modifies this
      ensures task == t
      ensures isEditing == old(isEditing) && editTitle == old(editTitle) && editDescription == old(editDescription)
      ensures showActions == old(showActions) && isDragging == old(isDragging)
    {
      task := t;
    }

    /** Either edit button: switch to the edit form. */
    method StartEdit()
      modifies this
      ensures isEditing
      ensures task == old(task) && editTitle == old(editTitle) && editDescription == old(editDescription)
      ensures showActions == old(showActions) && isDragging == old(isDragging)
    {
      isEditing := true;
    }

    /** Typing into the title or description field. */
    method EditFields(title: string, description: string)
      modifies this
      ensures editTitle == title && editDescription == description
      ensures task == old(task) && isEditing == old(isEditing)
      ensures showActions == old(showActions) && isDragging == old(isDragging)
    {
      editTitle := title;
      editDescription := description;
    }

    /**
     * Save: only with a title that is not blank and an update callback; then
     * one update of this task with the normalised fields, and the form
     * closes. Otherwise nothing is sent and the form stays as it is.
     */
    method HandleSave() returns (call: Option<TaskUpdate>)
      modifies this
      ensures Blank(editTitle) || !hasOnUpdate ==> call == None && isEditing == old(isEditing)
      ensures !Blank(editTitle) && hasOnUpdate ==>
        call == Some(TaskUpdate(task.id, SavePatch(editTitle, editDescription))) && !isEditing
      ensures task == old(task) && editTitle == old(editTitle) && editDescription == old(editDescription)
      ensures showActions == old(showActions) && isDragging == old(isDragging)
    {
      call := None;
      if Trim(editTitle) != "" && hasOnUpdate {
        call := Some(TaskUpdate(task.id, SavePatch(editTitle, editDescription)));
        isEditing := false;
      }
    }

    /**
     * Cancel: the buffers go back to the values of the task prop currently
     * held (the server's copy once it has been received), the form closes,
     * nothing is sent.
     */
    method HandleCancel()
      modifies this
      ensures editTitle == task.title && editDescription == task.description.GetOr("")
      ensures !isEditing
      ensures task == old(task) && showActions == old(showActions) && isDragging == old(isDragging)
    {
      editTitle := task.title;
      editDescription := task.description.GetOr("");
      isEditing := false;
    }

    /** One update of this task carrying only the new status, when there is an update callback. */
    method MoveToStatus(newStatus: Status) returns (call: Option<TaskUpdate>)
      modifies this
      ensures hasOnUpdate ==> call == Some(TaskUpdate(task.id, StatusPatch(newStatus))) && !showActions
      ensures !hasOnUpdate ==> call == None && showActions == old(showActions)
      ensures task == old(task) && isEditing == old(isEditing) && editTitle == old(editTitle)
      ensures editDescription == old(editDescription) && isDragging == old(isDragging)
    {
      call := None;
      if hasOnUpdate {
        call := Some(TaskUpdate(task.id, StatusPatch(newStatus)));
        showActions := false;
      }
    }

    /** The "move right" button. */
    method MoveRight() returns (call: Option<TaskUpdate>)
      modifies this
      ensures hasOnUpdate ==> call == Some(TaskUpdate(task.id, StatusPatch(NextStatus(task.status)))) && !showActions
      ensures !hasOnUpdate ==> call == None && showActions == old(showActions)
      ensures task == old(task) && isEditing == old(isEditing) && editTitle == old(editTitle)
      ensures editDescription == old(editDescription) && isDragging == old(isDragging)
    {
      call := MoveToStatus(NextStatus(task.status));
    }

    /** The "move left" button. */
    method MoveLeft() returns (call: Option<TaskUpdate>)
      modifies this
      ensures hasOnUpdate ==> call == Some(TaskUpdate(task.id, StatusPatch(PreviousStatus(task.status)))) && !showActions
      ensures !hasOnUpdate ==> call == None && showActions == old(showActions)
      ensures task == old(task) && isEditing == old(isEditing) && editTitle == old(editTitle)
      ensures editDescription == old(editDescription) && isDragging == old(isDragging)
    {
      call := MoveToStatus(PreviousStatus(task.status));
    }

    /**
     * Drag start: the card is marked as dragged and the transfer data holds
     * exactly this task's id under `taskId`, for a move.
     */
    method HandleDragStart() returns (data: map<string, string>, effectAllowed: string)
      modifies this
      ensures isDragging
      ensures data.Keys == {"taskId"} && data["taskId"] == task.id
      ensures effectAllowed == "move"
      ensures task == old(task) && isEditing == old(isEditing) && editTitle == old(editTitle)
      ensures editDescription == old(editDescription) && showActions == old(showActions)
    {
      isDragging := true;
      data := map["taskId" := task.id];
      effectAllowed := "move";
    }

    method HandleDragEnd()
      modifies this
      ensures !isDragging
      ensures task == old(task) && isEditing == old(isEditing) && editTitle == old(editTitle)
      ensures editDescription == old(editDescription) && showActions == old(showActions)
    {
      isDragging := false;
    }

    /** Either delete button, which is only rendered when there is a delete callback: the task's id. */
    method HandleDelete() returns (call: Option<string>)
      ensures call == None <==> !hasOnDelete
      ensures call.Some? ==> call.value == task.id
    {
      call := if hasOnDelete then Some(task.id) else None;
    }
  }
}
