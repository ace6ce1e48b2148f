/**
 * One status column as a drop target: the hover flag, the update a drop
 * issues, and the text of an empty column.
 */
module Column {
  import opened Wrappers
  import opened Text
  import opened Types

  /** The placeholder of a column without tasks: "Drop here!" while a card hovers over it. */
  function EmptyMessage(isDragOver: bool): (r: string)
    ensures r == "Drop here!" <==> isDragOver
    ensures r == "No tasks" <==> !isDragOver
  {
    if isDragOver then "Drop here!" else "No tasks"
  }

  class DropColumn {
    const status: Status
    var isDragOver: bool

    constructor(status: Status)
      ensures this.status == status && !isDragOver
    {
      this.status := status;
      isDragOver := false;
    }

    /**
     * A drop clears the hover flag; when the transfer carries a task id it
     * issues exactly one update of that task whose only field is this
     * column's status, and otherwise none.
     */
    method HandleDrop(transferId: string) returns (call: Option<TaskUpdate>)
      modifies this
      ensures !isDragOver
      ensures transferId == "" ==> call == None
      ensures transferId != "" ==> call == Some(TaskUpdate(transferId, StatusPatch(status)))
    {
      isDragOver := false;
      call := None;
      if Truthy(transferId) {
        call := Some(TaskUpdate(transferId, StatusPatch(status)));
      }
    }

    /** Drag-over sets the hover flag, writing it only when it was clear. */
    method HandleDragOver()
      modifies this
      ensures isDragOver
    {
      if !isDragOver {
        isDragOver := true;
      }
    }

    method HandleDragLeave()
      modifies this
      ensures !isDragOver
    {
      isDragOver := false;
    }
  }
}
