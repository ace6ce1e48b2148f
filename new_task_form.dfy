/**
 * The new-task dialog: two input fields, a submit that is refused for a
 * blank title, and a cancel button.
 */
module NewTaskForm {
  import opened Wrappers
  import opened Text
  import opened Types

  /**
   * What a submit forwards: nothing for a blank title; otherwise the title
   * exactly as typed and the description as typed, or no description when
   * the field is empty (a description of spaces is forwarded).
   */
  function SubmitArgs(title: string, description: string): (r: Option<TaskCreate>)
    ensures r.None? <==> Blank(title)
    ensures r.Some? ==> r.value.title == title
    ensures r.Some? ==> (r.value.description == None <==> description == "")
    ensures r.Some? && r.value.description.Some? ==> r.value.description.value == description
  {
    if Truthy(Trim(title)) then
      Some(TaskCreate(title, NonEmpty(description)))
    else None
  }

  /** The two callbacks the form can call. */
  datatype FormCall = Submit(args: TaskCreate) | Cancel

  class Form {
    var title: string
    var description: string

    constructor()
      ensures title == "" && description == ""
    {
      title := "";
      description := "";
    }

    method SetTitle(t: string)
      modifies this
      ensures title == t && description == old(description)
    {
      title := t;
    }

    method SetDescription(d: string)
      modifies this
      ensures description == d && title == old(title)
    {
      description := d;
    }

    /** Submit calls `onSubmit` exactly when the title is not blank; the fields are left as typed. */
    method HandleSubmit() returns (call: Option<FormCall>)
      ensures call.None? <==> Blank(title)
      ensures call.Some? ==> call.value.Submit? && Some(call.value.args) == SubmitArgs(title, description)
    {
      var args := SubmitArgs(title, description);
      call := if args.Some? then Some(Submit(args.value)) else None;
    }

    /** The cancel button calls `onCancel` and never `onSubmit`. */
    method HandleCancel() returns (call: FormCall)
      ensures call == Cancel
    {
      call := Cancel;
    }
  }
}
