/**
 * The new-milestone dialog: title, description and due-date fields, a
 * Create button that is enabled only for a non-blank title, and a cancel
 * button.
 */
module NewMilestoneForm {
  import opened Wrappers
  import opened Text

  /** The arguments of `onSubmit(title, description, dueDate)`. */
  datatype MilestoneArgs = MilestoneArgs(title: string, description: Option<string>, dueDate: Option<string>)

  /** `disabled={!title.trim()}`: the button is enabled exactly for titles that are not blank. */
  function CreateEnabled(title: string): (b: bool)
    ensures b <==> !AllSpace(title)
  {
    !Blank(title)
  }

  /**
   * What a submit forwards: nothing for a blank title; otherwise the trimmed
   * title, the trimmed description or none when that is empty, and the due
   * date as entered or none when the field is empty.
   */
  function SubmitArgs(title: string, description: string, dueDate: string): (r: Option<MilestoneArgs>)
    ensures r.Some? <==> CreateEnabled(title)
    ensures r.Some? ==> r.value.title == Trim(title) && r.value.title != ""
    ensures r.Some? ==> (r.value.description.None? <==> Blank(description))
    ensures r.Some? && r.value.description.Some? ==> r.value.description.value == Trim(description)
    ensures r.Some? ==> r.value.dueDate == NonEmpty(dueDate)
  {
    if Truthy(Trim(title)) then Some(MilestoneArgs(Trim(title), NonEmpty(Trim(description)), NonEmpty(dueDate)))
    else None
  }

  /**
   * The submitted title and description have no white space at either end,
   * so submitting them again forwards the same values.
   */
  lemma SubmitArgsStable(title: string, description: string, dueDate: string)
    requires CreateEnabled(title)
    ensures var a := SubmitArgs(title, description, dueDate).value;
      SubmitArgs(a.title, a.description.GetOr(""), a.dueDate.GetOr("")) == Some(a)
  {
    TrimIdempotent(title);
    TrimIdempotent(description);
  }

  datatype FormCall = Submit(args: MilestoneArgs) | Cancel

  class Form {
    var title: string
    var description: string
    var dueDate: string

    constructor()
      ensures title == "" && description == "" && dueDate == ""
    {
      title := "";
      description := "";
      dueDate := "";
    }

    method SetTitle(t: string)
      modifies this
      ensures title == t && description == old(description) && dueDate == old(dueDate)
    {
      title := t;
    }

    method SetDescription(d: string)
      modifies this
      ensures description == d && title == old(title) && dueDate == old(dueDate)
    {
      description := d;
    }

    method SetDueDate(due: string)
      modifies this
      ensures dueDate == due && title == old(title) && description == old(description)
    {
      dueDate := due;
    }

    /** Submit calls `onSubmit` exactly when Create is enabled, with the normalised fields. */
    method HandleSubmit() returns (call: Option<FormCall>)
      ensures call.None? <==> !CreateEnabled(title)
      ensures call.Some? ==> call.value.Submit? && Some(call.value.args) == SubmitArgs(title, description, dueDate)
    {
      var args := SubmitArgs(title, description, dueDate);
      call := if args.Some? then Some(Submit(args.value)) else None;
    }

    /** Cancel calls `onCancel` only. */
    method HandleCancel() returns (call: FormCall)
      ensures call == Cancel
    {
      call := Cancel;
    }
  }
}
