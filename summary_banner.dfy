/**
 * The summary banner: the project's one-line summary, shown with a
 * placeholder when empty, and an editor whose Save patches the summary and
 * then reports the new text to the page.
 */
module SummaryBanner {
  import opened Wrappers
  import opened Text
  import opened Types

  const Placeholder: string := "Click to add a project summary..."

  /** The banner text: the summary, or the placeholder exactly when there is none. */
  function DisplayText(summary: string): (t: string)
    ensures t == Placeholder <==> summary == "" || summary == Placeholder
    ensures summary != "" ==> t == summary
  {
    if Truthy(summary) then summary else Placeholder
  }

  /** The character counter under the editor: the buffer's length in decimal, then "/220". */
  function Counter(editValue: string): (c: string)
    ensures |c| >= 5 && c[|c| - 4..] == "/220"
    ensures AllDigits(c[..|c| - 4]) && DecimalValue(c[..|c| - 4]) == |editValue|
  {
    var n := NatToString(|editValue|);
    NatToStringRoundTrip(|editValue|);
    assert (n + "/220")[..|n|] == n;
    n + "/220"
  }

  /** The save button's label follows the `saving` flag. */
  function SaveLabel(saving: bool): (l: string)
    ensures l == "Saving..." <==> saving
    ensures !saving ==> l == "Save"
  {
    if saving then "Saving..." else "Save"
  }

  function SummaryPath(projectId: string): string {
    "/api/projects/" + projectId + "/summary"
  }

  class Banner {
    const projectId: string
    /** The `summary` prop. */
    var summary: string
    var isEditing: bool
    var editValue: string
    var saving: bool

    /** The edit buffer starts as the summary the banner was first rendered with. */
    constructor(projectId: string, summary: string)
      ensures this.projectId == projectId && this.summary == summary
      ensures !isEditing && editValue == summary && !saving
    {
      this.projectId := projectId;
      this.summary := summary;
      isEditing := false;
      editValue := summary;
      saving := false;
    }

    /** A new summary prop replaces the shown text; the edit buffer keeps its old content. */
    method ReceiveSummary(s: string)
      modifies this
      ensures summary == s
      ensures isEditing == old(isEditing) && editValue == old(editValue) && saving == old(saving)
    {
      summary := s;
    }

    /** The pencil button opens the editor on the current buffer. */
    method StartEdit()
      modifies this
      ensures isEditing && editValue == old(editValue) && summary == old(summary) && saving == old(saving)
    {
      isEditing := true;
    }

    /**
     * Typing: the buffer becomes the textarea's value as the browser delivers
     * it. The `maxLength` limit is the browser's editing rule, not the
     * handler's, so nothing here cuts the value.
     */
    method Edit(value: string)
      modifies this
      ensures editValue == value
      ensures isEditing == old(isEditing) && summary == old(summary) && saving == old(saving)
    {
      editValue := value;
    }

    /**
     * Save patches the summary with exactly the edited text. On success
     * `onUpdate` receives that text and the editor closes; on failure it
     * stays open and nothing is reported. `saving` is false afterwards.
     */
    method HandleSave(reply: Reply<Ack>) returns (request: Request<ProjectPatch>, updated: Option<string>)
      modifies this
      ensures request == Patch(SummaryPath(projectId), SummaryPatch(old(editValue)))
      ensures reply.Success? ==> updated == Some(old(editValue)) && !isEditing
      ensures reply.Failure? ==> updated == None && isEditing == old(isEditing)
      ensures !saving
      ensures editValue == old(editValue) && summary == old(summary)
    {
      saving := true;
      request := Patch(SummaryPath(projectId), SummaryPatch(editValue));
      updated := None;
      if reply.Success? {
        updated := Some(editValue);
        isEditing := false;
      }
      saving := false;
    }

    /** Cancel puts the current summary back into the buffer and closes the editor. */
    method HandleCancel()
      modifies this
      ensures editValue == summary && !isEditing
      ensures summary == old(summary) && saving == old(saving)
    {
      editValue := summary;
      isEditing := false;
    }
  }
}
