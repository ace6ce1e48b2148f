/**
 * What the two Q&A chat components share: the transcript line, the key that
 * submits, and when an answer counts as having created tasks.
 */
module QATranscript {
  import opened Types
  import opened UseQA

  /** One transcript line: the asked question, an answer, or an error message. */
  datatype Message = Question(text: string) | Answer(response: QAResponse) | Error(text: string)

  /** The transcript line an ask's outcome adds. */
  function OutcomeMessage(o: AskOutcome): (m: Message)
    ensures o.Answered? <==> m.Answer?
    ensures o.Answered? ==> m == Answer(o.response)
    ensures o.Raised? ==> m == Error(o.message)
  {
    match o
    case Answered(r) => Answer(r)
    case Raised(msg) => Error(msg)
  }

  /** Enter without Shift submits; Shift+Enter inserts a line break. */
  function SubmitsOnKey(key: string, shiftKey: bool): (b: bool)
    ensures b <==> key == "Enter" && !shiftKey
  {
    key == "Enter" && !shiftKey
  }

  /** The answer brings tasks the backend created (`suggestedTasks` present and non-empty). */
  function BringsTasks(r: QAResponse): (b: bool)
    ensures b <==> r.suggestedTasks.Some? && r.suggestedTasks.value != []
  {
    r.suggestedTasks.Some? && |r.suggestedTasks.value| > 0
  }
}
