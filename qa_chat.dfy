/**
 * The assistant's chat view: an input, an error line and a transcript. The
 * question is handed to the `onAskQuestion` callback, whose settled result
 * is a parameter here; `asking` is the prop the parent passes down.
 */
module QAChat {
  import opened Wrappers
  import opened Text
  import opened Types
  import opened UseQA
  import opened QATranscript

  class Chat {
    var question: string
    var includeExamples: bool
    var messages: seq<Message>
    var error: Option<string>

    constructor()
      ensures question == "" && includeExamples && messages == [] && error == None
    {
      question := "";
      includeExamples := true;
      messages := [];
      error := None;
    }

    /**
     * Submit. A blank question, or a submit while `asking`, calls nothing and
     * changes nothing. Otherwise `onAskQuestion` is called with the trimmed
     * question, the input and the error are cleared and the question is
     * appended; an answer is appended after it and leaves the error cleared,
     * a thrown error becomes the error line and is appended as well.
     */
    method HandleSubmit(asking: bool, outcome: AskOutcome) returns (asked: Option<AskBody>)
      modifies this
      ensures asked.None? <==> Blank(old(question)) || asking
      ensures asked.None? ==>
        question == old(question) && messages == old(messages) && error == old(error)
      ensures asked.Some? ==>
        && asked.value == AskBody(Trim(old(question)), old(includeExamples))
        && question == ""
        && (outcome.Answered? ==>
              messages == old(messages) + [Question(Trim(old(question))), Answer(outcome.response)]
              && error == None)
        && (outcome.Raised? ==>
              messages == old(messages) + [Question(Trim(old(question))), Error(outcome.message)]
              && error == Some(outcome.message))
      ensures old(messages) <= messages
      ensures includeExamples == old(includeExamples)
    {
      if Blank(question) || asking {
        return None;
      }
      var userQuestion := Trim(question);
      question := "";
      error := None;
      messages := messages + [Question(userQuestion)];
      asked := Some(AskBody(userQuestion, includeExamples));
      if outcome.Raised? {
        error := Some(outcome.message);
      }
      messages := messages + [OutcomeMessage(outcome)];
    }

    /** Typing into the input. */
    method SetQuestion(text: string)
      modifies this
      ensures question == text
      ensures messages == old(messages) && error == old(error) && includeExamples == old(includeExamples)
    {
      question := text;
    }

    /** A starter or follow-up suggestion only fills the input. */
    method HandleSuggestionClick(suggestion: string)
      modifies this
      ensures question == suggestion
      ensures messages == old(messages) && error == old(error) && includeExamples == old(includeExamples)
    {
      question := suggestion;
    }

    /** Enter without Shift submits; every other key leaves the chat as it was. */
    method HandleKeyDown(key: string, shiftKey: bool, asking: bool, outcome: AskOutcome)
      returns (asked: Option<AskBody>)
      modifies this
      ensures !SubmitsOnKey(key, shiftKey) ==> asked == None
      ensures !SubmitsOnKey(key, shiftKey) ==>
        question == old(question) && messages == old(messages) && error == old(error)
      ensures SubmitsOnKey(key, shiftKey) ==> (asked.None? <==> Blank(old(question)) || asking)
      ensures SubmitsOnKey(key, shiftKey) && asked.None? ==>
        question == old(question) && messages == old(messages) && error == old(error)
      ensures SubmitsOnKey(key, shiftKey) && asked.Some? ==>
        && asked.value == AskBody(Trim(old(question)), old(includeExamples))
        && question == ""
        && messages == old(messages) + [Question(Trim(old(question))), OutcomeMessage(outcome)]
        && error == (if outcome.Raised? then Some(outcome.message) else None)
      ensures old(messages) <= messages
      ensures includeExamples == old(includeExamples)
    {
      asked := None;
      if SubmitsOnKey(key, shiftKey) {
        asked := HandleSubmit(asking, outcome);
      }
    }

    method SetIncludeExamples(checked: bool)
      modifies this
      ensures includeExamples == checked
      ensures question == old(question) && messages == old(messages) && error == old(error)
    {
      includeExamples := checked;
    }
  }
}
