/**
 * The project Q&A panel: an input, a transcript of questions, answers and
 * errors, and a history view with one-shot feedback buttons. It drives its
 * own Q&A hook.
 */
module QAPanel {
  import opened Wrappers
  import opened Text
  import opened Types
  import opened Lists
  import opened UseQA
  import opened QATranscript

  /** The feedback buttons of a history item appear only while its `helpful` is exactly `null`. */
  function ShowsFeedback(q: QAQuestion): (b: bool)
    ensures b <==> !q.helpful.Given? && !q.helpful.Missing?
  {
    q.helpful == Pending
  }

  /**
   * Feedback is one-shot: once the backend accepted a verdict, no entry with
   * that id shows the buttons any more, and every other entry shows them
   * exactly as before.
   */
  lemma FeedbackHidesButtons(history: seq<QAQuestion>, questionId: string, helpful: bool)
    ensures var after := SetHelpful(history, questionId, helpful);
      && (forall i :: 0 <= i < |history| && history[i].id == questionId ==> !ShowsFeedback(after[i]))
      && (forall i :: 0 <= i < |history| && history[i].id != questionId ==>
            ShowsFeedback(after[i]) == ShowsFeedback(history[i]))
  {
  }

  class Panel {
    const qa: QAHook
    const hasOnTasksCreated: bool
    var question: string
    var includeExamples: bool
    var showHistory: bool
    var messages: seq<Message>

    constructor(qa: QAHook, hasOnTasksCreated: bool)
      ensures this.qa == qa && this.hasOnTasksCreated == hasOnTasksCreated
      ensures question == "" && includeExamples && !showHistory && messages == []
    {
      this.qa := qa;
      this.hasOnTasksCreated := hasOnTasksCreated;
      question := "";
      includeExamples := true;
      showHistory := false;
      messages := [];
    }

    /**
     * Submit. A blank question, or one while an ask is running, changes
     * nothing. Otherwise the input is cleared, the trimmed question and then
     * the outcome's line are appended to the transcript, and `onTasksCreated`
     * fires exactly for an answer that brings tasks when the callback exists.
     * The transcript only ever grows at its end.
     */
    method HandleSubmit(reply: Reply<QAResponse>) returns (tasksCreated: bool)
      modifies this, qa
      ensures Blank(old(question)) || old(qa.asking) ==>
        && question == old(question) && messages == old(messages) && !tasksCreated
        && qa.history == old(qa.history) && qa.suggestions == old(qa.suggestions) && qa.asking == old(qa.asking)
      ensures !Blank(old(question)) && !old(qa.asking) ==>
        && question == ""
        && messages == old(messages) + [Question(Trim(old(question))),
             OutcomeMessage(if reply.Success? then Answered(reply.value)
                            else Raised(AskErrorMessage(reply.status, reply.error)))]
        && (tasksCreated <==> reply.Success? && BringsTasks(reply.value) && hasOnTasksCreated)
        && (reply.Success? ==> qa.history == [HistoryEntry(qa.projectId, reply.value)] + old(qa.history))
        && (reply.Success? ==> qa.suggestions == NextSuggestions(old(qa.suggestions), reply.value))
        && (reply.Failure? ==> qa.history == old(qa.history) && qa.suggestions == old(qa.suggestions))
        && !qa.asking
      ensures old(messages) <= messages
      ensures includeExamples == old(includeExamples) && showHistory == old(showHistory) && qa.loading == old(qa.loading)
    {
      tasksCreated := false;
      if Blank(question) || qa.asking {
        return;
      }
      var userQuestion := Trim(question);
      question := "";
      messages := messages + [Question(userQuestion)];
      var _, outcome := qa.AskQuestion(userQuestion, includeExamples, reply);
      messages := messages + [OutcomeMessage(outcome)];
      if outcome.Answered? && BringsTasks(outcome.response) && hasOnTasksCreated {
        tasksCreated := true;
      }
    }

    /** Typing into the input. */
    method SetQuestion(text: string)
      modifies this
      ensures question == text && messages == old(messages)
      ensures includeExamples == old(includeExamples) && showHistory == old(showHistory)
    {
      question := text;
    }

    /** A suggestion fills the input and submits nothing. */
    method HandleSuggestionClick(suggestion: string)
      modifies this
      ensures question == suggestion && messages == old(messages)
      ensures includeExamples == old(includeExamples) && showHistory == old(showHistory)
    {
      question := suggestion;
    }

    /**
     * A key press in the input: Enter without Shift is exactly a submit, with
     * its effect; any other key changes nothing.
     */
    method HandleKeyDown(key: string, shiftKey: bool, reply: Reply<QAResponse>) returns (submitted: bool, tasksCreated: bool)
      modifies this, qa
      ensures submitted <==> SubmitsOnKey(key, shiftKey)
      ensures !submitted || Blank(old(question)) || old(qa.asking) ==>
        && question == old(question) && messages == old(messages) && !tasksCreated
        && qa.history == old(qa.history) && qa.suggestions == old(qa.suggestions) && qa.asking == old(qa.asking)
      ensures submitted && !Blank(old(question)) && !old(qa.asking) ==>
        && question == ""
        && messages == old(messages) + [Question(Trim(old(question))),
             OutcomeMessage(if reply.Success? then Answered(reply.value)
                            else Raised(AskErrorMessage(reply.status, reply.error)))]
        && (tasksCreated <==> reply.Success? && BringsTasks(reply.value) && hasOnTasksCreated)
        && (reply.Success? ==> qa.history == [HistoryEntry(qa.projectId, reply.value)] + old(qa.history))
        && (reply.Success? ==> qa.suggestions == NextSuggestions(old(qa.suggestions), reply.value))
        && (reply.Failure? ==> qa.history == old(qa.history) && qa.suggestions == old(qa.suggestions))
        && !qa.asking
      ensures old(messages) <= messages
      ensures includeExamples == old(includeExamples) && showHistory == old(showHistory) && qa.loading == old(qa.loading)
    {
      submitted := SubmitsOnKey(key, shiftKey);
      tasksCreated := false;
      if submitted {
        tasksCreated := HandleSubmit(reply);
      }
    }

    method SetIncludeExamples(checked: bool)
      modifies this
      ensures includeExamples == checked
      ensures question == old(question) && messages == old(messages) && showHistory == old(showHistory)
    {
      includeExamples := checked;
    }

    /** The header button switches between the chat and the history view. */
    method ToggleHistory()
      modifies this
      ensures showHistory == !old(showHistory)
      ensures question == old(question) && messages == old(messages) && includeExamples == old(includeExamples)
    {
      showHistory := !showHistory;
    }
  }
}
