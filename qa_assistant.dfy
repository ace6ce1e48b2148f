/**
 * The floating Q&A assistant: a launcher button with a badge, and an open
 * panel with a chat tab and a history tab over one Q&A hook. It remembers the
 * latest answer.
 */
module QAAssistant {
  import opened Wrappers
  import opened Types
  import opened UseQA
  import opened QATranscript

  datatype Tab = ChatTab | HistoryTab

  /** What the right-hand body of the open panel shows. */
  datatype View = ChatView | HistoryView

  /** The launcher badge: the number of questions asked, or the "NEW!" label before the first. */
  datatype Badge = Count(n: nat) | New

  /** The closed launcher's badge. */
  function LauncherBadge(historyLength: nat): (b: Badge)
    ensures b.Count? <==> historyLength > 0
    ensures b.Count? ==> b.n == historyLength
    ensures b.New? <==> historyLength == 0
  {
    if historyLength > 0 then Count(historyLength) else New
  }

  /** The body of the open panel follows the active tab. */
  function Content(tab: Tab): (v: View)
    ensures v == ChatView <==> tab == ChatTab
    ensures v == HistoryView <==> tab == HistoryTab
  {
    match tab
    case ChatTab => ChatView
    case HistoryTab => HistoryView
  }

  class Assistant {
    const qa: QAHook
    const hasOnTasksCreated: bool
    var isOpen: bool
    var activeTab: Tab
    var currentAnswer: Option<QAResponse>

    constructor(qa: QAHook, hasOnTasksCreated: bool)
      ensures this.qa == qa && this.hasOnTasksCreated == hasOnTasksCreated
      ensures !isOpen && activeTab == ChatTab && currentAnswer == None
    {
      this.qa := qa;
      this.hasOnTasksCreated := hasOnTasksCreated;
      isOpen := false;
      activeTab := ChatTab;
      currentAnswer := None;
    }

    /**
     * Ask through the hook and hand the outcome back unchanged. An answer
     * becomes the current answer and fires `onTasksCreated` exactly when it
     * brings tasks and the callback exists; a raised error propagates and
     * leaves the current answer as it was.
     */
    method HandleAskQuestion(question: string, includeExamples: bool, reply: Reply<QAResponse>)
      returns (outcome: AskOutcome, tasksCreated: bool)
      modifies this, qa
      ensures reply.Success? ==> outcome == Answered(reply.value) && currentAnswer == Some(reply.value)
      ensures reply.Failure? ==>
        outcome == Raised(AskErrorMessage(reply.status, reply.error)) && currentAnswer == old(currentAnswer)
      ensures tasksCreated <==> outcome.Answered? && BringsTasks(outcome.response) && hasOnTasksCreated
      ensures reply.Success? ==> qa.history == [HistoryEntry(qa.projectId, reply.value)] + old(qa.history)
      ensures reply.Failure? ==> qa.history == old(qa.history)
      ensures reply.Success? ==> qa.suggestions == NextSuggestions(old(qa.suggestions), reply.value)
      ensures reply.Failure? ==> qa.suggestions == old(qa.suggestions)
      ensures !qa.asking && qa.loading == old(qa.loading)
      ensures isOpen == old(isOpen) && activeTab == old(activeTab)
    {
      var _, o := qa.AskQuestion(question, includeExamples, reply);
      outcome := o;
      tasksCreated := false;
      if outcome.Answered? {
        currentAnswer := Some(outcome.response);
        if BringsTasks(outcome.response) && hasOnTasksCreated {
          tasksCreated := true;
        }
      }
    }

    /** The launcher button opens the panel. */
    method Open()
      modifies this
      ensures isOpen && activeTab == old(activeTab) && currentAnswer == old(currentAnswer)
    {
      isOpen := true;
    }

    /** The close button and the overlay close it; the tab and the answer are kept. */
    method Close()
      modifies this
      ensures !isOpen && activeTab == old(activeTab) && currentAnswer == old(currentAnswer)
    {
      isOpen := false;
    }

    method SelectTab(tab: Tab)
      modifies this
      ensures activeTab == tab && isOpen == old(isOpen) && currentAnswer == old(currentAnswer)
    {
      activeTab := tab;
    }
  }
}
