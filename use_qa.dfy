/**
 * The Q&A hook: the project's question history (newest first), the current
 * suggested questions, and two flags. An ask prepends the answered question
 * to the history; a failed ask raises an error whose message the hook
 * chooses; feedback marks history entries after the backend accepted it.
 */
module UseQA {
  import opened Wrappers
  import opened Text
  import opened Lists
  import opened Types

  /** How `askQuestion` settles: with the response body, or by throwing an `Error` with this message. */
  datatype AskOutcome = Answered(response: QAResponse) | Raised(message: string)

  /** The POST body of an ask. */
  datatype AskBody = AskBody(question: string, includeExamples: bool)

  const TooManyQuestions: string := "Too many questions. Please try again later."
  const FailedToGetAnswer: string := "Failed to get answer"

  /**
   * The message of the error a failed ask throws: the rate-limit text for a
   * 429, otherwise the server's `error` string, or the generic text when the
   * server gave none. It is never empty.
   */
  function AskErrorMessage(status: Option<int>, serverError: string): (m: string)
    ensures status == Some(429) ==> m == TooManyQuestions
    ensures status != Some(429) && serverError != "" ==> m == serverError
    ensures status != Some(429) && serverError == "" ==> m == FailedToGetAnswer
    ensures m != ""
  {
    if status == Some(429) then TooManyQuestions
    else if Truthy(serverError) then serverError
    else FailedToGetAnswer
  }

  /**
   * The history entry built from an answer: the response's fields, the
   * hook's project id, feedback explicitly `null`, and no suggested tasks.
   */
  function HistoryEntry(projectId: string, r: QAResponse): (q: QAQuestion)
    ensures q.id == r.id && q.projectId == projectId && q.createdAt == r.createdAt
    ensures q.question == r.question && q.answer == r.answer
    ensures q.suggestions == r.suggestions && q.examples == r.examples
    ensures q.helpful == Pending && q.suggestedTasks == None
  {
    QAQuestion(r.id, projectId, r.question, r.answer, r.suggestions, r.examples, Pending, r.createdAt, None)
  }

  /** The suggestions after an answer: the response's list when it has any, otherwise the current list. */
  function NextSuggestions(current: seq<string>, r: QAResponse): (s: seq<string>)
    ensures |r.suggestions| > 0 ==> s == r.suggestions
    ensures |r.suggestions| == 0 ==> s == current
  {
    if |r.suggestions| > 0 then r.suggestions else current
  }

  /** `{ ...q, helpful }`. */
  function WithHelpful(helpful: bool): QAQuestion -> QAQuestion {
    (q: QAQuestion) => q.(helpful := Given(helpful))
  }

  /**
   * The history after accepted feedback: the entries with that id carry the
   * given verdict and nothing else of them changes; all other entries, the
   * length and the order are unchanged.
   */
  function SetHelpful(history: seq<QAQuestion>, questionId: string, helpful: bool): (r: seq<QAQuestion>)
    ensures |r| == |history|
    ensures forall i :: 0 <= i < |history| && history[i].id == questionId ==>
      r[i] == history[i].(helpful := Given(helpful))
    ensures forall i :: 0 <= i < |history| && history[i].id != questionId ==> r[i] == history[i]
  {
    MapWhere(history, QuestionHasId(questionId), WithHelpful(helpful))
  }

  /** Sending the same feedback twice leaves the history as one sending does. */
  lemma SetHelpfulTwice(history: seq<QAQuestion>, questionId: string, helpful: bool)
    ensures SetHelpful(SetHelpful(history, questionId, helpful), questionId, helpful)
      == SetHelpful(history, questionId, helpful)
  {
    MapWhereTwice(history, QuestionHasId(questionId), WithHelpful(helpful));
  }

  function QAPath(projectId: string, leaf: string): string {
    "/api/projects/" + projectId + "/qa/" + leaf
  }

  function FeedbackPath(questionId: string): string {
    "/api/qa/" + questionId + "/feedback"
  }

  class QAHook {
    const projectId: string
    var history: seq<QAQuestion>
    var suggestions: seq<string>
    var loading: bool
    var asking: bool

    constructor(projectId: string)
      ensures this.projectId == projectId
      ensures history == [] && suggestions == [] && !loading && !asking
    {
      this.projectId := projectId;
      history := [];
      suggestions := [];
      loading := false;
      asking := false;
    }

    /** Fetch the history: the server's list replaces it; loading is false afterwards on both paths. */
    method FetchHistory(reply: Reply<seq<QAQuestion>>) returns (request: Request<Ack>)
      modifies this
      ensures request == Get(QAPath(projectId, "history"))
      ensures reply.Success? ==> history == reply.value
      ensures reply.Failure? ==> history == old(history)
      ensures !loading
      ensures suggestions == old(suggestions) && asking == old(asking)
    {
      request := Get(QAPath(projectId, "history"));
      loading := true;
      if reply.Success? {
        history := reply.value;
      }
      loading := false;
    }

    /** Fetch the suggestions (`response.data.suggestions`); a failure keeps the current ones. */
    method FetchSuggestions(reply: Reply<seq<string>>) returns (request: Request<Ack>)
      modifies this
      ensures request == Get(QAPath(projectId, "suggestions"))
      ensures reply.Success? ==> suggestions == reply.value
      ensures reply.Failure? ==> suggestions == old(suggestions)
      ensures history == old(history) && loading == old(loading) && asking == old(asking)
    {
      request := Get(QAPath(projectId, "suggestions"));
      if reply.Success? {
        suggestions := reply.value;
      }
    }

    /**
     * Ask: on success exactly one entry is put in front of the history and
     * the suggestions are replaced when the answer brings any; on failure
     * the history and suggestions stay and the error message is chosen by
     * `AskErrorMessage`. `asking` is false afterwards either way.
     */
    method AskQuestion(question: string, includeExamples: bool, reply: Reply<QAResponse>)
      returns (request: Request<AskBody>, outcome: AskOutcome)
      modifies this
      ensures request == Post(QAPath(projectId, "ask"), AskBody(question, includeExamples))
      ensures reply.Success? ==>
        && outcome == Answered(reply.value)
        && history == [HistoryEntry(projectId, reply.value)] + old(history)
        && suggestions == NextSuggestions(old(suggestions), reply.value)
      ensures reply.Failure? ==>
        && outcome == Raised(AskErrorMessage(reply.status, reply.error))
        && history == old(history) && suggestions == old(suggestions)
      ensures !asking && loading == old(loading)
    {
      asking := true;
      request := Post(QAPath(projectId, "ask"), AskBody(question, includeExamples));
      if reply.Success? {
        var r := reply.value;
        history := [HistoryEntry(projectId, r)] + history;
        if |r.suggestions| > 0 {
          suggestions := r.suggestions;
        }
        outcome := Answered(r);
      } else {
        outcome := Raised(AskErrorMessage(reply.status, reply.error));
      }
      asking := false;
    }

    /** Feedback: on success the entries with that id get the verdict; on failure nothing changes. */
    method ProvideFeedback(questionId: string, helpful: bool, reply: Reply<Ack>) returns (request: Request<bool>)
      modifies this
      ensures request == Patch(FeedbackPath(questionId), helpful)
      ensures reply.Success? ==> history == SetHelpful(old(history), questionId, helpful)
      ensures reply.Failure? ==> history == old(history)
      ensures suggestions == old(suggestions) && loading == old(loading) && asking == old(asking)
    {
      request := Patch(FeedbackPath(questionId), helpful);
      if reply.Success? {
        history := SetHelpful(history, questionId, helpful);
      }
    }

    /** The mount effect: both fetches run, and only for a non-empty project id. */
    method Mount(historyReply: Reply<seq<QAQuestion>>, suggestionsReply: Reply<seq<string>>)
      returns (requests: seq<Request<Ack>>)
      modifies this
      ensures projectId == "" ==> requests == [] && history == old(history) && suggestions == old(suggestions)
      ensures projectId != "" ==> requests == [Get(QAPath(projectId, "history")), Get(QAPath(projectId, "suggestions"))]
      ensures projectId != "" && historyReply.Success? ==> history == historyReply.value
      ensures projectId != "" && suggestionsReply.Success? ==> suggestions == suggestionsReply.value
      ensures historyReply.Failure? ==> history == old(history)
      ensures suggestionsReply.Failure? ==> suggestions == old(suggestions)
      ensures projectId != "" ==> !loading
      ensures projectId == "" ==> loading == old(loading)
      ensures asking == old(asking)
    {
      requests := [];
      if Truthy(projectId) {
        var h := FetchHistory(historyReply);
        var s := FetchSuggestions(suggestionsReply);
        requests := [h, s];
      }
    }
  }
}
