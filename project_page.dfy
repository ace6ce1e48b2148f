/**
 * The project page: it owns the project, tasks and insights hooks, asks the
 * backend for a summary suggestion when a project without summary has
 * gathered enough insights, and offers that suggestion in a dialog.
 */
module ProjectPage {
  import opened Wrappers
  import opened Text
  import opened Types
  import opened UseProject
  import opened UseTasks
  import opened UseInsights
  import opened SummaryBanner

  /** How many insights a project needs before a summary is suggested. */
  const SuggestAfter: nat := 3

  /**
   * The suggestion effect fires when there are at least three insights and
   * the project has no summary; a project that is not loaded yet has none.
   */
  function ShouldSuggest(insightCount: nat, project: Option<Project>): (b: bool)
    ensures b <==> insightCount >= 3 && (project.None? || project.value.summaryBanner == "")
  {
    insightCount >= SuggestAfter && !(project.Some? && Truthy(project.value.summaryBanner))
  }

  /** Accepting writes the suggestion into the banner and keeps every other field of the project. */
  lemma AcceptSetsBanner(p: Project, suggestion: string)
    ensures var q := Merge(p, SummaryPatch(suggestion));
      q.summaryBanner == suggestion && q.(summaryBanner := p.summaryBanner) == p
  {
  }

  /** Once a suggestion is accepted the project has a summary, so the effect does not fire again unless it was empty. */
  lemma AcceptedSuggestionStopsEffect(n: nat, p: Project, suggestion: string)
    requires suggestion != ""
    ensures !ShouldSuggest(n, Some(Merge(p, SummaryPatch(suggestion))))
  {
  }

  function SuggestPath(projectId: string): string {
    "/api/projects/" + projectId + "/summary/suggest"
  }

  class Page {
    const projectId: string
    const project: ProjectHook
    const tasks: TasksHook
    const insights: InsightsHook
    const banner: Banner
    var suggestedSummary: Option<string>

    constructor(projectId: string, project: ProjectHook, tasks: TasksHook, insights: InsightsHook, banner: Banner)
      ensures this.projectId == projectId && this.project == project && this.tasks == tasks
      ensures this.insights == insights && this.banner == banner
      ensures suggestedSummary == None
    {
      this.projectId := projectId;
      this.project := project;
      this.tasks := tasks;
      this.insights := insights;
      this.banner := banner;
      suggestedSummary := None;
    }

    /** The suggestion dialog is visible exactly while a (non-empty) suggestion is held. */
    function DialogVisible(): (b: bool)
      reads this
      ensures b <==> suggestedSummary.Some? && suggestedSummary.value != ""
    {
      Present(suggestedSummary)
    }

    /**
     * The suggestion effect: when it fires it posts the request, and a reply
     * becomes the held suggestion; a failed request keeps what was held.
     */
    method SuggestSummary(reply: Reply<string>) returns (request: Option<Request<Ack>>)
      modifies this
      ensures request.Some? <==> ShouldSuggest(|insights.insights|, project.project)
      ensures request.Some? ==> request.value == Post(SuggestPath(projectId), Ack)
      ensures request.Some? && reply.Success? ==> suggestedSummary == Some(reply.value)
      ensures request.None? || reply.Failure? ==> suggestedSummary == old(suggestedSummary)
    {
      request := None;
      if ShouldSuggest(|insights.insights|, project.project) {
        request := Some(Post(SuggestPath(projectId), Ack));
        if reply.Success? {
          suggestedSummary := Some(reply.value);
        }
      }
    }

    /**
     * Accept acts only when a suggestion and a project are both held: it
     * updates the summary to the suggestion through the project hook and
     * then drops the suggestion, also when the update failed.
     */
    method HandleAcceptSuggestion(reply: Reply<Ack>) returns (request: Option<Request<ProjectPatch>>)
      modifies this, project
      ensures request.Some? <==> Present(old(suggestedSummary)) && old(project.project).Some?
      ensures request.None? ==> suggestedSummary == old(suggestedSummary) && project.project == old(project.project)
      ensures request.Some? ==>
        && request.value == Patch(ProjectPath(project.projectId), SummaryPatch(old(suggestedSummary).value))
        && suggestedSummary == None
        && (reply.Success? ==> project.project == Some(Merge(old(project.project).value, SummaryPatch(old(suggestedSummary).value))))
        && (reply.Failure? ==> project.project == old(project.project))
      ensures project.loading == old(project.loading)
    {
      request := None;
      if Present(suggestedSummary) && project.project.Some? {
        var r := project.UpdateProject(SummaryPatch(suggestedSummary.value), reply);
        request := Some(r);
        suggestedSummary := None;
      }
    }

    /** Reject drops the suggestion and leaves the project alone. */
    method RejectSuggestion()
      modifies this
      ensures suggestedSummary == None && !DialogVisible()
    {
      suggestedSummary := None;
    }

    /**
     * Saving the banner: the banner's own PATCH, then, when that succeeded,
     * `onUpdate` runs the project hook's update with the new summary, which
     * is a second PATCH.
     */
    method SaveSummary(saveReply: Reply<Ack>, updateReply: Reply<Ack>)
      returns (requests: seq<Request<ProjectPatch>>)
      modifies banner, project
      ensures saveReply.Failure? ==>
        && requests == [Patch(SummaryPath(banner.projectId), SummaryPatch(old(banner.editValue)))]
        && project.project == old(project.project) && banner.isEditing == old(banner.isEditing)
      ensures saveReply.Success? ==>
        && requests == [Patch(SummaryPath(banner.projectId), SummaryPatch(old(banner.editValue))),
                        Patch(ProjectPath(project.projectId), SummaryPatch(old(banner.editValue)))]
        && (updateReply.Success? ==> project.project == Updated(old(project.project), SummaryPatch(old(banner.editValue))))
        && (updateReply.Failure? ==> project.project == old(project.project))
        && !banner.isEditing
      ensures !banner.saving && banner.editValue == old(banner.editValue) && banner.summary == old(banner.summary)
      ensures project.loading == old(project.loading)
    {
      var save, updated := banner.HandleSave(saveReply);
      requests := [save];
      if updated.Some? {
        var update := project.UpdateProject(SummaryPatch(updated.value), updateReply);
        requests := requests + [update];
      }
    }

    /** Recording a thought refetches the insights. */
    method OnRecorded(reply: Reply<seq<Insight>>) returns (request: Request<Ack>)
      modifies insights
      ensures request == Get(InsightsPath(insights.projectId))
      ensures reply.Success? ==> insights.insights == reply.value
      ensures reply.Failure? ==> insights.insights == old(insights.insights)
      ensures !insights.loading
    {
      request := insights.FetchInsights(reply);
    }

    /** Tasks created by the assistant refetch the task list. */
    method OnTasksCreated(reply: Reply<seq<Task>>) returns (request: Request<Ack>)
      modifies tasks
      ensures request == Get(TasksPath(tasks.projectId))
      ensures reply.Success? ==> tasks.tasks == reply.value
      ensures reply.Failure? ==> tasks.tasks == old(tasks.tasks)
      ensures !tasks.loading
    {
      request := tasks.FetchTasks(reply);
    }
  }
}
