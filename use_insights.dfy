/**
 * The insights hook: the project's insight list, refreshed from the backend,
 * and the pin flag of one insight set after the backend accepted it.
 */
module UseInsights {
  import opened Wrappers
  import opened Lists
  import opened Types

  /** `{ ...i, pinned }`. */
  function WithPinned(pinned: bool): Insight -> Insight {
    (i: Insight) => i.(pinned := pinned)
  }

  /**
   * `prev.map(i => i.id === insightId ? { ...i, pinned } : i)`: the insights
   * with that id get the new pin flag and keep every other field; all other
   * insights, the length and the order are unchanged.
   */
  function SetPinned(insights: seq<Insight>, insightId: string, pinned: bool): (r: seq<Insight>)
    ensures |r| == |insights|
    ensures forall i :: 0 <= i < |insights| && insights[i].id == insightId ==> r[i] == insights[i].(pinned := pinned)
    ensures forall i :: 0 <= i < |insights| && insights[i].id != insightId ==> r[i] == insights[i]
    ensures forall i :: 0 <= i < |insights| ==> r[i].id == insights[i].id
  {
    MapWhere(insights, InsightHasId(insightId), WithPinned(pinned))
  }

  /** Setting the same pin value twice is setting it once. */
  lemma SetPinnedTwice(insights: seq<Insight>, insightId: string, pinned: bool)
    ensures SetPinned(SetPinned(insights, insightId, pinned), insightId, pinned) == SetPinned(insights, insightId, pinned)
  {
    MapWhereTwice(insights, InsightHasId(insightId), WithPinned(pinned));
  }

  /** Pinning then unpinning (or the reverse) restores every insight whose flag was the starting one. */
  lemma SetPinnedUndo(insights: seq<Insight>, insightId: string, pinned: bool)
    requires forall i :: 0 <= i < |insights| && insights[i].id == insightId ==> insights[i].pinned == !pinned
    ensures SetPinned(SetPinned(insights, insightId, pinned), insightId, !pinned) == insights
  {
    var once := SetPinned(insights, insightId, pinned);
    var twice := SetPinned(once, insightId, !pinned);
    assert forall i :: 0 <= i < |insights| ==> twice[i] == insights[i];
  }

  function InsightsPath(projectId: string): string {
    "/api/projects/" + projectId + "/insights"
  }

  function PinPath(insightId: string): string {
    "/api/insights/" + insightId + "/pin"
  }

  class InsightsHook {
    const projectId: string
    var insights: seq<Insight>
    var loading: bool

    constructor(projectId: string)
      ensures this.projectId == projectId && insights == [] && loading
    {
      this.projectId := projectId;
      insights := [];
      loading := true;
    }

    method FetchInsights(reply: Reply<seq<Insight>>) returns (request: Request<Ack>)
      modifies this
      ensures request == Get(InsightsPath(projectId))
      ensures reply.Success? ==> insights == reply.value
      ensures reply.Failure? ==> insights == old(insights)
      ensures !loading
    {
      request := Get(InsightsPath(projectId));
      if reply.Success? {
        insights := reply.value;
      }
      loading := false;
    }

    /** PATCH `{ pinned }`; on success the flag is set locally on the insights with that id. */
    method TogglePin(insightId: string, pinned: bool, reply: Reply<Ack>) returns (request: Request<bool>)
      modifies this
      ensures request == Patch(PinPath(insightId), pinned)
      ensures reply.Success? ==> insights == SetPinned(old(insights), insightId, pinned)
      ensures reply.Failure? ==> insights == old(insights)
      ensures loading == old(loading)
    {
      request := Patch(PinPath(insightId), pinned);
      if reply.Success? {
        insights := SetPinned(insights, insightId, pinned);
      }
    }
  }
}
