/**
 * The milestones hook: the same pessimistic list updates as the tasks hook,
 * plus the building of the create and update payloads. Converting a due
 * date to ISO form (`new Date(d).toISOString()`) is a parameter `toIso`;
 * `None` stands for the `RangeError` an invalid date raises, which the
 * hook's `catch` swallows before any request is sent.
 */
module UseMilestones {
  import opened Wrappers
  import opened Text
  import opened Lists
  import opened Types

  /** The create payload: always the title, the description only when truthy, the converted due date only when given. */
  method BuildCreatePayload(title: string, description: Option<string>, dueDate: Option<string>,
                            toIso: string -> Option<string>) returns (data: Option<MilestonePatch>)
    ensures data.None? <==> Present(dueDate) && toIso(dueDate.value).None?
    ensures data.Some? ==> data.value.title == Some(title)
    ensures data.Some? ==> (data.value.description.Some? <==> Present(description))
    ensures data.Some? && data.value.description.Some? ==> data.value.description == description
    ensures data.Some? ==> (data.value.dueDate.Some? <==> Present(dueDate))
    ensures data.Some? && data.value.dueDate.Some? ==> data.value.dueDate == toIso(dueDate.value)
  {
    var d := MilestonePatch(Some(title), None, None);
    if Present(description) {
      d := d.(description := description);
    }
    if Present(dueDate) {
      var iso := toIso(dueDate.value);
      if iso.None? {
        return None;
      }
      d := d.(dueDate := iso);
    }
    return Some(d);
  }

  /**
   * The update payload: the given updates, with a truthy due date replaced
   * by its ISO form; `None` when that conversion throws.
   */
  function UpdatePayload(updates: MilestonePatch, toIso: string -> Option<string>): (r: Option<MilestonePatch>)
    ensures r.None? <==> Present(updates.dueDate) && toIso(updates.dueDate.value).None?
    ensures r.Some? ==> r.value.title == updates.title && r.value.description == updates.description
    ensures r.Some? && !Present(updates.dueDate) ==> r.value == updates
    ensures r.Some? && Present(updates.dueDate) ==> r.value.dueDate == toIso(updates.dueDate.value)
  {
    if Present(updates.dueDate) then
      var iso := toIso(updates.dueDate.value);
      if iso.None? then None else Some(updates.(dueDate := iso))
    else Some(updates)
  }

  /** Every milestone with that id becomes the server's value; the others stay in place. */
  function ReplaceMilestone(ms: seq<Milestone>, id: string, updated: Milestone): (r: seq<Milestone>)
    ensures |r| == |ms|
    ensures forall i :: 0 <= i < |ms| && ms[i].id == id ==> r[i] == updated
    ensures forall i :: 0 <= i < |ms| && ms[i].id != id ==> r[i] == ms[i]
  {
    MapWhere(ms, MilestoneHasId(id), Always(updated))
  }

  /** No milestone with that id is left, every other milestone is kept. */
  function RemoveMilestone(ms: seq<Milestone>, id: string): (r: seq<Milestone>)
    ensures |r| <= |ms|
    ensures forall m :: m in r <==> m in ms && m.id != id
  {
    Filter(ms, Not(MilestoneHasId(id)))
  }

  /** Removal keeps the order of the remaining milestones. */
  lemma RemoveMilestoneConcat(a: seq<Milestone>, b: seq<Milestone>, id: string)
    ensures RemoveMilestone(a + b, id) == RemoveMilestone(a, id) + RemoveMilestone(b, id)
  {
    FilterConcat(a, b, Not(MilestoneHasId(id)));
  }

  function MilestonesPath(projectId: string): string {
    "/api/projects/" + projectId + "/milestones"
  }

  function MilestonePath(id: string): string {
    "/api/milestones/" + id
  }

  class MilestonesHook {
    const projectId: string
    var milestones: seq<Milestone>
    var loading: bool

    constructor(projectId: string)
      ensures this.projectId == projectId && milestones == [] && loading
    {
      this.projectId := projectId;
      milestones := [];
      loading := true;
    }

    method FetchMilestones(reply: Reply<seq<Milestone>>) returns (request: Request<Ack>)
      modifies this
      ensures request == Get(MilestonesPath(projectId))
      ensures reply.Success? ==> milestones == reply.value
      ensures reply.Failure? ==> milestones == old(milestones)
      ensures !loading
    {
      request := Get(MilestonesPath(projectId));
      if reply.Success? {
        milestones := reply.value;
      }
      loading := false;
    }

    /**
     * Create: when the payload can be built it is posted (the title, the
     * description only when truthy, the converted due date only when given),
     * and on success the server's milestone is appended. A date that cannot
     * be converted sends nothing and changes nothing.
     */
    method CreateMilestone(title: string, description: Option<string>, dueDate: Option<string>,
                           toIso: string -> Option<string>, reply: Reply<Milestone>)
      returns (request: Option<Request<MilestonePatch>>)
      modifies this
      ensures request.None? <==> Present(dueDate) && toIso(dueDate.value).None?
      ensures request.Some? ==> request.value.Post? && request.value.path == MilestonesPath(projectId)
      ensures request.Some? ==> request.value.body.title == Some(title)
      ensures request.Some? ==> (request.value.body.description.Some? <==> Present(description))
      ensures request.Some? && request.value.body.description.Some? ==> request.value.body.description == description
      ensures request.Some? ==> (request.value.body.dueDate.Some? <==> Present(dueDate))
      ensures request.Some? && request.value.body.dueDate.Some? ==> request.value.body.dueDate == toIso(dueDate.value)
      ensures request.Some? && reply.Success? ==> milestones == old(milestones) + [reply.value]
      ensures request.None? || reply.Failure? ==> milestones == old(milestones)
      ensures loading == old(loading)
    {
      var data := BuildCreatePayload(title, description, dueDate, toIso);
      if data.None? {
        return None;
      }
      request := Some(Post(MilestonesPath(projectId), data.value));
      if reply.Success? {
        milestones := milestones + [reply.value];
      }
    }

    method UpdateMilestone(id: string, updates: MilestonePatch, toIso: string -> Option<string>,
                           reply: Reply<Milestone>) returns (request: Option<Request<MilestonePatch>>)
      modifies this
      ensures UpdatePayload(updates, toIso).None? ==> request == None && milestones == old(milestones)
      ensures UpdatePayload(updates, toIso).Some? ==>
        request == Some(Patch(MilestonePath(id), UpdatePayload(updates, toIso).value))
      ensures request.Some? && reply.Success? ==> milestones == ReplaceMilestone(old(milestones), id, reply.value)
      ensures request.Some? && reply.Failure? ==> milestones == old(milestones)
      ensures loading == old(loading)
    {
      var data := UpdatePayload(updates, toIso);
      if data.None? {
        return None;
      }
      request := Some(Patch(MilestonePath(id), data.value));
      if reply.Success? {
        milestones := ReplaceMilestone(milestones, id, reply.value);
      }
    }

    method DeleteMilestone(id: string, reply: Reply<Ack>) returns (request: Request<Ack>)
      modifies this
      ensures request == Delete(MilestonePath(id))
      ensures reply.Success? ==> milestones == RemoveMilestone(old(milestones), id)
      ensures reply.Failure? ==> milestones == old(milestones)
      ensures loading == old(loading)
    {
      request := Delete(MilestonePath(id));
      if reply.Success? {
        milestones := RemoveMilestone(milestones, id);
      }
    }
  }
}
