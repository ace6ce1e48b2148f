/**
 * The project hook: the project as last fetched, updated locally with a
 * shallow merge once the backend accepted a patch.
 */
module UseProject {
  import opened Wrappers
  import opened Types

  /** `{ ...project, ...updates }`: every field the patch gives overwrites, every other field stays. */
  function Merge(p: Project, u: ProjectPatch): (r: Project)
    ensures r.id == u.id.GetOr(p.id) && r.userId == u.userId.GetOr(p.userId)
    ensures r.name == u.name.GetOr(p.name) && r.summaryBanner == u.summaryBanner.GetOr(p.summaryBanner)
    ensures r.createdAt == u.createdAt.GetOr(p.createdAt) && r.updatedAt == u.updatedAt.GetOr(p.updatedAt)
  {
    Project(u.id.GetOr(p.id), u.userId.GetOr(p.userId), u.name.GetOr(p.name),
            u.summaryBanner.GetOr(p.summaryBanner), u.createdAt.GetOr(p.createdAt),
            u.updatedAt.GetOr(p.updatedAt))
  }

  /** The patch that gives no field. */
  const NoChange: ProjectPatch := ProjectPatch(None, None, None, None, None, None)

  /** Later fields win: `{ ...u, ...v }`. */
  function Combine(u: ProjectPatch, v: ProjectPatch): (w: ProjectPatch)
    ensures w.summaryBanner == if v.summaryBanner.Some? then v.summaryBanner else u.summaryBanner
  {
    ProjectPatch(
      if v.id.Some? then v.id else u.id,
      if v.userId.Some? then v.userId else u.userId,
      if v.name.Some? then v.name else u.name,
      if v.summaryBanner.Some? then v.summaryBanner else u.summaryBanner,
      if v.createdAt.Some? then v.createdAt else u.createdAt,
      if v.updatedAt.Some? then v.updatedAt else u.updatedAt)
  }

  /** Applying the same update twice equals applying it once. */
  lemma MergeIdempotent(p: Project, u: ProjectPatch)
    ensures Merge(Merge(p, u), u) == Merge(p, u)
  {
  }

  /** The empty patch changes nothing. */
  lemma MergeNoChange(p: Project)
    ensures Merge(p, NoChange) == p
  {
  }

  /** Two updates in a row equal one update with both, the later winning. */
  lemma MergeTwice(p: Project, u: ProjectPatch, v: ProjectPatch)
    ensures Merge(Merge(p, u), v) == Merge(p, Combine(u, v))
  {
  }

  /** The local state after an accepted update: merged when there is a project, still none otherwise. */
  function Updated(prev: Option<Project>, u: ProjectPatch): (r: Option<Project>)
    ensures prev.None? <==> r.None?
    ensures prev.Some? ==> r == Some(Merge(prev.value, u))
  {
    if prev.Some? then Some(Merge(prev.value, u)) else None
  }

  function ProjectPath(projectId: string): string {
    "/api/projects/" + projectId
  }

  class ProjectHook {
    const projectId: string
    var project: Option<Project>
    var loading: bool

    constructor(projectId: string)
      ensures this.projectId == projectId && project == None && loading
    {
      this.projectId := projectId;
      project := None;
      loading := true;
    }

    /** Fetch stores the server's project; a failure keeps the old one. Loading is false afterwards either way. */
    method FetchProject(reply: Reply<Project>) returns (request: Request<Ack>)
      modifies this
      ensures request == Get(ProjectPath(projectId))
      ensures reply.Success? ==> project == Some(reply.value)
      ensures reply.Failure? ==> project == old(project)
      ensures !loading
    {
      request := Get(ProjectPath(projectId));
      if reply.Success? {
        project := Some(reply.value);
      }
      loading := false;
    }

    /** Update patches the backend and, once it accepted, merges the same fields locally; a failure changes nothing. */
    method UpdateProject(updates: ProjectPatch, reply: Reply<Ack>) returns (request: Request<ProjectPatch>)
      modifies this
      ensures request == Patch(ProjectPath(projectId), updates)
      ensures reply.Success? ==> project == Updated(old(project), updates)
      ensures reply.Failure? ==> project == old(project)
      ensures loading == old(loading)
    {
      request := Patch(ProjectPath(projectId), updates);
      if reply.Success? {
        project := Updated(project, updates);
      }
    }
  }
}
