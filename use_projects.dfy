/**
 * The local project list (src/hooks/useProjects.ts): a list of named
 * calculator snapshots and the identifier of the active one, changed by
 * create, update and delete.
 *
 * The two state cells of the hook become the two fields of `ProjectStore`.
 * Reading them from and writing them to the browser's storage is not
 * modelled; the new project's identifier (the clock reading in the source)
 * and the timestamps are parameters.
 */
module Projects {
  import opened Wrappers
  import opened Types

  /** A saved snapshot and its metadata. */
  datatype Project = Project(id: string, name: string, createdAt: string, updatedAt: string, state: CalculatorState)

  /** `Partial<Project>`: the fields an update replaces. */
  datatype ProjectUpdate = ProjectUpdate(
    id: Option<string>,
    name: Option<string>,
    createdAt: Option<string>,
    updatedAt: Option<string>,
    state: Option<CalculatorState>)

  /** `{...p, ...updates, updatedAt: now}`: the given fields replaced, the update time always `now`. */
  function Merge(p: Project, u: ProjectUpdate, now: string): (r: Project)
    ensures r.updatedAt == now
    ensures r.id == u.id.GetOr(p.id) && r.name == u.name.GetOr(p.name)
    ensures r.createdAt == u.createdAt.GetOr(p.createdAt) && r.state == u.state.GetOr(p.state)
  {
    Project(u.id.GetOr(p.id), u.name.GetOr(p.name), u.createdAt.GetOr(p.createdAt), now, u.state.GetOr(p.state))
  }

  /** `prev.map(...)`: every project with identifier `id` merged with `u`, the others kept, in place. */
  function Updated(ps: seq<Project>, id: string, u: ProjectUpdate, now: string): (r: seq<Project>)
    ensures |r| == |ps|
    ensures forall i :: 0 <= i < |ps| ==> r[i] == if ps[i].id == id then Merge(ps[i], u, now) else ps[i]
  {
    if ps == [] then []
    else [if ps[0].id == id then Merge(ps[0], u, now) else ps[0]] + Updated(ps[1..], id, u, now)
  }

  /** `prev.filter((p) => p.id !== id)`. */
  function Without(ps: seq<Project>, id: string): (r: seq<Project>)
    ensures forall p :: p in r <==> p in ps && p.id != id
    ensures |r| <= |ps|
  {
    if ps == [] then []
    else (if ps[0].id == id then [] else [ps[0]]) + Without(ps[1..], id)
  }

  /** The position of the first project with identifier `id`, if any. */
  function FindIndex(ps: seq<Project>, id: string): (r: Option<nat>)
    ensures r.Some? ==> r.value < |ps| && ps[r.value].id == id
    ensures r.Some? ==> forall j :: 0 <= j < r.value ==> ps[j].id != id
    ensures r.None? ==> forall j :: 0 <= j < |ps| ==> ps[j].id != id
  {
    if ps == [] then None
    else if ps[0].id == id then Some(0)
    else match FindIndex(ps[1..], id)
      case Some(i) => Some(i + 1)
      case None => None
  }

  /** `projects.find((p) => p.id === id)`: the first project with identifier `id`, if any. */
  function Find(ps: seq<Project>, id: string): (r: Option<Project>)
    ensures r.Some? <==> exists i :: 0 <= i < |ps| && ps[i].id == id
    ensures r.Some? ==> r.value.id == id && r.value in ps
    ensures r.Some? ==> exists i :: 0 <= i < |ps| && ps[i] == r.value && forall j :: 0 <= j < i ==> ps[j].id != id
  {
    match FindIndex(ps, id)
    case Some(i) => Some(ps[i])
    case None => None
  }

  /** An update with an identifier nobody has changes nothing. */
  lemma {:induction false} UpdateUnknownIdIsIdentity(ps: seq<Project>, id: string, u: ProjectUpdate, now: string)
    requires forall i :: 0 <= i < |ps| ==> ps[i].id != id
    ensures Updated(ps, id, u, now) == ps
  {
    if ps != [] {
      UpdateUnknownIdIsIdentity(ps[1..], id, u, now);
    }
  }

  /** The first match depends on the identifiers alone. */
  lemma {:induction false} FindIndexSameIds(a: seq<Project>, b: seq<Project>, id: string)
    requires |a| == |b|
    requires forall i :: 0 <= i < |a| ==> a[i].id == b[i].id
    ensures FindIndex(a, id) == FindIndex(b, id)
  {
    if a != [] {
      FindIndexSameIds(a[1..], b[1..], id);
    }
  }

  /**
   * An update that does not rename keeps every identifier, so the project
   * found under `id` afterwards is the one found before, merged.
   */
  lemma UpdateThenFind(ps: seq<Project>, id: string, u: ProjectUpdate, now: string)
    requires u.id.None?
    ensures Find(Updated(ps, id, u, now), id) ==
      match Find(ps, id)
      case Some(p) => Some(Merge(p, u, now))
      case None => None
  {
    FindIndexSameIds(Updated(ps, id, u, now), ps, id);
  }

  /** Deleting keeps the relative order of the projects that stay. */
  lemma {:induction false} WithoutAppend(a: seq<Project>, b: seq<Project>, id: string)
    ensures Without(a + b, id) == Without(a, id) + Without(b, id)
  {
    if a != [] {
      assert (a + b)[1..] == a[1..] + b;
      WithoutAppend(a[1..], b, id);
    } else {
      assert a + b == b;
    }
  }

  /** Deleting twice is deleting once. */
  lemma {:induction false} WithoutIdempotent(ps: seq<Project>, id: string)
    ensures Without(Without(ps, id), id) == Without(ps, id)
  {
    if ps != [] {
      WithoutIdempotent(ps[1..], id);
      WithoutAppend(if ps[0].id == id then [] else [ps[0]], Without(ps[1..], id), id);
      assert Without([ps[0]], id) == (if ps[0].id == id then [] else [ps[0]]) by {
        assert [ps[0]][1..] == [];
      }
    }
  }

  /**
   * Identifiers are not checked for uniqueness: after appending a project,
   * looking up its identifier finds an older project with the same
   * identifier if there is one, and the new project otherwise.
   */
  lemma {:induction false} FindAfterAppend(ps: seq<Project>, p: Project)
    ensures FindIndex(ps + [p], p.id) ==
      match FindIndex(ps, p.id)
      case Some(i) => Some(i)
      case None => Some(|ps|)
  {
    if ps != [] {
      assert (ps + [p])[1..] == ps[1..] + [p];
      FindAfterAppend(ps[1..], p);
    }
  }

  /** The hook's state: the project list and the identifier of the active project. */
  class ProjectStore {
    var projects: seq<Project>
    var activeProjectId: Option<string>

    /**
     * The hook's initial state, from the list and the active identifier read
     * back from storage; an empty identifier counts as none.
     */
    constructor (storedProjects: seq<Project>, storedActiveId: Option<string>)
      ensures projects == storedProjects
      ensures activeProjectId == if storedActiveId == Some("") then None else storedActiveId
    {
      projects := storedProjects;
      activeProjectId := if storedActiveId == Some("") then None else storedActiveId;
    }

    /** `setActiveProjectId`, as handed out by the hook. */
    method SetActiveProjectId(id: Option<string>)
      modifies this
      ensures activeProjectId == id && projects == old(projects)
    {
      activeProjectId := id;
    }

    /**
     * `createProject`: appends a project with the given name and state,
     * with the two clock readings as its creation and update times, and makes it active.
     */
    method CreateProject(name: string, initialState: CalculatorState, newId: string, createdAt: string, updatedAt: string)
      returns (p: Project)
      modifies this
      ensures p == Project(newId, name, createdAt, updatedAt, initialState)
      ensures projects == old(projects) + [p]
      ensures activeProjectId == Some(newId)
    {
      p := Project(newId, name, createdAt, updatedAt, initialState);
      projects := projects + [p];
      activeProjectId := Some(p.id);
    }

    /** `updateProject`: merges `updates` into every project with identifier `id`, stamped `now`. */
    method UpdateProject(id: string, updates: ProjectUpdate, now: string)
      modifies this
      ensures projects == Updated(old(projects), id, updates, now)
      ensures activeProjectId == old(activeProjectId)
    {
      projects := Updated(projects, id, updates, now);
    }

    /** `deleteProject`: removes every project with identifier `id`, and clears the active identifier if it was `id`. */
    method DeleteProject(id: string)
      modifies this
      ensures projects == Without(old(projects), id)
      ensures activeProjectId == if old(activeProjectId) == Some(id) then None else old(activeProjectId)
    {
      projects := Without(projects, id);
      if activeProjectId == Some(id) {
        activeProjectId := None;
      }
    }

    /** `getActiveProject`: the first project whose identifier is the active one, or none. */
    function GetActiveProject(): (r: Option<Project>)
      reads this
      ensures activeProjectId.None? ==> r.None?
      ensures activeProjectId.Some? ==> r == Find(projects, activeProjectId.value)
      ensures r.Some? ==> activeProjectId == Some(r.value.id) && r.value in projects
    {
      match activeProjectId
      case Some(id) => Find(projects, id)
      case None => None
    }
  }
}
