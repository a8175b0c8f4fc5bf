/** The project endpoints: creating a project for the caller, listing the
    projects the caller owns or collaborates on, and reading, updating and
    deleting one project behind a 404-then-403 check.  The database is a
    value: the project rows in query order and the set of access grants. */
module ProjectAccess {
  import opened Wrappers
  import Json
  import OrderedDict
  import opened Collaboration

  datatype Project = Project(id: ProjectId, name: string, owner: UserId, data: Option<Json.Fields>)

  datatype Store = Store(projects: seq<Project>, grants: set<Grant>)

  /** The HTTP outcome of an endpoint: success with a body, 404 or 403. */
  datatype Reply<T> = Done(value: T) | NotFound | Forbidden

  /** Every project id names one row. */
  ghost predicate UniqueIds(ps: seq<Project>) {
    forall i, j :: 0 <= i < |ps| && 0 <= j < |ps| && ps[i].id == ps[j].id ==> i == j
  }

  /** `get_project_by_id`: the first row with the id. */
  function FindProject(ps: seq<Project>, id: ProjectId): (r: Option<Project>)
    ensures r.Some? ==> r.value in ps && r.value.id == id
    ensures r.None? <==> forall p :: p in ps ==> p.id != id
  {
    if ps == [] then None
    else if ps[0].id == id then Some(ps[0])
    else FindProject(ps[1..], id)
  }

  /** Owner, or holder of a grant for the project. */
  predicate MayAccess(store: Store, user: UserId, p: Project) {
    p.owner == user || (user, p.id) in store.grants
  }

  /** `create_project`: a new row owned by the caller, under a fresh id. */
  function CreateProject(store: Store, freshId: ProjectId, name: string, data: Option<Json.Fields>, user: UserId): (r: (Project, Store))
    ensures r.0.owner == user && r.0.id == freshId && r.0.name == name && r.0.data == data
    ensures r.1.projects == store.projects + [r.0] && r.1.grants == store.grants
  {
    var p := Project(freshId, name, user, data);
    (p, Store(store.projects + [p], store.grants))
  }

  /** A new project is readable by its creator, and ids stay unique when the
      new id is fresh. */
  lemma CreatorMayRead(store: Store, freshId: ProjectId, name: string, data: Option<Json.Fields>, user: UserId)
    requires UniqueIds(store.projects) && FindProject(store.projects, freshId).None?
    ensures var (p, after) := CreateProject(store, freshId, name, data, user);
      && UniqueIds(after.projects)
      && GetProject(after, user, freshId) == Done(p)
  {
    var (p, after) := CreateProject(store, freshId, name, data, user);
    FindAppended(store.projects, p);
  }

  lemma {:induction false} FindAppended(ps: seq<Project>, p: Project)
    requires FindProject(ps, p.id).None?
    ensures FindProject(ps + [p], p.id) == Some(p)
  {
    if ps != [] {
      assert (ps + [p])[1..] == ps[1..] + [p];
      FindAppended(ps[1..], p);
    }
  }

  /** `get_project` */
  function GetProject(store: Store, user: UserId, id: ProjectId): Reply<Project> {
    match FindProject(store.projects, id)
    case None => NotFound
    case Some(p) => if p.owner == user || (user, id) in store.grants then Done(p) else Forbidden
  }

  /** A missing project is reported before any authorisation check; a
      present one is returned exactly to its owner and to grant holders. */
  lemma GetProjectRule(store: Store, user: UserId, id: ProjectId)
    ensures GetProject(store, user, id) == NotFound <==> forall p :: p in store.projects ==> p.id != id
    ensures GetProject(store, user, id) == Forbidden <==>
      FindProject(store.projects, id).Some? && !MayAccess(store, user, FindProject(store.projects, id).value)
    ensures GetProject(store, user, id).Done? ==>
      var p := GetProject(store, user, id).value; p in store.projects && p.id == id && MayAccess(store, user, p)
  {
  }

  /** The row after an update: a non-empty name and a present data dict
      replace the old ones. */
  function Updated(p: Project, name: string, data: Option<Json.Fields>): Project {
    p.(name := if name != "" then name else p.name, data := if data.Some? then data else p.data)
  }

  /** Replaces the first row with the id. */
  function ReplaceFirst(ps: seq<Project>, id: ProjectId, q: Project): (r: seq<Project>)
    ensures |r| == |ps|
  {
    if ps == [] then []
    else if ps[0].id == id then [q] + ps[1..]
    else [ps[0]] + ReplaceFirst(ps[1..], id, q)
  }

  /** `update_project` */
  function UpdateProject(store: Store, user: UserId, id: ProjectId, name: string, data: Option<Json.Fields>): (Reply<Project>, Store) {
    match GetProject(store, user, id)
    case Done(p) =>
      var q := Updated(p, name, data);
      (Done(q), Store(ReplaceFirst(store.projects, id, q), store.grants))
    case NotFound => (NotFound, store)
    case Forbidden => (Forbidden, store)
  }

  lemma {:induction false} ReplaceFirstEffect(ps: seq<Project>, id: ProjectId, q: Project)
    requires FindProject(ps, id).Some?
    ensures exists k :: (0 <= k < |ps| && ps[k] == FindProject(ps, id).value
      && ReplaceFirst(ps, id, q) == ps[k := q])
  {
    if ps[0].id != id {
      ReplaceFirstEffect(ps[1..], id, q);
      var k :| 0 <= k < |ps| - 1 && ps[1..][k] == FindProject(ps[1..], id).value
        && ReplaceFirst(ps[1..], id, q) == ps[1..][k := q];
      assert ReplaceFirst(ps, id, q) == ps[k + 1 := q];
    } else {
      assert ReplaceFirst(ps, id, q) == ps[0 := q];
    }
  }

  /** An update goes through under the same rule as a read; it changes
      only the one row, keeps its id and owner, and keeps the old name on
      an empty one and the old data when none is sent.  A refused update
      changes nothing. */
  lemma UpdateRule(store: Store, user: UserId, id: ProjectId, name: string, data: Option<Json.Fields>)
    ensures var (reply, after) := UpdateProject(store, user, id, name, data);
      && (reply.Done? <==> GetProject(store, user, id).Done?)
      && (reply == NotFound <==> GetProject(store, user, id) == NotFound)
      && (!reply.Done? ==> after == store)
      && (reply.Done? ==>
            var prev := GetProject(store, user, id).value;
            && reply.value.id == prev.id && reply.value.owner == prev.owner
            && reply.value.name == (if name == "" then prev.name else name)
            && reply.value.data == (if data.None? then prev.data else data)
            && after.grants == store.grants
            && exists k :: 0 <= k < |store.projects| && store.projects[k] == prev
                 && after.projects == store.projects[k := reply.value])
  {
    if GetProject(store, user, id).Done? {
      ReplaceFirstEffect(store.projects, id, Updated(GetProject(store, user, id).value, name, data));
    }
  }

  /** `delete_project`: only the owner; the grants of the project go with
      it through the cascading foreign key.  The source deletes the row
      `.first()` finds; the id is the primary key, so that is every row
      with the id (`DeleteRemovesFoundRow`). */
  function DeleteProject(store: Store, user: UserId, id: ProjectId): (Reply<()>, Store) {
    match FindProject(store.projects, id)
    case None => (NotFound, store)
    case Some(p) =>
      if p.owner != user then (Forbidden, store)
      else (Done(()), Store(Without(store.projects, id), set g | g in store.grants && g.1 != id))
  }

  function Without(ps: seq<Project>, id: ProjectId): (r: seq<Project>)
    ensures forall p :: p in r <==> p in ps && p.id != id
  {
    if ps == [] then []
    else (if ps[0].id == id then [] else [ps[0]]) + Without(ps[1..], id)
  }

  /** Deleting is for the owner alone: a grant holder who may read and
      update the project gets 403.  A deleted project is gone, with every
      grant for it, and the other rows and grants stay. */
  lemma DeleteRule(store: Store, user: UserId, id: ProjectId)
    ensures var (reply, after) := DeleteProject(store, user, id);
      && (reply == NotFound <==> GetProject(store, user, id) == NotFound)
      && (reply.Done? <==> FindProject(store.projects, id).Some? && FindProject(store.projects, id).value.owner == user)
      && (!reply.Done? ==> after == store)
      && (reply.Done? ==>
            && FindProject(after.projects, id).None?
            && GetProject(after, user, id) == NotFound
            && (forall p :: p in store.projects && p.id != id ==> p in after.projects)
            && (forall g :: g in after.grants <==> g in store.grants && g.1 != id))
  {
  }

  /** With unique ids, deleting removes exactly the row `.first()` finds
      and keeps the others in order. */
  lemma DeleteRemovesFoundRow(store: Store, user: UserId, id: ProjectId)
    requires UniqueIds(store.projects)
    requires DeleteProject(store, user, id).0.Done?
    ensures exists k :: (0 <= k < |store.projects|
      && store.projects[k] == FindProject(store.projects, id).value
      && DeleteProject(store, user, id).1.projects == store.projects[..k] + store.projects[k + 1..])
  {
    var ps := store.projects;
    var p := FindProject(ps, id).value;
    var k :| 0 <= k < |ps| && ps[k] == p;
    WithoutUnique(ps, id, k);
  }

  lemma {:induction false} WithoutUnique(ps: seq<Project>, id: ProjectId, k: nat)
    requires UniqueIds(ps) && k < |ps| && ps[k].id == id
    ensures Without(ps, id) == ps[..k] + ps[k + 1..]
  {
    assert UniqueIds(ps[1..]) by {
      forall i, j | 0 <= i < |ps| - 1 && 0 <= j < |ps| - 1 && ps[1..][i].id == ps[1..][j].id
        ensures i == j
      {
        assert ps[i + 1].id == ps[j + 1].id;
      }
    }
    if k == 0 {
      WithoutAbsent(ps[1..], id);
    } else {
      assert ps[0].id != id;
      WithoutUnique(ps[1..], id, k - 1);
      assert ps[..k] == [ps[0]] + ps[1..][..k - 1];
      assert ps[k + 1..] == ps[1..][k..];
    }
  }

  lemma {:induction false} WithoutAbsent(ps: seq<Project>, id: ProjectId)
    requires forall i :: 0 <= i < |ps| ==> ps[i].id != id
    ensures Without(ps, id) == ps
  {
    if ps != [] {
      WithoutAbsent(ps[1..], id);
      assert ps == [ps[0]] + ps[1..];
    }
  }

  lemma GrantHolderCannotDelete(store: Store, user: UserId, id: ProjectId)
    requires FindProject(store.projects, id).Some? && FindProject(store.projects, id).value.owner != user
    requires (user, id) in store.grants
    ensures GetProject(store, user, id).Done?
    ensures UpdateProject(store, user, id, "", None).0.Done?
    ensures DeleteProject(store, user, id) == (Forbidden, store)
  {
  }

  // ---------------------------------------------------------------------
  // The project list

  /** `get_user_projects`: the caller's own rows in query order. */
  function Owned(ps: seq<Project>, user: UserId): (r: seq<Project>)
    ensures forall p :: p in r <==> p in ps && p.owner == user
  {
    if ps == [] then []
    else (if ps[0].owner == user then [ps[0]] else []) + Owned(ps[1..], user)
  }

  /** The join with the grant table: rows the caller holds a grant for. */
  function Shared(ps: seq<Project>, grants: set<Grant>, user: UserId): (r: seq<Project>)
    ensures forall p :: p in r <==> p in ps && (user, p.id) in grants
  {
    if ps == [] then []
    else (if (user, ps[0].id) in grants then [ps[0]] else []) + Shared(ps[1..], grants, user)
  }

  /** The dict entries `p.id: p`. */
  function Entries(ps: seq<Project>): seq<(ProjectId, Project)> {
    seq(|ps|, i requires 0 <= i < |ps| => (ps[i].id, ps[i]))
  }

  function Ids(ps: seq<Project>): seq<ProjectId> {
    seq(|ps|, i requires 0 <= i < |ps| => ps[i].id)
  }

  /** Two lists written one after the other into one dict keyed by id. */
  function Merged(first: seq<Project>, second: seq<Project>): seq<Project> {
    OrderedDict.Values(OrderedDict.PutAll(OrderedDict.PutAll([], Entries(first)), Entries(second)))
  }

  /** `get_my_projects`: the owned projects, then the shared ones, merged
      by id. */
  function Listed(store: Store, user: UserId): seq<Project> {
    Merged(Owned(store.projects, user), Shared(store.projects, store.grants, user))
  }

  lemma EntriesSnoc(ps: seq<Project>, i: nat)
    requires i < |ps|
    ensures Entries(ps[..i + 1]) == Entries(ps[..i]) + [(ps[i].id, ps[i])]
  {
  }

  /** `for p in ps: d[p.id] = p` */
  method PutProjects(d: OrderedDict.Dict<ProjectId, Project>, ps: seq<Project>)
    returns (r: OrderedDict.Dict<ProjectId, Project>)
    ensures r == OrderedDict.PutAll(d, Entries(ps))
  {
    r := d;
    for i := 0 to |ps|
      invariant r == OrderedDict.PutAll(d, Entries(ps[..i]))
    {
      EntriesSnoc(ps, i);
      OrderedDict.PutAllSnoc(d, Entries(ps[..i]), (ps[i].id, ps[i]));
      r := OrderedDict.Put(r, ps[i].id, ps[i]);
    }
    assert ps[..|ps|] == ps;
  }

  /** The endpoint body: the list of the dict's values. */
  method ListProjects(store: Store, user: UserId) returns (r: seq<Project>)
    ensures r == Listed(store, user)
  {
    var d := PutProjects([], Owned(store.projects, user));
    d := PutProjects(d, Shared(store.projects, store.grants, user));
    r := OrderedDict.Values(d);
  }

  /** Every entry is keyed by its project's id and holds a project from
      `src`. */
  ghost predicate KeyedFrom(d: OrderedDict.Dict<ProjectId, Project>, src: seq<Project>) {
    forall i :: 0 <= i < |d| ==> d[i].0 == d[i].1.id && d[i].1 in src
  }

  lemma {:induction false} PutKeyedFrom(d: OrderedDict.Dict<ProjectId, Project>, p: Project, src: seq<Project>)
    requires KeyedFrom(d, src) && p in src
    ensures KeyedFrom(OrderedDict.Put(d, p.id, p), src)
  {
    if d != [] && d[0].0 != p.id {
      assert KeyedFrom(d[1..], src) by {
        forall i | 0 <= i < |d| - 1 ensures d[1..][i] == d[i + 1] { }
      }
      PutKeyedFrom(d[1..], p, src);
    }
  }

  lemma {:induction false} PutAllKeyedFrom(d: OrderedDict.Dict<ProjectId, Project>, ps: seq<Project>, src: seq<Project>)
    requires KeyedFrom(d, src) && forall p :: p in ps ==> p in src
    ensures KeyedFrom(OrderedDict.PutAll(d, Entries(ps)), src)
    decreases |ps|
  {
    if ps != [] {
      var kvs := Entries(ps);
      assert kvs[0] == (ps[0].id, ps[0]);
      assert kvs[1..] == Entries(ps[1..]);
      PutKeyedFrom(d, ps[0], src);
      PutAllKeyedFrom(OrderedDict.Put(d, ps[0].id, ps[0]), ps[1..], src);
    } else {
      assert Entries(ps) == [];
    }
  }

  /** Merging keeps one project per id, in first-insertion order, and
      draws every project from the two lists. */
  lemma MergedIds(first: seq<Project>, second: seq<Project>)
    ensures Ids(Merged(first, second))
         == OrderedDict.Fresh(Ids(first), []) + OrderedDict.Fresh(Ids(second), OrderedDict.Fresh(Ids(first), []))
    ensures forall p :: p in Merged(first, second) ==> p in first || p in second
  {
    var src := first + second;
    var d1 := OrderedDict.PutAll([], Entries(first));
    var d := OrderedDict.PutAll(d1, Entries(second));
    OrderedDict.PutAllKeys([], Entries(first));
    OrderedDict.PutAllKeys(d1, Entries(second));
    assert OrderedDict.Keys(Entries(first)) == Ids(first);
    assert OrderedDict.Keys(Entries(second)) == Ids(second);
    assert OrderedDict.Keys<ProjectId, Project>([]) == [];
    assert OrderedDict.Keys(d1) == OrderedDict.Fresh(Ids(first), []);
    assert KeyedFrom([], src);
    PutAllKeyedFrom([], first, src);
    PutAllKeyedFrom(d1, second, src);
    assert Ids(OrderedDict.Values(d)) == OrderedDict.Keys(d);
    forall p | p in OrderedDict.Values(d) ensures p in src {
      var i :| 0 <= i < |d| && OrderedDict.Values(d)[i] == p;
      assert d[i].1 == p;
    }
  }

  /** No id is listed twice, and every id of either list is listed. */
  lemma MergedCoversIds(first: seq<Project>, second: seq<Project>)
    ensures var r := Merged(first, second);
      && (forall i, j :: 0 <= i < j < |r| ==> r[i].id != r[j].id)
      && (forall p :: p in first || p in second ==> exists q :: q in r && q.id == p.id)
  {
    var r := Merged(first, second);
    MergedIds(first, second);
    var a := OrderedDict.Fresh(Ids(first), []);
    var b := OrderedDict.Fresh(Ids(second), a);
    var ids := a + b;
    OrderedDict.FreshDistinct(Ids(first), []);
    OrderedDict.FreshDistinct(Ids(second), a);
    forall i, j | 0 <= i < j < |r|
      ensures r[i].id != r[j].id
    {
      assert r[i].id == ids[i] && r[j].id == ids[j];
      if j < |a| {
        assert ids[i] == a[i] && ids[j] == a[j];
      } else if i >= |a| {
        assert ids[i] == b[i - |a|] && ids[j] == b[j - |a|];
      } else {
        assert ids[j] == b[j - |a|] && ids[j] in b;
        assert ids[i] == a[i] && ids[i] in a;
      }
    }
    forall p | p in first || p in second
      ensures exists q :: q in r && q.id == p.id
    {
      if p in first {
        var k :| 0 <= k < |first| && first[k] == p;
        assert Ids(first)[k] == p.id;
        assert p.id in a;
        assert p.id in ids;
      } else {
        var k :| 0 <= k < |second| && second[k] == p;
        assert Ids(second)[k] == p.id;
        assert p.id in ids;
      }
      var i :| 0 <= i < |ids| && ids[i] == p.id;
      assert r[i] in r && r[i].id == p.id;
    }
  }

  /** The order of the list: the caller's own projects by first
      appearance, then the shared ones not already listed. */
  lemma ListedOrder(store: Store, user: UserId)
    ensures
      var owned := Ids(Owned(store.projects, user));
      var shared := Ids(Shared(store.projects, store.grants, user));
      Ids(Listed(store, user)) == OrderedDict.Fresh(owned, []) + OrderedDict.Fresh(shared, OrderedDict.Fresh(owned, []))
  {
    MergedIds(Owned(store.projects, user), Shared(store.projects, store.grants, user));
  }

  /** With unique ids, the list holds each project the caller owns or
      holds a grant for, each once, and nothing else. */
  lemma ListedIsAccessible(store: Store, user: UserId)
    requires UniqueIds(store.projects)
    ensures forall p :: p in Listed(store, user) <==> p in store.projects && MayAccess(store, user, p)
    ensures forall i, j :: 0 <= i < j < |Listed(store, user)| ==> Listed(store, user)[i].id != Listed(store, user)[j].id
  {
    var owned := Owned(store.projects, user);
    var shared := Shared(store.projects, store.grants, user);
    var r := Listed(store, user);
    MergedIds(owned, shared);
    MergedCoversIds(owned, shared);
    forall p | p in store.projects && MayAccess(store, user, p)
      ensures p in r
    {
      assert p in owned || p in shared;
      var q :| q in r && q.id == p.id;
      assert q in store.projects;
      var i :| 0 <= i < |store.projects| && store.projects[i] == p;
      var j :| 0 <= j < |store.projects| && store.projects[j] == q;
    }
  }

  /** The project ids that have a row. */
  function ProjectRows(projects: seq<Project>): (r: set<ProjectId>)
    ensures forall id :: id in r <==> FindProject(projects, id).Some?
  {
    set p | p in projects :: p.id
  }

  /** A collaboration handshake by a user with a row, to a project with a
      row, stores the grant; it then lets that user read and update the
      project, but not delete it unless they own it. */
  lemma HandshakeGrantsAccess(store: Store, users: set<UserId>, header: Option<string>,
                              decode: string -> Option<Claims>, resolve: string -> Resolution, id: ProjectId)
    requires Handshake(header, decode, resolve, id, Rows(users, ProjectRows(store.projects)), store.grants).0.Accepted?
    requires Handshake(header, decode, resolve, id, Rows(users, ProjectRows(store.projects)), store.grants).0.user in users
    requires FindProject(store.projects, id).Some?
    ensures var (outcome, grants) := Handshake(header, decode, resolve, id, Rows(users, ProjectRows(store.projects)), store.grants);
      var after := Store(store.projects, grants);
      && (outcome.user, id) in grants
      && GetProject(after, outcome.user, id).Done?
      && UpdateProject(after, outcome.user, id, "", None).0.Done?
      && (DeleteProject(after, outcome.user, id).0.Done? <==> FindProject(store.projects, id).value.owner == outcome.user)
  {
  }
}
