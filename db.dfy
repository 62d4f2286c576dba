/** The cached project repository of scripts/db.js: a memoising `connect` over one fetch
    of `data/projects.json`, and two pure queries over the array it returns. What a fetch
    would yield is passed in; whether the call actually fetched is returned. */
module Repository {
  import opened Common
  import opened Records

  /** The array `connect` hands back for a given cache and a given fetch outcome. */
  function Connected(cache: Option<seq<Project>>, response: Fetch<seq<Project>>): seq<Project>
  {
    match cache
    case Some(projects) => projects
    case None =>
      match response
      case Loaded(projects) => projects
      case Failed => []
  }

  /** The cache after `connect`: only a successful fetch fills it. */
  function CacheAfter(cache: Option<seq<Project>>, response: Fetch<seq<Project>>): Option<seq<Project>>
  {
    if cache.Some? then cache
    else if response.Loaded? then Some(response.value)
    else None
  }

  /** Once the cache holds a value, `connect` returns it whatever the network would do,
      and leaves it in place. */
  lemma CachedIgnoresNetwork(cache: Option<seq<Project>>, r1: Fetch<seq<Project>>, r2: Fetch<seq<Project>>)
    requires cache.Some?
    ensures Connected(cache, r1) == Connected(cache, r2) == cache.value
    ensures CacheAfter(cache, r1) == cache
  {
  }

  /** A successful first connect answers every later call with the same array. */
  lemma {:induction false} FirstSuccessIsFinal(data: seq<Project>, later: Fetch<seq<Project>>)
    ensures CacheAfter(None, Loaded(data)) == Some(data)
    ensures Connected(CacheAfter(None, Loaded(data)), later) == data
  {
  }

  /** A failed connect answers `[]` and leaves the cache empty, so the next call retries. */
  lemma FailureRetries(next: Fetch<seq<Project>>)
    ensures Connected(None, Failed) == []
    ensures CacheAfter(None, Failed) == None
    ensures Connected(CacheAfter(None, Failed), next) == Connected(None, next)
  {
  }

  /** The position of the first record whose `id` is `id`, or -1. */
  function FirstIndex(projects: seq<Project>, id: Option<string>): (k: int)
    ensures -1 <= k < |projects|
    ensures k == -1 <==> forall j :: 0 <= j < |projects| ==> projects[j].id != id
    ensures k >= 0 ==> projects[k].id == id && forall j :: 0 <= j < k ==> projects[j].id != id
  {
    if projects == [] then -1
    else if projects[0].id == id then 0
    else
      var k := FirstIndex(projects[1..], id);
      if k == -1 then -1 else k + 1
  }

  /** `projects.find(p => p.id === id)`: the first record with that id, `None` for `undefined`. */
  function FindById(projects: seq<Project>, id: Option<string>): (r: Option<Project>)
    ensures r.None? <==> forall k :: 0 <= k < |projects| ==> projects[k].id != id
    ensures r.Some? ==> exists k :: 0 <= k < |projects| && projects[k] == r.value &&
                                    r.value.id == id &&
                                    forall j :: 0 <= j < k ==> projects[j].id != id
  {
    var k := FirstIndex(projects, id);
    if k == -1 then None else Some(projects[k])
  }

  /** Descending by date: no record is dated later than one before it. */
  predicate SortedByDateDesc(s: seq<Project>)
  {
    forall i, j :: 0 <= i < j < |s| ==> s[i].date >= s[j].date
  }

  /** Inserts `x` into a date-descending list, before the first record dated no later. */
  function Insert(x: Project, s: seq<Project>): (r: seq<Project>)
    requires SortedByDateDesc(s)
    ensures SortedByDateDesc(r)
    ensures multiset(r) == multiset(s) + multiset{x}
    ensures |r| == |s| + 1
  {
    if s == [] || x.date >= s[0].date then
      [x] + s
    else
      var rest := Insert(x, s[1..]);
      assert s == [s[0]] + s[1..];
      forall k | 0 <= k < |rest|
        ensures s[0].date >= rest[k].date
      {
        assert rest[k] in multiset(rest);
        assert rest[k] == x || rest[k] in multiset(s[1..]);
      }
      [s[0]] + rest
  }

  /** `[...projects].sort((a, b) => new Date(b.date) - new Date(a.date))` on a copy. */
  function SortByDateDesc(projects: seq<Project>): (r: seq<Project>)
    ensures SortedByDateDesc(r)
    ensures multiset(r) == multiset(projects)
    ensures |r| == |projects|
  {
    if projects == [] then []
    else
      assert projects == [projects[0]] + projects[1..];
      Insert(projects[0], SortByDateDesc(projects[1..]))
  }

  /** The `Database` singleton: its only state is `_cache`. */
  class Database {
    var cache: Option<seq<Project>>

    constructor ()
      ensures cache == None
    {
      cache := None;
    }

    /** `connect()`: return the cache if set; otherwise fetch, caching only a success, and
        answer `[]` on any failure. */
    method Connect(response: Fetch<seq<Project>>) returns (projects: seq<Project>, fetched: bool)
      modifies this
      ensures fetched <==> old(cache).None?
      ensures projects == Connected(old(cache), response)
      ensures cache == CacheAfter(old(cache), response)
    {
      if cache.Some? {
        return cache.value, false;
      }
      fetched := true;
      match response
      case Loaded(data) =>
        cache := Some(data);
        projects := data;
      case Failed =>
        projects := [];
    }

    /** `getAllProjects()`: exactly what `connect()` returns. */
    method GetAllProjects(response: Fetch<seq<Project>>) returns (projects: seq<Project>)
      modifies this
      ensures projects == Connected(old(cache), response)
      ensures cache == CacheAfter(old(cache), response)
    {
      var fetched;
      projects, fetched := Connect(response);
    }

    /** `getProjectById(id)`. */
    method GetProjectById(id: Option<string>, response: Fetch<seq<Project>>) returns (project: Option<Project>)
      modifies this
      ensures project == FindById(Connected(old(cache), response), id)
      ensures cache == CacheAfter(old(cache), response)
    {
      var projects, _ := Connect(response);
      project := FindById(projects, id);
    }

    /** `getProjectsSortedByDate()`: a sorted copy; the cached array keeps its order. */
    method GetProjectsSortedByDate(response: Fetch<seq<Project>>) returns (sorted: seq<Project>)
      modifies this
      ensures sorted == SortByDateDesc(Connected(old(cache), response))
      ensures cache == CacheAfter(old(cache), response)
    {
      var projects, _ := Connect(response);
      sorted := SortByDateDesc(projects);
    }
  }
}
