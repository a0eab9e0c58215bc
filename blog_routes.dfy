/** The post routes (server/routes/blog.js), mounted under `/blog`: five
    registrations searched in order, the first whose verb and path pattern
    match handling the request. The three routes that change posts run the
    token gate first. Paths are given as their segments below the mount. */
module BlogRoutes {
  import opened Common
  import opened Jwt
  import opened BlogModel
  import opened Http
  import opened AuthMiddleware
  import opened BlogController

  /** A pattern segment: a literal, or a `:name` parameter. */
  datatype Segment = Lit(text: string) | Param(name: string)

  datatype Handler = GetAllBlogs | GetBlogById | CreateBlog | EditBlog | DeleteBlog

  datatype Route = Route(verb: Verb, pattern: seq<Segment>, gated: bool, handler: Handler)

  /** The registrations, in source order. */
  const Table: seq<Route> := [
    Route(GET, [Lit("all")], false, GetAllBlogs),
    Route(GET, [Param("id")], false, GetBlogById),
    Route(POST, [Lit("new-story")], true, CreateBlog),
    Route(PUT, [Lit("new-story"), Param("id")], true, EditBlog),
    Route(DELETE, [Lit("new-story"), Param("id")], true, DeleteBlog)
  ]

  function LowerAscii(c: char): char
  {
    if 'A' <= c <= 'Z' then (c as int + 32) as char else c
  }

  /** Routes match literals case-insensitively (the router's default). */
  predicate SameLiteral(literal: string, s: string)
  {
    |literal| == |s| && forall i :: 0 <= i < |s| ==> LowerAscii(literal[i]) == LowerAscii(s[i])
  }

  /** A literal matches itself in any letter case; a parameter matches any
      non-empty segment. */
  predicate SegmentMatches(p: Segment, s: string)
  {
    match p
    case Lit(text) => SameLiteral(text, s)
    case Param(_) => s != ""
  }

  /** Position `i` is the first in the pattern to name parameter `name`. */
  predicate FirstBinding(pattern: seq<Segment>, name: string, i: int)
    requires 0 <= i < |pattern|
  {
    forall j :: 0 <= j < i ==> pattern[j] != Param(name)
  }

  /** The parameters a pattern binds on a path, when it matches: each
      parameter is bound to the segment it meets, and only parameters are
      bound. */
  function Bind(pattern: seq<Segment>, path: seq<string>): (params: Option<map<string, string>>)
    ensures params.Some? <==>
              |pattern| == |path| && forall i :: 0 <= i < |path| ==> SegmentMatches(pattern[i], path[i])
    ensures params.Some? ==> forall i :: 0 <= i < |pattern| && pattern[i].Param? ==> pattern[i].name in params.value
    ensures params.Some? ==>
              forall i :: 0 <= i < |pattern| && pattern[i].Param? && FirstBinding(pattern, pattern[i].name, i) ==>
                params.value[pattern[i].name] == path[i]
    ensures params.Some? ==> forall name :: name in params.value ==> exists i :: 0 <= i < |pattern| && pattern[i] == Param(name)
  {
    if pattern == [] || path == [] then
      if pattern == [] && path == [] then Some(map[]) else None
    else if !SegmentMatches(pattern[0], path[0]) then None
    else
      match Bind(pattern[1..], path[1..])
      case None => None
      case Some(rest) =>
        BindStep(pattern, path, rest);
        Some(if pattern[0].Param? then rest[pattern[0].name := path[0]] else rest)
  }

  /** `Bind`'s step: binding the first segment on top of what the rest of
      the pattern binds keeps every parameter bound to its own segment. */
  lemma BindStep(pattern: seq<Segment>, path: seq<string>, rest: map<string, string>)
    requires |pattern| == |path| > 0
    requires forall i :: 0 <= i < |pattern| - 1 && pattern[1..][i].Param? ==> pattern[1..][i].name in rest
    requires forall i :: 0 <= i < |pattern| - 1 && pattern[1..][i].Param? && FirstBinding(pattern[1..], pattern[1..][i].name, i) ==>
               rest[pattern[1..][i].name] == path[1..][i]
    requires forall name :: name in rest ==> exists i :: 0 <= i < |pattern| - 1 && pattern[1..][i] == Param(name)
    ensures var params := if pattern[0].Param? then rest[pattern[0].name := path[0]] else rest;
            && (forall i :: 0 <= i < |pattern| && pattern[i].Param? ==> pattern[i].name in params)
            && (forall i :: 0 <= i < |pattern| && pattern[i].Param? && FirstBinding(pattern, pattern[i].name, i) ==>
                  params[pattern[i].name] == path[i])
            && (forall name :: name in params ==> exists i :: 0 <= i < |pattern| && pattern[i] == Param(name))
  {
    var params := if pattern[0].Param? then rest[pattern[0].name := path[0]] else rest;
    forall i | 1 <= i < |pattern| && pattern[i].Param?
      ensures pattern[i].name in params
      ensures FirstBinding(pattern, pattern[i].name, i) ==> params[pattern[i].name] == path[i]
    {
      assert pattern[1..][i - 1] == pattern[i] && path[1..][i - 1] == path[i];
      if FirstBinding(pattern, pattern[i].name, i) {
        assert FirstBinding(pattern[1..], pattern[i].name, i - 1);
        assert pattern[0] != Param(pattern[i].name);
      }
    }
    forall name | name in params
      ensures exists i :: 0 <= i < |pattern| && pattern[i] == Param(name)
    {
      if pattern[0] != Param(name) {
        var k :| 0 <= k < |pattern| - 1 && pattern[1..][k] == Param(name);
        assert pattern[k + 1] == Param(name);
      }
    }
  }

  predicate RouteMatches(route: Route, verb: Verb, path: seq<string>)
  {
    route.verb == verb && Bind(route.pattern, path).Some?
  }

  datatype Match = Match(index: nat, params: map<string, string>)

  /** The route Express runs: the first registration that matches, with the
      parameters it binds. */
  function FirstMatch(table: seq<Route>, verb: Verb, path: seq<string>, from: nat := 0): (m: Option<Match>)
    requires from <= |table|
    ensures m.Some? ==>
              && from <= m.value.index < |table|
              && table[m.value.index].verb == verb
              && Bind(table[m.value.index].pattern, path) == Some(m.value.params)
              && forall j :: from <= j < m.value.index ==> !RouteMatches(table[j], verb, path)
    ensures m.None? ==> forall j :: from <= j < |table| ==> !RouteMatches(table[j], verb, path)
    decreases |table| - from
  {
    if from == |table| then None
    else if RouteMatches(table[from], verb, path) then Some(Match(from, Bind(table[from].pattern, path).value))
    else FirstMatch(table, verb, path, from + 1)
  }

  /** The router's search: registrations are tried in order and the first
      match wins. */
  method FindRoute(table: seq<Route>, verb: Verb, path: seq<string>) returns (m: Option<Match>)
    ensures m == FirstMatch(table, verb, path)
  {
    var i := 0;
    while i < |table|
      invariant 0 <= i <= |table|
      invariant forall j :: 0 <= j < i ==> !RouteMatches(table[j], verb, path)
    {
      var bound := Bind(table[i].pattern, path);
      if table[i].verb == verb && bound.Some? {
        return Some(Match(i, bound.value));
      }
      i := i + 1;
    }
    return None;
  }

  /** `GET /blog/all` (in any letter case) always reaches `getAllBlogs`. */
  lemma AllReachesGetAll(segment: string)
    requires SameLiteral("all", segment)
    ensures FirstMatch(Table, GET, [segment]) == Some(Match(0, map[]))
  {
    assert Bind(Table[0].pattern, [segment]) == Some(map[]);
  }

  /** Any other single segment reaches `getBlogById` with that segment as `id`. */
  lemma OtherSegmentReachesGetOne(segment: string)
    requires segment != "" && !SameLiteral("all", segment)
    ensures FirstMatch(Table, GET, [segment]) == Some(Match(1, map["id" := segment]))
  {
    assert Bind(Table[0].pattern, [segment]).None?;
    assert Bind([Param("id")], [segment]) == Some(map["id" := segment]);
  }

  /** `PUT` and `DELETE /blog/new-story/<s>` reach `editBlog` and
      `deleteBlog` with the second segment as `id`. */
  lemma NewStoryIdReachesEditAndDelete(segment: string)
    requires segment != ""
    ensures FirstMatch(Table, PUT, ["new-story", segment]) == Some(Match(3, map["id" := segment]))
    ensures FirstMatch(Table, DELETE, ["new-story", segment]) == Some(Match(4, map["id" := segment]))
  {
    assert SameLiteral("new-story", "new-story");
    assert Bind(Table[3].pattern, ["new-story", segment]) == Some(map["id" := segment]);
    assert Bind(Table[4].pattern, ["new-story", segment]) == Some(map["id" := segment]);
  }

  /** Were the two GET registrations swapped, `/all` would reach
      `getBlogById`, which cannot cast "all" to an id and answers 500. */
  lemma SwappedGetsMisrouteAll()
    ensures var swapped := [Table[1], Table[0]] + Table[2..];
            && FirstMatch(swapped, GET, ["all"]) == Some(Match(0, map["id" := "all"]))
            && GetById(map[], IdParam(map["id" := "all"])) == ServerError
  {
    var swapped := [Table[1], Table[0]] + Table[2..];
    assert Bind(swapped[0].pattern, ["all"]) == Some(map["id" := "all"]);
    assert CastObjectId("all").None?;
  }

  /** The GET routes need no token; every route that changes posts is gated. */
  lemma GatedExactlyWhenMutating()
    ensures forall i :: 0 <= i < |Table| ==> (Table[i].gated <==> Table[i].verb != GET)
    ensures forall i :: 0 <= i < |Table| ==> (Table[i].gated <==> Table[i].handler in {CreateBlog, EditBlog, DeleteBlog})
  {
  }

  /** `GetAllBlogs`'s answer: every stored post once, newest first. */
  ghost predicate ListsAll(store: Store, res: Response)
  {
    res.Json? && res.status == 200 && res.payload.BlogList?
    && NewestFirst(res.payload.blogs)
    && multiset(res.payload.blogs) == multiset(StoreEntries(store))
  }

  /** A request to the `/blog` router: find the route, bind its parameters,
      run the gate on protected routes, then the handler. */
  method Dispatch(blogs: BlogStore, req: Request, keys: Keys, secret: Option<string>, nowMs: int, newId: ObjectId)
    returns (res: Response)
    modifies blogs, req
    ensures var m := FirstMatch(Table, req.verb, req.path);
            m.None? ==>
              && res == NoRoute && blogs.posts == old(blogs.posts)
              && req.user == old(req.user) && req.params == old(req.params)
    ensures var m := FirstMatch(Table, req.verb, req.path);
            m.Some? ==>
              var route := Table[m.value.index];
              && req.params == m.value.params
              && (!route.gated ==> blogs.posts == old(blogs.posts) && req.user == old(req.user))
              && (route.handler == GetAllBlogs ==> ListsAll(blogs.posts, res))
              && (route.handler == GetBlogById ==> res == GetById(blogs.posts, IdParam(req.params)))
              && (route.gated ==>
                    match Gate(req.authorization, keys, secret, nowMs / 1000)
                    case Reject(rejection) =>
                      res == rejection && blogs.posts == old(blogs.posts) && req.user == old(req.user)
                    case Continue(claims) =>
                      && req.user == Some(claims)
                      && (route.handler == CreateBlog ==>
                            Outcome(res, blogs.posts) == Create(old(blogs.posts), Some(claims), req.body, newId, nowMs))
                      && (route.handler == EditBlog ==>
                            Outcome(res, blogs.posts) == Edit(old(blogs.posts), Some(claims), IdParam(req.params), req.body, nowMs))
                      && (route.handler == DeleteBlog ==>
                            Outcome(res, blogs.posts) == Delete(old(blogs.posts), Some(claims), IdParam(req.params))))
  {
    var m := FindRoute(Table, req.verb, req.path);
    if m.None? {
      return NoRoute;
    }
    var route := Table[m.value.index];
    req.params := m.value.params;
    if route.gated {
      var outcome := VerifyToken(req, keys, secret, nowMs / 1000);
      if outcome.Reject? {
        return outcome.response;
      }
    }
    match route.handler
    case GetAllBlogs => res := blogs.GetAllBlogs();
    case GetBlogById => res := blogs.GetBlogById(req);
    case CreateBlog => res := blogs.CreateBlog(req, newId, nowMs);
    case EditBlog => res := blogs.EditBlog(req, nowMs);
    case DeleteBlog => res := blogs.DeleteBlog(req);
  }
}
