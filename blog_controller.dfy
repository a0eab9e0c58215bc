/** The post handlers (server/controllers/blog.js) over the Blog collection.
    Each handler is specified by a function from the collection (and the
    request fields it reads) to the response and the new collection; the
    class `BlogStore` holds the collection and runs the handlers step by
    step, each proved to agree with its function. Every handler's error
    checks come in the source's order, and a handler that answers with an
    error leaves the collection as it was. */
module BlogController {
  import opened Common
  import opened Jwt
  import opened BlogModel
  import opened Http

  datatype Outcome = Outcome(response: Response, store: Store)

  const MissingFields: Response := Json(400, Message("Title and content are required"))
  const NothingToEdit: Response := Json(400, Message("At least one field (title or content) is required"))
  const BlogNotFound: Response := Json(404, Message("Blog not found"))
  const BlogNotThere: Response := Json(404, Message("Blog is not there"))
  const NotAllowedToDelete: Response := Json(403, Message("You are not allowed to delete this blog"))
  const NotAllowedToEdit: Response := Json(403, Message("You are not allowed to edit this blog"))
  const Deleted: Response := Json(200, Message("Blog deleted successfully"))

  /** The `:id` route parameter, absent when the route has none. */
  function IdParam(params: map<string, string>): Option<string>
  {
    if "id" in params then Some(params["id"]) else None
  }

  /** What `Blog.findById(id)` meets: a stored post, no post (also for an
      undefined id, which the query treats as null), or an id the driver
      cannot cast, which makes the query throw. */
  datatype Lookup = Found(id: ObjectId) | Absent | Uncastable

  function FindPost(store: Store, id: Option<string>): (l: Lookup)
    ensures l.Uncastable? <==> id.Some? && CastObjectId(id.value).None?
    ensures l.Found? <==> id.Some? && CastObjectId(id.value).Some? && CastObjectId(id.value).value in store
    ensures l.Found? ==> l.id in store && CastObjectId(id.value) == Some(l.id)
  {
    if id.None? then Absent
    else
      match CastObjectId(id.value)
      case None => Uncastable
      case Some(key) => if key in store then Found(key) else Absent
  }

  /** `createBlog`. */
  function Create(store: Store, user: Option<Claims>, body: Body, newId: ObjectId, now: int): (o: Outcome)
    ensures !Given(body, "title") || !Given(body, "content") ==> o == Outcome(MissingFields, store)
    ensures StatusOf(o.response) == 201 <==>
              && Given(body, "title") && Given(body, "content")
              && user.Some? && CastObjectId(user.value.id).Some?
              && newId !in store
    ensures StatusOf(o.response) != 201 ==> o.store == store
    ensures Given(body, "title") && Given(body, "content") && StatusOf(o.response) != 201 ==>
              o == Outcome(ServerError, store)
    ensures StatusOf(o.response) == 201 ==>
              && o.store.Keys == store.Keys + {newId}
              && (forall id :: id in store ==> o.store[id] == store[id])
              && o.store[newId].title == body["title"]
              && o.store[newId].content == body["content"]
              && Some(o.store[newId].author) == CastObjectId(user.value.id)
              && o.store[newId].likes == 0 && o.store[newId].comments == []
              && o.store[newId].createdAt == now
              && o.response == Json(201, BlogSaved("Blog created successfully", Entry(newId, o.store[newId])))
  {
    if !Given(body, "title") || !Given(body, "content") then Outcome(MissingFields, store)
    else if user.None? then Outcome(ServerError, store)            // `req.user.id` throws
    else
      match CastObjectId(user.value.id)
      case None => Outcome(ServerError, store)                      // author cannot be cast
      case Some(author) =>
        if newId in store then Outcome(ServerError, store)          // duplicate key
        else
          var post := NewPost(body["title"], body["content"], author, now);
          Outcome(Json(201, BlogSaved("Blog created successfully", Entry(newId, post))), store[newId := post])
  }

  /** `getBlogById`. */
  function GetById(store: Store, id: Option<string>): (r: Response)
    ensures StatusOf(r) == 200 <==> FindPost(store, id).Found?
    ensures FindPost(store, id).Found? ==>
              var key := FindPost(store, id).id; r == Json(200, OneBlog(Entry(key, store[key])))
    ensures FindPost(store, id).Absent? <==> r == BlogNotFound
    ensures FindPost(store, id).Uncastable? <==> r == ServerError
  {
    match FindPost(store, id)
    case Uncastable => ServerError
    case Absent => BlogNotFound
    case Found(key) => Json(200, OneBlog(Entry(key, store[key])))
  }

  /** `deleteBlog`: 500 without a user, then the lookup (500, 404), then the
      ownership check (403); only the author removes the post. */
  function Delete(store: Store, user: Option<Claims>, id: Option<string>): (o: Outcome)
    ensures user.None? ==> o == Outcome(ServerError, store)
    ensures user.Some? && FindPost(store, id).Uncastable? ==> o == Outcome(ServerError, store)
    ensures user.Some? && FindPost(store, id).Absent? ==> o == Outcome(BlogNotThere, store)
    ensures user.Some? && FindPost(store, id).Found? ==>
              var key := FindPost(store, id).id;
              if store[key].author != user.value.id then o == Outcome(NotAllowedToDelete, store)
              else
                && o.response == Deleted
                && o.store.Keys == store.Keys - {key}
                && (forall k :: k in o.store ==> o.store[k] == store[k])
  {
    if user.None? then Outcome(ServerError, store)
    else
      match FindPost(store, id)
      case Uncastable => Outcome(ServerError, store)
      case Absent => Outcome(BlogNotThere, store)
      case Found(key) =>
        if store[key].author != user.value.id then Outcome(NotAllowedToDelete, store)
        else Outcome(Deleted, store - {key})
  }

  /** The update `findByIdAndUpdate` applies: a field changes only when the
      request gives it a non-empty value; the timestamp moves to `now`. */
  function Patch(post: Post, body: Body, now: int): (p: Post)
    ensures p.title == if Given(body, "title") then body["title"] else post.title
    ensures p.content == if Given(body, "content") then body["content"] else post.content
    ensures p.author == post.author && p.comments == post.comments && p.likes == post.likes
    ensures p.createdAt == post.createdAt && p.updatedAt == now
  {
    post.(title := if Given(body, "title") then body["title"] else post.title,
          content := if Given(body, "content") then body["content"] else post.content,
          updatedAt := now)
  }

  /** `editBlog`: 500 without a user, 400 when neither field is given (before
      any lookup), then the lookup (500, 404), then the ownership check (403). */
  function Edit(store: Store, user: Option<Claims>, id: Option<string>, body: Body, now: int): (o: Outcome)
    ensures user.None? ==> o == Outcome(ServerError, store)
    ensures user.Some? && !Given(body, "title") && !Given(body, "content") ==> o == Outcome(NothingToEdit, store)
    ensures user.Some? && (Given(body, "title") || Given(body, "content")) && FindPost(store, id).Uncastable? ==>
              o == Outcome(ServerError, store)
    ensures user.Some? && (Given(body, "title") || Given(body, "content")) && FindPost(store, id).Absent? ==>
              o == Outcome(BlogNotThere, store)
    ensures user.Some? && (Given(body, "title") || Given(body, "content")) && FindPost(store, id).Found?
            && store[FindPost(store, id).id].author != user.value.id ==>
              o == Outcome(NotAllowedToEdit, store)
    ensures StatusOf(o.response) != 200 ==> o.store == store
    ensures StatusOf(o.response) == 200 <==>
              && user.Some? && (Given(body, "title") || Given(body, "content"))
              && FindPost(store, id).Found? && store[FindPost(store, id).id].author == user.value.id
    ensures StatusOf(o.response) == 200 ==>
              var key := FindPost(store, id).id;
              && o.store == store[key := Patch(store[key], body, now)]
              && o.response == Json(200, BlogSaved("Blog updated successfully", Entry(key, o.store[key])))
  {
    if user.None? then Outcome(ServerError, store)
    else if !Given(body, "title") && !Given(body, "content") then Outcome(NothingToEdit, store)
    else
      match FindPost(store, id)
      case Uncastable => Outcome(ServerError, store)
      case Absent => Outcome(BlogNotThere, store)
      case Found(key) =>
        if store[key].author != user.value.id then Outcome(NotAllowedToEdit, store)
        else
          var updated := Patch(store[key], body, now);
          Outcome(Json(200, BlogSaved("Blog updated successfully", Entry(key, updated))), store[key := updated])
  }

  /** `.sort({ createdAt: -1 })`: no post comes before a newer one. */
  predicate NewestFirst(blogs: seq<Entry>)
  {
    forall i, j :: 0 <= i < j < |blogs| ==> blogs[i].post.createdAt >= blogs[j].post.createdAt
  }

  /** Insertion of one post into a list ordered newest first. */
  function InsertNewest(blogs: seq<Entry>, e: Entry): (r: seq<Entry>)
    ensures multiset(r) == multiset(blogs) + multiset{e}
  {
    if blogs == [] || e.post.createdAt >= blogs[0].post.createdAt then [e] + blogs
    else
      assert blogs == [blogs[0]] + blogs[1..];
      [blogs[0]] + InsertNewest(blogs[1..], e)
  }

  lemma {:induction false} InsertNewestKeepsOrder(blogs: seq<Entry>, e: Entry)
    requires NewestFirst(blogs)
    ensures NewestFirst(InsertNewest(blogs, e))
  {
    if blogs != [] && e.post.createdAt < blogs[0].post.createdAt {
      var rest := InsertNewest(blogs[1..], e);
      InsertNewestKeepsOrder(blogs[1..], e);
      assert blogs == [blogs[0]] + blogs[1..];
      forall j | 0 <= j < |rest| ensures rest[j].post.createdAt <= blogs[0].post.createdAt {
        assert rest[j] in multiset(rest);
        if rest[j] != e {
          assert rest[j] in multiset(blogs[1..]);
          var k :| 0 <= k < |blogs[1..]| && blogs[1..][k] == rest[j];
          assert blogs[k + 1] == rest[j];
        }
      }
    }
  }

  /** Every stored post with its id. */
  ghost function StoreEntries(store: Store): set<Entry>
  {
    set id | id in store :: Entry(id, store[id])
  }

  lemma StoreEntriesAdd(store: Store, id: ObjectId, post: Post)
    requires id !in store
    ensures StoreEntries(store[id := post]) == StoreEntries(store) + {Entry(id, post)}
    ensures Entry(id, post) !in StoreEntries(store)
  {
    var grown := store[id := post];
    forall e | e in StoreEntries(grown) ensures e in StoreEntries(store) + {Entry(id, post)} {
      var k :| k in grown && e == Entry(k, grown[k]);
      if k != id { assert e in StoreEntries(store); }
    }
    forall e | e in StoreEntries(store) + {Entry(id, post)} ensures e in StoreEntries(grown) {
      if e != Entry(id, post) {
        var k :| k in store && e == Entry(k, store[k]);
        assert k in grown && grown[k] == store[k];
      } else {
        assert id in grown && grown[id] == post;
      }
    }
  }

  /** Repeating a successful edit, at the same time, changes nothing more
      and answers the same. */
  lemma EditIsIdempotent(store: Store, user: Option<Claims>, id: Option<string>, body: Body, now: int)
    requires StatusOf(Edit(store, user, id, body, now).response) == 200
    ensures var o := Edit(store, user, id, body, now);
            Edit(o.store, user, id, body, now) == o
  {
    var o := Edit(store, user, id, body, now);
    var key := FindPost(store, id).id;
    assert FindPost(o.store, id) == Found(key);
    assert Patch(o.store[key], body, now) == o.store[key];
  }

  /** A created post can be fetched by its printed id. */
  lemma CreateThenGet(store: Store, user: Option<Claims>, body: Body, newId: ObjectId, now: int)
    requires StatusOf(Create(store, user, body, newId, now).response) == 201
    ensures var o := Create(store, user, body, newId, now);
            GetById(o.store, Some(newId)) == Json(200, OneBlog(Entry(newId, o.store[newId])))
  {
    CastPrintedId(newId);
  }

  /** After the author deletes a post, fetching it answers 404 and deleting
      it again answers 404. */
  lemma DeleteThenGet(store: Store, user: Option<Claims>, id: Option<string>)
    requires Delete(store, user, id).response == Deleted
    ensures var o := Delete(store, user, id);
            GetById(o.store, id) == BlogNotFound && Delete(o.store, user, id) == Outcome(BlogNotThere, o.store)
  {
    var key := FindPost(store, id).id;
    assert FindPost(Delete(store, user, id).store, id) == Absent;
  }

  /** The ownership gate: a user who is not a post's author gets 403 from
      edit (given a non-empty field) and from delete, and the collection is
      unchanged; the author succeeds with both. */
  lemma OnlyAuthorMutates(store: Store, user: Claims, key: ObjectId, body: Body, now: int)
    requires key in store
    requires Given(body, "title") || Given(body, "content")
    ensures store[key].author != user.id ==>
              && Edit(store, Some(user), Some(key), body, now) == Outcome(NotAllowedToEdit, store)
              && Delete(store, Some(user), Some(key)) == Outcome(NotAllowedToDelete, store)
    ensures store[key].author == user.id ==>
              && StatusOf(Edit(store, Some(user), Some(key), body, now).response) == 200
              && Delete(store, Some(user), Some(key)).response == Deleted
  {
    CastPrintedId(key);
  }

  class BlogStore {
    var posts: Store

    constructor ()
      ensures posts == map[]
    {
      posts := map[];
    }

    method CreateBlog(req: Request, newId: ObjectId, now: int) returns (res: Response)
      modifies this
      ensures Outcome(res, posts) == Create(old(posts), req.user, req.body, newId, now)
    {
      if !Given(req.body, "title") || !Given(req.body, "content") {
        return MissingFields;
      }
      if req.user.None? {
        return ServerError;
      }
      var author := CastObjectId(req.user.value.id);
      if author.None? || newId in posts {
        return ServerError;
      }
      var post := NewPost(req.body["title"], req.body["content"], author.value, now);
      posts := posts[newId := post];
      res := Json(201, BlogSaved("Blog created successfully", Entry(newId, post)));
    }

    /** `getAllBlogs`: every stored post exactly once, newest first. */
    method GetAllBlogs() returns (res: Response)
      ensures res.Json? && res.status == 200 && res.payload.BlogList?
      ensures NewestFirst(res.payload.blogs)
      ensures multiset(res.payload.blogs) == multiset(StoreEntries(posts))
    {
      var pending := posts.Keys;
      var blogs: seq<Entry> := [];
      while pending != {}
        invariant pending <= posts.Keys
        invariant NewestFirst(blogs)
        invariant multiset(blogs) == multiset(StoreEntries(posts - pending))
        decreases pending
      {
        var id :| id in pending;
        ghost var done := posts - pending;
        InsertNewestKeepsOrder(blogs, Entry(id, posts[id]));
        blogs := InsertNewest(blogs, Entry(id, posts[id]));
        pending := pending - {id};
        assert posts - pending == done[id := posts[id]];
        StoreEntriesAdd(done, id, posts[id]);
      }
      assert posts - pending == posts;
      res := Json(200, BlogList(blogs));
    }

    method GetBlogById(req: Request) returns (res: Response)
      ensures res == GetById(posts, IdParam(req.params))
    {
      var found := FindPost(posts, IdParam(req.params));
      if found.Uncastable? {
        return ServerError;
      }
      if found.Absent? {
        return BlogNotFound;
      }
      res := Json(200, OneBlog(Entry(found.id, posts[found.id])));
    }

    method DeleteBlog(req: Request) returns (res: Response)
      modifies this
      ensures Outcome(res, posts) == Delete(old(posts), req.user, IdParam(req.params))
    {
      if req.user.None? {
        return ServerError;
      }
      var userId := req.user.value.id;
      var found := FindPost(posts, IdParam(req.params));
      if found.Uncastable? {
        return ServerError;
      }
      if found.Absent? {
        return BlogNotThere;
      }
      if posts[found.id].author != userId {
        return NotAllowedToDelete;
      }
      posts := posts - {found.id};
      res := Deleted;
    }

    method EditBlog(req: Request, now: int) returns (res: Response)
      modifies this
      ensures Outcome(res, posts) == Edit(old(posts), req.user, IdParam(req.params), req.body, now)
    {
      if req.user.None? {
        return ServerError;
      }
      var userId := req.user.value.id;
      if !Given(req.body, "title") && !Given(req.body, "content") {
        return NothingToEdit;
      }
      var found := FindPost(posts, IdParam(req.params));
      if found.Uncastable? {
        return ServerError;
      }
      if found.Absent? {
        return BlogNotThere;
      }
      if posts[found.id].author != userId {
        return NotAllowedToEdit;
      }
      var updated := Patch(posts[found.id], req.body, now);
      posts := posts[found.id := updated];
      res := Json(200, BlogSaved("Blog updated successfully", Entry(found.id, updated)));
    }
  }
}
