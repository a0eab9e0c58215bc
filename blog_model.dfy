/** The Blog document (server/models/Blogs.js): a post with its author, an
    embedded list of comments and a like counter, plus the timestamps the
    schema option `timestamps: true` maintains. */
module BlogModel {
  import opened Common

  datatype Comment = Comment(user: ObjectId, text: string, createdAt: int)

  datatype Post = Post(
    title: string,
    content: string,
    author: ObjectId,
    comments: seq<Comment>,
    likes: int,
    createdAt: int,
    updatedAt: int)

  /** The Blog collection, keyed by document id. */
  type Store = map<ObjectId, Post>

  /** A post as the handlers send it back: the document together with its `_id`. */
  datatype Entry = Entry(id: ObjectId, post: Post)

  /** Schema default of `likes`. */
  const DefaultLikes: int := 0

  /** The document `Blog.create({ title, content, author })` stores at time
      `now`: schema defaults for the fields the handler does not give. */
  function NewPost(title: string, content: string, author: ObjectId, now: int): Post
  {
    Post(title, content, author, [], DefaultLikes, now, now)
  }
}
