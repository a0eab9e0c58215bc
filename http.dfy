/** The slice of Express's request and response objects the handlers touch.
    A request is an object: the router writes `params` into it and the token
    gate writes `user`; everything else about it is fixed when it arrives. */
module Http {
  import opened Common
  import opened Jwt
  import opened BlogModel
  import opened UserModel

  datatype Verb = GET | POST | PUT | DELETE | OTHER

  class Request {
    const verb: Verb
    const path: seq<string>              // the path below the `/blog` mount, split at '/'
    const authorization: Option<string>  // the `Authorization` header
    const body: Body
    var params: map<string, string>
    var user: Option<Claims>             // set by the token gate

    constructor (verb: Verb, path: seq<string>, authorization: Option<string>, body: Body)
      ensures this.verb == verb && this.path == path
      ensures this.authorization == authorization && this.body == body
      ensures params == map[] && user == None
    {
      this.verb := verb;
      this.path := path;
      this.authorization := authorization;
      this.body := body;
      params := map[];
      user := None;
    }
  }

  /** The JSON bodies the handlers send. */
  datatype Payload =
    | Message(text: string)
    | BlogSaved(message: string, blog: Entry)   // `{ message, blog }`
    | BlogList(blogs: seq<Entry>)               // `{ blogs }`
    | OneBlog(blog: Entry)                      // `{ blog }`
    | UserCreated(user: PublicUser)             // the saved user, password removed
    | LoggedIn(token: string, user: PublicUser) // `{ token, user }`

  datatype Response =
    | Json(status: int, payload: Payload)  // `res.status(s).json(...)`
    | Text(status: int, text: string)      // `res.status(s).send(...)`
    | Redirect(url: string)                // `res.redirect(url)`
    | NoRoute                              // no route matched: Express answers 404

  function StatusOf(r: Response): int
  {
    match r
    case Json(s, _) => s
    case Text(s, _) => s
    case Redirect(_) => 302
    case NoRoute => 404
  }

  /** The `res.status(500).json({ message: "Server error" })` every handler's
      catch block sends. */
  const ServerError: Response := Json(500, Message("Server error"))
}
