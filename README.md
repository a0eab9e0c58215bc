# Blog server core, modelled in Dafny

This project models the request-handling core of a small blog server (an
Express application over a MongoDB document store) and proves what it
promises:

- the **post handlers** (`createBlog`, `getAllBlogs`, `getBlogById`,
  `editBlog`, `deleteBlog`) over the Blog collection, with their exact order
  of error answers (400, then 404, then 403) and what stays the same after
  each of them;
- the **token gate** `verifyToken`, which reads the `Authorization` header,
  strips an optional `Bearer ` prefix and either attaches the verified claims
  to the request or answers 403 or 500 itself;
- the **post route table**, five registrations searched in order, and the
  dispatcher that runs the gate before the three handlers that change posts;
- the **account handlers** `register`, `login` and `googleAuthCallback`, and
  the Google strategy's find-or-create, over the User collection;
- the feed's display helpers `getExcerpt` and `formatDate`.

One module per source file: `Common` (shared values, object ids), `Jwt` (the
token library, abstract signature), `BlogModel` and `UserModel` (the
documents and collections), `Http` (request and response), `AuthMiddleware`,
`BlogController`, `AuthController`, `Passport`, `BlogRoutes`, `Dashboard`.
Code that updates state in place is modelled as such: the Blog collection is
the `map` field of class `BlogController.BlogStore`, the User collection the
`seq` field of class `UserModel.UserStore`, and the request an object of
class `Http.Request` whose `params` and `user` fields the router and the gate
write. Every state-changing method is proved equal to a specification
function of the old state, and the properties are proved about those
functions.

Inputs the code takes from its surroundings are parameters: the clock (in
milliseconds for the display helpers and post timestamps, whole seconds
for tokens; the router hands the gate the millisecond clock divided by
1000 and floored), the id the store
assigns to a new document, the bcrypt salt, the environment values
`JWT_SECRET` and `FRONTEND_URL` (absent or present). bcrypt's `hash` and
`compare` and the token signature's encoder and decoder are function values;
the laws relied on are stated as predicates (`AuthController.Matches`,
`Jwt.Sound`) and assumed only by the lemmas that need them.

Behaviour modelled as the code has it, where one might expect otherwise:

- `editBlog` reads `req.user.id`, then answers 400 for an edit with neither
  field before it looks the post up, so an empty edit of a missing post is
  400, not 404.
- Every token failure at the gate (expired, forged, malformed, empty) is
  answered 500 "Internal Server Error", not 401.
- A duplicate email at registration is answered 400 "User already exists".
- An account created through Google stores `google-oauth-<id>` as its
  password, not hashed; an existing account found by email is returned as it
  is, with no Google id attached.
- A path id that is not an object id (24 hexadecimal digits) makes the
  store's lookup throw, which the handler answers 500 "Server error"; this is
  why `GET /all` has to be registered before `GET /:id`.
- The handlers read `req.user.id`; without a user they throw and answer 500.
  The dispatcher proves that the gated handlers always get the gate's claims.

## Model

| member | source | states |
|---|---|---|
| `Common.CastObjectId` | server/controllers/blog.js:45 | an id string can be cast exactly when it is 24 hexadecimal digits of either case; the cast is the lower-case printed form |
| `Common.CastPrintedId` | server/controllers/blog.js:45 | a printed id casts back to itself |
| `Jwt.Sign` | server/controllers/auth.js:57-59 | signing succeeds exactly when the secret is set and non-empty, and the token is the encoding of `{id}` with `iat = now` and `exp = now + 7 days`; under sound keys it is a non-empty compact token that decodes back to exactly those claims |
| `Jwt.Verify` | server/middleware/auth.js:13 | verification fails for an empty token or a missing secret, and succeeds only with the decoded claims of a correctly signed token whose `exp` is still in the future |
| `Jwt.SignedTokenLastsSevenDays` | server/controllers/auth.js:57-59 | a token issued at `iat` verifies to its claims while `now < iat + 7 days`, and fails from then on |
| `UserModel.WithoutPassword` | server/controllers/auth.js:29-30 | the user a handler sends back: every stored field but the password |
| `UserModel.WithoutPasswordHidesOnlyPassword` | server/controllers/auth.js:61-62 | two users look the same once the password is deleted exactly when they differ at most in their password |
| `UserModel.FindByEmail` | server/controllers/auth.js:13 | `findOne({ email })` gives the first user with that email, and none exactly when no user has it |
| `UserModel.AppendKeepsKeysUnique` | server/models/User.js:10-25 | adding a user with a new id, email and Google id keeps the unique indexes on `_id`, `email` and `googleId` |
| `UserModel.FindByEmailAfterAppend` | server/controllers/auth.js:13-27 | after a user with a new email is stored, a lookup by that email finds it and other lookups are unchanged |
| `AuthMiddleware.TrimLeft` | server/middleware/auth.js:10 | `trimLeft` removes exactly the leading JavaScript white space: the result is a suffix, everything removed is white space and the result does not start with white space |
| `AuthMiddleware.StripBearer` | server/middleware/auth.js:9-11 | a header starting with `Bearer ` (case-sensitive) loses those 7 characters and the white space after them; any other header is used unchanged |
| `AuthMiddleware.Gate` | server/middleware/auth.js:5-18 | an absent or empty header is answered 403 "Access Denied"; otherwise a failed verification of the stripped token is answered 500 "Internal Server Error"; otherwise the request continues with the verified claims; exactly one of these |
| `AuthMiddleware.VerifyToken` | server/middleware/auth.js:3-20 | the gate as a method: it decides as `Gate`, sets `request.user` to the claims exactly when it continues, and leaves it untouched when it answers |
| `AuthMiddleware.TrimSpacesBeforeToken` | server/middleware/auth.js:10 | trimming white space followed by a token that does not start with white space gives the token |
| `AuthMiddleware.StripIssuedHeader` | server/middleware/auth.js:9-11 | `Bearer `, any white space and an issued token strip to that token |
| `AuthMiddleware.IssuedTokenPasses` | server/middleware/auth.js:9-15 | a header `Bearer <token>` carrying a token the server issued passes the gate for seven days with the claims signed into it |
| `AuthMiddleware.ExpiredTokenIsServerError` | server/middleware/auth.js:13-18 | from the seventh day on, the same header is answered 500, not 401 |
| `AuthMiddleware.BareBearerIsServerError` | server/middleware/auth.js:9-18 | `Bearer ` followed only by white space leaves the empty token and is answered 500 |
| `BlogModel.NewPost` | server/models/Blogs.js:23-44 | a new post takes the schema defaults: no comments, 0 likes, both timestamps at creation time |
| `BlogController.FindPost` | server/controllers/blog.js:65-66 | `findById` finds the post whose id the path id casts to, finds nothing for a missing or unknown id, and throws for an id that cannot be cast |
| `BlogController.Create` | server/controllers/blog.js:3-28 | a missing or empty title or content is answered 400 with nothing stored; a success adds exactly one post under the new id, authored by `req.user.id`, with 0 likes, no comments and `createdAt = now`, and every other post is unchanged; every other failure (no `req.user`, an author id that cannot be cast, a taken id) is answered 500 "Server error", and every failure leaves the collection unchanged |
| `BlogController.GetById` | server/controllers/blog.js:43-58 | 200 with the post when the id finds one, 404 "Blog not found" when it finds none, 500 when the id cannot be cast |
| `BlogController.Delete` | server/controllers/blog.js:60-81 | without a user 500; then lookup errors (500, 404 "Blog is not there"); then 403 when the requester is not the author, collection unchanged; otherwise exactly that post is removed and all others are unchanged |
| `BlogController.Patch` | server/controllers/blog.js:104-110 | a field changes only when the request gives it a non-empty value; author, comments, likes and `createdAt` never change; `updatedAt` becomes now |
| `BlogController.Edit` | server/controllers/blog.js:83-122 | without a user 500; with neither field given 400 before any lookup; then 500 for an uncastable id and 404 "Blog is not there" for a missing post, both before ownership is checked; then 403 for a non-author; the collection changes only on 200, where exactly the found post is patched |
| `BlogController.InsertNewest` | server/controllers/blog.js:32-34 | inserting a post into a listing adds exactly that post |
| `BlogController.InsertNewestKeepsOrder` | server/controllers/blog.js:34 | inserting into a newest-first listing keeps it newest first |
| `BlogController.StoreEntriesAdd` | server/controllers/blog.js:32 | the set of stored posts grows by exactly the post added |
| `BlogController.EditIsIdempotent` | server/controllers/blog.js:104-110 | repeating a successful edit at the same time answers the same and changes nothing more |
| `BlogController.CreateThenGet` | server/controllers/blog.js:11-53 | a created post can be fetched by its printed id |
| `BlogController.DeleteThenGet` | server/controllers/blog.js:65-75 | after the author deletes a post, fetching it and deleting it again both answer 404 |
| `BlogController.OnlyAuthorMutates` | server/controllers/blog.js:68-104 | a non-author gets 403 from edit and delete with the collection unchanged; the author succeeds with both |
| `BlogController.BlogStore.CreateBlog` | server/controllers/blog.js:3-28 | the handler as a method on the collection: its answer and the new collection are those of `Create` on the old collection |
| `BlogController.BlogStore.GetAllBlogs` | server/controllers/blog.js:30-41 | answers 200 with every stored post exactly once (with its id), ordered by `createdAt` descending |
| `BlogController.BlogStore.GetBlogById` | server/controllers/blog.js:43-58 | reads the collection and answers as `GetById` |
| `BlogController.BlogStore.DeleteBlog` | server/controllers/blog.js:60-81 | its answer and the new collection are those of `Delete` on the old collection |
| `BlogController.BlogStore.EditBlog` | server/controllers/blog.js:83-122 | its answer and the new collection are those of `Edit` on the old collection |
| `AuthController.Registration` | server/controllers/auth.js:5-37 | a missing field is answered 400 and a stored email 400 "User already exists", both storing nothing; a success stores exactly one new user whose password is `hash(password, salt)`, answers 201 with that user without its password, and keeps emails unique; a save that fails on a taken id is answered 500 "Server error" with nothing stored |
| `AuthController.LoginResponse` | server/controllers/auth.js:39-69 | 400 for a missing field before any lookup, 404 exactly for an unknown email, 401 exactly when the password does not match the stored hash; a matching password gets 200 with a token signed over the user's id for seven days and the user without its password, or 500 when no signing secret is set |
| `AuthController.CallbackRedirect` | server/controllers/auth.js:71-85 | redirects to `FRONTEND_URL + "/auth/callback?token=" + token`, and to `FRONTEND_URL + "/login?error=auth_failed"` when there is no user or signing throws |
| `AuthController.FrontendBase` | server/controllers/auth.js:80 | an unset `FRONTEND_URL` prints as "undefined" in the redirect template |
| `AuthController.CallbackCarriesToken` | server/controllers/auth.js:80 | the token is exactly what follows the callback path in the URL, and a success URL is never the failure URL |
| `AuthController.RegisterThenLogin` | server/controllers/auth.js:18-64 | after a successful registration, logging in with the same email and password succeeds with a token for the new user |
| `AuthController.RegisterTwice` | server/controllers/auth.js:13-16 | a second registration with a stored email is answered "User already exists", whatever the password, and stores nothing |
| `AuthController.Register` | server/controllers/auth.js:5-37 | the handler as a method on the User collection: it keeps the unique indexes and its answer and new collection are those of `Registration` |
| `AuthController.Login` | server/controllers/auth.js:39-69 | reads the User collection without changing it and answers as `LoginResponse` |
| `Passport.FindOrCreate` | server/config/passport.js:12-34 | looks the user up by the profile's first email; a found user is returned as is with the collection unchanged; for a new email, exactly one user is created (and is the result) with the display name, that email, the password `google-oauth-<id>` and the Google id, unless creating it fails, which ends in `done(error)` with nothing stored; unique keys are kept |
| `Passport.CreateFails` | server/config/passport.js:23-33 | `User.create` throws for an empty required field or an id or Google id already indexed; a user it accepts keeps the unique indexes |
| `Passport.NewProfileCreatesUser` | server/config/passport.js:22-30 | a new email with a non-empty name, a fresh id and a Google id not yet stored creates exactly that account and returns it |
| `Passport.FindOrCreateIsIdempotent` | server/config/passport.js:15-28 | a second call with the same profile creates nothing and returns the first call's user |
| `Passport.PasswordAccountKeepsNoGoogleId` | server/config/passport.js:17-20 | signing in with Google under a password account's email returns that account without a Google id |
| `Passport.GoogleIdClashIsError` | server/config/passport.js:23-33 | a new email with an already stored Google id ends in `done(error, null)` because `googleId` is unique |
| `Passport.GoogleVerify` | server/config/passport.js:12-34 | the callback as a method on the User collection: it keeps the unique indexes and its result and new collection are those of `FindOrCreate` |
| `BlogRoutes.Table` | server/routes/blog.js:14-20 | the five registrations in source order, each with its verb, path pattern, gate and handler |
| `BlogRoutes.Bind` | server/routes/blog.js:14-20 | a pattern matches a path exactly when they have the same length and each literal matches in any letter case and each parameter meets a non-empty segment; each parameter is bound to the segment it meets, and only parameters are bound |
| `BlogRoutes.FirstMatch` | server/routes/blog.js:14-20 | the route chosen is the first registration whose verb and pattern match, with the parameters it binds; none is chosen only when none matches |
| `BlogRoutes.FindRoute` | server/routes/blog.js:14-20 | the in-order search of the registrations returns the first match |
| `BlogRoutes.AllReachesGetAll` | server/routes/blog.js:14 | `GET /all` in any letter case reaches `getAllBlogs` |
| `BlogRoutes.OtherSegmentReachesGetOne` | server/routes/blog.js:15 | `GET /<s>` for any other non-empty segment reaches `getBlogById` with `id = s` |
| `BlogRoutes.NewStoryIdReachesEditAndDelete` | server/routes/blog.js:19-20 | `PUT` and `DELETE /new-story/<s>` reach `editBlog` and `deleteBlog` with `id = s` |
| `BlogRoutes.SwappedGetsMisrouteAll` | server/routes/blog.js:14-15 | with the two GET registrations in the other order, `/all` would reach `getBlogById` and be answered 500 |
| `BlogRoutes.GatedExactlyWhenMutating` | server/routes/blog.js:13-20 | the two GET routes need no token; create, edit and delete run the gate first |
| `BlogRoutes.Dispatch` | server/routes/blog.js:11-22 | an unmatched request is answered 404 with the collection, `req.user` and `req.params` unchanged; the parameters are those of the first match; a gate rejection is the answer and never changes the collection or `req.user`; an accepted request runs its handler with `req.user` set to the gate's claims, the gate judging expiry in whole seconds and the handler stamping posts in milliseconds; the GET routes never change the collection |
| `Dashboard.Excerpt` | project/src/pages/Dashboard.tsx:72-75 | content of at most `maxLength` characters comes back unchanged; longer content becomes its first `maxLength` characters followed by "...", `maxLength + 3` characters in all |
| `Dashboard.DaysBetween` | project/src/pages/Dashboard.tsx:62-64 | the day count is the floor of the difference divided by 86 400 000 ms |
| `Dashboard.NatToString` | project/src/pages/Dashboard.tsx:68 | a count prints as a non-empty string of decimal digits with no leading zero, one digit exactly below 10 |
| `Dashboard.NatToStringRoundTrip` | project/src/pages/Dashboard.tsx:68 | reading the printed digits back gives the count |
| `Dashboard.IntToString` | project/src/pages/Dashboard.tsx:68 | a count prints with a leading minus sign exactly when it is negative, followed by decimal digits whose value is its absolute value |
| `Dashboard.FormatDate` | project/src/pages/Dashboard.tsx:59-70 | 0 days gives "Today", 1 "Yesterday", any other count below 7 (negative ones included) `<n>d ago`, 7 or more (and an unparsable date) the locale branch; each label exactly in its case |
| `Dashboard.FutureDateIsNegativeDaysAgo` | project/src/pages/Dashboard.tsx:62-68 | any future date gives a count of -1 or less and the label `-<n>d ago` |
| `Dashboard.RecentDateLabel` | project/src/pages/Dashboard.tsx:68 | a date two to six whole days back is labelled with its single digit and `d ago` |

## Left out

- Database failures (lost connection, timeouts, validation of fields the handlers never send) are not modelled; the 500 answers modelled are the ones the modelled inputs cause (an uncastable id, a missing `req.user`, a duplicate key, a missing signing secret).
- The race between `findById` and `findByIdAndUpdate`/`findByIdAndDelete` is concurrency: each request is atomic in the model.
- `populate` is the identity on stored fields: it asks for `firstname lastname`, which the User schema does not have, so author names are never filled in; display names are not modelled.
- The `min`/`max` options on String paths of both schemas do not bound string length, so no length bounds are stated.
- Request bodies hold strings only: numbers, arrays and objects in JSON bodies (and the query operators an object in `email` would inject) are not modelled.
- bcrypt and the token signature are abstract functions: no cryptography, no 72-byte password truncation, no library exceptions beyond a missing secret and the failures `jwt.verify` reports; what `compare` answers for the unhashed Google placeholder password is left to the abstract `compare`.
- Express itself: splitting the URL into segments, URL decoding, the optional trailing slash, HEAD requests served by GET routes, the HTML body of its 404, and the case-insensitive header lookup are not modelled; a path is given as its segments below the `/blog` mount.
- Only 24 hexadecimal digits are modelled as castable to an object id.
- BlogRoutes.Bind: a pattern that names the same parameter twice binds it to its first segment, while Express keeps the last; no registration of the post routes repeats a name, so routing is unaffected.
- What Passport does with `done(error, null)` and the `failureRedirect` wiring of the auth routes are not modelled; `googleAuthCallback` is modelled for the user it is given.
- server/index.js registers its own copy of the Google strategy callback, identical in behaviour to the one modelled from server/config/passport.js; startup and configuration loading are not modelled.
- Comments and likes are only created with their defaults; no operation changes them.
- Dashboard.FormatDate: the locale text of the seven-days-or-more branch is not computed; the model only states that this branch is taken and which date it formats.
- Dashboard.Excerpt: JavaScript counts string length in UTF-16 code units; the model counts characters, which agree for text without astral-plane characters.
- `fetchBlogs` and the rest of the feed component, and the other front-end files, are not modelled.
