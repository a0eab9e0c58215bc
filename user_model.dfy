/** The User document (server/models/User.js) and the User collection. The
    collection is a sequence in insertion order, the order in which a lookup
    by email meets the documents; the unique indexes on `email` and on the
    sparse `googleId` become the invariant `UniqueKeys`. */
module UserModel {
  import opened Common

  datatype User = User(
    id: ObjectId,
    fullname: string,
    email: string,
    password: string,             // a bcrypt hash, or the OAuth placeholder
    googleId: Option<string>,     // absent for password accounts
    createdAt: int,
    updatedAt: int)

  /** A user as the handlers send it back, after `delete userResponse.password`. */
  datatype PublicUser = PublicUser(
    id: ObjectId,
    fullname: string,
    email: string,
    googleId: Option<string>,
    createdAt: int,
    updatedAt: int)

  function WithoutPassword(u: User): PublicUser
  {
    PublicUser(u.id, u.fullname, u.email, u.googleId, u.createdAt, u.updatedAt)
  }

  /** Two users have the same public view exactly when they differ at most
      in their password. */
  lemma WithoutPasswordHidesOnlyPassword(u: User, v: User)
    ensures WithoutPassword(u) == WithoutPassword(v) <==> u.(password := v.password) == v
  {
  }

  function Ids(users: seq<User>): set<ObjectId>
  {
    set u | u in users :: u.id
  }

  function GoogleIds(users: seq<User>): set<string>
  {
    set u | u in users && u.googleId.Some? :: u.googleId.value
  }

  /** What the collection's indexes guarantee: `_id`, `email` and (where
      present) `googleId` are each unique. */
  ghost predicate UniqueKeys(users: seq<User>)
  {
    forall i, j :: 0 <= i < j < |users| ==>
      && users[i].id != users[j].id
      && users[i].email != users[j].email
      && (users[i].googleId.Some? ==> users[i].googleId != users[j].googleId)
  }

  /** `User.findOne({ email })`: the index of the first user with that email. */
  function FindByEmail(users: seq<User>, email: string): (r: Option<nat>)
    ensures r.Some? ==> r.value < |users| && users[r.value].email == email
    ensures r.Some? ==> forall j :: 0 <= j < r.value ==> users[j].email != email
    ensures r.None? ==> forall j :: 0 <= j < |users| ==> users[j].email != email
  {
    if users == [] then None
    else if users[0].email == email then Some(0)
    else
      match FindByEmail(users[1..], email)
      case None => None
      case Some(k) => Some(k + 1)
  }

  /** Appending a user with a new id, a new email and a new (or no) Google id
      keeps the indexes unique. */
  lemma {:induction false} AppendKeepsKeysUnique(users: seq<User>, u: User)
    requires UniqueKeys(users)
    requires u.id !in Ids(users)
    requires FindByEmail(users, u.email).None?
    requires u.googleId.Some? ==> u.googleId.value !in GoogleIds(users)
    ensures UniqueKeys(users + [u])
  {
    var all := users + [u];
    forall i, j | 0 <= i < j < |all|
      ensures all[i].id != all[j].id && all[i].email != all[j].email
      ensures all[i].googleId.Some? ==> all[i].googleId != all[j].googleId
    {
      if j == |users| {
        assert all[i] in users;
        if all[i].googleId.Some? && u.googleId.Some? {
          assert all[i].googleId.value in GoogleIds(users);
        }
      }
    }
  }

  /** After appending a user whose email was not stored, a lookup by that
      email finds the new user; lookups for other emails are unaffected. */
  lemma {:induction false} FindByEmailAfterAppend(users: seq<User>, u: User, email: string)
    requires FindByEmail(users, u.email).None?
    ensures FindByEmail(users + [u], email) ==
              if email == u.email then Some(|users|) else FindByEmail(users, email)
  {
    if users != [] {
      assert (users + [u])[1..] == users[1..] + [u];
      if users[0].email != email {
        FindByEmailAfterAppend(users[1..], u, email);
      }
    }
  }

  /** The User collection, updated in place by registration and by the
      OAuth strategy. */
  class UserStore {
    var users: seq<User>

    ghost predicate Valid()
      reads this
    {
      UniqueKeys(users)
    }

    constructor ()
      ensures users == [] && Valid()
    {
      users := [];
    }
  }
}
