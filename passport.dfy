/** The verify callback of the Google strategy (server/config/passport.js):
    find the user by the profile's first email, or create one. The callback
    ends by calling `done(null, user)` or `done(error, null)`. */
module Passport {
  import opened Common
  import opened UserModel

  /** The parts of a Google profile the callback reads. */
  datatype Profile = Profile(id: string, displayName: string, emails: seq<string>)

  datatype Done = DoneError | DoneUser(user: User)

  datatype Verified = Verified(done: Done, users: seq<User>)

  const PlaceholderPrefix: string := "google-oauth-"

  /** The user `User.create` stores for a new Google account: the display
      name, the first email, the placeholder password (not hashed) and the
      Google id. */
  function GoogleUser(profile: Profile, newId: ObjectId, now: int): User
    requires profile.emails != []
  {
    User(newId, profile.displayName, profile.emails[0], PlaceholderPrefix + profile.id, Some(profile.id), now, now)
  }

  /** Whether `User.create` throws for that user: a required field is empty,
      or the id or the Google id is already indexed. */
  function CreateFails(users: seq<User>, u: User): (fails: bool)
    ensures !fails && UniqueKeys(users) && FindByEmail(users, u.email).None? ==> UniqueKeys(users + [u])
    ensures u.googleId.Some? && u.googleId.value in GoogleIds(users) ==> fails
    ensures u.fullname == "" || u.email == "" || u.id in Ids(users) ==> fails
  {
    if u.fullname == "" || u.email == "" || u.id in Ids(users) || (u.googleId.Some? && u.googleId.value in GoogleIds(users)) then true
    else
      assert UniqueKeys(users) && FindByEmail(users, u.email).None? ==> UniqueKeys(users + [u]) by {
        if UniqueKeys(users) && FindByEmail(users, u.email).None? { AppendKeepsKeysUnique(users, u); }
      }
      false
  }

  /** The strategy's verify callback. */
  function FindOrCreate(users: seq<User>, profile: Profile, newId: ObjectId, now: int): (v: Verified)
    ensures profile.emails == [] ==> v == Verified(DoneError, users)
    ensures profile.emails != [] && FindByEmail(users, profile.emails[0]).Some? ==>
              v == Verified(DoneUser(users[FindByEmail(users, profile.emails[0]).value]), users)
    ensures profile.emails != [] && FindByEmail(users, profile.emails[0]).None? ==>
              var u := GoogleUser(profile, newId, now);
              v == if CreateFails(users, u) then Verified(DoneError, users) else Verified(DoneUser(u), users + [u])
    ensures v.users != users ==>
              && profile.emails != [] && FindByEmail(users, profile.emails[0]).None?
              && v.users == users + [GoogleUser(profile, newId, now)]
              && v.done == DoneUser(GoogleUser(profile, newId, now))
              && !CreateFails(users, GoogleUser(profile, newId, now))
    ensures v.done.DoneUser? ==> profile.emails != [] && v.done.user.email == profile.emails[0]
    ensures v.done.DoneError? ==> v.users == users
    ensures UniqueKeys(users) ==> UniqueKeys(v.users)
  {
    if profile.emails == [] then Verified(DoneError, users)           // `profile.emails[0]` throws
    else
      match FindByEmail(users, profile.emails[0])
      case Some(i) => Verified(DoneUser(users[i]), users)
      case None =>
        var u := GoogleUser(profile, newId, now);
        if CreateFails(users, u) then Verified(DoneError, users)
        else
          assert UniqueKeys(users) ==> UniqueKeys(users + [u]) by {
            if UniqueKeys(users) { AppendKeepsKeysUnique(users, u); }
          }
          Verified(DoneUser(u), users + [u])
  }

  /** A first sign-in with a new email, a non-empty name and a Google id
      not yet stored creates exactly that account and returns it. */
  lemma NewProfileCreatesUser(users: seq<User>, profile: Profile, newId: ObjectId, now: int)
    requires profile.emails != [] && FindByEmail(users, profile.emails[0]).None?
    requires profile.displayName != "" && profile.emails[0] != ""
    requires newId !in Ids(users) && profile.id !in GoogleIds(users)
    ensures var u := GoogleUser(profile, newId, now);
            FindOrCreate(users, profile, newId, now) == Verified(DoneUser(u), users + [u])
  {
    assert !CreateFails(users, GoogleUser(profile, newId, now));
  }

  /** A second sign-in with the same profile finds the user the first one
      returned and creates nothing. */
  lemma {:induction false} FindOrCreateIsIdempotent(users: seq<User>, profile: Profile, newId: ObjectId, newId2: ObjectId, now: int, later: int)
    requires FindOrCreate(users, profile, newId, now).done.DoneUser?
    ensures var v := FindOrCreate(users, profile, newId, now);
            FindOrCreate(v.users, profile, newId2, later) == v
  {
    var v := FindOrCreate(users, profile, newId, now);
    if v.users != users {
      var u := GoogleUser(profile, newId, now);
      FindByEmailAfterAppend(users, u, profile.emails[0]);
      assert (users + [u])[|users|] == u;
    }
  }

  /** Signing in with Google under the email of a password account returns
      that account as it is: no Google id is attached to it. */
  lemma PasswordAccountKeepsNoGoogleId(users: seq<User>, profile: Profile, newId: ObjectId, now: int, i: nat)
    requires UniqueKeys(users)
    requires i < |users| && users[i].googleId.None?
    requires profile.emails != [] && profile.emails[0] == users[i].email
    ensures FindOrCreate(users, profile, newId, now) == Verified(DoneUser(users[i]), users)
    ensures FindOrCreate(users, profile, newId, now).done.user.googleId.None?
  {
    var k := FindByEmail(users, users[i].email).value;
    assert users[k].email == users[i].email;
  }

  /** `User.create` failing on the unique Google id: a profile whose email is
      not stored but whose Google id already is (the account's email changed
      at Google) ends in `done(error, null)`. */
  lemma GoogleIdClashIsError(users: seq<User>, profile: Profile, newId: ObjectId, now: int, i: nat)
    requires i < |users| && users[i].googleId == Some(profile.id)
    requires profile.emails != [] && FindByEmail(users, profile.emails[0]).None?
    ensures FindOrCreate(users, profile, newId, now) == Verified(DoneError, users)
  {
    assert users[i] in users;
  }

  /** The strategy callback on the User collection. */
  method GoogleVerify(store: UserStore, profile: Profile, newId: ObjectId, now: int) returns (done: Done)
    requires store.Valid()
    modifies store
    ensures store.Valid()
    ensures Verified(done, store.users) == FindOrCreate(old(store.users), profile, newId, now)
  {
    if profile.emails == [] {
      return DoneError;
    }
    var found := FindByEmail(store.users, profile.emails[0]);
    if found.Some? {
      return DoneUser(store.users[found.value]);
    }
    var user := GoogleUser(profile, newId, now);
    if CreateFails(store.users, user) {
      return DoneError;
    }
    AppendKeepsKeysUnique(store.users, user);
    store.users := store.users + [user];
    done := DoneUser(user);
  }
}
