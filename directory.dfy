/** The user directory the auth controller works on, updated in place: one
    method per handler, each proved to do what the matching transition of
    `Handlers` says, and to keep the store invariant. */
module Directory {
  import opened Accounts
  import Handlers
  import opened Properties

  class UserDirectory {
    /** The user collection, by document id. */
    var users: Users
    /** The files under the public directory, by path relative to it. */
    var files: set<string>
    /** Every write performed so far, in order. */
    ghost var log: seq<Effect>

    ghost predicate Valid()
      reads this
    {
      Consistent(users)
    }

    ghost function State(): Store
      reads this
    {
      Store(users, files)
    }

    constructor ()
      ensures Valid() && users == map[] && files == {} && log == []
    {
      users := map[];
      files := {};
      log := [];
    }

    /** `User.findOne(f)`. */
    method FindOne(f: Filter) returns (r: Option<Id>)
      requires Valid() && Keyed(f)
      ensures r == Find(users, f)
    {
      if exists id :: id in users && Selects(f, users[id]) {
        var id :| id in users && Selects(f, users[id]);
        FindIsTheHolder(users, f, id);
        r := Some(id);
      } else {
        r := None;
      }
    }

    method Signup(body: SignupBody, newId: Id, salt: nat, verificationToken: string,
                  gravatarURL: string, upload: Option<Upload>, renameOk: bool, mailOk: bool)
      returns (reply: Reply)
      requires Valid() && WellFormed(body)
      requires newId !in users && VerificationTokenUnused(users, verificationToken)
      modifies this
      ensures Valid()
      ensures var o := Handlers.Signup(old(State()), body, newId, salt, verificationToken,
                                       gravatarURL, upload, renameOk, mailOk);
        reply == o.reply && State() == o.store && log == old(log) + o.effects
    {
      SignupKeepsConsistent(State(), body, newId, salt, verificationToken, gravatarURL, upload, renameOk, mailOk);
      var existing := FindOne(ByEmail(body.email));
      if existing.Some? {
        return Failure(HttpError(409, body.email + " is already in use"));
      }
      var password := Hash(body.password, salt);
      var avatarURL := gravatarURL;
      if upload.Some? {
        if !renameOk {
          return Failure(Thrown(RenameFailed));
        }
        avatarURL := AvatarURL(upload.value.filename);
        files := files + {avatarURL};
        log := log + [Renamed(upload.value.path, avatarURL)];
      }
      var user := Handlers.NewUser(body, password, avatarURL, verificationToken);
      users := users[newId := user];
      log := log + [Created(newId)];
      if !mailOk {
        return Failure(Thrown(MailFailed));
      }
      log := log + [Mailed(body.email, Some(verificationToken))];
      reply := Success(201, Registered(user.email, user.subscription, user.avatarURL));
    }

    method Verify(verificationToken: string) returns (reply: Reply)
      requires Valid()
      modifies this
      ensures Valid()
      ensures var o := Handlers.Verify(old(State()), verificationToken);
        reply == o.reply && State() == o.store && log == old(log) + o.effects
    {
      VerifyKeepsConsistent(State(), verificationToken);
      var found := FindOne(ByVerificationToken(verificationToken));
      if found.None? {
        return Failure(HttpError(404, "User is not found."));
      }
      var id := found.value;
      users := users[id := users[id].(verify := true, verificationToken := None)];
      log := log + [Updated(id)];
      reply := Success(200, Message("Verification is successful."));
    }

    /** Reads the store only; the one write is the email it sends. */
    method ResendVerifiedEmail(email: string, mailOk: bool) returns (reply: Reply)
      requires Valid()
      modifies this`log
      ensures Valid()
      ensures var o := Handlers.ResendVerifiedEmail(old(State()), email, mailOk);
        reply == o.reply && State() == o.store && log == old(log) + o.effects
    {
      var found := FindOne(ByEmail(email));
      if found.None? {
        return Failure(HttpError(400, "Missing required field email."));
      }
      var user := users[found.value];
      if user.verify {
        return Failure(HttpError(400, "Verification has already been passed."));
      }
      if !mailOk {
        return Failure(Thrown(MailFailed));
      }
      log := log + [Mailed(email, user.verificationToken)];
      reply := Success(200, Message("Verification email has been sent."));
    }

    method Signin(email: string, password: string, jwt: string) returns (reply: Reply)
      requires Valid() && SessionTokenUnused(users, jwt)
      modifies this
      ensures Valid()
      ensures var o := Handlers.Signin(old(State()), email, password, jwt);
        reply == o.reply && State() == o.store && log == old(log) + o.effects
    {
      SigninKeepsConsistent(State(), email, password, jwt);
      var found := FindOne(ByEmail(email));
      if found.None? {
        return Failure(HttpError(401, "Email or password is wrong."));
      }
      var id := found.value;
      var user := users[id];
      if !Matches(password, user.password) {
        return Failure(HttpError(401, "Email or password is wrong."));
      }
      if !user.verify {
        return Failure(HttpError(401, "Email is not verified"));
      }
      users := users[id := user.(token := Some(jwt))];
      log := log + [Updated(id)];
      reply := Success(200, SignedIn(jwt, user.email, user.subscription));
    }

    method SignOut(session: Session) returns (reply: Reply)
      requires Valid()
      modifies this
      ensures Valid()
      ensures var o := Handlers.SignOut(old(State()), session);
        reply == o.reply && State() == o.store && log == old(log) + o.effects
    {
      SignOutKeepsConsistent(State(), session);
      if session.id in users {
        users := users[session.id := users[session.id].(token := Some(""))];
        log := log + [Updated(session.id)];
      }
      reply := Success(204, Message("Sign out is successful."));
    }

    method UpdateSubscription(session: Session, subscription: string) returns (reply: Reply)
      requires Valid() && Authenticated(session)
      modifies this
      ensures Valid()
      ensures var o := Handlers.UpdateSubscription(old(State()), session, subscription);
        reply == o.reply && State() == o.store && log == old(log) + o.effects
    {
      UpdateSubscriptionKeepsConsistent(State(), session, subscription);
      if subscription !in SubscriptionOptions {
        return Failure(HttpError(400, "Invalid subscription type"));
      }
      var found := FindOne(BySessionToken(session.user.token.value));
      if found.None? {
        return Failure(HttpError(404, "User is not found."));
      }
      var id := found.value;
      var user := users[id].(subscription := subscription);
      users := users[id := user];
      log := log + [Updated(id)];
      reply := Success(200, Record(user));
    }

    method UpdateAvatar(session: Session, upload: Option<Upload>, renameOk: bool) returns (reply: Reply)
      requires Valid() && Authenticated(session)
      modifies this
      ensures Valid()
      ensures var o := Handlers.UpdateAvatar(old(State()), session, upload, renameOk);
        reply == o.reply && State() == o.store && log == old(log) + o.effects
    {
      UpdateAvatarKeepsConsistent(State(), session, upload, renameOk);
      var previous := session.user.avatarURL;
      var avatarURL := previous;
      if upload.Some? {
        if !renameOk {
          return Failure(Thrown(RenameFailed));
        }
        avatarURL := AvatarURL(upload.value.filename);
        files := files + {avatarURL};
        log := log + [Renamed(upload.value.path, avatarURL)];
      }
      var found := FindOne(BySessionToken(session.user.token.value));
      if found.None? {
        return Failure(HttpError(404, "User is not found"));
      }
      var id := found.value;
      users := users[id := users[id].(avatarURL := avatarURL)];
      log := log + [Updated(id)];
      if previous != "" {
        if previous !in files {
          return Failure(Thrown(UnlinkFailed));
        }
        files := files - {previous};
        log := log + [Unlinked(previous)];
      }
      reply := Success(200, Avatar(avatarURL));
    }
  }

  // An account's life on a directory that holds it alone.

  const Email := "alice@example.com"
  const Password := "pw123456"
  const Gravatar := "//gravatar/alice"

  /** The record signup stores for the account: salt 1, verification token "nano-1". */
  function Registered0(): User
  {
    User(Email, Hash(Password, 1), "starter", Gravatar, false, Some("nano-1"), None)
  }

  method SignUpAlice() returns (d: UserDirectory, reply: Reply)
    ensures fresh(d) && d.Valid() && d.users == map[0 := Registered0()]
    ensures reply == Success(201, Registered(Email, "starter", Gravatar))
  {
    d := new UserDirectory();
    ghost var s0 := d.State();
    reply := d.Signup(SignupBody(Email, Password, None), 0, 1, "nano-1", Gravatar, None, true, true);
    SignupCreatesOneRecord(s0, SignupBody(Email, Password, None), 0, 1, "nano-1", Gravatar, None, true, true);
    assert d.users.Keys == {0};
  }

  method SignInUnverified(d: UserDirectory) returns (reply: Reply)
    requires d.Valid() && d.users == map[0 := Registered0()]
    modifies d
    ensures d.Valid() && d.users == map[0 := Registered0()]
    ensures reply == Failure(HttpError(401, "Email is not verified"))
  {
    ghost var s := d.State();
    reply := d.Signin(Email, Password, "jwt-0");
    assert 0 in s.users && s.users[0].email == Email;
    assert Matches(Password, s.users[0].password) && !s.users[0].verify;
    SigninGate(s, Email, Password, "jwt-0");
  }

  method VerifyAlice(d: UserDirectory) returns (reply: Reply)
    requires d.Valid() && d.users == map[0 := Registered0()]
    modifies d
    ensures d.Valid() && d.users == map[0 := Registered0().(verify := true, verificationToken := None)]
    ensures reply == Success(200, Message("Verification is successful."))
  {
    ghost var s := d.State();
    reply := d.Verify("nano-1");
    VerifyConsumesToken(s, "nano-1", 0);
  }

  method SignInVerified(d: UserDirectory) returns (reply: Reply)
    requires d.Valid() && d.users == map[0 := Registered0().(verify := true, verificationToken := None)]
    modifies d
    ensures d.Valid()
    ensures d.users == map[0 := Registered0().(verify := true, verificationToken := None, token := Some("jwt-1"))]
    ensures reply == Success(200, SignedIn("jwt-1", Email, "starter"))
  {
    ghost var s := d.State();
    reply := d.Signin(Email, Password, "jwt-1");
    SigninRotatesToken(s, Email, Password, "jwt-1", 0);
  }

  method ChangeToPro(d: UserDirectory, session: Session) returns (reply: Reply)
    requires session == Session(0, Registered0().(verify := true, verificationToken := None, token := Some("jwt-1")))
    requires d.Valid() && d.users == map[0 := session.user]
    modifies d
    ensures d.Valid() && d.users == map[0 := session.user.(subscription := "pro")]
    ensures reply == Success(200, Record(session.user.(subscription := "pro")))
  {
    ghost var s := d.State();
    reply := d.UpdateSubscription(session, "pro");
    assert 0 in s.users && s.users[0].token == session.user.token;
    UpdateSubscriptionTargetsTokenHolder(s, session, "pro");
  }

  method SignOutThenRetry(d: UserDirectory, session: Session) returns (signedOut: Reply, stale: Reply)
    requires session == Session(0, Registered0().(verify := true, verificationToken := None, token := Some("jwt-1")))
    requires d.Valid() && d.users == map[0 := session.user.(subscription := "pro")]
    modifies d
    ensures signedOut == Success(204, Message("Sign out is successful."))
    ensures stale == Failure(HttpError(404, "User is not found."))
  {
    ghost var s := d.State();
    signedOut := d.SignOut(session);
    stale := d.UpdateSubscription(session, "business");
    SignedOutTokenUpdatesNothing(s, session, "business");
  }

  /** One account's life, driven through the directory's methods: sign up,
      sign in too early, verify, sign in, change the subscription, sign out,
      and try a subscription change again with the token that was signed out. */
  method AccountLifecycle() returns (replies: seq<Reply>)
    ensures |replies| == 7
    ensures replies[0] == Success(201, Registered("alice@example.com", "starter", "//gravatar/alice"))
    ensures replies[1] == Failure(HttpError(401, "Email is not verified"))
    ensures replies[2] == Success(200, Message("Verification is successful."))
    ensures replies[3] == Success(200, SignedIn("jwt-1", "alice@example.com", "starter"))
    ensures replies[4] == Success(200, Record(Registered0().(verify := true, verificationToken := None,
                                                             token := Some("jwt-1"), subscription := "pro")))
    ensures replies[5] == Success(204, Message("Sign out is successful."))
    ensures replies[6] == Failure(HttpError(404, "User is not found."))
  {
    var d, signedUp := SignUpAlice();
    var early := SignInUnverified(d);
    var verified := VerifyAlice(d);
    var signedIn := SignInVerified(d);
    var session := Session(0, d.users[0]);
    var changed := ChangeToPro(d, session);
    var signedOut, stale := SignOutThenRetry(d, session);
    replies := [signedUp, early, verified, signedIn, changed, signedOut, stale];
  }
}
