/** The handlers of the auth controller as transitions of the store: each takes
    the store before the request and gives the reply, the store after it and the
    writes performed, in order. Values the handlers draw from outside (the bcrypt
    salt, the nanoid and JWT tokens, the gravatar URL, the new document id) and
    whether a rename or an email send succeeds are parameters. */
module Handlers {
  import opened Accounts

  /** The record `User.create` stores for a signup. */
  function NewUser(body: SignupBody, password: Digest, avatarURL: string, verificationToken: string): User
  {
    User(body.email, password,
         if body.subscription.Some? then body.subscription.value else DefaultSubscription,
         avatarURL, DefaultVerify, Some(verificationToken), DefaultToken)
  }

  /** `POST /signup`. */
  ghost function Signup(s: Store, body: SignupBody, newId: Id, salt: nat, verificationToken: string,
                        gravatarURL: string, upload: Option<Upload>, renameOk: bool, mailOk: bool): Outcome
  {
    if Find(s.users, ByEmail(body.email)).Some? then
      Outcome(Failure(HttpError(409, body.email + " is already in use")), s, [])
    else if upload.Some? && !renameOk then
      Outcome(Failure(Thrown(RenameFailed)), s, [])
    else
      var avatarURL := if upload.Some? then AvatarURL(upload.value.filename) else gravatarURL;
      var files := if upload.Some? then s.files + {avatarURL} else s.files;
      var moved := if upload.Some? then [Renamed(upload.value.path, avatarURL)] else [];
      var user := NewUser(body, Hash(body.password, salt), avatarURL, verificationToken);
      var store := Store(s.users[newId := user], files);
      var created := moved + [Created(newId)];
      if mailOk then
        Outcome(Success(201, Registered(user.email, user.subscription, user.avatarURL)),
                store, created + [Mailed(body.email, Some(verificationToken))])
      else
        Outcome(Failure(Thrown(MailFailed)), store, created)
  }

  /** `GET /verify/:verificationToken`. */
  ghost function Verify(s: Store, verificationToken: string): Outcome
  {
    match Find(s.users, ByVerificationToken(verificationToken))
    case None =>
      Outcome(Failure(HttpError(404, "User is not found.")), s, [])
    case Some(id) =>
      var u := s.users[id].(verify := true, verificationToken := None);
      Outcome(Success(200, Message("Verification is successful.")),
              Store(s.users[id := u], s.files), [Updated(id)])
  }

  /** `POST /verify`: mails the stored verification link again. */
  ghost function ResendVerifiedEmail(s: Store, email: string, mailOk: bool): Outcome
  {
    match Find(s.users, ByEmail(email))
    case None =>
      Outcome(Failure(HttpError(400, "Missing required field email.")), s, [])
    case Some(id) =>
      if s.users[id].verify then
        Outcome(Failure(HttpError(400, "Verification has already been passed.")), s, [])
      else if mailOk then
        Outcome(Success(200, Message("Verification email has been sent.")), s,
                [Mailed(email, s.users[id].verificationToken)])
      else
        Outcome(Failure(Thrown(MailFailed)), s, [])
  }

  /** `POST /signin`: `jwt` is the token `jwt.sign` issues for the record. */
  ghost function Signin(s: Store, email: string, password: string, jwt: string): Outcome
  {
    match Find(s.users, ByEmail(email))
    case None =>
      Outcome(Failure(HttpError(401, "Email or password is wrong.")), s, [])
    case Some(id) =>
      var u := s.users[id];
      if !Matches(password, u.password) then
        Outcome(Failure(HttpError(401, "Email or password is wrong.")), s, [])
      else if !u.verify then
        Outcome(Failure(HttpError(401, "Email is not verified")), s, [])
      else
        Outcome(Success(200, SignedIn(jwt, u.email, u.subscription)),
                Store(s.users[id := u.(token := Some(jwt))], s.files), [Updated(id)])
  }

  /** `GET /current`: reports two fields of the caller's record and reads nothing else. */
  function GetCurrent(session: Session): Reply
  {
    Success(200, Current(session.user.email, session.user.subscription))
  }

  /** `POST /logout`: `findByIdAndUpdate(_id, {token: ""})`, whose missing match is ignored. */
  ghost function SignOut(s: Store, session: Session): Outcome
  {
    var reply := Success(204, Message("Sign out is successful."));
    if session.id in s.users then
      Outcome(reply, Store(s.users[session.id := s.users[session.id].(token := Some(""))], s.files),
              [Updated(session.id)])
    else
      Outcome(reply, s, [])
  }

  /** `PATCH /subscription`. */
  ghost function UpdateSubscription(s: Store, session: Session, subscription: string): Outcome
    requires Authenticated(session)
  {
    if subscription !in SubscriptionOptions then
      Outcome(Failure(HttpError(400, "Invalid subscription type")), s, [])
    else
      match Find(s.users, BySessionToken(session.user.token.value))
      case None =>
        Outcome(Failure(HttpError(404, "User is not found.")), s, [])
      case Some(id) =>
        var u := s.users[id].(subscription := subscription);
        Outcome(Success(200, Record(u)), Store(s.users[id := u], s.files), [Updated(id)])
  }

  /** `PATCH /avatar`: commit the upload (if any), update the record found by the
      caller's token, then unlink the caller's previous avatar file. */
  ghost function UpdateAvatar(s: Store, session: Session, upload: Option<Upload>, renameOk: bool): Outcome
    requires Authenticated(session)
  {
    var previous := session.user.avatarURL;
    if upload.Some? && !renameOk then
      Outcome(Failure(Thrown(RenameFailed)), s, [])
    else
      var avatarURL := if upload.Some? then AvatarURL(upload.value.filename) else previous;
      var files := if upload.Some? then s.files + {avatarURL} else s.files;
      var moved := if upload.Some? then [Renamed(upload.value.path, avatarURL)] else [];
      match Find(s.users, BySessionToken(session.user.token.value))
      case None =>
        Outcome(Failure(HttpError(404, "User is not found")), Store(s.users, files), moved)
      case Some(id) =>
        var users := s.users[id := s.users[id].(avatarURL := avatarURL)];
        var updated := moved + [Updated(id)];
        if previous == "" then
          Outcome(Success(200, Avatar(avatarURL)), Store(users, files), updated)
        else if previous in files then
          Outcome(Success(200, Avatar(avatarURL)), Store(users, files - {previous}),
                  updated + [Unlinked(previous)])
        else
          Outcome(Failure(Thrown(UnlinkFailed)), Store(users, files), updated)
  }
}
