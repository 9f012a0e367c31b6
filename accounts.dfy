/** The user records kept by the account service, the filters it looks them up
    by, the store invariant, and the values its handlers reply with. */
module Accounts {

  datatype Option<T> = None | Some(value: T)

  /** A Mongo document id (`_id`). */
  type Id = nat

  /** A bcrypt digest, kept as a symbolic term: the random salt and the password
      it was computed from. Nothing outside `Matches` looks inside it. */
  datatype Digest = Bcrypt(salt: nat, secret: string)

  /** `bcrypt.hash(password, 10)` with the random salt supplied by the caller. */
  function Hash(password: string, salt: nat): (d: Digest)
    ensures forall p :: Matches(p, d) <==> p == password
  {
    Bcrypt(salt, password)
  }

  /** `bcrypt.compare(password, digest)`, idealised as collision-free; bcrypt's
      truncation of passwords to 72 bytes is not modelled. */
  predicate Matches(password: string, d: Digest)
  {
    d.secret == password
  }

  /** One user document. `verificationToken` and `token` may be null. */
  datatype User = User(
    email: string,
    password: Digest,
    subscription: string,
    avatarURL: string,
    verify: bool,
    verificationToken: Option<string>,
    token: Option<string>)

  // Defaults of the user schema (models/User.js is not part of this model).
  const DefaultSubscription := "starter"
  const DefaultVerify := false
  const DefaultToken: Option<string> := None

  /** The subscription values `updateSubscription` accepts. */
  const SubscriptionOptions := ["starter", "pro", "business"]

  /** `path.join("avatars", filename)`: where a committed upload is served from. */
  function AvatarURL(filename: string): string
  {
    "avatars/" + filename
  }

  /** Distinct upload names are stored under distinct URLs, so the previous avatar
      and a new upload name the same file exactly when their filenames agree. */
  lemma AvatarURLInjective(a: string, b: string)
    requires AvatarURL(a) == AvatarURL(b)
    ensures a == b
  {
    assert AvatarURL(a)[8..] == a;
    assert AvatarURL(b)[8..] == b;
  }

  type Users = map<Id, User>

  /** The user collection and the files under the public directory, named by
      their path relative to it (as `avatarURL` names them). */
  datatype Store = Store(users: Users, files: set<string>)

  /** The request body of `POST /signup`; `...req.body` may carry a subscription. */
  datatype SignupBody = SignupBody(email: string, password: string, subscription: Option<string>)

  /** What the body validation in front of the handlers lets through. */
  predicate WellFormed(body: SignupBody)
  {
    body.subscription.Some? ==> body.subscription.value in SubscriptionOptions
  }

  /** `req.file`: the temporary path of an upload and the name it is stored under. */
  datatype Upload = Upload(path: string, filename: string)

  /** `req.user`: the caller's record as the authentication middleware loaded it. */
  datatype Session = Session(id: Id, user: User)

  /** The middleware admits a caller only by a non-empty signed session token. */
  predicate Authenticated(session: Session)
  {
    session.user.token.Some? && session.user.token.value != ""
  }

  /** The query documents the handlers pass to `findOne` and `findOneAndUpdate`. */
  datatype Filter =
    | ByEmail(email: string)
    | ByVerificationToken(verificationToken: string)
    | BySessionToken(sessionToken: string)

  predicate Selects(f: Filter, u: User)
  {
    match f
    case ByEmail(e) => u.email == e
    case ByVerificationToken(t) => u.verificationToken == Some(t)
    case BySessionToken(t) => u.token == Some(t)
  }

  /** A filter on a field the store keeps unique: the empty session token that
      sign-out leaves behind is shared, so it is not a key. */
  predicate Keyed(f: Filter)
  {
    f.BySessionToken? ==> f.sessionToken != ""
  }

  /** `findOne(f)`: some record the filter selects, or none when there is none. */
  ghost function Find(users: Users, f: Filter): (r: Option<Id>)
    ensures r.Some? ==> r.value in users && Selects(f, users[r.value])
    ensures r.None? <==> forall id :: id in users ==> !Selects(f, users[id])
  {
    if exists id :: id in users && Selects(f, users[id]) then
      var id :| id in users && Selects(f, users[id]);
      Some(id)
    else
      None
  }

  ghost predicate EmailsUnique(users: Users)
  {
    forall i, j :: i in users && j in users && users[i].email == users[j].email ==> i == j
  }

  ghost predicate VerificationTokensUnique(users: Users)
  {
    forall i, j ::
      (i in users && j in users && users[i].verificationToken.Some? &&
       users[i].verificationToken == users[j].verificationToken) ==> i == j
  }

  ghost predicate SessionTokensUnique(users: Users)
  {
    forall i, j ::
      (i in users && j in users && users[i].token.Some? && users[i].token.value != "" &&
       users[i].token == users[j].token) ==> i == j
  }

  /** A record is verified exactly when its verification token has been cleared. */
  ghost predicate VerifiedIffTokenCleared(users: Users)
  {
    forall i :: i in users ==> (users[i].verify <==> users[i].verificationToken.None?)
  }

  ghost predicate SubscriptionsKnown(users: Users)
  {
    forall i :: i in users ==> users[i].subscription in SubscriptionOptions
  }

  /** The store invariant every handler keeps. */
  ghost predicate Consistent(users: Users)
  {
    && EmailsUnique(users)
    && VerificationTokensUnique(users)
    && SessionTokensUnique(users)
    && VerifiedIffTokenCleared(users)
    && SubscriptionsKnown(users)
  }

  /** Exceptions of the libraries the handlers await, passed on by `ctrlWrapper`. */
  datatype Fault = RenameFailed | MailFailed | UnlinkFailed

  /** An `HttpError(status, message)` thrown by a handler, or a library exception. */
  datatype Error = HttpError(status: int, message: string) | Thrown(fault: Fault)

  /** The JSON bodies the handlers send. */
  datatype Body =
    | Registered(email: string, subscription: string, avatarURL: string)
    | Message(message: string)
    | SignedIn(token: string, email: string, subscription: string)
    | Current(email: string, subscription: string)
    | Record(user: User)
    | Avatar(avatarURL: string)

  datatype Reply = Success(status: int, body: Body) | Failure(error: Error)

  /** The writes a handler performs, in the order it awaits them. */
  datatype Effect =
    | Renamed(source: string, target: string)
    | Created(id: Id)
    | Updated(id: Id)
    | Unlinked(path: string)
    | Mailed(to: string, link: Option<string>)

  /** What one handler call leaves behind: its reply, the new store and its writes. */
  datatype Outcome = Outcome(reply: Reply, store: Store, effects: seq<Effect>)
}
