/** What the auth controller's handlers promise, proved of their transitions. */
module Properties {
  import opened Accounts
  import opened Handlers

  /** No record holds `t` as its pending verification token: what a fresh nanoid gives. */
  ghost predicate VerificationTokenUnused(users: Users, t: string)
  {
    forall id :: id in users ==> users[id].verificationToken != Some(t)
  }

  /** No record holds `t` as its session token: what a freshly signed JWT gives. */
  ghost predicate SessionTokenUnused(users: Users, t: string)
  {
    forall id :: id in users ==> users[id].token != Some(t)
  }

  /** On a consistent store a keyed lookup finds the one record it selects. */
  lemma FindIsTheHolder(users: Users, f: Filter, id: Id)
    requires Consistent(users) && Keyed(f)
    requires id in users && Selects(f, users[id])
    ensures Find(users, f) == Some(id)
  {
  }

  /** Rewriting one record keeps the store consistent as long as the new record
      keeps its email, takes on no other record's token and stays within the
      verified/subscription invariants. */
  lemma ReplaceKeepsConsistent(users: Users, id: Id, u: User)
    requires Consistent(users) && id in users
    requires u.email == users[id].email
    requires u.verificationToken.Some? ==> u.verificationToken == users[id].verificationToken
    requires u.token.Some? && u.token.value != "" ==> u.token == users[id].token
    requires (u.verify <==> u.verificationToken.None?) && u.subscription in SubscriptionOptions
    ensures Consistent(users[id := u])
  {
  }

  // ----- signup -----

  /** An email already held by a record gives 409 and leaves everything as it was. */
  lemma SignupRejectsTakenEmail(s: Store, body: SignupBody, newId: Id, salt: nat, verificationToken: string,
                                gravatarURL: string, upload: Option<Upload>, renameOk: bool, mailOk: bool, id: Id)
    requires id in s.users && s.users[id].email == body.email
    ensures var o := Signup(s, body, newId, salt, verificationToken, gravatarURL, upload, renameOk, mailOk);
      o.reply == Failure(HttpError(409, body.email + " is already in use")) && o.store == s && o.effects == []
  {
  }

  /** A new email adds exactly one record: the hashed password, the fresh
      verification token, unverified, and the committed upload or the gravatar URL
      as avatar. A failed email send is reported but the record stays. */
  lemma SignupCreatesOneRecord(s: Store, body: SignupBody, newId: Id, salt: nat, verificationToken: string,
                               gravatarURL: string, upload: Option<Upload>, renameOk: bool, mailOk: bool)
    requires forall id :: id in s.users ==> s.users[id].email != body.email
    requires newId !in s.users
    requires upload.Some? ==> renameOk
    ensures var o := Signup(s, body, newId, salt, verificationToken, gravatarURL, upload, renameOk, mailOk);
      var u := o.store.users[newId];
      && newId in o.store.users
      && o.store.users.Keys == s.users.Keys + {newId}
      && |o.store.users| == |s.users| + 1
      && (forall id :: id in s.users ==> o.store.users[id] == s.users[id])
      && u.email == body.email
      && u.password == Hash(body.password, salt) && Matches(body.password, u.password)
      && u.verificationToken == Some(verificationToken) && !u.verify && u.token == None
      && u.subscription == (if body.subscription.Some? then body.subscription.value else "starter")
      && u.avatarURL == (if upload.Some? then "avatars/" + upload.value.filename else gravatarURL)
      && o.store.files == (if upload.Some? then s.files + {u.avatarURL} else s.files)
      && (mailOk ==> o.reply == Success(201, Registered(body.email, u.subscription, u.avatarURL)))
      && (!mailOk ==> o.reply == Failure(Thrown(MailFailed)))
      && (Mailed(body.email, Some(verificationToken)) in o.effects <==> mailOk)
  {
    assert Find(s.users, ByEmail(body.email)) == None;
    var avatarURL := if upload.Some? then AvatarURL(upload.value.filename) else gravatarURL;
    var u := Handlers.NewUser(body, Hash(body.password, salt), avatarURL, verificationToken);
    var o := Signup(s, body, newId, salt, verificationToken, gravatarURL, upload, renameOk, mailOk);
    assert o.store.users == s.users[newId := u];
  }

  /** A failed rename of the upload stops signup before anything is written. */
  lemma SignupRenameFailureWritesNothing(s: Store, body: SignupBody, newId: Id, salt: nat, verificationToken: string,
                                         gravatarURL: string, upload: Option<Upload>, mailOk: bool)
    requires forall id :: id in s.users ==> s.users[id].email != body.email
    requires upload.Some?
    ensures var o := Signup(s, body, newId, salt, verificationToken, gravatarURL, upload, false, mailOk);
      o.reply == Failure(Thrown(RenameFailed)) && o.store == s && o.effects == []
  {
  }

  /** Signup keeps the store consistent; in particular no two records share an email. */
  lemma SignupKeepsConsistent(s: Store, body: SignupBody, newId: Id, salt: nat, verificationToken: string,
                              gravatarURL: string, upload: Option<Upload>, renameOk: bool, mailOk: bool)
    requires Consistent(s.users) && WellFormed(body)
    requires newId !in s.users && VerificationTokenUnused(s.users, verificationToken)
    ensures Consistent(Signup(s, body, newId, salt, verificationToken, gravatarURL, upload, renameOk, mailOk).store.users)
  {
  }

  // ----- verify -----

  /** A token no record holds gives 404 and changes nothing. */
  lemma VerifyRejectsUnknownToken(s: Store, verificationToken: string)
    requires VerificationTokenUnused(s.users, verificationToken)
    ensures var o := Verify(s, verificationToken);
      o.reply == Failure(HttpError(404, "User is not found.")) && o.store == s && o.effects == []
  {
  }

  /** The record holding the token becomes verified and loses the token; nothing else changes. */
  lemma VerifyConsumesToken(s: Store, verificationToken: string, id: Id)
    requires Consistent(s.users)
    requires id in s.users && s.users[id].verificationToken == Some(verificationToken)
    ensures var o := Verify(s, verificationToken);
      && o.reply == Success(200, Message("Verification is successful."))
      && o.store.users == s.users[id := s.users[id].(verify := true, verificationToken := None)]
      && o.store.files == s.files
      && VerificationTokenUnused(o.store.users, verificationToken)
  {
  }

  /** The verification token is single-use: presenting it again gives 404. */
  lemma VerifyIsSingleUse(s: Store, verificationToken: string)
    requires Consistent(s.users)
    ensures var again := Verify(Verify(s, verificationToken).store, verificationToken);
      again.reply == Failure(HttpError(404, "User is not found.")) && again.effects == []
  {
  }

  lemma VerifyKeepsConsistent(s: Store, verificationToken: string)
    requires Consistent(s.users)
    ensures Consistent(Verify(s, verificationToken).store.users)
  {
    var r := Find(s.users, ByVerificationToken(verificationToken));
    if r.Some? {
      ReplaceKeepsConsistent(s.users, r.value, s.users[r.value].(verify := true, verificationToken := None));
    }
  }

  // ----- resend verification email -----

  /** Resending never touches the store, and its reply follows the record found by email. */
  lemma ResendNeverModifies(s: Store, email: string, mailOk: bool)
    requires Consistent(s.users)
    ensures var o := ResendVerifiedEmail(s, email, mailOk);
      && o.store == s
      && ((forall id :: id in s.users ==> s.users[id].email != email) ==>
            o.reply == Failure(HttpError(400, "Missing required field email.")) && o.effects == [])
      && (forall id :: id in s.users && s.users[id].email == email ==>
            && (s.users[id].verify ==>
                  o.reply == Failure(HttpError(400, "Verification has already been passed.")) && o.effects == [])
            && (!s.users[id].verify && mailOk ==>
                  && o.reply == Success(200, Message("Verification email has been sent."))
                  && s.users[id].verificationToken.Some?
                  && o.effects == [Mailed(email, s.users[id].verificationToken)])
            && (!s.users[id].verify && !mailOk ==>
                  o.reply == Failure(Thrown(MailFailed)) && o.effects == []))
  {
  }

  /** The link a resend mails carries the stored token, which still verifies the record. */
  lemma ResendKeepsTokenValid(s: Store, email: string, mailOk: bool, link: string)
    requires Consistent(s.users)
    requires ResendVerifiedEmail(s, email, mailOk).effects == [Mailed(email, Some(link))]
    ensures exists id :: id in s.users && s.users[id].email == email && s.users[id].verificationToken == Some(link)
    ensures Verify(ResendVerifiedEmail(s, email, mailOk).store, link).reply
            == Success(200, Message("Verification is successful."))
  {
  }

  // ----- sign-in -----

  /** Sign-in succeeds exactly for a known email, a matching password and a
      verified record; an unknown email and a wrong password get the same 401,
      a correct password on an unverified record a different one. */
  lemma SigninGate(s: Store, email: string, password: string, jwt: string)
    requires Consistent(s.users)
    ensures var o := Signin(s, email, password, jwt);
      && (o.reply.Success? <==>
            exists id :: id in s.users && s.users[id].email == email &&
                         Matches(password, s.users[id].password) && s.users[id].verify)
      && (o.reply == Failure(HttpError(401, "Email or password is wrong.")) <==>
            forall id :: id in s.users && s.users[id].email == email ==> !Matches(password, s.users[id].password))
      && (o.reply == Failure(HttpError(401, "Email is not verified")) <==>
            exists id :: id in s.users && s.users[id].email == email &&
                         Matches(password, s.users[id].password) && !s.users[id].verify)
      && (o.reply.Failure? ==> o.store == s && o.effects == [])
  {
  }

  /** A successful sign-in overwrites only that record's token with the new one,
      which then identifies it, while the token it replaced identifies no one. */
  lemma SigninRotatesToken(s: Store, email: string, password: string, jwt: string, id: Id)
    requires Consistent(s.users) && SessionTokenUnused(s.users, jwt) && jwt != ""
    requires id in s.users && s.users[id].email == email
    requires Matches(password, s.users[id].password) && s.users[id].verify
    ensures var o := Signin(s, email, password, jwt);
      && o.reply == Success(200, SignedIn(jwt, email, s.users[id].subscription))
      && o.store == Store(s.users[id := s.users[id].(token := Some(jwt))], s.files)
      && Find(o.store.users, BySessionToken(jwt)) == Some(id)
      && (forall t :: s.users[id].token == Some(t) && t != "" ==> Find(o.store.users, BySessionToken(t)) == None)
  {
    FindIsTheHolder(s.users, ByEmail(email), id);
    var users := Signin(s, email, password, jwt).store.users;
    assert Selects(BySessionToken(jwt), users[id]);
    forall t | s.users[id].token == Some(t) && t != ""
      ensures Find(users, BySessionToken(t)) == None
    {
      forall j | j in users ensures !Selects(BySessionToken(t), users[j]) {
        if j != id {
          assert s.users[j].token != s.users[id].token;
        }
      }
    }
    SigninKeepsConsistent(s, email, password, jwt);
    FindIsTheHolder(users, BySessionToken(jwt), id);
  }

  lemma SigninKeepsConsistent(s: Store, email: string, password: string, jwt: string)
    requires Consistent(s.users) && SessionTokenUnused(s.users, jwt)
    ensures Consistent(Signin(s, email, password, jwt).store.users)
  {
  }

  /** `GET /current` for the record just signed in reports what sign-in replied. */
  lemma CurrentAgreesWithSignin(s: Store, email: string, password: string, jwt: string, id: Id)
    requires Consistent(s.users) && SessionTokenUnused(s.users, jwt) && jwt != ""
    requires id in s.users && s.users[id].email == email
    requires Matches(password, s.users[id].password) && s.users[id].verify
    ensures var o := Signin(s, email, password, jwt);
      var current := GetCurrent(Session(id, o.store.users[id]));
      o.reply.body.email == current.body.email && o.reply.body.subscription == current.body.subscription
  {
  }

  /** For a caller whose session is the stored record, the caller's token finds
      exactly that record, and getCurrent reports its email and subscription. */
  lemma CurrentReportsTokenHolder(s: Store, session: Session)
    requires Consistent(s.users) && Authenticated(session)
    requires session.id in s.users && s.users[session.id] == session.user
    ensures Find(s.users, BySessionToken(session.user.token.value)) == Some(session.id)
    ensures var u := s.users[session.id];
      GetCurrent(session) == Success(200, Current(u.email, u.subscription))
  {
  }

  // ----- sign-out -----

  /** Sign-out writes "" over the caller's token and nothing else, always with
      204; afterwards the token it held identifies no record. */
  lemma SignOutClearsToken(s: Store, session: Session)
    requires Consistent(s.users) && Authenticated(session)
    ensures var o := SignOut(s, session);
      && o.reply == Success(204, Message("Sign out is successful."))
      && o.store.files == s.files
      && (session.id in s.users ==>
            o.store.users == s.users[session.id := s.users[session.id].(token := Some(""))])
      && (session.id !in s.users ==> o.store == s && o.effects == [])
      && (session.id in s.users && s.users[session.id].token == session.user.token ==>
            Find(o.store.users, BySessionToken(session.user.token.value)) == None)
  {
  }

  lemma SignOutKeepsConsistent(s: Store, session: Session)
    requires Consistent(s.users)
    ensures Consistent(SignOut(s, session).store.users)
  {
    if session.id in s.users {
      ReplaceKeepsConsistent(s.users, session.id, s.users[session.id].(token := Some("")));
    }
  }

  // ----- update subscription -----

  /** A value outside {starter, pro, business} gives 400 before the store is touched. */
  lemma UpdateSubscriptionRejectsUnknownValue(s: Store, session: Session, subscription: string)
    requires Authenticated(session)
    requires subscription != "starter" && subscription != "pro" && subscription != "business"
    ensures var o := UpdateSubscription(s, session, subscription);
      o.reply == Failure(HttpError(400, "Invalid subscription type")) && o.store == s && o.effects == []
  {
  }

  /** With an accepted value, only the subscription of the record holding the
      caller's token changes and the updated record is returned; when no record
      holds it the reply is 404 and nothing changes. */
  lemma UpdateSubscriptionTargetsTokenHolder(s: Store, session: Session, subscription: string)
    requires Consistent(s.users) && Authenticated(session)
    requires subscription in SubscriptionOptions
    ensures var o := UpdateSubscription(s, session, subscription);
      && o.store.files == s.files
      && (forall id :: id in s.users && s.users[id].token == session.user.token ==>
            var u := s.users[id].(subscription := subscription);
            o.reply == Success(200, Record(u)) && o.store.users == s.users[id := u])
      && ((forall id :: id in s.users ==> s.users[id].token != session.user.token) ==>
            o.reply == Failure(HttpError(404, "User is not found.")) && o.store == s && o.effects == [])
  {
  }

  lemma UpdateSubscriptionKeepsConsistent(s: Store, session: Session, subscription: string)
    requires Consistent(s.users) && Authenticated(session)
    ensures Consistent(UpdateSubscription(s, session, subscription).store.users)
  {
    var r := Find(s.users, BySessionToken(session.user.token.value));
    if subscription in SubscriptionOptions && r.Some? {
      ReplaceKeepsConsistent(s.users, r.value, s.users[r.value].(subscription := subscription));
    }
  }

  // ----- update avatar -----

  /** When no record holds the caller's token the reply is 404, no record
      changes and no file is deleted (a committed upload stays behind). */
  lemma UpdateAvatarNotFound(s: Store, session: Session, upload: Option<Upload>, renameOk: bool)
    requires Authenticated(session)
    requires forall id :: id in s.users ==> s.users[id].token != session.user.token
    requires upload.Some? ==> renameOk
    ensures var o := UpdateAvatar(s, session, upload, renameOk);
      && o.reply == Failure(HttpError(404, "User is not found"))
      && o.store.users == s.users
      && o.store.files == (if upload.Some? then s.files + {"avatars/" + upload.value.filename} else s.files)
      && (forall k :: 0 <= k < |o.effects| ==> !o.effects[k].Unlinked? && !o.effects[k].Updated?)
  {
  }

  /** With a match, the record's avatarURL becomes the committed upload (or stays
      the caller's current one), and the caller's previous avatar file is unlinked
      whenever its URL is non-empty, only after the record update. */
  lemma UpdateAvatarUpdatesBeforeUnlink(s: Store, session: Session, upload: Option<Upload>, renameOk: bool, id: Id)
    requires Consistent(s.users) && Authenticated(session)
    requires id in s.users && s.users[id].token == session.user.token
    requires upload.Some? ==> renameOk
    ensures var o := UpdateAvatar(s, session, upload, renameOk);
      var previous := session.user.avatarURL;
      var url := if upload.Some? then "avatars/" + upload.value.filename else previous;
      var committed := if upload.Some? then s.files + {url} else s.files;
      && o.store.users == s.users[id := s.users[id].(avatarURL := url)]
      && Updated(id) in o.effects
      && (forall k :: 0 <= k < |o.effects| && o.effects[k].Unlinked? ==>
            o.effects[k] == Unlinked(previous) && exists j :: 0 <= j < k && o.effects[j] == Updated(id))
      && (Unlinked(previous) in o.effects <==> previous != "" && previous in committed)
      && (previous == "" || previous in committed ==> o.reply == Success(200, Avatar(url)))
      && (previous != "" && previous !in committed ==> o.reply == Failure(Thrown(UnlinkFailed)))
      && o.store.files == (if Unlinked(previous) in o.effects then committed - {previous} else committed)
  {
  }

  /** Without an upload the record keeps its avatarURL, yet the file it names is
      unlinked: the record is left pointing at a deleted file. */
  lemma UpdateAvatarWithoutUploadDeletesCurrentFile(s: Store, session: Session, id: Id)
    requires Consistent(s.users) && Authenticated(session)
    requires id in s.users && s.users[id] == session.user
    requires session.user.avatarURL != "" && session.user.avatarURL in s.files
    ensures var o := UpdateAvatar(s, session, None, true);
      && o.reply == Success(200, Avatar(session.user.avatarURL))
      && o.store.users[id].avatarURL == session.user.avatarURL
      && session.user.avatarURL !in o.store.files
  {
  }

  /** An avatar that is no local file (the gravatar URL signup stores) cannot be
      unlinked: the record is updated and the request still fails. */
  lemma UpdateAvatarOfRemoteAvatarFails(s: Store, session: Session, upload: Option<Upload>, id: Id)
    requires Consistent(s.users) && Authenticated(session)
    requires id in s.users && s.users[id].token == session.user.token
    requires session.user.avatarURL != "" && session.user.avatarURL !in s.files
    requires upload.Some? ==> AvatarURL(upload.value.filename) != session.user.avatarURL
    ensures var o := UpdateAvatar(s, session, upload, true);
      && o.reply == Failure(Thrown(UnlinkFailed))
      && o.store.users[id].avatarURL == (if upload.Some? then AvatarURL(upload.value.filename) else session.user.avatarURL)
  {
  }

  /** An upload under the filename of the caller's current avatar is renamed over
      that file, which the unlink then deletes: the reply is 200 and the record
      names a file that no longer exists. */
  lemma UpdateAvatarSameFilenameDeletesNewFile(s: Store, session: Session, up: Upload, id: Id)
    requires Consistent(s.users) && Authenticated(session)
    requires id in s.users && s.users[id].token == session.user.token
    requires session.user.avatarURL == AvatarURL(up.filename)
    ensures var o := UpdateAvatar(s, session, Some(up), true);
      && o.reply == Success(200, Avatar(AvatarURL(up.filename)))
      && o.store.users[id].avatarURL == AvatarURL(up.filename)
      && AvatarURL(up.filename) !in o.store.files
  {
  }

  lemma UpdateAvatarKeepsConsistent(s: Store, session: Session, upload: Option<Upload>, renameOk: bool)
    requires Consistent(s.users) && Authenticated(session)
    ensures Consistent(UpdateAvatar(s, session, upload, renameOk).store.users)
  {
    var r := Find(s.users, BySessionToken(session.user.token.value));
    if (upload.None? || renameOk) && r.Some? {
      var url := if upload.Some? then AvatarURL(upload.value.filename) else session.user.avatarURL;
      ReplaceKeepsConsistent(s.users, r.value, s.users[r.value].(avatarURL := url));
    }
  }

  // ----- a whole session -----

  /** Sign-out followed by a subscription change with the same token gives 404:
      the cleared token authenticates no further update. */
  lemma SignedOutTokenUpdatesNothing(s: Store, session: Session, subscription: string)
    requires Consistent(s.users) && Authenticated(session)
    requires session.id in s.users && s.users[session.id].token == session.user.token
    requires subscription in SubscriptionOptions
    ensures var after := SignOut(s, session).store;
      UpdateSubscription(after, session, subscription).reply == Failure(HttpError(404, "User is not found."))
  {
  }
}
