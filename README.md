# Account authentication controller, modelled in Dafny

This project models the account handlers of a REST service's auth controller
(`controllers/auth-controller.js`): sign-up with email verification, resending
the verification email, sign-in with session tokens, reading the current user,
sign-out, and the two profile updates (subscription tier and avatar image).

The user collection is a `UserDirectory` object holding a map from document id
to user record (`email`, `password` hash, `subscription`, `avatarURL`, `verify`,
`verificationToken`, `token`). The object also holds the set of files under the
public directory and a ghost log of every write, in the order the handler
awaits it. Every handler that reads or writes the store is a method on the
directory; `getCurrent`, which only echoes two fields of the caller's session,
is the pure function `Handlers.GetCurrent`. Each handler returns either a
success (status code and JSON body) or an error (an `HttpError` with its status
and exact message, or an exception from a library the handler awaits).

The model has four modules:

- `Accounts` (`accounts.dfy`): the record, the query filters and `Find`
  (`findOne`), and the store invariant `Consistent`. The invariant says that
  emails, pending verification tokens and non-empty session tokens are unique,
  that a record is verified exactly when its verification token is cleared, and
  that every subscription is one of starter, pro and business.
- `Handlers` (`handlers.dfy`): one transition function per handler. It takes the
  store before the request and gives the reply, the store after it and the
  writes in order.
- `Properties` (`properties.dfy`): the handlers' promises, proved as lemmas
  about those transitions.
- `Directory` (`directory.dfy`): the `UserDirectory` class. Its handler methods
  are proved to give exactly the matching transition's reply, new state and
  log, and to keep `Consistent`. `Signup`, `Verify`, `Signin`, `SignOut`,
  `UpdateSubscription` and `UpdateAvatar` update the map (and the files) in
  place. `FindOne` only reads the map, and `ResendVerifiedEmail` reads it and
  writes only the log. `AccountLifecycle` drives
  one account through its whole life using only these methods.

Values the handlers get from outside are parameters of the methods:

- the bcrypt salt;
- the nanoid verification token and the signed JWT, each required fresh;
- the gravatar URL;
- the new document id;
- `req.file` and `req.user`;
- whether `fs.rename` and `sendEmail` succeed.

Whether `fs.unlink` succeeds is decided by the model: it fails exactly when the
path is not among the stored files.

The schema defaults (subscription `"starter"`, `verify` false, no session
token) come from `models/User.js`, which is not part of this model. They are
the constants `DefaultSubscription`, `DefaultVerify` and `DefaultToken`.

Where the code departs from a tidier design, the model follows the code:

- Sign-in checks the password before `verify`. A correct password on an
  unverified record gets 401 `"Email is not verified"`, not the generic
  `"Email or password is wrong."` (`SigninGate`).
- `sendEmail` is awaited after the record is created. Its failure fails the
  request, and the record stays (`SignupCreatesOneRecord`).
- Sign-out writes `""` into `token` rather than clearing it to null, and always
  answers 204, even when the id matches no record (`SignOutClearsToken`).
- `updateAvatar` commits the upload before it looks the caller up, so a 404
  leaves the new file behind (`UpdateAvatarNotFound`).
- `updateAvatar` unlinks the caller's previous avatar whenever its URL is
  non-empty. With no upload, that is the file the record still names
  (`UpdateAvatarWithoutUploadDeletesCurrentFile`). For a gravatar URL, which is
  no local file, the unlink throws after the record was already updated
  (`UpdateAvatarOfRemoteAvatarFails`). An upload under the same filename as the
  current avatar is renamed over the old file, and that file is then unlinked.
  The reply is 200, and the record names a file that no longer exists
  (`UpdateAvatarSameFilenameDeletesNewFile`).
- `updateSubscription` answers with the whole updated record, password hash
  and token included (`UpdateSubscriptionTargetsTokenHolder`).

## Model

| member | source | states |
|---|---|---|
| `Accounts.Hash` | controllers/auth-controller.js:26 | the stored digest matches the password it was computed from and no other password (bcrypt.compare idealised: no collisions and no 72-byte truncation, see "Left out") |
| `Accounts.AvatarURLInjective` | controllers/auth-controller.js:39 | distinct upload filenames are stored under distinct `avatars/<filename>` URLs, so a new upload lands on the previous avatar's file only when the filenames agree (the case `UpdateAvatarSameFilenameDeletesNewFile` covers) |
| `Accounts.Find` | controllers/auth-controller.js:21 | `findOne(filter)` gives a record the filter selects, and gives none exactly when no record matches |
| `Properties.FindIsTheHolder` | controllers/auth-controller.js:21-24 | on a consistent store, a lookup by email, verification token or non-empty session token finds the one record that holds it |
| `Properties.SignupRejectsTakenEmail` | controllers/auth-controller.js:21-24 | an email already held gives 409 `"<email> is already in use"`, with no change and no write |
| `Properties.SignupCreatesOneRecord` | controllers/auth-controller.js:26-61 | a new email adds exactly one record and leaves the others unchanged. The record holds the password hash, the fresh verification token and the body's or the default subscription, is unverified, and has `avatars/<filename>` or the gravatar URL as avatar. The reply is 201 echoing the record's email, subscription and avatar. A failed email send still fails the request, and the record stays |
| `Properties.SignupRenameFailureWritesNothing` | controllers/auth-controller.js:35-42 | a failed rename of the upload stops signup before any record or file is written |
| `Properties.SignupKeepsConsistent` | controllers/auth-controller.js:21-47 | signup keeps the store invariant, so no two records ever share an email |
| `Properties.VerifyRejectsUnknownToken` | controllers/auth-controller.js:64-70 | a token no record holds gives 404 `"User is not found."` and changes nothing |
| `Properties.VerifyConsumesToken` | controllers/auth-controller.js:64-83 | the holder of the token, and only it, gets `verify = true` and a null token, and the reply is 200 `"Verification is successful."`. Afterwards no record holds the token |
| `Properties.VerifyIsSingleUse` | controllers/auth-controller.js:66-78 | presenting the same verification token a second time gives 404 |
| `Properties.VerifyKeepsConsistent` | controllers/auth-controller.js:72-78 | verification keeps the store invariant |
| `Properties.ResendNeverModifies` | controllers/auth-controller.js:85-108 | resending never changes the store. An unknown email gives 400 `"Missing required field email."`, and a verified record gives 400 `"Verification has already been passed."`. Otherwise the mail carries the stored token, and the reply is 200, or the send failure |
| `Properties.ResendKeepsTokenValid` | controllers/auth-controller.js:97-103 | the token in a resent link is the record's stored one, and verifying with it afterwards succeeds |
| `Properties.SigninGate` | controllers/auth-controller.js:110-123 | sign-in succeeds exactly for a known email, a matching password and a verified record. An unknown email and a wrong password both give 401 `"Email or password is wrong."`. A correct password on an unverified record gives 401 `"Email is not verified"`. Every failure leaves the store unchanged |
| `Properties.SigninRotatesToken` | controllers/auth-controller.js:125-136 | a successful sign-in overwrites only that record's token with the new one and replies with that token, the email and the subscription. The new token then finds the record, and the token it replaced finds none |
| `Properties.SigninKeepsConsistent` | controllers/auth-controller.js:129-130 | sign-in with a freshly issued token keeps the store invariant |
| `Properties.CurrentReportsTokenHolder` | controllers/auth-controller.js:139-145 | for a caller whose session is the stored record, the caller's token finds exactly that record, and `getCurrent` answers 200 with that record's email and subscription |
| `Properties.CurrentAgreesWithSignin` | controllers/auth-controller.js:132-145 | `getCurrent` for the record just signed in reports the email and subscription that sign-in returned |
| `Properties.SignOutClearsToken` | controllers/auth-controller.js:147-152 | sign-out writes `""` into the caller's token, changes nothing else and always answers 204. Afterwards the caller's token finds no record |
| `Properties.SignOutKeepsConsistent` | controllers/auth-controller.js:149 | sign-out keeps the store invariant |
| `Properties.SignedOutTokenUpdatesNothing` | controllers/auth-controller.js:147-171 | after sign-out, a subscription change made with the signed-out token gives 404 |
| `Properties.UpdateSubscriptionRejectsUnknownValue` | controllers/auth-controller.js:154-161 | a value outside starter, pro and business gives 400 `"Invalid subscription type"` before the store is read |
| `Properties.UpdateSubscriptionTargetsTokenHolder` | controllers/auth-controller.js:163-173 | an accepted value changes only the subscription of the record holding the caller's token, and the reply is that updated record. If no record holds the token, the reply is 404 `"User is not found."` and nothing changes |
| `Properties.UpdateSubscriptionKeepsConsistent` | controllers/auth-controller.js:163-167 | the subscription update keeps the store invariant, so every subscription stays one of the three |
| `Properties.UpdateAvatarNotFound` | controllers/auth-controller.js:176-194 | if no record holds the caller's token, the reply is 404 `"User is not found"`. No record is updated and no file is unlinked, and a committed upload stays |
| `Properties.UpdateAvatarUpdatesBeforeUnlink` | controllers/auth-controller.js:176-204 | the holder's avatarURL becomes `avatars/<filename>`, or stays the caller's current one when nothing was uploaded. The previous avatar is unlinked exactly when its URL is non-empty and the file exists. Every unlink comes after the record update. A missing previous file fails the request after the update |
| `Properties.UpdateAvatarWithoutUploadDeletesCurrentFile` | controllers/auth-controller.js:178-199 | with no upload, the record keeps its avatarURL while the file it names is deleted |
| `Properties.UpdateAvatarOfRemoteAvatarFails` | controllers/auth-controller.js:196-198 | when the previous avatar is not a local file (a gravatar URL), the record is updated and the request still fails on the unlink |
| `Properties.UpdateAvatarSameFilenameDeletesNewFile` | controllers/auth-controller.js:178-199 | an upload named like the caller's current avatar is renamed over it and then unlinked: the reply is 200 with that URL, the record names it, and the file is gone |
| `Properties.UpdateAvatarKeepsConsistent` | controllers/auth-controller.js:186-190 | the avatar update keeps the store invariant |
| `Directory.UserDirectory.FindOne` | controllers/auth-controller.js:66 | the directory's lookup returns what `Find` specifies |
| `Directory.UserDirectory.Signup` | controllers/auth-controller.js:19-62 | in-place signup: reply, new map and files, and log as `Handlers.Signup` gives them; keeps the invariant |
| `Directory.UserDirectory.Verify` | controllers/auth-controller.js:64-83 | in-place verification as `Handlers.Verify`; keeps the invariant |
| `Directory.UserDirectory.ResendVerifiedEmail` | controllers/auth-controller.js:85-108 | changes only the log (the mail sent); reply as `Handlers.ResendVerifiedEmail` |
| `Directory.UserDirectory.Signin` | controllers/auth-controller.js:110-137 | in-place sign-in as `Handlers.Signin`; keeps the invariant |
| `Directory.UserDirectory.SignOut` | controllers/auth-controller.js:147-152 | in-place sign-out as `Handlers.SignOut`; keeps the invariant |
| `Directory.UserDirectory.UpdateSubscription` | controllers/auth-controller.js:154-174 | in-place subscription update as `Handlers.UpdateSubscription`; keeps the invariant |
| `Directory.UserDirectory.UpdateAvatar` | controllers/auth-controller.js:176-204 | rename, record update, then unlink, in place and in that order in the log, as `Handlers.UpdateAvatar`; keeps the invariant |
| `Directory.AccountLifecycle` | controllers/auth-controller.js:19-174 | sign up (201), sign in before verifying (401 `"Email is not verified"`), verify (200), sign in (200 with the token), change to pro (200 with the whole updated record, subscription pro), sign out (204), then a change with the signed-out token (404) |

## Left out

- JSON Web Token signing, its secret and the 23-hour expiry are left out. The issued token is a parameter, required distinct from every stored session token.
- bcrypt's salting and cost factor are left out. A digest is a symbolic term, and `Matches` holds exactly for the password it was made from. This is an idealisation: bcrypt reads only the first 72 bytes of a password, so two passwords sharing a 72-byte prefix always match the same digest, and real hash collisions are ignored as well.
- nanoid's randomness is left out. The verification token is a parameter, required distinct from every pending token.
- How `gravatar.url` computes its URL is left out. The URL is an opaque string parameter.
- `sendEmail` and the HTML of the verification link are left out. A successful send is a `Mailed(to, token)` log entry. A failed send is a thrown `MailFailed`, and how the error middleware turns it into a status is not modelled.
- `fs.rename` is reduced to a success flag plus the new file name. How `path.join` and `path.resolve` normalise paths is left out. A file is named by its path relative to the public directory, so unlinking a gravatar URL fails as a missing file.
- Express plumbing is left out: `ctrlWrapper`, `res.status().json()` (a 204 answer drops its body on the wire), and the status code given to a thrown library exception.
- The authentication middleware that loads `req.user` is not part of this model. Its guarantee (a non-empty session token) is the precondition `Authenticated`. `req.user` is a snapshot that the store need not still agree with, which is how the 404 paths arise.
- Request-body validation (`decorators/validateBody.js` with a schema that is not shown) is the precondition `WellFormed` on the signup body. `User.create({...req.body, ...})` copies every field of the body into the record. The model's body carries only email, password and subscription, so it assumes that the schema rejects any other field, such as `verify` or `token`.
- Mongo's query engine, any unique index on email and concurrent requests are left out. The store is a sequential map, and a lookup on a unique field picks the single holder.
- Two sign-ins of the same user within one second can get identical JWTs. The freshness precondition on the issued token excludes this.
