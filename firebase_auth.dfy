// Firebase sign-in: authentication/firebase_auth.py (token-to-dict mapping
// and get-or-create account linking) and the FirebaseOAuthLogin mutation of
// authentication/graphql/mutation.py. The Firebase SDK's verify_id_token is
// an input: its outcome arrives as a VerifyOutcome.
module FirebaseAuth {
  import opened Common
  import opened Text
  import opened Accounts

  /** The claims of a decoded ID token that the code reads; a missing claim is None. */
  datatype Claims = Claims(uid: Option<string>, email: Option<string>, emailVerified: Option<bool>,
                           name: Option<string>, picture: Option<string>, signInProvider: Option<string>)

  datatype VerifyOutcome = Verified(claims: Claims) | ExpiredToken | RevokedToken | InvalidToken | OtherFailure(detail: string)

  /** The user_data dict verify_firebase_token builds. */
  datatype UserData = UserData(uid: Option<string>, email: Option<string>, emailVerified: bool,
                               name: Option<string>, picture: Option<string>, provider: Option<string>)

  datatype TokenResult = TokenOk(data: UserData) | TokenRefused(message: string)

  const ExpiredMessage := "Token has expired. Please sign in again."
  const RevokedMessage := "Token has been revoked. Please sign in again."
  const InvalidMessage := "Invalid token. Please sign in again."

  /** verify_firebase_token: a decoded token becomes user_data, each failure a fixed message. */
  function VerifyFirebaseToken(o: VerifyOutcome): (r: TokenResult)
    ensures r.TokenOk? <==> o.Verified?
    ensures o.Verified? ==> r.data.uid == o.claims.uid && r.data.email == o.claims.email &&
                            r.data.name == o.claims.name && r.data.picture == o.claims.picture &&
                            r.data.provider == o.claims.signInProvider
    ensures o.Verified? ==> (r.data.emailVerified <==> o.claims.emailVerified == Some(true))
    ensures o.ExpiredToken? ==> r.message == ExpiredMessage
    ensures o.RevokedToken? ==> r.message == RevokedMessage
    ensures o.InvalidToken? ==> r.message == InvalidMessage
    ensures o.OtherFailure? ==> r.message == "Authentication error: " + o.detail
  {
    match o
    case Verified(c) =>
      TokenOk(UserData(c.uid, c.email, c.emailVerified == Some(true), c.name, c.picture, c.signInProvider))
    case ExpiredToken => TokenRefused(ExpiredMessage)
    case RevokedToken => TokenRefused(RevokedMessage)
    case InvalidToken => TokenRefused(InvalidMessage)
    case OtherFailure(d) => TokenRefused("Authentication error: " + d)
  }

  /** str.split(" ", 1) for a string: the text before the first space and the remainder, or the whole text and "". */
  function SplitOnFirstSpace(s: string): (r: (string, string))
    ensures ' ' !in r.0
    ensures ' ' in s ==> r.0 + " " + r.1 == s
    ensures ' ' !in s ==> r == (s, "")
  {
    var i := IndexOf(s, ' ');
    if i < 0 then (s, "")
    else
      assert s[..i] + " " + s[i + 1..] == s by {
        assert s == s[..i] + [s[i]] + s[i + 1..];
      }
      (s[..i], s[i + 1..])
  }

  /**
   * As written, `user_data.get("name", "")` returns the stored None for a
   * token without a name (the key is always present), and `.split` on None
   * raises. None here stands for that AttributeError.
   */
  function NamePartsAsWritten(name: Option<string>): (r: Option<(string, string)>)
    ensures r.None? <==> name.None?
  {
    match name
    case None => None
    case Some(n) => Some(SplitOnFirstSpace(n))
  }

  lemma NamelessTokenCrashesAsWritten()
    ensures NamePartsAsWritten(None).None?
  {
  }

  /** The evident intent: a missing name behaves like the "" default and yields empty names. */
  function NameParts(name: Option<string>): (r: (string, string))
    ensures name.None? ==> r == ("", "")
    ensures name.Some? ==> Some(r) == NamePartsAsWritten(name)
  {
    match name
    case None => ("", "")
    case Some(n) => SplitOnFirstSpace(n)
  }

  /** An empty display name gives an empty first name: the "User" fallback is never reached. */
  lemma EmptyNameGivesEmptyFirstName()
    ensures NameParts(Some("")) == ("", "")
  {
  }

  function NewUserFieldsFor(data: UserData, first: string, last: string): NewUserFields
    requires data.uid.Some? && data.provider.Some?
  {
    NewUserFields(first, last, data.emailVerified, true, data.provider.value, data.uid)
  }

  /**
   * As written, the new-account branch passes is_active=True to
   * create_user, which overrides it with False.
   */
  function NewFirebaseUserAsWritten(email: Email, data: UserData, first: string, last: string): (u: User)
    requires email != [] && data.uid.Some? && data.provider.Some?
    ensures !u.isActive && u.emailVerified == data.emailVerified
  {
    CreateUser(email, None, NewUserFieldsFor(data, first, last)).user
  }

  /** A first sign-in with a verified Google address leaves a verified but inactive account. */
  lemma VerifiedFirebaseUserLeftInactive(email: Email, data: UserData, first: string, last: string)
    requires email != [] && data.uid.Some? && data.provider.Some? && data.emailVerified
    ensures var u := NewFirebaseUserAsWritten(email, data, first, last); u.emailVerified && !u.isActive
  {
  }

  /** The evident intent: the account is created active, as the is_active=True argument asks. */
  function NewFirebaseUser(email: Email, data: UserData, first: string, last: string): (u: User)
    requires email != [] && data.uid.Some? && data.provider.Some?
    ensures u.isActive
    ensures u == NewFirebaseUserAsWritten(email, data, first, last).(isActive := true)
    ensures u.email == NormalizeEmail(email) && u.firebaseUid == data.uid && u.password.None?
  {
    NewFirebaseUserAsWritten(email, data, first, last).(isActive := true)
  }

  datatype LinkOutcome =
    | Linked(user: Email, created: bool)
    | MissingClaim(message: string)   // the ValueError raised before any lookup
    | SaveFailed                      // a database error when saving the row

  predicate Present(s: Option<string>)
  {
    s.Some? && s.value != []
  }

  /**
   * get_or_create_user_from_firebase, with the account created active.
   * Lookup goes by firebase_uid, then by e-mail, then a new user is made.
   */
  method GetOrCreateUser(db: Store, data: UserData) returns (r: LinkOutcome)
    requires db.Valid()
    modifies db`users, db`profiles, db`friends
    ensures db.Valid()
    ensures old(db.VerifiedAreActive()) ==> db.VerifiedAreActive()
    ensures !Present(data.email) ==> r == MissingClaim("Email is required from Firebase authentication")
    ensures Present(data.email) && !Present(data.uid) ==> r == MissingClaim("Firebase UID is required from Firebase authentication")
    ensures r.MissingClaim? ==> unchanged(db)
    ensures !Present(data.email) || !Present(data.uid) ==>
              db.users == old(db.users) && db.profiles == old(db.profiles) && db.friends == old(db.friends)
    ensures Present(data.email) && Present(data.uid) ==> !r.MissingClaim? && LinkedByClaims(old(db.users), old(db.profiles), old(db.friends), db.users, db.profiles, db.friends, data, r)
  {
    if !Present(data.email) {
      return MissingClaim("Email is required from Firebase authentication");
    }
    if !Present(data.uid) {
      return MissingClaim("Firebase UID is required from Firebase authentication");
    }
    r := LinkAccount(db, data);
  }

  /** Some account already carries this firebase_uid. */
  predicate UidHeld(users: map<Email, User>, uid: Option<string>)
  {
    exists e :: e in users && users[e].firebaseUid == uid
  }

  /**
   * What the lookup after the claim checks promises, branch by branch.
   * Every outcome: a failed save changes no user or friend row, and no
   * profile except the picture committed before it
   * (ProfilesAfterFailedLink); a linked account carries the token's uid; a
   * verified token leaves the account verified and active.
   * By uid: the account holding the uid is returned, its profile untouched.
   * By e-mail: the save fails exactly when the provider is missing or a
   * picture meets a missing profile; otherwise that account is linked.
   * Otherwise: the save fails exactly when the provider is missing or the
   * normalised address is taken; otherwise exactly one active account is
   * created, with the picture on its new profile and an empty friend set.
   */
  ghost predicate LinkedByClaims(users: map<Email, User>, profiles: map<Email, Profile>, friends: map<Email, set<Email>>,
                                 users': map<Email, User>, profiles': map<Email, Profile>, friends': map<Email, set<Email>>,
                                 data: UserData, r: LinkOutcome)
    requires Present(data.email) && Present(data.uid)
  {
    var email := data.email.value;
    (r.Linked? || r.SaveFailed?) &&
    (r.SaveFailed? ==> users' == users && profiles' == ProfilesAfterFailedLink(users, profiles, data) && friends' == friends) &&
    (r.Linked? ==> r.user in users' && users'[r.user].firebaseUid == data.uid) &&
    (r.Linked? && !r.created ==> users'.Keys == users.Keys && friends' == friends) &&
    (r.Linked? && r.created ==> r.user !in users && users'.Keys == users.Keys + {r.user}) &&
    ((forall e :: e in users && users[e].emailVerified ==> users[e].isActive) && r.Linked? && data.emailVerified ==>
       users'[r.user].emailVerified && users'[r.user].isActive) &&
    (UidHeld(users, data.uid) ==>
       r.Linked? && !r.created && r.user in users && users[r.user].firebaseUid == data.uid && profiles' == profiles) &&
    (!UidHeld(users, data.uid) && email in users ==>
       (r.SaveFailed? <==> data.provider.None? || (Present(data.picture) && email !in profiles)) &&
       (r.Linked? ==> r == Linked(email, false) && data.provider.Some? &&
                      users' == users[email := LinkedUser(users[email], data)] &&
                      profiles' == if Present(data.picture) then ImageFilled(profiles, email, data.picture) else profiles)) &&
    (!UidHeld(users, data.uid) && email !in users ==>
       (r.SaveFailed? <==> data.provider.None? || NormalizeEmail(email) in users) &&
       (r.Linked? ==> data.provider.Some? && r.created && r.user == NormalizeEmail(email) &&
                      users' == users[r.user := FirebaseRow(email, data)] && users'[r.user].isActive &&
                      profiles' == profiles[r.user := FirebaseProfile(data)] && friends' == friends[r.user := {}]))
  }

  /** Lookup by firebase_uid, then by e-mail, then a new account. */
  method LinkAccount(db: Store, data: UserData) returns (r: LinkOutcome)
    requires db.Valid() && Present(data.email) && Present(data.uid)
    modifies db`users, db`profiles, db`friends
    ensures db.Valid()
    ensures old(db.VerifiedAreActive()) ==> db.VerifiedAreActive()
    ensures !r.MissingClaim?
    ensures LinkedByClaims(old(db.users), old(db.profiles), old(db.friends), db.users, db.profiles, db.friends, data, r)
  {
    var email, uid := data.email.value, data.uid.value;
    if UidHeld(db.users, Some(uid)) {
      r := LinkKnownUid(db, data);
      return;
    }
    if email in db.users {
      r := LinkExistingUser(db, email, data);
      return;
    }
    r := CreateFirebaseUser(db, email, data);
  }

  /** User.objects.get(firebase_uid=...) found the account. */
  method LinkKnownUid(db: Store, data: UserData) returns (r: LinkOutcome)
    requires db.Valid() && Present(data.email) && Present(data.uid) && UidHeld(db.users, data.uid)
    modifies db`users
    ensures db.Valid()
    ensures old(db.VerifiedAreActive()) ==> db.VerifiedAreActive()
    ensures !r.MissingClaim?
    ensures LinkedByClaims(old(db.users), db.profiles, db.friends, db.users, db.profiles, db.friends, data, r)
  {
    var e :| e in db.users && db.users[e].firebaseUid == data.uid;
    UpgradeLinkedUser(db, e, data);
    r := Linked(e, false);
  }

  /** The account already carries this firebase_uid: it is only upgraded to verified and active when the token is verified and it was not. */
  method UpgradeLinkedUser(db: Store, e: Email, data: UserData)
    requires db.Valid() && e in db.users && db.users[e].firebaseUid == data.uid
    modifies db`users
    ensures db.Valid()
    ensures old(db.VerifiedAreActive()) ==> db.VerifiedAreActive()
    ensures var u := old(db.users[e]);
            db.users == if !u.emailVerified && data.emailVerified then old(db.users)[e := u.(emailVerified := true, isActive := true)] else old(db.users)
  {
    var u := db.users[e];
    if !u.emailVerified && data.emailVerified {
      db.users := db.users[e := u.(emailVerified := true, isActive := true)];
    }
  }

  /** The linked row: uid and provider from the token, verified and active when the token is verified. */
  function LinkedUser(u: User, data: UserData): User
    requires data.provider.Some?
  {
    u.(firebaseUid := data.uid, authProvider := data.provider.value,
       emailVerified := u.emailVerified || data.emailVerified,
       isActive := u.isActive || data.emailVerified)
  }

  /**
   * An account with this e-mail but no Firebase link: the uid and provider
   * are linked, a verified token verifies and activates it, and the token's
   * picture fills an empty profile image.
   */
  method LinkExistingUser(db: Store, email: Email, data: UserData) returns (r: LinkOutcome)
    requires db.Valid() && email in db.users && Present(data.uid) && !UidHeld(db.users, data.uid)
    modifies db`users, db`profiles
    ensures db.Valid()
    ensures old(db.VerifiedAreActive()) ==> db.VerifiedAreActive()
    ensures r.SaveFailed? <==> data.provider.None? || (Present(data.picture) && email !in old(db.profiles))
    ensures r.SaveFailed? ==> db.users == old(db.users)
    ensures r.SaveFailed? ==> db.profiles == if data.provider.None? && Present(data.picture) && email in old(db.profiles)
                                             then ImageFilled(old(db.profiles), email, data.picture)
                                             else old(db.profiles)
    ensures r.Linked? || r.SaveFailed?
    ensures r.Linked? ==> (r == Linked(email, false) && data.provider.Some? &&
              db.users == old(db.users)[email := LinkedUser(old(db.users[email]), data)])
    ensures r.Linked? ==> db.profiles == if Present(data.picture) then ImageFilled(old(db.profiles), email, data.picture) else old(db.profiles)
    ensures Present(data.email) && email == data.email.value ==> LinkedByClaims(old(db.users), old(db.profiles), db.friends, db.users, db.profiles, db.friends, data, r)
  {
    if Present(data.picture) && email !in db.profiles {
      // user.profile raises before anything is saved
      return SaveFailed;
    }
    if Present(data.picture) {
      // the profile is saved on its own, before the user row
      FillProfileImage(db, email, data.picture);
    }
    if data.provider.None? {
      // user.save() refuses the NULL auth_provider; the profile stays saved
      return SaveFailed;
    }
    var u := LinkedUser(db.users[email], data);
    db.SetUser(u);
    r := Linked(email, false);
  }

  /** The profiles once the token's picture has filled the profile image of `email`, when it had none. */
  function ImageFilled(profiles: map<Email, Profile>, email: Email, picture: Option<string>): (m: map<Email, Profile>)
    requires email in profiles
    ensures m.Keys == profiles.Keys
    ensures forall e :: e in profiles && e != email ==> m[e] == profiles[e]
    ensures Present(profiles[email].profileImageUrl) ==> m == profiles
    ensures !Present(profiles[email].profileImageUrl) ==> m[email].profileImageUrl == picture
  {
    if !Present(profiles[email].profileImageUrl)
    then profiles[email := profiles[email].(profileImageUrl := picture)]
    else profiles
  }

  /**
   * The profiles after a link whose user row could not be saved: only an
   * e-mail account reached with no provider had its picture committed first.
   */
  ghost function ProfilesAfterFailedLink(users: map<Email, User>, profiles: map<Email, Profile>, data: UserData): map<Email, Profile>
  {
    if data.provider.None? && Present(data.email) && data.email.value in users && data.email.value in profiles &&
       Present(data.picture) && !UidHeld(users, data.uid)
    then ImageFilled(profiles, data.email.value, data.picture)
    else profiles
  }

  /** The token's picture becomes the profile image only when the profile has none. */
  method FillProfileImage(db: Store, email: Email, picture: Option<string>)
    requires db.Valid() && email in db.profiles
    modifies db`profiles
    ensures db.Valid()
    ensures db.profiles == ImageFilled(old(db.profiles), email, picture)
  {
    var p := db.profiles[email];
    if !Present(p.profileImageUrl) {
      db.SetProfile(email, p.(profileImageUrl := picture));
    }
  }

  /** The row made for a new Firebase account, named from the token's display name. */
  function FirebaseRow(email: Email, data: UserData): (u: User)
    requires email != [] && data.uid.Some? && data.provider.Some?
    ensures u.email == NormalizeEmail(email) && u.firebaseUid == data.uid && u.isActive
  {
    var (first, last) := NameParts(data.name);
    NewFirebaseUser(email, data, first, last)
  }

  /** The profile of a new Firebase account: blank, with the token's picture when it has one. */
  function FirebaseProfile(data: UserData): Profile
  {
    BlankProfile.(profileImageUrl := if Present(data.picture) then data.picture else None)
  }

  /** No account matches: a new one is created from the token, with its Profile and Social rows, and the picture as profile image. */
  method CreateFirebaseUser(db: Store, email: Email, data: UserData) returns (r: LinkOutcome)
    requires db.Valid() && email != [] && email !in db.users && Present(data.uid) && !UidHeld(db.users, data.uid)
    modifies db`users, db`profiles, db`friends
    ensures db.Valid()
    ensures old(db.VerifiedAreActive()) ==> db.VerifiedAreActive()
    ensures r.SaveFailed? <==> data.provider.None? || NormalizeEmail(email) in old(db.users)
    ensures r.SaveFailed? ==> db.users == old(db.users) && db.profiles == old(db.profiles) && db.friends == old(db.friends)
    ensures r.Linked? || r.SaveFailed?
    ensures r.Linked? ==> data.provider.Some? && r.created && r.user == NormalizeEmail(email)
    ensures r.Linked? ==> db.users == old(db.users)[r.user := FirebaseRow(email, data)] && db.friends == old(db.friends)[r.user := {}]
    ensures r.Linked? ==> db.profiles == old(db.profiles)[r.user := FirebaseProfile(data)]
    ensures Present(data.email) && email == data.email.value ==> LinkedByClaims(old(db.users), old(db.profiles), old(db.friends), db.users, db.profiles, db.friends, data, r)
  {
    if data.provider.None? || NormalizeEmail(email) in db.users {
      return SaveFailed;
    }
    var u := FirebaseRow(email, data);
    SaveFirebaseRows(db, u, data);
    return Linked(u.email, true);
  }

  /** Saving the new account fires the Profile and Social receivers; the picture then goes on the profile. */
  method SaveFirebaseRows(db: Store, u: User, data: UserData)
    requires db.Valid() && u.email !in db.users && u.firebaseUid.Some?
    requires forall e :: e in db.users ==> db.users[e].firebaseUid != u.firebaseUid
    modifies db`users, db`profiles, db`friends
    ensures db.Valid()
    ensures old(db.VerifiedAreActive()) && u.isActive ==> db.VerifiedAreActive()
    ensures db.users == old(db.users)[u.email := u] && db.friends == old(db.friends)[u.email := {}]
    ensures db.profiles == old(db.profiles)[u.email := FirebaseProfile(data)]
  {
    db.InsertNewUser(u);
    AttachPicture(db, u.email, data);
    UpdatedTwice(old(db.profiles), u.email, BlankProfile, FirebaseProfile(data));
  }

  /** The token's picture, when it has one, goes on the blank profile just created. */
  method AttachPicture(db: Store, e: Email, data: UserData)
    requires db.Valid() && e in db.users && e in db.profiles && db.profiles[e] == BlankProfile
    modifies db`profiles
    ensures db.Valid()
    ensures db.profiles == old(db.profiles)[e := FirebaseProfile(data)]
  {
    if Present(data.picture) {
      db.SetProfile(e, FirebaseProfile(data));
    } else {
      assert FirebaseProfile(data) == BlankProfile;
      assert db.profiles[e := BlankProfile] == db.profiles;
    }
  }

  datatype LoginReply = LoginReply(success: bool, message: string, tokens: bool, user: Option<Email>, isNewUser: bool)

  /** The reply to the outcome of the link: its message for a refusal, the error text for a failed save, tokens for a linked account. */
  function LinkReply(r: LinkOutcome, detail: string): (reply: LoginReply)
    ensures reply.success <==> r.Linked?
    ensures reply.tokens <==> r.Linked?
    ensures r.Linked? ==> reply.user == Some(r.user) && reply.isNewUser == r.created
    ensures r.MissingClaim? ==> reply == LoginReply(false, r.message, false, None, false)
    ensures r.SaveFailed? ==> reply == LoginReply(false, "Authentication error: " + detail, false, None, false)
    ensures reply.isNewUser ==> reply.message == "Account created and authenticated successfully."
  {
    match r
    case MissingClaim(m) => LoginReply(false, m, false, None, false)
    case SaveFailed => LoginReply(false, "Authentication error: " + detail, false, None, false)
    case Linked(e, created) =>
      LoginReply(true, if created then "Account created and authenticated successfully." else "Authentication successful.",
                 true, Some(e), created)
  }

  /**
   * FirebaseOAuthLogin: a refused token or a failed link returns no tokens;
   * a linked account gets tokens. `detail` stands for the database error's
   * text in the reply to a failed save.
   */
  method FirebaseOAuthLogin(db: Store, token: VerifyOutcome, detail: string) returns (reply: LoginReply)
    requires db.Valid()
    modifies db`users, db`profiles, db`friends
    ensures db.Valid()
    ensures old(db.VerifiedAreActive()) ==> db.VerifiedAreActive()
    ensures !token.Verified? || !Present(token.claims.email) || !Present(token.claims.uid) ==>
              db.users == old(db.users) && db.profiles == old(db.profiles) && db.friends == old(db.friends)
    ensures !token.Verified? ==> reply == LoginReply(false, VerifyFirebaseToken(token).message, false, None, false)
    ensures reply.tokens <==> reply.success
    ensures reply.success ==> reply.user.Some? && reply.user.value in db.users
    ensures reply.isNewUser ==> reply.success && reply.message == "Account created and authenticated successfully."
    ensures token.Verified? && !Present(token.claims.email) ==>
              reply == LoginReply(false, "Email is required from Firebase authentication", false, None, false)
    ensures token.Verified? && Present(token.claims.email) && !Present(token.claims.uid) ==>
              reply == LoginReply(false, "Firebase UID is required from Firebase authentication", false, None, false)
    ensures token.Verified? && Present(token.claims.email) && Present(token.claims.uid) ==>
              exists r: LinkOutcome :: r.Linked? == reply.success && (r.Linked? ==> reply.user == Some(r.user) && reply.isNewUser == r.created) &&
                LinkedByClaims(old(db.users), old(db.profiles), old(db.friends), db.users, db.profiles, db.friends, VerifyFirebaseToken(token).data, r)
    ensures token.Verified? && Present(token.claims.email) && Present(token.claims.uid) && !reply.success ==>
              reply == LoginReply(false, "Authentication error: " + detail, false, None, false)
    ensures reply.success ==> db.users[reply.user.value].firebaseUid == VerifyFirebaseToken(token).data.uid
  {
    var checked := VerifyFirebaseToken(token);
    if checked.TokenRefused? {
      return LoginReply(false, checked.message, false, None, false);
    }
    var r := GetOrCreateUser(db, checked.data);
    reply := LinkReply(r, detail);
  }
}
