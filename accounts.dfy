// The user-side records of user/models.py and the table that holds them.
// A user is identified by its e-mail: the column is unique and no modelled
// operation changes it, so it stands in for the UUID primary key.
module Accounts {
  import opened Common
  import opened Text

  type Email = string

  datatype User = User(
    email: Email,
    firstName: string,
    lastName: string,
    password: Option<string>,     // None: an unusable password
    emailVerified: bool,
    isActive: bool,
    mfaEnabled: bool,
    otpSecret: Option<string>,
    otpCreatedAt: Option<int>,
    authProvider: string,
    firebaseUid: Option<string>)

  datatype Profile = Profile(
    latitude: Option<real>,
    longitude: Option<real>,
    lastLocationUpdate: Option<int>,
    showLocation: bool,
    profileImageUrl: Option<string>,
    bio: Option<string>,
    address: Option<string>,
    phoneNumber: Option<string>,
    profession: Option<string>,
    gender: Option<string>,
    dateOfBirth: Option<int>)

  /** The row the post_save receiver creates: every nullable column empty, show_location true. */
  const BlankProfile := Profile(None, None, None, true, None, None, None, None, None, None, None)

  datatype RequestStatus = Pending | Accepted | Rejected

  datatype FriendRequest = FriendRequest(status: RequestStatus, createdAt: int)

  datatype SocialLink = SocialLink(owner: Email, platform: string, url: string)

  /** get_full_name: first and last name joined by a space, surrounding whitespace stripped. */
  function FullName(u: User): string
  {
    Strip(u.firstName + " " + u.lastName)
  }

  /** The full name of the user with that e-mail, empty for an unknown e-mail. */
  function DisplayName(users: map<Email, User>, e: Email): string
  {
    if e in users then FullName(users[e]) else ""
  }

  /** get_short_name */
  function ShortName(u: User): string
  {
    u.firstName
  }

  /**
   * get_full_name on names without surrounding whitespace: the two names
   * joined by one space, or the one name given when the other is empty;
   * with no last name it is the short name.
   */
  lemma FullNameJoins(u: User)
    requires Trimmed(u.firstName) && Trimmed(u.lastName)
    ensures u.lastName == [] ==> FullName(u) == ShortName(u)
    ensures u.firstName == [] ==> FullName(u) == u.lastName
    ensures u.firstName != [] && u.lastName != [] ==> FullName(u) == u.firstName + " " + u.lastName
  {
    var f, l := u.firstName, u.lastName;
    var s := f + " " + l;
    if f != [] && l != [] {
      assert s[0] == f[0] && s[|s| - 1] == l[|l| - 1];
      StripClean(s);
    } else if f != [] {
      assert s == f + [' '] && s[0] == f[0];
      LStripNoLeadingSpace(s);
      RStripDropsSpace(f, ' ');
    } else {
      assert s == [' '] + l;
      LStripDropsSpace(' ', l);
      RStripNoTrailingSpace(l);
    }
  }


  /**
   * BaseUserManager.normalize_email: an address holding an '@' is stripped
   * of surrounding whitespace and split at its last '@'; the domain is
   * lower-cased and the local part kept as typed. An address without '@'
   * is returned as it came.
   */
  function NormalizeEmail(e: Email): (r: Email)
    ensures '@' !in e ==> r == e
    ensures '@' in e ==> '@' in r && Strip(r) == r
    ensures '@' in e ==>
      var s := Strip(e);
      var at := LastIndexOf(s, '@');
      0 <= at && |r| == |s| &&
      (forall i :: 0 <= i <= at ==> r[i] == s[i]) &&
      (forall i :: at < i < |s| ==> r[i] == LowerChar(s[i]))
  {
    if '@' !in e then e
    else
      StripKeepsAt(e);
      StripEdges(e);
      var r := DomainLowered(Strip(e));
      NormalizedClean(Strip(e), r);
      r
  }

  /** The address split at its last '@' with the domain lower-cased. */
  function DomainLowered(s: string): (r: string)
    requires LastIndexOf(s, '@') >= 0
    ensures var at := LastIndexOf(s, '@');
      |r| == |s| && (forall i :: 0 <= i <= at ==> r[i] == s[i]) &&
      (forall i :: at < i < |s| ==> r[i] == LowerChar(s[i]))
    ensures LastIndexOf(r, '@') == LastIndexOf(s, '@')
  {
    var at := LastIndexOf(s, '@');
    var r := seq(|s|, i requires 0 <= i < |s| => if i <= at then s[i] else LowerChar(s[i]));
    LastIndexOfAt(r, '@', at);
    r
  }

  /** Strip removes whitespace only, so an '@' survives it and none appears. */
  lemma StripKeepsAt(e: string)
    ensures '@' in e <==> LastIndexOf(Strip(e), '@') >= 0
  {
    var s := Strip(e);
    StripIsTrimmedSlice(e);
    SliceKeepsAt(e, s, StripStart(e));
    var at := LastIndexOf(s, '@');
    if at >= 0 {
      assert s[at] in s;
    }
  }

  /** Cutting whitespace only from either end of a text keeps its '@'s. */
  lemma SliceKeepsAt(e: string, s: string, i: nat)
    requires i + |s| <= |e| && s == e[i..i + |s|]
    requires forall k :: 0 <= k < i ==> IsSpace(e[k])
    requires forall k :: i + |s| <= k < |e| ==> IsSpace(e[k])
    ensures '@' in e <==> '@' in s
  {
    if '@' in e {
      var k :| 0 <= k < |e| && e[k] == '@';
      AtNotSpace();
      assert s[k - i] == '@';
    }
  }

  lemma StripEdges(e: string)
    ensures Strip(e) != [] ==> !IsSpace(Strip(e)[0]) && !IsSpace(Strip(e)[|Strip(e)| - 1])
  {
    StripIsTrimmedSlice(e);
  }

  lemma AtNotSpace()
    ensures !IsSpace('@')
  {
  }

  /** Lower-casing keeps a non-space character non-space, so the result is already stripped. */
  lemma NormalizedClean(s: string, r: string)
    requires LastIndexOf(s, '@') >= 0 && !IsSpace(s[0]) && !IsSpace(s[|s| - 1])
    requires r == DomainLowered(s)
    ensures '@' in r && Strip(r) == r
  {
    var at := LastIndexOf(s, '@');
    assert r[at] == '@';
    LoweredTrimmed(s, r, at);
    StripClean(r);
  }

  /** Text with no whitespace at either end keeps that when its tail after `at` is lower-cased. */
  lemma LoweredTrimmed(s: string, r: string, at: nat)
    requires at < |s| == |r| && !IsSpace(s[0]) && !IsSpace(s[|s| - 1])
    requires forall i :: 0 <= i <= at ==> r[i] == s[i]
    requires forall i :: at < i < |s| ==> r[i] == LowerChar(s[i])
    ensures Trimmed(r)
  {
    var n := |s| - 1;
    assert r[0] == s[0];
    if n > at {
      LowerKeepsNonSpace(s[n]);
    }
  }

  lemma LowerKeepsNonSpace(c: char)
    requires !IsSpace(c)
    ensures !IsSpace(LowerChar(c))
  {
  }

  lemma LowerIdempotent(s: string)
    ensures Lower(Lower(s)) == Lower(s)
  {
  }

  /** Normalising a normalised address changes nothing. */
  lemma NormalizeIdempotent(e: Email)
    ensures NormalizeEmail(NormalizeEmail(e)) == NormalizeEmail(e)
  {
    if '@' in e {
      StripKeepsAt(e);
      var r := DomainLowered(Strip(e));
      assert NormalizeEmail(e) == r;
      DomainLoweredFixed(Strip(e));
      assert '@' in r && Strip(r) == r;
      assert NormalizeEmail(r) == DomainLowered(r);
    }
  }

  /** Lower-casing the domain a second time changes nothing. */
  lemma DomainLoweredFixed(s: string)
    requires LastIndexOf(s, '@') >= 0
    ensures DomainLowered(DomainLowered(s)) == DomainLowered(s)
  {
    var at := LastIndexOf(s, '@');
    var r := DomainLowered(s);
    var n := DomainLowered(r);
    assert |n| == |r| && LastIndexOf(r, '@') == at;
    forall k | 0 <= k < |r| ensures n[k] == r[k] {
      if k > at {
        assert n[k] == LowerChar(r[k]) && r[k] == LowerChar(s[k]);
      }
    }
    assert n == r;
  }

  /**
   * A valid address may end in a newline, since `$` matches before a final
   * newline; create_user stores it without that newline, so it takes the
   * key of the address without it.
   */
  lemma NewlineSharesKey(a: Email)
    requires '@' in a && NormalizeEmail(a) == a
    ensures NormalizeEmail(a + "\n") == a
  {
    var e := a + "\n";
    StripDropsNewline(a);
    assert e[..|a|] == a;
    assert '@' in e;
  }

  /** Strip removes a newline added to a stripped text. */
  lemma StripDropsNewline(a: string)
    requires a != [] && Strip(a) == a
    ensures Strip(a + "\n") == a
  {
    var e := a + "\n";
    StripEdges(a);
    assert e[0] == a[0];
    LStripNoLeadingSpace(e);
    RStripDropsSpace(a, '\n');
  }




  /** The extra fields the callers of create_user pass. */
  datatype NewUserFields = NewUserFields(
    firstName: string, lastName: string, emailVerified: bool,
    isActive: bool, authProvider: string, firebaseUid: Option<string>)

  const PasswordSignup := NewUserFields("", "", false, true, "email", None)

  datatype Created = Created(user: User) | EmailRequired

  /**
   * UserManager.create_user: an empty address raises ValueError; otherwise
   * the address is normalised, the password is set, and is_active is forced
   * to False whatever the caller passed.
   */
  function CreateUser(email: Email, password: Option<string>, f: NewUserFields): (r: Created)
    ensures r.EmailRequired? <==> email == []
    ensures r.Created? ==> r.user.email == NormalizeEmail(email) && !r.user.isActive
    ensures r.Created? ==> r.user.password == password && r.user.otpSecret.None? && r.user.otpCreatedAt.None? && !r.user.mfaEnabled
    ensures r.Created? ==> r.user.emailVerified == f.emailVerified && r.user.firebaseUid == f.firebaseUid
  {
    if email == [] then EmailRequired
    else Created(User(NormalizeEmail(email), f.firstName, f.lastName, password, f.emailVerified,
                      false, false, None, None, f.authProvider, f.firebaseUid))
  }

  /** The is_active=True a caller passes is lost: create_user always yields an inactive user. */
  lemma CreateUserIgnoresIsActive(email: Email, password: Option<string>, f: NewUserFields)
    requires email != [] && f.isActive
    ensures CreateUser(email, password, f).Created? && !CreateUser(email, password, f).user.isActive
  {
  }

  /**
   * The user table with the tables hanging off a user: the Profile and the
   * Social friend set created by the post_save receivers, friend requests
   * keyed by (from_user, to_user), social links by id, and favourites as a
   * set of (user, name, location) triples.
   */
  class Store {
    var users: map<Email, User>
    var profiles: map<Email, Profile>
    var friends: map<Email, set<Email>>
    var requests: map<(Email, Email), FriendRequest>
    var links: map<nat, SocialLink>
    var favorites: set<(Email, string, string)>

    /** The table constraints: keys agree with rows, firebase_uid is unique, every user has a Social row, and rows point at users. */
    ghost predicate Valid()
      reads this
    {
      (forall e :: e in users ==> users[e].email == e) &&
      UidsUnique(users) &&
      profiles.Keys <= users.Keys &&
      friends.Keys == users.Keys &&
      (forall e :: e in friends ==> friends[e] <= users.Keys) &&
      (forall p :: p in requests ==> p.0 in users && p.1 in users) &&
      (forall id :: id in links ==> links[id].owner in users) &&
      LinksUnique(links)
    }

    /** Every e-mail-verified user is active. */
    ghost predicate VerifiedAreActive()
      reads this
    {
      forall e :: e in users && users[e].emailVerified ==> users[e].isActive
    }

    constructor ()
      ensures Valid() && VerifiedAreActive()
      ensures users == map[] && profiles == map[] && friends == map[] && requests == map[] && links == map[] && favorites == {}
    {
      users, profiles, friends, requests, links, favorites := map[], map[], map[], map[], map[], {};
    }

    /**
     * Saving a new user fires the post_save receivers: exactly one Profile
     * and one Social (with no friends) are created alongside it.
     */
    method InsertNewUser(u: User)
      requires Valid()
      requires u.email !in users
      requires u.firebaseUid.Some? ==> forall e :: e in users ==> users[e].firebaseUid != u.firebaseUid
      modifies this`users, this`profiles, this`friends
      ensures Valid()
      ensures users == old(users)[u.email := u]
      ensures profiles == old(profiles)[u.email := BlankProfile]
      ensures friends == old(friends)[u.email := {}]
      ensures old(VerifiedAreActive()) && (u.emailVerified ==> u.isActive) ==> VerifiedAreActive()
    {
      users := users[u.email := u];
      profiles := profiles[u.email := BlankProfile];
      friends := friends[u.email := {}];
    }

    /** Saving a changed user row that keeps its e-mail and keeps, drops or newly takes a firebase_uid. */
    method SetUser(u: User)
      requires Valid() && u.email in users
      requires u.firebaseUid.None? || u.firebaseUid == users[u.email].firebaseUid ||
               forall x :: x in users ==> users[x].firebaseUid != u.firebaseUid
      modifies this`users
      ensures Valid()
      ensures users == old(users)[u.email := u]
    {
      SetUserKeepsUids(users, u.email, u);
      users := users[u.email := u];
    }

    /** Saving a user's profile row. */
    method SetProfile(e: Email, p: Profile)
      requires Valid() && e in users
      modifies this`profiles
      ensures Valid()
      ensures profiles == old(profiles)[e := p]
    {
      profiles := profiles[e := p];
    }
  }

  ghost predicate UidsUnique(users: map<Email, User>)
  {
    forall a, b :: a in users && b in users && users[a].firebaseUid.Some? && users[a].firebaseUid == users[b].firebaseUid ==> a == b
  }

  /** Replacing one row keeps firebase_uid unique when the row keeps its uid, drops it, or takes one nobody has. */
  lemma SetUserKeepsUids(users: map<Email, User>, e: Email, u: User)
    requires UidsUnique(users) && e in users
    requires u.firebaseUid.None? || u.firebaseUid == users[e].firebaseUid ||
             forall x :: x in users ==> users[x].firebaseUid != u.firebaseUid
    ensures UidsUnique(users[e := u])
  {
  }

  ghost predicate LinksUnique(links: map<nat, SocialLink>)
  {
    forall i, j :: i in links && j in links && links[i].owner == links[j].owner && links[i].platform == links[j].platform ==> i == j
  }
}
