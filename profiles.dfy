// The profile resolvers. The same operations exist in several modules of
// the repository, with differences that matter:
//  - account/graphql/mutations.py and account/graphql/profile_mutations.py
//    change only the fields sent with a non-null value, and always stamp a
//    location update with the time;
//  - user/graphql/mutations.py and user/graphql/profile_schema.py assign
//    every key the client sent, so a null clears the field;
//  - user/graphql/profile_schema.py and user/schemas/profile_schema.py
//    update the location only in part and never stamp it.
// A caller without a Profile row makes `user.profile` raise; each
// resolver's handling of that is modelled.
module Profiles {
  import opened Common
  import opened Accounts

  /** The text Django gives the exception raised by `user.profile` when the row is missing. */
  const NoProfileText := "User has no profile."

  datatype ProfileReply = ProfileReply(success: bool, message: string, profile: Option<Profile>)

  function Failed(message: string): ProfileReply
  {
    ProfileReply(false, message, None)
  }

  /** Store a changed profile for a user who has one. */
  method SaveProfile(db: Store, user: Email, p: Profile)
    requires db.Valid() && user in db.profiles
    modifies db
    ensures db.Valid()
    ensures db.profiles == old(db.profiles)[user := p]
    ensures db.users == old(db.users) && db.friends == old(db.friends) && db.requests == old(db.requests)
    ensures db.links == old(db.links) && db.favorites == old(db.favorites)
  {
    db.profiles := db.profiles[user := p];
  }

  // ---------------------------------------------------------------------
  // UpdateProfile, skipping nulls (account app)

  datatype ProfileEdit = ProfileEdit(
    bio: Option<string>,
    address: Option<string>,
    phoneNumber: Option<string>,
    profession: Option<string>,
    gender: Option<string>,
    dateOfBirth: Option<int>)

  function Keep<T>(o: Option<T>, old_: Option<T>): Option<T>
  {
    if o.Some? then o else old_
  }

  /** The profile after the account app's UpdateProfile: each non-null input replaces its field. */
  function Edited(p: Profile, e: ProfileEdit): Profile
  {
    p.(bio := Keep(e.bio, p.bio), address := Keep(e.address, p.address),
       phoneNumber := Keep(e.phoneNumber, p.phoneNumber), profession := Keep(e.profession, p.profession),
       gender := Keep(e.gender, p.gender), dateOfBirth := Keep(e.dateOfBirth, p.dateOfBirth))
  }

  /**
   * A null input never clears a field, the location, visibility and image
   * are never touched, and sending the same edit twice changes nothing more.
   */
  lemma EditedSpec(p: Profile, e: ProfileEdit)
    ensures var q := Edited(p, e);
            (e.bio.None? ==> q.bio == p.bio) && (e.bio.Some? ==> q.bio == e.bio) &&
            (e.address.None? ==> q.address == p.address) && (e.phoneNumber.None? ==> q.phoneNumber == p.phoneNumber) &&
            (e.profession.None? ==> q.profession == p.profession) && (e.gender.None? ==> q.gender == p.gender) &&
            (e.dateOfBirth.None? ==> q.dateOfBirth == p.dateOfBirth) &&
            q.latitude == p.latitude && q.longitude == p.longitude && q.lastLocationUpdate == p.lastLocationUpdate &&
            q.showLocation == p.showLocation && q.profileImageUrl == p.profileImageUrl &&
            Edited(q, e) == q
  {
  }

  /** UpdateProfile of account/graphql/mutations.py and account/graphql/profile_mutations.py. */
  method UpdateProfile(db: Store, user: Email, e: ProfileEdit) returns (reply: ProfileReply)
    requires db.Valid()
    modifies db
    ensures db.Valid()
    ensures user !in old(db.profiles) ==>
              reply == Failed("Error updating profile: " + NoProfileText) && db.profiles == old(db.profiles)
    ensures user in old(db.profiles) ==>
              reply == ProfileReply(true, "Profile updated successfully.", Some(Edited(old(db.profiles)[user], e))) &&
              db.profiles == old(db.profiles)[user := Edited(old(db.profiles)[user], e)]
    ensures db.users == old(db.users) && db.friends == old(db.friends) && db.requests == old(db.requests)
    ensures db.links == old(db.links) && db.favorites == old(db.favorites)
  {
    if user !in db.profiles {
      return Failed("Error updating profile: " + NoProfileText);
    }
    var p := Edited(db.profiles[user], e);
    SaveProfile(db, user, p);
    reply := ProfileReply(true, "Profile updated successfully.", Some(p));
  }

  // ---------------------------------------------------------------------
  // Location, always stamped (account app, user/graphql/mutations.py)

  /** The profile after a located update: position and time always, visibility only when given. */
  function Located(p: Profile, lat: real, lng: real, show: Option<bool>, now: int): Profile
  {
    p.(latitude := Some(lat), longitude := Some(lng), lastLocationUpdate := Some(now),
       showLocation := if show.Some? then show.value else p.showLocation)
  }

  /** A located update touches nothing but the location fields; a later one overrides an earlier one. */
  lemma LocatedSpec(p: Profile, lat: real, lng: real, show: Option<bool>, now: int, lat2: real, lng2: real, now2: int)
    ensures var q := Located(p, lat, lng, show, now);
            q.latitude == Some(lat) && q.longitude == Some(lng) && q.lastLocationUpdate == Some(now) &&
            (show.None? ==> q.showLocation == p.showLocation) &&
            q.(latitude := p.latitude, longitude := p.longitude, lastLocationUpdate := p.lastLocationUpdate,
               showLocation := p.showLocation) == p &&
            Located(q, lat2, lng2, None, now2) == Located(p, lat2, lng2, show, now2)
  {
  }

  /** Which module's handler answers for a caller without a profile. */
  datatype LocationVariant = AccountApp | UserApp

  function NoProfileLocationMessage(v: LocationVariant): string
  {
    match v
    case AccountApp => "Error updating location: " + NoProfileText
    case UserApp => "Profile does not exist. Please create a profile first."
  }

  /**
   * UpdateLocation of account/graphql/mutations.py,
   * account/graphql/profile_mutations.py (AccountApp) and
   * user/graphql/mutations.py (UserApp).
   */
  method UpdateLocation(db: Store, user: Email, lat: real, lng: real, show: Option<bool>, now: int, v: LocationVariant)
      returns (reply: ProfileReply)
    requires db.Valid()
    modifies db
    ensures db.Valid()
    ensures user !in old(db.profiles) ==>
              reply == Failed(NoProfileLocationMessage(v)) && db.profiles == old(db.profiles)
    ensures user in old(db.profiles) ==>
              var q := Located(old(db.profiles)[user], lat, lng, show, now);
              reply == ProfileReply(true, "Location updated successfully.", Some(q)) &&
              db.profiles == old(db.profiles)[user := q]
    ensures db.users == old(db.users) && db.friends == old(db.friends) && db.requests == old(db.requests)
    ensures db.links == old(db.links) && db.favorites == old(db.favorites)
  {
    if user !in db.profiles {
      return Failed(NoProfileLocationMessage(v));
    }
    var q := Located(db.profiles[user], lat, lng, show, now);
    SaveProfile(db, user, q);
    reply := ProfileReply(true, "Location updated successfully.", Some(q));
  }

  // ---------------------------------------------------------------------
  // Location, partial and unstamped (user/graphql/profile_schema.py,
  // user/schemas/profile_schema.py)

  /**
   * The profile after the partial update: latitude and longitude together
   * when a latitude is sent, visibility when sent; last_location_update is
   * left alone.
   */
  function Moved(p: Profile, lat: Option<real>, lng: Option<real>, show: Option<bool>): Profile
  {
    var q := if lat.Some? then p.(latitude := lat, longitude := lng) else p;
    if show.Some? then q.(showLocation := show.value) else q
  }

  /** The profile is written exactly when something was sent; it never stamps the time, unlike Located. */
  lemma MovedSpec(p: Profile, lat: Option<real>, lng: Option<real>, show: Option<bool>, now: int)
    ensures lat.None? && show.None? ==> Moved(p, lat, lng, show) == p
    ensures Moved(p, lat, lng, show).lastLocationUpdate == p.lastLocationUpdate
    ensures lat.Some? && lng.Some? ==>
              Moved(p, lat, lng, show) == Located(p, lat.value, lng.value, show, now).(lastLocationUpdate := p.lastLocationUpdate)
  {
  }

  datatype MoveOutcome = MoveOutcome(reply: ProfileReply, saved: bool)

  /**
   * UpdateLocation of user/graphql/profile_schema.py: the profile is saved
   * only when latitude or visibility was sent.
   */
  method MoveProfile(db: Store, user: Email, lat: Option<real>, lng: Option<real>, show: Option<bool>)
      returns (out: MoveOutcome)
    requires db.Valid()
    modifies db
    ensures db.Valid()
    ensures user !in old(db.profiles) ==>
              out == MoveOutcome(Failed("Profile does not exist. Please create a profile first."), false) &&
              db.profiles == old(db.profiles)
    ensures user in old(db.profiles) ==>
              var q := Moved(old(db.profiles)[user], lat, lng, show);
              out.reply == ProfileReply(true, "Location updated successfully.", Some(q)) &&
              (out.saved <==> lat.Some? || show.Some?) &&
              db.profiles == old(db.profiles)[user := q]
    ensures db.users == old(db.users) && db.friends == old(db.friends) && db.requests == old(db.requests)
    ensures db.links == old(db.links) && db.favorites == old(db.favorites)
  {
    if user !in db.profiles {
      return MoveOutcome(Failed("Profile does not exist. Please create a profile first."), false);
    }
    var p := db.profiles[user];
    var updated := false;
    if lat.Some? {
      p := p.(latitude := lat, longitude := lng);
      updated := true;
    }
    if show.Some? {
      p := p.(showLocation := show.value);
      updated := true;
    }
    if updated {
      SaveProfile(db, user, p);
    }
    out := MoveOutcome(ProfileReply(true, "Location updated successfully.", Some(p)), updated);
  }

  /**
   * UpdateLocation of user/schemas/profile_schema.py: the same partial
   * update, but a caller without a profile gets no payload at all (the
   * handler falls through and returns None).
   */
  method MoveProfileOrNothing(db: Store, user: Email, lat: Option<real>, lng: Option<real>, show: Option<bool>)
      returns (out: Option<MoveOutcome>)
    requires db.Valid()
    modifies db
    ensures db.Valid()
    ensures user !in old(db.profiles) ==> out.None? && db.profiles == old(db.profiles)
    ensures user in old(db.profiles) ==>
              var q := Moved(old(db.profiles)[user], lat, lng, show);
              out.Some? && out.value.reply == ProfileReply(true, "Location updated successfully.", Some(q)) &&
              (out.value.saved <==> lat.Some? || show.Some?) &&
              db.profiles == old(db.profiles)[user := q]
    ensures db.users == old(db.users) && db.friends == old(db.friends) && db.requests == old(db.requests)
    ensures db.links == old(db.links) && db.favorites == old(db.favorites)
  {
    if user !in db.profiles {
      return None;
    }
    var o := MoveProfile(db, user, lat, lng, show);
    out := Some(o);
  }

  // ---------------------------------------------------------------------
  // CreateProfile and UpdateProfile by key assignment (user app)

  /**
   * The keys a client may send. Each is absent (None), or sent with a value
   * that may itself be null (Some(None)). `profileImageUrl` is sent only to
   * user/graphql/mutations.py; `address`, `phoneNumber` and `profession`
   * only to user/graphql/profile_schema.py.
   */
  datatype ProfileKeys = ProfileKeys(
    bio: Option<Option<string>>,
    profileImageUrl: Option<Option<string>>,
    address: Option<Option<string>>,
    phoneNumber: Option<Option<string>>,
    profession: Option<Option<string>>,
    gender: Option<Option<string>>,
    dateOfBirth: Option<Option<int>>)

  function Set<T>(k: Option<Option<T>>, old_: Option<T>): Option<T>
  {
    if k.Some? then k.value else old_
  }

  /** setattr for every key sent: its value replaces the field, null included. */
  function Assigned(p: Profile, k: ProfileKeys): Profile
  {
    p.(bio := Set(k.bio, p.bio), profileImageUrl := Set(k.profileImageUrl, p.profileImageUrl),
       address := Set(k.address, p.address), phoneNumber := Set(k.phoneNumber, p.phoneNumber),
       profession := Set(k.profession, p.profession), gender := Set(k.gender, p.gender),
       dateOfBirth := Set(k.dateOfBirth, p.dateOfBirth))
  }

  /** The keys an account-app edit amounts to: every non-null input, sent. */
  function KeysOf(e: ProfileEdit): ProfileKeys
  {
    ProfileKeys(if e.bio.Some? then Some(e.bio) else None, None,
                if e.address.Some? then Some(e.address) else None,
                if e.phoneNumber.Some? then Some(e.phoneNumber) else None,
                if e.profession.Some? then Some(e.profession) else None,
                if e.gender.Some? then Some(e.gender) else None,
                if e.dateOfBirth.Some? then Some(e.dateOfBirth) else None)
  }

  /**
   * The two update styles agree on inputs without nulls; only the key
   * assignment can clear a field, and it does whenever a null is sent.
   */
  lemma AssignedSpec(p: Profile, k: ProfileKeys, e: ProfileEdit)
    ensures Assigned(p, KeysOf(e)) == Edited(p, e)
    ensures k.bio == Some(None) ==> Assigned(p, k).bio.None?
    ensures k.gender == Some(None) ==> Assigned(p, k).gender.None?
    ensures k.bio.None? ==> Assigned(p, k).bio == p.bio
    ensures var q := Assigned(p, k);
            q.latitude == p.latitude && q.longitude == p.longitude && q.showLocation == p.showLocation &&
            q.lastLocationUpdate == p.lastLocationUpdate && Assigned(q, k) == q
  {
  }

  /** UpdateProfile of user/graphql/mutations.py and user/graphql/profile_schema.py. */
  method AssignProfile(db: Store, user: Email, k: ProfileKeys) returns (reply: ProfileReply)
    requires db.Valid()
    modifies db
    ensures db.Valid()
    ensures user !in old(db.profiles) ==> reply == Failed("Profile does not exist.") && db.profiles == old(db.profiles)
    ensures user in old(db.profiles) ==>
              reply == ProfileReply(true, "Profile updated successfully.", Some(Assigned(old(db.profiles)[user], k))) &&
              db.profiles == old(db.profiles)[user := Assigned(old(db.profiles)[user], k)]
    ensures db.users == old(db.users) && db.friends == old(db.friends) && db.requests == old(db.requests)
    ensures db.links == old(db.links) && db.favorites == old(db.favorites)
  {
    if user !in db.profiles {
      return Failed("Profile does not exist.");
    }
    var q := Assigned(db.profiles[user], k);
    SaveProfile(db, user, q);
    reply := ProfileReply(true, "Profile updated successfully.", Some(q));
  }

  /**
   * CreateProfile of user/graphql/mutations.py and
   * user/graphql/profile_schema.py: refused when the caller already has a
   * profile, otherwise a fresh row with the sent keys.
   */
  method CreateProfile(db: Store, user: Email, k: ProfileKeys) returns (reply: ProfileReply)
    requires db.Valid() && user in db.users
    modifies db
    ensures db.Valid()
    ensures user in old(db.profiles) ==>
              reply == ProfileReply(false, "Profile already exists. Use updateProfile instead.", Some(old(db.profiles)[user])) &&
              db.profiles == old(db.profiles)
    ensures user !in old(db.profiles) ==>
              reply == ProfileReply(true, "Profile created successfully.", Some(Assigned(BlankProfile, k))) &&
              db.profiles == old(db.profiles)[user := Assigned(BlankProfile, k)]
    ensures user in db.profiles
    ensures db.users == old(db.users) && db.friends == old(db.friends) && db.requests == old(db.requests)
    ensures db.links == old(db.links) && db.favorites == old(db.favorites)
  {
    if user in db.profiles {
      return ProfileReply(false, "Profile already exists. Use updateProfile instead.", Some(db.profiles[user]));
    }
    var p := Assigned(BlankProfile, k);
    db.profiles := db.profiles[user := p];
    reply := ProfileReply(true, "Profile created successfully.", Some(p));
  }

  /** A created profile is blank apart from the keys sent: no location, visible. */
  lemma CreatedProfileSpec(k: ProfileKeys)
    ensures var p := Assigned(BlankProfile, k);
            p.latitude.None? && p.longitude.None? && p.lastLocationUpdate.None? && p.showLocation &&
            (k.bio.None? ==> p.bio.None?) && (k.bio.Some? ==> p.bio == k.bio.value)
  {
  }

  // ---------------------------------------------------------------------
  // Profile image

  /** UpdateProfileImage (account/graphql/mutations.py): the URL is stored as sent. */
  method UpdateProfileImage(db: Store, user: Email, url: string) returns (reply: ProfileReply)
    requires db.Valid()
    modifies db
    ensures db.Valid()
    ensures user !in old(db.profiles) ==>
              reply == Failed("Error updating profile image: " + NoProfileText) && db.profiles == old(db.profiles)
    ensures user in old(db.profiles) ==>
              var q := old(db.profiles)[user].(profileImageUrl := Some(url));
              reply == ProfileReply(true, "Profile image updated successfully.", Some(q)) &&
              db.profiles == old(db.profiles)[user := q]
    ensures db.users == old(db.users) && db.friends == old(db.friends) && db.requests == old(db.requests)
    ensures db.links == old(db.links) && db.favorites == old(db.favorites)
  {
    if user !in db.profiles {
      return Failed("Error updating profile image: " + NoProfileText);
    }
    var q := db.profiles[user].(profileImageUrl := Some(url));
    SaveProfile(db, user, q);
    reply := ProfileReply(true, "Profile image updated successfully.", Some(q));
  }

  /** UploadProfileImage (account/graphql/profile_mutations.py): a placeholder that stores nothing yet reports success. */
  method UploadProfileImage(db: Store, user: Email, image: string) returns (reply: ProfileReply)
    requires db.Valid()
    ensures user !in db.profiles ==> reply == Failed("Error uploading image: " + NoProfileText)
    ensures user in db.profiles ==>
              reply == ProfileReply(true, "Profile image uploaded successfully.", Some(db.profiles[user]))
  {
    if user !in db.profiles {
      return Failed("Error uploading image: " + NoProfileText);
    }
    reply := ProfileReply(true, "Profile image uploaded successfully.", Some(db.profiles[user]));
  }

  predicate HasImage(p: Profile)
  {
    p.profileImageUrl.Some? && p.profileImageUrl.value != ""
  }

  /**
   * DeleteProfileImage (account/graphql/profile_mutations.py): a present,
   * non-empty image is cleared to null; otherwise nothing changes.
   */
  method DeleteProfileImage(db: Store, user: Email) returns (reply: ProfileReply)
    requires db.Valid()
    modifies db
    ensures db.Valid()
    ensures user !in old(db.profiles) ==>
              reply == Failed("Error deleting image: " + NoProfileText) && db.profiles == old(db.profiles)
    ensures user in old(db.profiles) && !HasImage(old(db.profiles)[user]) ==>
              reply == ProfileReply(false, "No profile image to delete.", Some(old(db.profiles)[user])) &&
              db.profiles == old(db.profiles)
    ensures user in old(db.profiles) && HasImage(old(db.profiles)[user]) ==>
              var q := old(db.profiles)[user].(profileImageUrl := None);
              reply == ProfileReply(true, "Profile image deleted successfully.", Some(q)) &&
              db.profiles == old(db.profiles)[user := q]
    ensures user in db.profiles ==> !HasImage(db.profiles[user])
    ensures db.users == old(db.users) && db.friends == old(db.friends) && db.requests == old(db.requests)
    ensures db.links == old(db.links) && db.favorites == old(db.favorites)
  {
    if user !in db.profiles {
      return Failed("Error deleting image: " + NoProfileText);
    }
    var p := db.profiles[user];
    if !HasImage(p) {
      return ProfileReply(false, "No profile image to delete.", Some(p));
    }
    var q := p.(profileImageUrl := None);
    SaveProfile(db, user, q);
    reply := ProfileReply(true, "Profile image deleted successfully.", Some(q));
  }

  /**
   * DeleteProfileImage (account/graphql/mutations.py): the URL is set to the
   * empty string, whether or not there was an image.
   */
  method BlankProfileImage(db: Store, user: Email) returns (reply: ProfileReply)
    requires db.Valid()
    modifies db
    ensures db.Valid()
    ensures user !in old(db.profiles) ==>
              reply == Failed("Error deleting profile image: " + NoProfileText) && db.profiles == old(db.profiles)
    ensures user in old(db.profiles) ==>
              var q := old(db.profiles)[user].(profileImageUrl := Some(""));
              reply == ProfileReply(true, "Profile image deleted successfully.", Some(q)) &&
              db.profiles == old(db.profiles)[user := q]
    ensures user in db.profiles ==> !HasImage(db.profiles[user])
    ensures db.users == old(db.users) && db.friends == old(db.friends) && db.requests == old(db.requests)
    ensures db.links == old(db.links) && db.favorites == old(db.favorites)
  {
    if user !in db.profiles {
      return Failed("Error deleting profile image: " + NoProfileText);
    }
    var q := db.profiles[user].(profileImageUrl := Some(""));
    SaveProfile(db, user, q);
    reply := ProfileReply(true, "Profile image deleted successfully.", Some(q));
  }
}
