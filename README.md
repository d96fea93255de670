# A verified model of a travel-social backend

This project models the core of a Django backend for solo travellers in Dafny, and proves properties of that model. The backend has three parts.

- **The geospatial companion engine** (`travel/`):
  - trips and their date phases;
  - compatibility scoring and match finding between trips;
  - live proximity tracking, which auto-rejects a pending match once the two travellers are more than 5 km apart;
  - location sampling against the active trip;
  - greedy clustering of concurrent travellers into expiring activity hotspots, with notifications deduplicated over two hours;
  - radius-based place suggestions;
  - the GraphQL resolvers for the trip and match lifecycle and the read-side filters.
- **The account state machines** (`user/`, `account/`, `authentication/`):
  - registration, e-mail verification, login and MFA over the account flags and the OTP pair;
  - Firebase get-or-create account linking;
  - the friend-request state machine and the friend sets;
  - social links and partial profile updates;
  - the input validators.
- **The insights pipeline** (`insights/`):
  - the normaliser for the text generator's JSON reply and the prompt's place name;
  - the insights cache, with 90-day freshness, a version counter and delete-then-recreate persistence over nine catalogue tables;
  - place naming and the uniqueness and cascade rules of the catalogue;
  - the image helpers: hex-to-Unsplash colour classification, search-query building and the best-image filter chain.

There is one Dafny module per source file or group of files. `Common`, `Text` and `Seqs` hold shared values, Python string built-ins and queryset operations.

Code that updates rows in place is modelled imperatively:
- The tables are classes. `Accounts.Store` holds users, profiles, friend sets, requests, links and favourites. `TravelModels.TravelDb` holds trips, matches, samples, suggestions and hotspots. `InsightsModels.Catalog` holds places, insights and the nine catalogue tables.
- Each has a `Valid()` invariant covering key uniqueness, referential integrity and fresh ids.
- Resolvers and services are methods with `modifies` frames that state the whole new state.
- Loops such as the clustering scan, the nearest-hotspot search, the proximity pass, the saving loops and the image filters are `while` loops.
- Every method is proved against a specification function. The properties the source promises are proved as lemmas about that function.

Pure code (validators, scores, the colour classification, query filters and the normaliser) is modelled as functions and lemmas.

Users are identified by their e-mail address. The column is unique and never changed by a modelled operation, so it stands in for the UUID primary key. A friend request is identified by its (from, to) pair, which the table keeps unique.

All great-circle distances go through one `Metric` parameter, a function from two points to a distance in kilometres. The haversine trigonometry itself is not modelled. Where a property needs it, the predicate `IsDistance` supplies non-negativity, symmetry and a zero self-distance as a hypothesis. `suggestion_engine.py` works in metres, which is 1000 times the metric.

Dates are day numbers and instants are seconds. Coordinates and scores are reals.

Thirteen behaviours are written twice, once as the source behaves and once as it evidently intends:
- the place matching, the friend lookup and the hotspot save of the hotspot detector;
- the gem scan and the famous-place scan of the suggestion engine;
- the Firebase account creation and name split;
- the trip creation and the trip update, whose `hasattr` defaults never apply;
- the UpdateLocation reply text, the hotspot search box, the friend-request guard, and the normaliser's dropped keys.

Each pair is listed under "## Findings". The rest of the model uses the corrected definition.

A matching run that would create a second row for the same (trip, matched user) pair ends in the unique-constraint error. This is modelled as the `DuplicateMatch` outcome of `Matching.FindTripMatches`, not corrected.

## Model

| member | source | states |
|---|---|---|
| Otp.OtpFromDraws | user/utils.py:13-16 | the code has one character per draw, every character is a digit, and each digit is the value drawn |
| Otp.ValidOtp | user/utils.py:41-54 | valid exactly when a code and its timestamp are stored, the input equals the code and the clock is not past creation plus the window; a missing code and a wrong code each report their own message; "OTP is valid." only when valid |
| Otp.WrongCodeBeforeExpiry | user/utils.py:47-52 | a wrong code is reported as invalid rather than expired, even after the window has passed |
| Otp.ValidityWindow | user/utils.py:50-52 | the right code is valid at every instant from creation to the end of the window, inclusive, and invalid one second later |
| Otp.EmailFromPayload | user/utils.py:57-60 | a non-empty address comes back exactly when one of `email`, `email_id`, `sub` is non-empty, and a non-empty `email` wins |
| Otp.PayloadPrefersEmailId | user/utils.py:60 | with an empty `email`, a non-empty `email_id` beats `sub` |
| Accounts.FullNameJoins | user/models.py:80-86 | for first and last names without surrounding whitespace, the full name is the two joined by one space, or the one that is given when the other is empty; with no last name it equals the short name (the first name) |
| Accounts.NormalizeEmail | user/models.py:21 | (Django's normalize_email, called there) an address without `@` is kept exactly as given; an address with one is stripped of surrounding whitespace, keeps everything up to its last `@` as typed and has every domain character lower-cased, so the result has no surrounding whitespace |
| Accounts.NormalizeIdempotent | user/models.py:21 | normalising a normalised address changes nothing |
| Accounts.NewlineSharesKey | user/models.py:21 | an address that is its own normal form and the same address followed by a newline normalise to the same key |
| Accounts.LowerIdempotent | user/models.py:21 | lower-casing twice equals lower-casing once |
| Accounts.CreateUser | user/models.py:18-26 | an empty address is refused, and only that; otherwise the user has the normalised address and the given password, is inactive, and has no OTP and no MFA |
| Accounts.CreateUserIgnoresIsActive | user/models.py:22-24 | an `is_active=True` passed by the caller is overwritten: the created user is inactive |
| Accounts.Store.constructor | user/models.py:36-250 | an empty database satisfies the store's invariants |
| Accounts.Store.InsertNewUser | user/models.py:128-151 | saving a new user adds exactly that user, a blank profile and an empty friend set, keeps the invariants, and keeps "verified implies active" when the new user satisfies it |
| Accounts.Store.SetUser | user/models.py:55-61 | saving a changed user row replaces exactly that row and keeps `firebase_uid` unique |
| Accounts.Store.SetProfile | user/models.py:89-114 | saving a profile row replaces exactly that profile |
| Accounts.SetUserKeepsUids | user/models.py:55-61 | replacing one row keeps `firebase_uid` unique when the row keeps its uid, drops it, or takes one nobody has |
| AuthMutations.RegistrationError | authentication/graphql/mutation.py:44-81 | no error exactly when the e-mail, first name, last name and password all validate; the e-mail's message wins over the first name's, and every error message is non-empty |
| AuthMutations.RegisterUser | authentication/graphql/mutation.py:37-129 | a user is created exactly when validation passes and neither the address nor its normalised form is taken; the row is stored under the normalised address and is create_user's inactive user with the OTP, plus a blank profile and no friends; validation errors and a known address change nothing and give their messages; an address whose normalised form is taken (a trailing newline) changes nothing and answers with only the error text of the failed save; success follows the e-mail outcome; the store's invariants and "verified implies active" are kept |
| AuthMutations.RequestEmailVerificationOtp | authentication/graphql/mutation.py:142-178 | an OTP is issued exactly for a known, unverified user past the cooldown, replacing only that user's OTP pair; otherwise nothing changes; unknown and already-verified users get their own messages |
| AuthMutations.VerifyEmailOtp | authentication/graphql/mutation.py:193-231 | a valid OTP for an unverified user verifies and activates it and clears its OTP pair, and only then are tokens issued; anything else changes nothing |
| AuthMutations.LoginUser | authentication/graphql/mutation.py:247-328 | an unknown address and a wrong password both give "Invalid credentials."; an inactive account is refused before the password is checked; an admitted user with MFA gets a new OTP pair and no tokens; tokens only for an admitted user without MFA, with nothing changed |
| AuthMutations.VerifyMfaOtp | authentication/graphql/mutation.py:345-411 | tokens exactly when the account is active, has MFA on and the OTP is valid, and then only its OTP pair is cleared; otherwise nothing changes |
| AuthMutations.RequestMfaEnableOtp | authentication/graphql/mutation.py:421-459 | an anonymous caller is refused; an OTP is issued exactly for a verified caller without MFA past the cooldown; otherwise nothing changes |
| AuthMutations.EnableMfa | authentication/graphql/mutation.py:471-493 | MFA is turned on, and the OTP pair cleared, exactly when it was off and the OTP is valid; otherwise nothing changes |
| AuthMutations.DisableMfa | authentication/graphql/mutation.py:502-517 | MFA is turned off, and the OTP pair cleared, exactly when it was on; otherwise nothing changes |
| AuthMutations.RequestMfaOtp | user/graphql/user_schema.py:352-371 | an OTP is issued, with no cooldown, exactly for a verified caller with MFA on; otherwise nothing changes |
| Validators.SplitIsCanonical | user/validators.py:23-25 | any split of an address that matches the e-mail pattern cuts at the first `@` and the last `.` of the domain |
| Validators.EmailShapeDecidesBody | user/validators.py:23-25 | the character-class shape of the e-mail pattern holds exactly when its local part, domain and TLD split exists |
| Validators.EmailPatternDecided | user/validators.py:23-25 | the computable e-mail matcher agrees with the pattern's definition on every string |
| Validators.ValidateEmail | user/validators.py:9-31 | valid exactly when the pattern matches and the address has at most 254 characters; empty input reports "Email is required.", a pattern mismatch "Invalid email format." |
| Validators.ValidatePassword | user/validators.py:34-72 | valid exactly when the password is 8 to 128 characters long and has an upper-case letter, a lower-case letter and a digit; a failure always carries a message |
| Validators.PasswordReportsFirstFailure | user/validators.py:53-60 | a password of legal length without an upper-case letter reports the upper-case message, whatever else it lacks |
| Validators.ValidateName | user/validators.py:75-99 | valid exactly when the name has 2 to 50 characters, all letters, spaces, hyphens or apostrophes; every failure message starts with the field's name |
| Validators.Cleaned | user/validators.py:116 | the cleaned phone number is no longer than the input and holds no whitespace, hyphen or parenthesis |
| Validators.ValidatePhoneNumber | user/validators.py:102-130 | valid exactly when the phone is empty, or cleaned it is 10 to 15 characters of digits with an optional leading `+` |
| Validators.SchemeLength | user/validators.py:147 | the recognised scheme prefix is empty, `http://` or `https://` and fits in the string |
| Validators.ValidateUrl | user/validators.py:133-155 | valid exactly when the URL pattern matches (scheme case-insensitive) and the URL has at most 500 characters; a valid URL starts with a scheme |
| Validators.SanitizeDroppingNul | user/validators.py:158-177 | empty input gives ""; otherwise the result is the input stripped of surrounding whitespace with every NUL removed, so it holds no NUL and is no longer than the input |
| Validators.SanitizeStripping | authentication/validators.py:98-110 | the result is the input stripped of surrounding whitespace (empty input gives ""), so it is no longer than the input |
| Validators.SanitizeStrippingFixedPoints | authentication/validators.py:98-110 | the strip-only sanitizer leaves a text unchanged exactly when the text has no whitespace at either end, whatever NULs it holds |
| Validators.SanitizeStrippingIdempotent | authentication/validators.py:98-110 | sanitizing twice equals sanitizing once |
| Validators.SanitizeDroppingNulFixedPoints | user/validators.py:158-177 | the NUL-dropping sanitizer leaves a text unchanged exactly when the text holds no NUL and has no whitespace at either end |
| Validators.SanitizeDroppingNulNotIdempotent | user/validators.py:171-175 | the user sanitizer strips before it drops NULs, so `"\0 a"` gives `" a"`, which a second pass turns into `"a"`: it is not idempotent |
| Profiles.SaveProfile | account/graphql/mutations.py:57 | saving a profile replaces exactly that profile and no other table |
| Profiles.EditedSpec | account/graphql/mutations.py:44-55 | a null field is never written, a sent field is stored, location, visibility and image are untouched, and the same edit applied twice changes nothing more |
| Profiles.UpdateProfile | account/graphql/mutations.py:38-66 | without a profile the error text comes back and nothing changes; otherwise the profile becomes the edited one and is returned; other tables are unchanged |
| Profiles.LocatedSpec | account/graphql/mutations.py:91-98 | a location update sets latitude, longitude and the timestamp, keeps visibility when none is sent, touches no other field, and a later update overrides an earlier one |
| Profiles.UpdateLocation | account/graphql/mutations.py:85-111 | without a profile the variant's error comes back and nothing changes; otherwise exactly the located profile is stored and returned (with user/graphql/mutations.py:91-114) |
| Profiles.MovedSpec | user/graphql/profile_schema.py:92-110 | with neither latitude nor visibility sent the profile is unchanged; the timestamp is never stamped; with a position sent it equals the located update minus the timestamp |
| Profiles.MoveProfile | user/graphql/profile_schema.py:92-119 | without a profile the message "Profile does not exist. Please create a profile first." comes back; otherwise the moved profile is stored, and it is saved exactly when latitude or visibility was sent |
| Profiles.MoveProfileOrNothing | user/schemas/profile_schema.py:36-61 | the same partial update, but a caller without a profile gets no payload at all |
| Profiles.AssignedSpec | user/graphql/mutations.py:62-63 | assigning the sent keys agrees with the null-skipping edit on inputs without nulls; a sent null clears the field; an unsent key is kept; location and visibility are untouched; assigning twice changes nothing more |
| Profiles.AssignProfile | user/graphql/mutations.py:57-73 | without a profile the message "Profile does not exist." comes back; otherwise every sent key is assigned |
| Profiles.CreateProfile | user/graphql/mutations.py:31-45 | a caller who has a profile is refused and gets it back; otherwise a fresh profile with the sent keys is stored; afterwards the caller has a profile |
| Profiles.CreatedProfileSpec | user/graphql/mutations.py:42 | a created profile is blank apart from the keys sent: no location, visible |
| Profiles.UpdateProfileImage | account/graphql/mutations.py:128-147 | the URL is stored as sent on the caller's profile |
| Profiles.UploadProfileImage | account/graphql/profile_mutations.py:118-136 | reports success with the unchanged profile, storing nothing |
| Profiles.DeleteProfileImage | account/graphql/profile_mutations.py:146-169 | a present, non-empty image is cleared to null; with no image the deletion is refused and nothing changes; afterwards the profile has no image |
| Profiles.BlankProfileImage | account/graphql/mutations.py:157-177 | the URL is set to the empty string whether or not there was an image; afterwards the profile has no image |
| Friends.Befriend | account/graphql/mutations.py:408-409 | adding a mutual friendship keeps the set of users with a friend set |
| Friends.Unfriend | account/graphql/mutations.py:536-537 | removing a mutual friendship keeps the set of users with a friend set |
| Friends.Follow | account/graphql/social_mutations.py:150 | a one-way addition keeps the set of users with a friend set |
| Friends.Unfollow | account/graphql/social_mutations.py:179 | a one-way removal keeps the set of users with a friend set |
| Friends.BefriendUnfriendMutual | account/graphql/mutations.py:408-409 | the request-based add and remove keep friendship mutual; after adding, each is the other's friend; after removing, neither is (with lines 536-537) |
| Friends.UnfriendUndoesBefriend | account/graphql/mutations.py:408-409 | removing a friendship between two users who were not friends undoes adding it (with lines 536-537) |
| Friends.FollowIsOneWay | account/graphql/social_mutations.py:138-153 | the social app's AddFriend adds the friend to the caller's set only, so it breaks mutuality |
| Friends.BefriendWithinUsers | user/models.py:154-166 | adding or removing a friendship between two users keeps every friend set inside the user table |
| Friends.SetFriends | user/models.py:154-166 | replacing the friend sets with ones inside the user table keeps the store's invariants |
| Friends.SetRequests | user/models.py:175-205 | replacing the request table with one naming users only keeps the store's invariants |
| Friends.SettleKeepsUncrossed | account/graphql/mutations.py:343-370 | settling or deleting a request, or adding a pending one nobody crosses, keeps "no two users have pending requests to each other" |
| Friends.Decide | account/graphql/mutations.py:315-376 | the corrected decision never collides with an existing row |
| Friends.DecideSpec | account/graphql/mutations.py:315-376 | the corrected decision agrees with the code whenever no row links the pair in that direction, and inserts exactly when the two differ, are not friends, the target exists and neither has a pending request to the other |
| Friends.DeclinedSenderLockedOut | account/graphql/mutations.py:343-376 | after a declined request, the same sender's new request hits the (from, to) uniqueness as written, while the corrected decision inserts it (with user/models.py:198) |
| Friends.SendFriendRequest | account/graphql/mutations.py:315-376 | (corrected; as written: DecideAsWritten) refusals give their messages and change nothing; otherwise exactly one pending request from the caller is stored, replacing a settled request between the same two users; no crossed pending requests appear |
| Friends.AcceptFriendRequest | account/graphql/mutations.py:397-426 | only a pending request addressed to the caller is accepted; then both become each other's friends and the request is marked accepted; otherwise nothing changes; mutuality and uncrossed requests are kept |
| Friends.DeclineFriendRequest | account/graphql/mutations.py:444-467 | only a pending request addressed to the caller is marked rejected, and friendships stay |
| Friends.CancelFriendRequest | account/graphql/mutations.py:484-504 | only the caller's own pending outgoing request is deleted |
| Friends.Downgraded | account/graphql/mutations.py:539-545 | downgrading keeps the same request rows |
| Friends.DowngradedSpec | account/graphql/mutations.py:539-545 | only the requests between the two users change, no pending request appears or disappears, and no accepted request is left between them |
| Friends.RemoveFriend | account/graphql/mutations.py:519-552 | an unknown user and a non-friend are refused, changing nothing; otherwise the friendship goes in both directions and accepted requests between them become rejected; mutuality is kept |
| Friends.AddFriend | account/graphql/social_mutations.py:138-157 | an unknown user and the caller themself are refused; otherwise the friend joins the caller's set only; no one becomes their own friend; the other tables are unchanged |
| Friends.UnfollowFriend | account/graphql/social_mutations.py:174-186 | an unknown user is refused; otherwise the friend leaves the caller's set only, whether or not it was there |
| Friends.UnfollowUndoesFollow | account/graphql/social_mutations.py:150 | following and then unfollowing someone not followed before restores the friend sets (with line 179) |
| Friends.AddSocialLink | account/graphql/mutations.py:200-220 | a second link on the same platform for the same user breaks the (user, platform) uniqueness and fails, changing nothing; otherwise exactly the new link is stored (with user/models.py:241) |
| Friends.EditedLinkSpec | account/graphql/mutations.py:247-250 | an edit never moves a link to another owner, keeps the fields not sent, sets those sent, and applying it again changes nothing |
| Friends.UpdateSocialLink | account/graphql/mutations.py:240-270 | only a link the caller owns is edited; moving it onto a platform the caller already uses fails and changes nothing |
| Friends.DeleteSocialLink | account/graphql/mutations.py:281-297 | only a link the caller owns is deleted |
| FirebaseAuth.VerifyFirebaseToken | authentication/firebase_auth.py:28-68 | a token is accepted exactly when it decodes; the user data carries the token's uid, e-mail, name, picture and sign-in provider, and is verified only when the claim is true; each kind of refusal has its fixed message |
| FirebaseAuth.SplitOnFirstSpace | authentication/firebase_auth.py:128 | the first part has no space; with a space in the text, the parts joined by one space give the text back; without one, the text is the first part and the second is empty |
| FirebaseAuth.NamePartsAsWritten | authentication/firebase_auth.py:47 | splitting the name fails exactly when the token has no name, because the stored None shadows the `""` default (with line 128) |
| FirebaseAuth.NamelessTokenCrashesAsWritten | authentication/firebase_auth.py:47 | a token without a name makes the name split fail (with line 128) |
| FirebaseAuth.NameParts | authentication/firebase_auth.py:128-130 | a missing name gives empty first and last names; a present name splits as the code does |
| FirebaseAuth.EmptyNameGivesEmptyFirstName | authentication/firebase_auth.py:128-130 | an empty name gives an empty first name: the `"User"` fallback is never reached |
| FirebaseAuth.NewFirebaseUserAsWritten | authentication/firebase_auth.py:132-146 | the created account is inactive whatever `is_active=True` asks, and is verified as the token says |
| FirebaseAuth.VerifiedFirebaseUserLeftInactive | authentication/firebase_auth.py:132-146 | a first sign-in with a verified address leaves a verified but inactive account |
| FirebaseAuth.NewFirebaseUser | authentication/firebase_auth.py:132-146 | the corrected account is the same row made active: normalised address, the token's uid and no usable password |
| FirebaseAuth.GetOrCreateUser | authentication/firebase_auth.py:71-157 | (corrected; as written: NewFirebaseUserAsWritten, NamePartsAsWritten) a missing e-mail or uid is refused with its message and changes nothing; otherwise the outcome is the one LinkedByClaims fixes for each branch: the account holding the uid is returned; else the account with the e-mail is linked, failing exactly on a missing provider or a picture without a profile; else exactly one active account is created with the picture on its new profile and an empty friend set, failing exactly on a missing provider or a taken normalised address; a failed save keeps the user and friend rows, and the profiles except a picture committed before the failure; the store's invariants and "verified implies active" are kept |
| FirebaseAuth.LinkAccount | authentication/firebase_auth.py:93-155 | (corrected; as written: NewFirebaseUserAsWritten, NamePartsAsWritten) with both claims present, the outcome LinkedByClaims fixes: the account is found by uid, else linked by e-mail, else created active with its profile and an empty friend set, and each branch fails exactly under its own conditions, leaving the rows as ProfilesAfterFailedLink gives |
| FirebaseAuth.LinkKnownUid | authentication/firebase_auth.py:94-102 | the account holding the uid is returned, not created, and only upgraded |
| FirebaseAuth.UpgradeLinkedUser | authentication/firebase_auth.py:99-102 | a linked account becomes verified and active exactly when the token is verified and the account was not; otherwise nothing changes |
| FirebaseAuth.LinkExistingUser | authentication/firebase_auth.py:106-124 | an e-mail account is linked to the uid and provider, verified and activated by a verified token, and given the picture when it has no image; the save fails exactly when the provider is missing or a picture meets a missing profile, leaving the user rows unchanged and the profiles unchanged except that, with no provider, the picture has already filled an empty image |
| FirebaseAuth.ImageFilled | authentication/firebase_auth.py:118-120 | the same profiles, where only the given account's profile can change, and only when its image is empty, to the picture |
| FirebaseAuth.FillProfileImage | authentication/firebase_auth.py:118-121 | the picture becomes the profile image exactly when the profile has none (ImageFilled); no other profile changes |
| FirebaseAuth.FirebaseRow | authentication/firebase_auth.py:128-146 | (corrected; as written: NewFirebaseUserAsWritten, which leaves the row inactive) the new account row has the normalised address and the token's uid, and is active |
| FirebaseAuth.CreateFirebaseUser | authentication/firebase_auth.py:126-155 | (corrected; as written: NewFirebaseUserAsWritten, NamePartsAsWritten) a new active account is created, with its profile and an empty friend set, unless the provider is missing or the normalised address is taken, in which case nothing changes; the picture goes on the new profile |
| FirebaseAuth.SaveFirebaseRows | authentication/firebase_auth.py:132-153 | saving the new account adds exactly its row, an empty friend set and a profile carrying the picture |
| FirebaseAuth.AttachPicture | authentication/firebase_auth.py:148-153 | the blank profile just created takes the token's picture when there is one |
| FirebaseAuth.LinkReply | authentication/graphql/mutation.py:560-591 | the reply succeeds, with tokens, exactly for a linked account, naming it and saying "is new user" exactly when it was created, with the creation message then; a refused claim gives its own message and a failed save "Authentication error: " with the error's text, both without tokens |
| FirebaseAuth.FirebaseOAuthLogin | authentication/graphql/mutation.py:537-591 | a refused token gives its message and no tokens; a verified token without an e-mail or uid gives the claim's message; in all these cases users, profiles and friends are unchanged; with both claims, the reply succeeds exactly when the account was linked as LinkedByClaims states (so it is created active exactly when no account holds the uid or the e-mail and the provider is present and the address is free), for that account and with "is new user" exactly when it was created, and otherwise replies "Authentication error: " with the database error's text; tokens are issued exactly on success, for an account that carries the token's uid; only the user, profile and friend tables are in its frame |
| TravelModels.DayRange | travel/models.py:84-86 | the list holds each day from the first to the last exactly once, and is empty when they are out of order |
| TravelModels.DurationDays | travel/models.py:84-86 | for dates in order the duration is the number of calendar days covered, both ends included; it is at least one exactly when the dates are in order |
| TravelModels.TripPhases | travel/models.py:89-97 | a trip whose dates are in order is exactly one of upcoming, ongoing and past on any day (with travel/graphql/queries.py:95-101) |
| TravelModels.FindTrip | travel/graphql/queries.py:87 | a trip comes back exactly when one has the id, and it has that id |
| TravelModels.FindOwnTrip | travel/graphql/mutations.py:131 | a trip is found only when it has the id and the caller owns it |
| TravelModels.TripIndex | travel/graphql/mutations.py:131 | the index is in range and holds the trip found |
| TravelModels.ActiveTrip | travel/services/location_tracker.py:53-58 | a trip comes back exactly when the user has an active trip covering today, and it is such a trip |
| TravelModels.ReplacedMatchValid | travel/models.py:153-154 | rewriting a match row's score and details, keeping its id, trip and matched user, keeps the match table valid, including (trip, matched user) uniqueness |
| TravelModels.TravelDb.constructor | travel/models.py:10-382 | an empty travel database is valid |
| LocationTracker.SampleOf | travel/services/location_tracker.py:49-73 | the stored sample carries the reading as passed, is stamped now when no time was given, and is attached to the active trip exactly when there is one |
| LocationTracker.MovedProfile | travel/services/location_tracker.py:76-82 | only latitude, longitude and the last update time of the profile change |
| LocationTracker.RecordLocation | travel/services/location_tracker.py:19-84 | exactly one sample is appended, attached to the user's first active trip covering today; the user's profile, when there is one, takes the sample's position and time; nothing else changes |
| LocationTracker.RecordedTrip | travel/services/location_tracker.py:53-63 | the sample is attached to a trip exactly when the user has an active trip covering today, and then to such a trip |
| LocationTracker.RecentLocationsSpec | travel/services/location_tracker.py:87-104 | exactly min(number matching, `limit`) samples, drawn from the user's (and the trip's when given) without repetition, newest first; every matching sample left out is no newer than each one returned, and all of them come back when there are no more than `limit` (with travel/models.py:226) |
| LocationTracker.TripRouteSpec | travel/services/location_tracker.py:107-117 | exactly the trip's samples, oldest first, as a permutation of the trip's samples |
| LocationTracker.CleanupOldLocations | travel/services/location_tracker.py:120-132 | exactly the samples older than the cutoff are deleted, the count returned is how many, every sample left is recent, and nothing else changes |
| Matching.DateOverlap | travel/services/matching.py:37-44 | the overlap is positive exactly when some day is covered by both trips, and then it is no longer than either trip |
| Matching.FilterDayRange | travel/services/matching.py:39-43 | the days of one range that fall in another are the range from the later start to the earlier end |
| Matching.OverlapCountsSharedDays | travel/services/matching.py:37-44 | the overlap is the number of days of the first trip that the second trip also covers |
| Matching.InterestOverlap | travel/services/matching.py:47-62 | nothing in common when either list is empty; otherwise the shared interests are the intersection of the two lists; the percentage lies in 0..100 |
| Matching.InterestExtremes | travel/services/matching.py:55-61 | the percentage is 100 exactly when both lists are non-empty with the same interests, and 0 exactly when nothing is shared |
| Matching.DateScore | travel/services/matching.py:86-92 | with a positive overlap, the date component lies in (0, 50] |
| Matching.ShareWithin | travel/services/matching.py:92 | a positive part of a whole, as a share of a scale, lies in (0, scale] |
| Matching.ProximityPoints | travel/services/matching.py:110-114 | the distance points are positive exactly when the destinations are closer than 5 km, and lie in 0..30 |
| Matching.ProximityPointsAntitone | travel/services/matching.py:110-114 | a closer destination never scores fewer distance points |
| Matching.DistanceScore | travel/services/matching.py:96-120 | without coordinates, 30 exactly when the destination names agree ignoring case, otherwise 0; with them, positive exactly when closer than 5 km; always within 0..30 |
| Matching.InterestScore | travel/services/matching.py:124-128 | the interest component lies in 0..20 and is 20 exactly when both trips list the same interests |
| Matching.MatchScore | travel/services/matching.py:65-135 | no overlap scores 0 with the default details; otherwise the score is the sum of the three components, the details carry the overlap, the shared interests and a distance exactly when both are located; the score lies in 0..100 and is positive with an overlap |
| Matching.MatchScoreSymmetric | travel/services/matching.py:65-135 | the score does not depend on which of the two trips is asking |
| Matching.CreatedQualify | travel/services/matching.py:166-181 | every created row is a pending match for this trip, scoring at least 30 against a candidate whose trip and owner it names, with a fresh id |
| Matching.CreatedRespectPrivacy | travel/services/matching.py:153-163 | private trips, the caller's own trips and strangers' friends-only trips are never matched, and every match shares a day with the trip |
| Matching.PersistOutcome | travel/services/matching.py:166-181 | the loop completes exactly when the rows it creates keep (trip, matched user) unique, and then holds every created row; otherwise it holds a prefix of them and names an owner whose row already exists (with travel/models.py:154) |
| Matching.ByScoreDescIsPreorder | travel/services/matching.py:184 | ordering by descending score is a total preorder |
| Matching.FindTripMatches | travel/services/matching.py:138-185 | the trip's pending matches are deleted; the run succeeds exactly when the new rows keep (trip, matched user) unique, and then the table holds the kept rows plus the created ones and the result is the best `limit` of them; on a duplicate the rows created before it stay |
| Matching.PersistQualifying | travel/services/matching.py:166-181 | the loop's effect on the match table and its outcome are those of the specification function Persist |
| Matching.AppendMatch | travel/services/matching.py:172-180 | saving one new row with a fresh id and no existing row for its (trip, matched user) appends it and keeps the table valid |
| Matching.ReturnedMatchesRanked | travel/services/matching.py:184-185 | the result has at most `limit` rows, best score first, drawn from the created rows, and all of them when there are no more than `limit` |
| Proximity.OtherUser | travel/services/proximity_matcher.py:81-83 | the other traveller is the matched user when the caller owns the trip, else the trip's owner; there is one exactly when the trip exists |
| Proximity.LastSeen | travel/services/proximity_matcher.py:86-90 | a position is known only for a user with a profile whose latitude is truthy (None and 0.0 both skip), and always then when a longitude is stored |
| Proximity.VisitEffect | travel/services/proximity_matcher.py:79-116 | a visit skips exactly the rows whose other traveller has no known position, and leaves them as they were; otherwise it writes the distance and its time and nothing else, except that a pending row beyond 5 km becomes a proximity-expired rejection; a row within 500 m is reported with its distance truncated to metres (with lines 134-141) |
| Proximity.SettledMatchesUntouched | travel/services/proximity_matcher.py:73-77 | accepted, rejected and expired matches, and matches of other users, are never touched |
| Proximity.CloseIsNeverExpired | travel/services/proximity_matcher.py:49-51 | a match within 500 m is never also expired (with line 102, line 138) |
| Proximity.PassCounts | travel/services/proximity_matcher.py:79-118 | the updated count grows by exactly the number of measured rows, and the expired count plus the close list grow by no more than that |
| Proximity.PassCountsFromStart | travel/services/proximity_matcher.py:66-118 | from zero counters, updated_count is the number of measured rows, and expired_count plus the close list never exceed it |
| Proximity.UpdateMatchDistances | travel/services/proximity_matcher.py:54-118 | the match table keeps its length and each row becomes what visiting it gives; the stats are those of the specification pass; nothing else changes |
| Proximity.VisitRow | travel/services/proximity_matcher.py:80-116 | one iteration replaces exactly row i with the visited row |
| Proximity.SaveMatch | travel/services/proximity_matcher.py:98 | saving a row with the same id, trip and matched user replaces exactly that row and keeps the table valid (with line 115) |
| Proximity.ByDistanceAscIsPreorder | travel/services/proximity_matcher.py:161 | ordering by ascending distance is a total preorder |
| Proximity.NearbyMatchesSpec | travel/services/proximity_matcher.py:144-163 | exactly the caller's pending, unexpired matches measured within the bound, nearest first, as a permutation of them |
| Proximity.CloseProximityAlerts | travel/services/proximity_matcher.py:166-199 | one alert per match within 500 m |
| Proximity.TruncMonotone | travel/services/proximity_matcher.py:194 | truncating to whole metres never reverses an order |
| Proximity.AlertsNearestFirst | travel/services/proximity_matcher.py:176-199 | alerts are for the caller's tracked matches only, at most 500 m away, nearest first |
| Proximity.CleanupExpiredMatches | travel/services/proximity_matcher.py:202-217 | exactly the proximity-expired rows last updated more than 7 days ago are deleted, and the count returned is how many |
| TripMutations.NewTrip | travel/graphql/mutations.py:53-88 | (corrected; as written: NewTripAsWritten) the new trip belongs to the caller, starts from "Current Location" with the profile's coordinates only when both are truthy, is inactive with no companions, carries the given dates and destination, and takes the defaults of the hasattr tests (friends-only, no companions, no interests) for what was not sent |
| TripMutations.NewTripAsWrittenNeedsEveryField | travel/graphql/mutations.py:82-87 | as written, graphene sends None for a left-out field, so a trip is stored exactly when interests, description, max_companions and privacy were all sent, and it is then the trip NewTrip builds (with travel/models.py:49-66) |
| TripMutations.CreateWithoutDescriptionRefused | travel/graphql/mutations.py:83 | a trip created without a description is refused as written (NULL into the NOT NULL description), while NewTrip stores it with an empty description (with travel/models.py:51) |
| TripMutations.CreateTrip | travel/graphql/mutations.py:41-97 | (corrected; as written: NewTripAsWritten) a start after the end is refused and nothing changes (equal dates are accepted); otherwise exactly the new trip is stored, newest first, with a fresh id |
| TripMutations.PrependTrip | travel/graphql/mutations.py:68-88 | creating a trip with a fresh id puts it first in the newest-first ordering and changes nothing else (with travel/models.py:76) |
| TripMutations.SaveTrip | travel/graphql/mutations.py:167 | saving a trip with the same id replaces exactly that row |
| TripMutations.EditedSpec | travel/graphql/mutations.py:133-157 | (corrected; as written: EditedAsWritten) an edit never changes a trip's id, owner, state or companion count; a field not sent keeps its value; an empty origin or destination never replaces one; an empty edit changes nothing; applying an edit twice is applying it once |
| TripMutations.DescriptionOnlyEditRefused | travel/graphql/mutations.py:138-157 | as written, an edit sending only a description clears the four coordinates and its save is refused; the corrected edit changes the description and nothing else (with travel/models.py:51-60) |
| TripMutations.EditedAsWrittenAgrees | travel/graphql/mutations.py:138-145 | when all four coordinates are sent, the edit as written and the corrected edit give the same trip |
| TripMutations.UpdateTrip | travel/graphql/mutations.py:126-180 | (corrected; as written: EditedAsWritten) an unknown or foreign trip is refused; an edit that puts the start after the end is refused; both change nothing; otherwise exactly the edited trip is saved in place |
| TripMutations.StartEndRoundTrip | travel/graphql/mutations.py:244 | starting and ending change only the active flag, and each undoes the other (with line 301) |
| TripMutations.StartTrip | travel/graphql/mutations.py:226-269 | an unknown or foreign trip and an already active one are refused without change; otherwise the trip is saved as active and matched against the trips as saved: the reply succeeds exactly when the kept and new matches have no two rows for one (trip, matched user) pair; then the matches are the kept plus the new ones, and the reply counts the best 20 of the new ones; a failure gives the error reply, after the trip was saved, with the matches between the kept and the kept plus new ones |
| TripMutations.EndTrip | travel/graphql/mutations.py:284-320 | an unknown, foreign or inactive trip is refused without change; otherwise exactly that trip is saved as inactive |
| TripMutations.FindMatches | travel/graphql/mutations.py:334-357 | an unknown or foreign trip is refused without touching the matches; for an own trip the reply succeeds exactly when the kept and new matches have no two rows for one (trip, matched user) pair; then the matches are the kept plus the new ones and the reply lists the first `limit` new ones by descending score, with "Found n matches."; a failure gives the error text |
| TripMutations.PendingOwnMatch | travel/graphql/mutations.py:375-377 | a match is found exactly when a row has the id, is pending and belongs to one of the caller's trips |
| TripMutations.SettledIsFinal | travel/graphql/mutations.py:375-377 | a settled match is no longer pending, so neither resolver can act on it a second time (with lines 418-420) |
| TripMutations.AcceptMatch | travel/graphql/mutations.py:370-401 | only a pending match on one of the caller's trips is accepted; then that trip gains exactly one companion; otherwise nothing changes |
| TripMutations.RejectMatch | travel/graphql/mutations.py:413-435 | only a pending match on one of the caller's trips is rejected; trips are untouched |
| TripMutations.HotspotFragmentGarbled | travel/graphql/mutations.py:520-521 | with a hotspot notice, the reply as written holds the mis-decoded character `ð` where the fire emoji belongs; the corrected reply holds the emoji |
| TripMutations.LocationMessageSpec | travel/graphql/mutations.py:519-529 | the reply starts with "Location recorded successfully." and is exactly that when there was no hotspot notice, no close match and no expiry |
| TripMutations.CrowdFailsLocationUpdate | travel/graphql/mutations.py:535-540 | as written, an update succeeds exactly when the recent samples form no crowd, with the message built as usual; otherwise the reply is "Error recording location: " with the error's text (with travel/services/hotspot_detector.py:229-247) |
| TripMutations.LocationServices | travel/graphql/mutations.py:494-515 | (corrected; as written: RefreshedAsWritten, MatchPlaceAsWritten, FriendNamesAsWritten, FindNearbyPlacesAsWritten, NearbyPlacesAsWritten) suggestions are generated exactly for an active trip covering today, the hotspots are refreshed, the notice is the one hotspot detection computes over the suggestions so far, and the suggestions gain exactly the tips and the notice; every pending match is visited as the proximity pass states and the returned statistics are that pass's; trips and samples are unchanged |
| TripMutations.UpdateLocation | travel/graphql/mutations.py:469-540 | (corrected; as written: CrowdFailsLocationUpdate, RefreshedAsWritten, MatchPlaceAsWritten, FriendNamesAsWritten, FindNearbyPlacesAsWritten, NearbyPlacesAsWritten, LocationMessageAsWritten) the reply succeeds and carries the recorded sample, attached to the caller's active trip covering today, which is appended to the samples; the hotspots, suggestions and notice are the services' over the state after recording; the message is LocationMessage of whether a notice was made and of the proximity statistics; each match row is its distance refresh against the caller's new position; in the account tables only the caller's profile moves, to the sample's position and time; trips are unchanged |
| TripQueries.PhasesSplitMyTrips | travel/graphql/queries.py:79-111 | when each of the caller's trips has its dates in order, upcoming, active and past trips together are exactly as many as all the caller's trips |
| TripQueries.PhaseListsSpec | travel/graphql/queries.py:92-111 | upcoming trips start after today, past trips ended before today, active trips cover today, all of them the caller's; the trip a location sample is attached to is among the active trips |
| TripQueries.TripMatchesSpec | travel/graphql/queries.py:116-128 | an unknown or foreign trip lists nothing; otherwise exactly the trip's matches with the given status (any status when none or empty is given), best score first (with travel/models.py:153) |
| TripQueries.UnknownStatusSelectsNothing | travel/graphql/queries.py:122-123 | a status text that names no status selects nothing |
| TripQueries.MyPendingMatchesSpec | travel/graphql/queries.py:131-134 | the pending list holds exactly the matches AcceptMatch and RejectMatch will act on for the caller, ranked |
| TripQueries.UniqueIds | travel/models.py:100-154 | two positions of the match table holding the same id are the same position |
| TripQueries.MyTripSuggestionsSpec | travel/graphql/queries.py:139-154 | exactly the caller's suggestions, for the trip and of the kind when given, unread only when asked, newest first |
| TripQueries.SearchBoxReachesRadius | travel/graphql/queries.py:167-178 | the corrected box reaches exactly the radius north, south, east and west, so any point within the radius along the meridian or the parallel is inside it |
| TripQueries.EastwardHotspotMissed | travel/graphql/queries.py:170-171 | at latitude 45 with the default 10 km, a hotspot 0.1° east lies under 8 km away, yet the box as written leaves it out; the corrected box keeps it |
| TripQueries.ActiveHotspotsSpec | travel/graphql/queries.py:159-180 | without a truthy latitude and longitude every unexpired hotspot is listed; with them, only those in the search box; ordered by crowd, then latest activity |
| TripQueries.TripLocationHistorySpec | travel/graphql/queries.py:185-191 | an unknown or foreign trip lists nothing; otherwise exactly the trip's samples, oldest first |
| Hotspots.CleanupExpiredHotspots | travel/services/hotspot_detector.py:81-83 | exactly the hotspots with expires_at at or after now remain, in order; the count removed is the number of expired rows; no other table changes |
| Hotspots.ByUserNewestIsPreorder | travel/services/hotspot_detector.py:100-102 | ordering by user, then newest first, is a total preorder, so the sort is well defined |
| Hotspots.FirstOfRunsDistinct | travel/services/hotspot_detector.py:100-103 | keeping the first row of each user's run yields rows of pairwise different users |
| Hotspots.FirstOfRunsNewest | travel/services/hotspot_detector.py:100-103 | the row kept for a user is that user's newest row |
| Hotspots.FirstOfRunsCovers | travel/services/hotspot_detector.py:100-103 | every user of the input keeps a row |
| Hotspots.RecentPerUserSpec | travel/services/hotspot_detector.py:86-104 | at most one sample per user; each is within the 30-minute window, of a user with an active trip today, and that user's newest such sample; every such user is represented |
| Hotspots.MatchPlaceSpec | travel/services/hotspot_detector.py:169-211 | a place is matched exactly when some candidate lies within 0.2 km, and then it is the first such in famous place, hidden gem, tourist trap, thing-to-do order; otherwise ("", None) |
| Hotspots.HiddenGemWithoutCoordinatesCrashes | travel/services/hotspot_detector.py:195-204 | a hidden gem stored without coordinates makes the scan as written raise; the corrected scan skips it |
| Hotspots.ThingToDoHasNoName | travel/services/hotspot_detector.py:195-206 | a thing to do within the radius makes the scan as written raise on its missing name; the corrected scan names it by its label |
| Hotspots.MatchPlaceAgrees | travel/services/hotspot_detector.py:195-211 | when every candidate has coordinates and a name, the scan as written and the corrected scan agree |
| Hotspots.MatchPlaceScan | travel/services/hotspot_detector.py:195-211 | the nested loops return exactly the specification's match |
| Hotspots.MeanWithin | travel/services/hotspot_detector.py:150-151 | the mean of values within a range lies within that range |
| Hotspots.CenterWithinBox | travel/services/hotspot_detector.py:150-151 | the cluster centre lies within any latitude/longitude box holding every member |
| Hotspots.GatherSpec | travel/services/hotspot_detector.py:131-145 | the inner loop appends only unprocessed samples within the cluster radius of the seed, of pairwise different users, and marks exactly their users processed |
| Hotspots.GatherIncludesSeed | travel/services/hotspot_detector.py:127-145 | with one sample per user, an unprocessed seed is gathered into its own group |
| Hotspots.ClusterLocationsSpec | travel/services/hotspot_detector.py:114-167 | every cluster has at least two members and counts them exactly; no user is in two clusters or twice in one; every clustered user has an input sample |
| Hotspots.GatherNearby | travel/services/hotspot_detector.py:131-145 | the inner loop computes exactly the specification's group and processed set |
| Hotspots.ClusterScan | travel/services/hotspot_detector.py:114-167 | the nested loops compute exactly the specification's clusters |
| Hotspots.FirstNear | travel/services/hotspot_detector.py:216-227 | the index found is that of the first live hotspot within the cluster radius; none when there is no such hotspot |
| Hotspots.AbsorbOneSpec | travel/services/hotspot_detector.py:213-249 | a live hotspot within 0.1 km is refreshed with the cluster's count, users, now and a 60-minute expiry, keeping its position and taking the place only when named, the other rows unchanged; otherwise exactly one new row at the centre |
| Hotspots.AbsorbAsWrittenSpec | travel/services/hotspot_detector.py:229-247 | as written, absorbing clusters raises exactly when some cluster of the minimum size holds a user, because the user-id list cannot be serialised (with travel/models.py:353); otherwise it leaves the table the corrected loop leaves |
| Hotspots.AbsorbSize | travel/services/hotspot_detector.py:110-112 | absorbing clusters never deletes rows and adds at most one per cluster |
| Hotspots.UpdateOrCreateHotspot | travel/services/hotspot_detector.py:213-249 | (corrected; as written: AbsorbAsWritten, whose save raises on the user-id list) the hotspot table becomes the specification's refresh-or-create result; nothing else changes |
| Hotspots.UpdateHotspots | travel/services/hotspot_detector.py:85-112 | (corrected; as written: AbsorbAsWritten, MatchPlaceAsWritten) the hotspot table absorbs, in order, the clusters of the latest recent sample per traveller on an active trip |
| Hotspots.NearestHotspotSpec | travel/services/hotspot_detector.py:260-292 | None exactly when no live hotspot of at least two users lies within 1.5 km; otherwise one at the smallest distance, with no earlier one as close |
| Hotspots.FindNearbyHotspot | travel/services/hotspot_detector.py:260-292 | the loop keeping the closest so far returns the specification's nearest hotspot |
| Hotspots.AbsorbKeepsLive | travel/services/hotspot_detector.py:213-249 | absorbing clusters into a table of live hotspots leaves every row live |
| Hotspots.FriendLabel | travel/services/hotspot_detector.py:399-401 | the label is empty only when both the profile name and the e-mail's local part are empty |
| Hotspots.FriendNamesFromSpec | travel/services/hotspot_detector.py:393-406 | at most one name per crowd member; none exactly when no member is a friend with a profile; every name labels such a member |
| Hotspots.GetFriendNames | travel/services/hotspot_detector.py:376-406 | the loop returns exactly the specification's friend names |
| Hotspots.FriendInCrowdFails | travel/services/hotspot_detector.py:386-391 | as written the friends lookup fails and returns no names, where the corrected lookup names the friend in the crowd |
| Hotspots.DistanceTextMetres | travel/services/hotspot_detector.py:335-339 | below one kilometre the distance is shown as a whole number of metres below 1000 |
| Hotspots.DistanceTextKilometres | travel/services/hotspot_detector.py:335-339 | from one kilometre the distance is shown in km |
| Hotspots.NoticeSilences | travel/services/hotspot_detector.py:315-326 | a notice silences the same place for that user and trip for the next two hours |
| Hotspots.NoticeLapses | travel/services/hotspot_detector.py:315-326 | after two hours a notice no longer silences on its own |
| Hotspots.CreateHotspotNotification | travel/services/hotspot_detector.py:294-374 | nothing exactly when the two-hour guard holds; otherwise the notice with the friend names is created and appended; no other table changes |
| Hotspots.CrowdRaisesAsWritten | travel/services/hotspot_detector.py:47-51 | as written, the refresh of detection raises exactly when the recent samples form any cluster; without one it gives the corrected table (with lines 110-112 and 229-247) |
| Hotspots.RefreshedLive | travel/services/hotspot_detector.py:47-51 | after cleanup and update every hotspot in the table is live |
| Hotspots.NotifyWhen | travel/services/hotspot_detector.py:34-79 | a notification is sent exactly when the user has an active trip, the nearest eligible hotspot is at least 0.1 km away and the guard does not hold; never without an active trip or an eligible hotspot |
| Hotspots.NotifyTrip | travel/services/hotspot_detector.py:251-258 | a notification belongs to the user's active trip, is an activity-hotspot suggestion, unread and stamped now |
| Hotspots.NotifyNearest | travel/services/hotspot_detector.py:58-77 | a notification is about a nearest eligible hotspot between 0.1 and 1.5 km away and carries its traveller count |
| Hotspots.NotifyGreeting | travel/services/hotspot_detector.py:341-361 | the friends title is used exactly when a friend with a profile is in the crowd |
| Hotspots.DetectAndNotify | travel/services/hotspot_detector.py:34-79 | (corrected; as written: RefreshedAsWritten, MatchPlaceAsWritten, FriendNamesAsWritten) the hotspot table becomes the cleaned and refreshed table; the result is the specification's notification, appended to the suggestions; trips, matches and samples unchanged |
| Suggestions.NearbyPlacesSpec | travel/services/suggestion_engine.py:141-251 | every entry comes from a visited row within its kind's radius (100, 50, 200 or 150 m), keeps that row's kind, name, id and city and measures its distance; no entries exactly when no row is near |
| Suggestions.FindNearbyPlaces | travel/services/suggestion_engine.py:141-251 | one pass over the catalogue returns exactly the specification's nearby places |
| Suggestions.ScanSites | travel/services/suggestion_engine.py:155-249 | the five loops, run over the visited rows in turn, collect exactly the specification's nearby places |
| Suggestions.NearbyPlacesAgree | travel/services/suggestion_engine.py:155-249 | without half-located rows, the scan as written and the corrected scan agree |
| Suggestions.FindNearbyPlacesAsWrittenAgrees | travel/services/suggestion_engine.py:152-187 | as written, a famous place within 100 m makes the scan raise (it reads `reason`, which FamousPlace lacks) while the corrected scan reports it; with none near and no half-located row, both give the same places |
| Suggestions.FamousPlaceNearbyFails | travel/services/suggestion_engine.py:171-187 | a famous place at the traveller's position: the scan as written raises, the corrected scan suggests it with its quote (with insights/models.py:95-106) |
| Suggestions.HalfLocatedGemFails | travel/services/suggestion_engine.py:193-197 | a hidden gem with a latitude but no longitude makes the scan as written fail; the corrected scan skips it |
| Suggestions.AlreadySuggestedHere | travel/services/suggestion_engine.py:111-139 | the scan answers yes exactly when one of the user's suggestions for the trip from the last two hours lies within 50 m |
| Suggestions.TimeOfDay | travel/services/suggestion_engine.py:371-380 | Morning exactly for hours 5 to 11, Afternoon for 12 to 16, Evening for 17 to 20, Night otherwise |
| Suggestions.HourOf | travel/services/suggestion_engine.py:297 | the hour of a timestamp lies in 0..23 |
| Suggestions.DetermineType | travel/services/suggestion_engine.py:382-390 | no kind of place maps to the hotspot suggestion type |
| Suggestions.DetermineTypeInjective | travel/services/suggestion_engine.py:382-390 | distinct kinds of place give distinct suggestion types |
| Suggestions.GeneratedSpec | travel/services/suggestion_engine.py:97-109 | at most one suggestion per nearby place, each unread, for that place, its type and its city, made here and now; exactly one per place when the generator never fails (with lines 253-292) |
| Suggestions.SuggestSilencesRepeat | travel/services/suggestion_engine.py:87-89 | once tips were made at a spot, asking again there within two hours yields nothing (with lines 111-139) |
| Suggestions.CheckAndGenerateSuggestions | travel/services/suggestion_engine.py:66-109 | the suggestions created are those of the specification, they are appended to the table, and nothing else changes |
| Suggestions.GenerateTips | travel/services/suggestion_engine.py:97-107 | the loop yields exactly the specification's generated tips |
| InsightsModels.NewPlace | insights/models.py:10-31 | a place created by get_or_create has only its three name parts set: no coordinates, no image, no theme colour, no visual tags |
| InsightsModels.PlaceNameInjective | insights/models.py:36 | when no part holds a comma, the label determines the (city, state, country) key (with lines 44-47) |
| InsightsModels.PlaceNameSplit | insights/models.py:44-47 | the first comma ends the city and the country follows the last; the state sits between them exactly when it is not blank |
| InsightsModels.DefaultInsights | insights/models.py:62-66 | an insights record starts at version 1, not stale, never requested |
| InsightsModels.BothCoordinates | insights/models.py:184-185 | a row with nullable coordinates has a position exactly when both are present (with lines 217-218) |
| InsightsModels.ClearTable | insights/models.py:80-218 | deleting a place's rows from one table leaves none of them, and every other place keeps exactly its rows |
| InsightsModels.ClearPlaceSpec | insights/models.py:80-218 | clearing a place removes all its rows in the nine tables and nothing else, and keeps (place, season) unique |
| InsightsModels.Catalog.DeletePlace | insights/models.py:52-53 | deleting a place cascades to its insights record and to every catalogue row of that place, and to nothing else (with lines 82-83) |
| Text.StripIdempotent | insights/services/cache_manager.py:196 | stripping twice is stripping once, so the stored key parts are already stripped |
| Text.StripIsTrimmedSlice | insights/services/gemini.py:194 | strip cuts only whitespace from either end and leaves no whitespace at either end |
| Text.Capitalize | insights/services/cache_manager.py:112 | capitalize upper-cases the first character and lower-cases the rest |
| Text.Before | travel/services/hotspot_detector.py:400 | split("@")[0] is the prefix before the first '@', or the whole text when there is none |
| InsightsModels.Catalog.constructor | insights/models.py:10-225 | an empty catalogue is valid: no places, no insights, no rows |
| CacheManager.SeasonRowsDistinct | insights/models.py:139-140 | one save never creates two season rows with the same name, as the (place, season) constraint demands |
| Gemini.BlankStateLeftOut | insights/services/gemini.py:23-27 | with a blank state the place is named "city, country": the only comma follows the city |
| Gemini.StateNamedBetween | insights/services/gemini.py:23-27 | with a state the place is named "city, state, country": the state sits between the first and the last comma |
| Gemini.Lookup | insights/services/gemini.py:233-237 | a key's value is one the object binds to it; no value exactly when the object has no such key |
| Gemini.ToFloat | insights/services/gemini.py:244-245 | float(v or 0.0): a falsy value reads as 0.0 and a number as itself |
| Gemini.CoordinatesIn | insights/services/gemini.py:242-246 | missing coordinates read as (0.0, 0.0) |
| Gemini.KeepObjectsSpec | insights/services/gemini.py:248-263 | a rebuilding loop skips non-objects and succeeds exactly when every object entry rebuilds; then its i-th result is the i-th object entry rebuilt |
| Gemini.ThingsToDo | insights/services/gemini.py:270-294 | each activity of things_to_do, in order and under its own key, gets its cleaned locations |
| Gemini.ListAt | insights/services/gemini.py:296-305 | a list-valued key passes through as it is; any other value, or none, becomes [] |
| Gemini.FencedBodyRecovered | insights/services/gemini.py:193-201 | a body inside a ```json fence on lines of its own comes out of the unfencing unchanged |
| Gemini.BareBodyUntouched | insights/services/gemini.py:193-201 | an unfenced body without surrounding whitespace is decoded as it is |
| Gemini.UndecodableIsNone | insights/services/gemini.py:203-207 | text the decoder rejects yields None, in the source and in the corrected parser |
| Gemini.EmptyReplyIsNone | insights/services/gemini.py:194-207 | an empty reply yields None |
| Gemini.EmptyObjectGivesDefaults | insights/services/gemini.py:209-231 | an empty object normalises to the template with every default |
| Gemini.NonObjectRaises | insights/services/gemini.py:233 | a reply that decodes to something other than an object raises |
| Gemini.FamousPlacesSpec | insights/services/gemini.py:248-265 | the famous places are the object entries, in order, rebuilt from name, quote and coordinates |
| Gemini.DayActivitiesSpec | insights/services/gemini.py:311-317 | the day activities are the object entries, in order, reduced to their fields; this loop never raises |
| Gemini.NormalisedFromLoops | insights/services/gemini.py:248-317 | a normalised reply carries exactly the results of the three loops |
| Gemini.NormalisedPassThrough | insights/services/gemini.py:296-321 | food specialties, tourist traps and hidden gems pass through when they are lists and become [] otherwise; the seasons default to "" |
| Gemini.RebuildObjects | insights/services/gemini.py:248-263 | the loop computes exactly the specification's rebuilt objects |
| Gemini.KeepObjectsRaised | insights/services/gemini.py:248-263 | once a prefix raises, the whole loop raises |
| Gemini.CleanThingsToDo | insights/services/gemini.py:270-294 | the nested loop computes exactly the specification's cleaned things to do |
| Gemini.ThingsToDoRaised | insights/services/gemini.py:270-294 | once a prefix raises, the whole loop raises |
| Gemini.ParseGeminiOutput | insights/services/gemini.py:189-323 | the step-by-step parser returns exactly the corrected specification's outcome |
| Gemini.ThemeAndDayTimeDropped | insights/services/gemini.py:209-231 | as written no reply keeps a visual theme, and every day activity loses its day_time (with lines 311-317) |
| Gemini.ThemeKeptOnlyWhenCorrected | insights/services/gemini.py:49-52 | a reply with a theme keeps it under the corrected normaliser and loses it as written |
| CacheManager.RunStepsSpec | insights/services/cache_manager.py:88-163 | a saving loop raises exactly when one of its entries does; every row made comes from an entry; without a raise every entry that asks for a row gets one |
| CacheManager.RunStepsPairwise | insights/services/cache_manager.py:88-163 | rows made from pairwise related entries are pairwise related |
| CacheManager.RunStepsRaised | insights/services/cache_manager.py:88-163 | once a loop has raised, later entries change nothing |
| CacheManager.CreateRows | insights/services/cache_manager.py:88-98 | a saving loop creates, in order and with consecutive ids, exactly the rows its entries ask for, and reports whether it raised |
| CacheManager.Upserted | insights/services/cache_manager.py:34-61 | the insights record carries the new texts, is not stale, expires 90 days from now, is one version up from the existing record (1 when none) and keeps the last request time |
| CacheManager.Themed | insights/services/cache_manager.py:41-48 | the visual theme changes only the place's theme colour and tags, and nothing when the reply has no theme; it is applied only when neither value is null (UpsertInsights) |
| CacheManager.SeasonNames | insights/services/cache_manager.py:107-116 | the four season keys capitalise to Spring, Summer, Autumn and Winter |
| CacheManager.SeasonRowsSpec | insights/services/cache_manager.py:106-116 | the seasonal loop never raises; it saves one row per season with a description, under its capitalised name, with no recommended activities or cautions, and no season twice |
| CacheManager.SavedRowsNamed | insights/services/cache_manager.py:74-163 | every saved landmark, trap, food and gem has a non-empty name, every day activity an activity, every thing to do a location; landmark images are blank, traps at (0, 0), gems without coordinates |
| CacheManager.PlanFailsSpec | insights/services/cache_manager.py:74-149 | a save raises exactly when a named place has a null quote, a famous activity a null time, a tourist trap or hidden gem cannot be sliced, or a named day activity has a null day_time or time (the NOT NULL columns of insights/models.py:86, 120, 199-200), and then no things to do are saved |
| CacheManager.NullQuoteRaises | insights/services/cache_manager.py:74-85 | a most famous place with a name and a null quote makes the save raise before any row is created (with insights/models.py:86) |
| CacheManager.TrapNamesCut | insights/services/cache_manager.py:118-127 | string traps never raise, and each is named by the first 200 characters of its text |
| CacheManager.GemNamesCut | insights/services/cache_manager.py:134-139 | string gems never raise, and each is named by the first 200 characters of its description |
| CacheManager.ThingsNeverRaise | insights/services/cache_manager.py:151-163 | the things-to-do loops never raise: a null time is stored as NULL in the nullable time column (insights/models.py:216) |
| CacheManager.AddRowsMine | insights/services/cache_manager.py:74-163 | after the loops, the place's rows hold exactly the new columns |
| CacheManager.AddRowsOthers | insights/services/cache_manager.py:74-163 | the loops leave every other place's rows as they were |
| CacheManager.RebuiltSpec | insights/services/cache_manager.py:63-163 | a save replaces the place's rows, whatever they were, by exactly the rows the loops create, keeps every other place's rows and hands out fresh ids |
| CacheManager.RebuiltSeasonsDistinct | insights/services/cache_manager.py:63-116 | a save keeps (place, season) unique in the seasonal table |
| CacheManager.CreateThingsToDo | insights/services/cache_manager.py:151-163 | the nested loops over activity types and their locations create exactly the rows of the flattened entries |
| CacheManager.CreateMostFamous | insights/services/cache_manager.py:74-85 | the most famous place is saved exactly when it has a name and a non-null quote; with a name and a null quote the insert raises |
| CacheManager.CreateLandmarks | insights/services/cache_manager.py:74-98 | appends exactly the planned most famous and famous place rows, the famous ones only when the most famous did not raise, and reports whether either raised |
| CacheManager.CreateActivities | insights/services/cache_manager.py:100-104 | appends exactly the famous activity rows and reports whether a null time raised |
| CacheManager.CreateTraps | insights/services/cache_manager.py:118-127 | appends exactly the trap rows and reports whether a trap raised |
| CacheManager.CreateFoodsAndGems | insights/services/cache_manager.py:129-139 | appends exactly the food and gem rows and reports whether a gem raised |
| CacheManager.CreateDayPlans | insights/services/cache_manager.py:141-163 | appends exactly the day-activity rows and, when none raised, the thing-to-do rows, and reports whether a day activity raised |
| CacheManager.CreateAll | insights/services/cache_manager.py:74-163 | all the saving loops, in order, append exactly the specification's rows and report whether one raised |
| CacheManager.UpsertInsights | insights/services/cache_manager.py:34-61 | a theme with a null colour or tags raises and nothing changes; otherwise the place takes the visual theme and the insights record becomes the upserted one; no rows change |
| CacheManager.ReplaceRows | insights/services/cache_manager.py:63-163 | the tables become the rebuilt tables and the row counter advances by the rows created; `raised` exactly when a loop raised |
| CacheManager.RebuiltConsistent | insights/services/cache_manager.py:63-163 | replacing one place's rows keeps the catalogue's invariant |
| CacheManager.SaveGenerateData | insights/services/cache_manager.py:24-189 | no insights: nothing saved; a null theme colour or tags: raised, nothing saved; otherwise the theme, the upserted record and the rebuilt tables, returning the record unless a loop raised; place keys never change |
| CacheManager.SavedStaysCurrent | insights/services/cache_manager.py:34 | freshly saved insights are served from the cache for exactly the next 90 days (with line 202) |
| CacheManager.GetOrCreatePlace | insights/services/cache_manager.py:195-197 | the place with the given key is returned, and created with a fresh id only when no place has that key |
| CacheManager.MarkRequested | insights/services/cache_manager.py:232-233 | only the record's last request time changes, to now |
| CacheManager.FetchOrGenerateInsights | insights/services/cache_manager.py:192-235 | the place is found or created by the stripped key; current insights are served unchanged but for the request time; otherwise a missing reply or a refused theme fails without saving anything, and a reply is saved and served exactly when no loop raised |
| CacheManager.Regenerate | insights/services/cache_manager.py:199-227 | no reply or a refused theme fails and changes nothing; a reply is saved, and served exactly when no loop raised |
| CacheManager.SaveAndServe | insights/services/cache_manager.py:212-233 | a refused theme fails and changes nothing; otherwise the reply is saved, and served, stamped now, exactly when no loop raised |
| ImageService.LStripChar | insights/scraper/image_service.py:27 | lstrip removes exactly the leading run of the character and keeps the rest |
| ImageService.Slice | insights/scraper/image_service.py:28-30 | a slice past the end is clipped, never longer than asked |
| ImageService.ParseChannel | insights/scraper/image_service.py:28-30 | a channel that parses lies between -15 and 255 |
| ImageService.ParseStripped | insights/scraper/image_service.py:28-30 | nothing left after stripping does not parse |
| ImageService.TwoDigitsParse | insights/scraper/image_service.py:28-30 | two hexadecimal digits parse to the byte they spell |
| ImageService.BlankDoesNotParse | insights/scraper/image_service.py:28-30 | an empty or blank channel raises, which yields no colour (with lines 70-72) |
| ImageService.Classify | insights/scraper/image_service.py:32-68 | every classification is one of the eleven colours the image search accepts |
| ImageService.HexToUnsplashColor | insights/scraper/image_service.py:11-72 | no colour for an empty code or one without a leading '#'; any colour returned is one the search accepts |
| ImageService.ColourCodeChannels | insights/scraper/image_service.py:27-30 | a well-formed "#RRGGBB" code yields its three byte values |
| ImageService.SingleHash | insights/scraper/image_service.py:27 | a well-formed code loses exactly its '#' |
| ImageService.ColourCodeClassified | insights/scraper/image_service.py:11-68 | every well-formed "#RRGGBB" code has the colour its three byte values classify to |
| ImageService.ShortCodeRejected | insights/scraper/image_service.py:27-30 | a code with at most four digits after its '#' has an empty blue slice and so no colour (with lines 70-72) |
| ImageService.GreyFirst | insights/scraper/image_service.py:32-40 | black, white or black_and_white exactly when every channel is within 30 of the mean |
| ImageService.YellowReadsAsOrange | insights/scraper/image_service.py:45-50 | pure yellow #FFFF00 is reported as orange, because the orange test comes first |
| ImageService.RedWinsTies | insights/scraper/image_service.py:43-54 | when red ties for the largest channel, a red-dominant colour is reported |
| ImageService.NameParts | insights/scraper/image_service.py:277-281 | the state is a part exactly when it is not blank; the city comes first and the country last |
| ImageService.SearchQuerySpec | insights/scraper/image_service.py:277-281 | the search query is the place's name parts joined by spaces, as its label joins them by commas |
| ImageService.FirstMentioned | insights/scraper/image_service.py:295-316 | the group chosen is the first whose keywords the name mentions; past the end when it mentions none |
| ImageService.LandmarkQuerySpec | insights/scraper/image_service.py:283-319 | the landmark query is name and city followed by the tags of the first keyword group the lower-cased name mentions, or by the fallback tags exactly when it mentions none |
| ImageService.DistinctTags | insights/scraper/image_service.py:295-316 | the six tag suffixes are pairwise different |
| ImageService.LakePalaceIsArchitecture | insights/scraper/image_service.py:295-300 | "Lake Palace" is searched with architecture tags, because building words are checked before nature words |
| ImageService.WorkingSet | insights/scraper/image_service.py:362-363 | the working set is drawn from the images and is not empty when they are not |
| ImageService.QualitySet | insights/scraper/image_service.py:366-376 | the quality set is drawn from the working set and is not empty when it is not |
| ImageService.Candidates | insights/scraper/image_service.py:378-390 | the candidates are drawn from the quality set and are not empty when it is not |
| ImageService.FinalCandidates | insights/scraper/image_service.py:392-399 | the final candidates are drawn from the candidates and are not empty when they are not |
| ImageService.BestImageSpec | insights/scraper/image_service.py:321-411 | no image exactly when no images were given; otherwise one of the images given |
| ImageService.BestImagePassesFilters | insights/scraper/image_service.py:343-403 | with at least three relevant images, one of which passes every filter, the image chosen passes every filter too |
| ImageService.SelectBestImage | insights/scraper/image_service.py:321-411 | the filtering loops and comprehensions return exactly the specification's best image |
| ImageService.RelevantImages | insights/scraper/image_service.py:351-360 | the relevance loop keeps, in order, exactly the images whose description names nothing off-topic |
| ImageService.LandscapeImages | insights/scraper/image_service.py:379-387 | the aspect-ratio loop keeps, in order, exactly the images with a positive height and a ratio in [1.4, 2.5] |

## Left out

- The haversine formula: every distance is computed by a `Metric` parameter. The properties that need it assume `IsDistance` (non-negative, zero on equal points, symmetric), because real trigonometry is not available in the verifier.
- Floating point: Python floats are modelled as exact reals. `round(x, 2)`, the `Decimal` quantisation of stored coordinates and float formatting are not modelled. `int()` truncation of metres is written out (`Common.Trunc`).
- The Gemini API call, its client and API key are left out. The model reply text is an input to `Gemini.ParseReply`, and the prompt text is not modelled beyond the place name it asks about.
- JSON decoding, `float()` on strings and `str()` on values are parameters (`Decoder`, `FloatParser`, `Repr`), because they are Python library behaviour.
- The Unsplash and image-fetching network calls (`fetch_*`, and the image population run after a cache save) are left out. Their responses are inputs to the image-service functions.
- Firebase's `verify_id_token` is an SDK call: its outcome is the input `FirebaseAuth.VerifyOutcome`.
- Sending the OTP e-mail is I/O: whether it succeeded is a boolean input to the mutations.
- JWT issuing and signing are left out: a successful login is a reply, not a token.
- The suggestion prompt text and the text generator are parameters.
- `generate_otp` draws random digits: the draws are an input (`Otp.OtpFromDraws`), because randomness cannot be modelled.
- The clock is a parameter `now` (seconds). One clock value is used for the whole of one call, where the source may read it more than once.
- Exception texts (`str(e)`) are a `detail` string parameter.
- `async` execution and `transaction.atomic` blocks are treated as plain sequential code. Concurrent requests and database races are not modelled.
- Python's `isdigit`, `lower`, `capitalize` and the regular-expression character classes are modelled on ASCII only. `int()` accepting non-ASCII digits is not modelled. Whitespace (`Text.IsSpace`, used by `strip`) is Python's `str.isspace` set, Unicode included.
- A missing image width or height reads as 0 in the image-service model.
- Database keys: users are keyed by e-mail, which the source declares unique, in place of their UUID primary key. The order on e-mails (`StrLe`) stands in for the UUID order that `distinct("user_id")` sorts by in the hotspot query.
- A friend request is identified by its (from, to) pair, which the source's `unique_together` makes unique, in place of its integer id.
- `hasattr(input, field)` on a GraphQL input is always true, because graphene fills every left-out field with None. CreateTrip, UpdateTrip and EditedSpec follow the evident intent (a left-out field is not sent); what the code does instead is recorded under Findings.
- TripMutations.UpdateLocation: the reading is taken as `record_location` receives it. A left-out `is_background` arrives there as None, which the NOT NULL column refuses; that failure is not modelled.
- The anonymous-caller case of `login_required` is the `Guard` parameter: whether the decorator or the explicit check answers decides the message.
- account/graphql/social_mutations.py is a second set of social-link mutations that account/schema.py does not wire; it imports those of account/graphql/mutations.py, which are the ones modelled.
- `profile_image` in the GraphQL type declarations of user/schema.py names a field the Profile model does not have. The type layer is not modelled.
- `FamousPlace.reason` in the suggestion scan is an attribute FamousPlace does not have. The corrected scan uses the quote; the raise is recorded under Findings.
- Ordering ties in `order_by` follow a stable sort of the insertion order; the database gives no such guarantee.
- `TripQueries.SearchBox`: the cosine of the latitude is a parameter (`Cosine`), for the same reason as the metric.
- Cache manager: `max_length` column limits are not enforced, because whether an over-long value raises depends on the database. All insight tables share one row-id counter. A visual theme that is not a string is stored through `Repr`. A dictionary where a list is sliced raises, which is the `Unsliceable` case. The nested things-to-do loops are modelled over the flattened (category, item) pairs.
- Cache manager: the `if not insights` test is modelled as a missing reply (`None`), because the parser never returns an empty dictionary.
- The cooldown test in user registration runs right after `create_user`. A freshly created user has no OTP timestamp, so the test never fires and is omitted.
- `create_superuser` and its `extra_fields.setdefault` handling are not modelled: they are only used from the management shell.
- Management commands, the GraphQL, REST and admin wiring, serializers and the test suites are not modelled.
- `authentication.helpers` is not part of this model: its OTP and e-mail helpers are taken to behave like those in `user/utils.py`.
- Matching.FindTripMatches: the limit is a `nat`, so the behaviour of Python slicing with a negative limit is not modelled.
- Trip start and end dates are always present day numbers. The columns accept NULL (travel/models.py:41-42), but a trip without dates is not modelled.
- `Profile.last_seen` (user/models.py:114) is not modelled. It is an `auto_now` stamp refreshed on every profile save, and no modelled operation reads it.
- Hotspot user ids: the corrected table stores each user id as its text. The friend lookup then compares ids by that text, which the model takes as the identity of the user.

Where the code fails on an input, the main paths of the model use the corrected definition and the code as written is kept beside it. For example, the hotspot report names friends through `Hotspots.FriendNames`, and a Firebase login splits the name through `FirebaseAuth.NameParts`; `Hotspots.FriendNamesAsWritten` and `FirebaseAuth.NamePartsAsWritten` are the code as written, and each pair is recorded below.

## Findings

| source | as written | input that shows it | evidently intended | confidence | as-written member | corrected member |
|---|---|---|---|---|---|---|
| travel/services/hotspot_detector.py:195-206 | `_match_place` calls `float()` on the coordinates of every hidden gem and reads `.name` on every thing to do. A gem without coordinates raises `TypeError` and a thing to do raises `AttributeError`; only `ImportError` is caught, so detection fails | a hidden gem "Canal Saint-Martin" with no coordinates; a thing to do "Food tour" at the hotspot centre | skip rows without coordinates, and name a thing to do by its label | not executed | Hotspots.MatchPlaceAsWritten (Hotspots.HiddenGemWithoutCoordinatesCrashes, Hotspots.ThingToDoHasNoName) | Hotspots.MatchPlace |
| travel/services/hotspot_detector.py:386-400 | the friend names are read from `profile.friends` and `.name`, which `Profile` does not have; any user in the crowd with a profile raises `AttributeError` | a hotspot user whose profile row exists | friends from the accepted friend requests, names from the full name or else the e-mail's local part | not executed | Hotspots.FriendNamesAsWritten (Hotspots.FriendInCrowdFails) | Hotspots.FriendNames |
| travel/services/suggestion_engine.py:190-197 | hidden gems are excluded only when latitude AND longitude are both null; a gem with one coordinate passes, and the distance on `None` fails | a hidden gem "Secret garden" at latitude 48.85 with no longitude | keep only gems with both coordinates | not executed | Suggestions.NearbyPlacesAsWritten (Suggestions.HalfLocatedGemFails) | Suggestions.NearbyPlaces |
| authentication/firebase_auth.py:132-146 | the new user is created with `is_active=True` and then deactivated before saving, even though Firebase has verified the e-mail | a verified token for an unknown e-mail | a Firebase-verified user is active | not executed | FirebaseAuth.NewFirebaseUserAsWritten (FirebaseAuth.VerifiedFirebaseUserLeftInactive) | FirebaseAuth.NewFirebaseUser |
| authentication/firebase_auth.py:47 | the claims store `"name": None` when the token has no name, so `.get("name", "")` returns `None` and `.split()` raises | a token without a name claim | treat a missing name as empty | not executed | FirebaseAuth.NamePartsAsWritten (FirebaseAuth.NamelessTokenCrashesAsWritten) | FirebaseAuth.NameParts |
| travel/graphql/mutations.py:520 | the hotspot fragment of the location message is the mis-decoded text " ðŸ”¥" | an update that lands in a hotspot | the fire emoji " 🔥" | not executed | TripMutations.LocationMessageAsWritten (TripMutations.HotspotFragmentGarbled) | TripMutations.LocationMessage |
| travel/graphql/queries.py:170-171 | the longitude half-width is r / (111 · abs(latitude)) instead of r / (111 · cos(latitude)) | centre (45, 2), hotspot at (45, 2.1), default radius: about 7.9 km east, yet outside the box | divide by 111 · cos(latitude) | not executed | TripQueries.BoxAsWritten (TripQueries.EastwardHotspotMissed) | TripQueries.SearchBox |
| account/graphql/mutations.py:343-370 | the duplicate guard looks only at pending requests, but (from, to) is unique whatever the status, so a new request after a rejected one violates the constraint | a rejected request from a to b, then a sends to b again | replace the settled request with a new pending one | not executed | Friends.DecideAsWritten (Friends.DeclinedSenderLockedOut) | Friends.Decide |
| insights/services/gemini.py:209-231 | the parsed result keeps neither `visual_theme` nor `day_time`, though the prompt asks for both and the cache manager saves both | a reply with visual_theme {"color": "#3B82F6", "tags": "sky"} | keep both keys | not executed | Gemini.ParseReplyAsWritten (Gemini.ThemeAndDayTimeDropped) | Gemini.ParseReply |
| travel/graphql/mutations.py:74-87 | graphene sets every left-out input field to None, so the `hasattr` defaults never apply; a left-out interests, description, max_companions or privacy sends None to a NOT NULL column and the create fails | CreateTrip with destination and dates only | a left-out field takes the default written beside it | not executed | TripMutations.NewTripAsWritten (TripMutations.NewTripAsWrittenNeedsEveryField, TripMutations.CreateWithoutDescriptionRefused) | TripMutations.NewTrip |
| travel/graphql/mutations.py:138-157 | every `hasattr` test holds, so a left-out coordinate clears its column, and a left-out interests, description, max_companions or privacy makes the save fail | UpdateTrip sending only a new description | only the fields sent are assigned | not executed | TripMutations.EditedAsWritten (TripMutations.DescriptionOnlyEditRefused) | TripMutations.Edited |
| travel/services/suggestion_engine.py:182 | the famous-place loop reads `place.reason`, which FamousPlace does not define, so any famous place within 100 m raises `AttributeError` | a famous place "Fort" at the traveller's position | use the place's quote, as the most-famous loop does | not executed | Suggestions.FindNearbyPlacesAsWritten (Suggestions.FamousPlaceNearbyFails) | Suggestions.NearbyPlaces |
| travel/services/hotspot_detector.py:229 | a cluster's `user_ids` are the samples' `user_id` values, `uuid.UUID` objects, and `active_users` is a JSONField with no encoder (travel/models.py:353); `json.dumps` refuses them, so every hotspot save and create raises `TypeError`, and UpdateLocation answers "Error recording location: …" whenever a crowd forms | two travellers on active trips who record positions 10 m apart within half an hour | store each id as its text, `str(user_id)` | not executed | Hotspots.RefreshedAsWritten (Hotspots.CrowdRaisesAsWritten, TripMutations.CrowdFailsLocationUpdate) | Hotspots.Refreshed |
