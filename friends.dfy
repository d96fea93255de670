// Friendships, friend requests and social links: the friend-request state
// machine and social-link resolvers of account/graphql/mutations.py, and
// the direct AddFriend/RemoveFriend and link resolvers of
// account/graphql/social_mutations.py. A friend request is identified by
// its (from_user, to_user) pair, which the table keeps unique.
module Friends {
  import opened Common
  import opened Accounts

  datatype Reply = Reply(success: bool, message: string, request: Option<(Email, Email)>)

  function Failure(message: string): Reply
  {
    Reply(false, message, None)
  }

  // ---------------------------------------------------------------------
  // Friend sets

  /** Each of a and b in the other's friend set. */
  function Befriend(friends: map<Email, set<Email>>, a: Email, b: Email): (r: map<Email, set<Email>>)
    requires a in friends && b in friends
    ensures r.Keys == friends.Keys
  {
    var f := friends[a := friends[a] + {b}];
    f[b := f[b] + {a}]
  }

  /** Neither of a and b in the other's friend set. */
  function Unfriend(friends: map<Email, set<Email>>, a: Email, b: Email): (r: map<Email, set<Email>>)
    requires a in friends && b in friends
    ensures r.Keys == friends.Keys
  {
    var f := friends[a := friends[a] - {b}];
    f[b := f[b] - {a}]
  }

  /** b added to a's friend set only. */
  function Follow(friends: map<Email, set<Email>>, a: Email, b: Email): (r: map<Email, set<Email>>)
    requires a in friends
    ensures r.Keys == friends.Keys
  {
    friends[a := friends[a] + {b}]
  }

  function Unfollow(friends: map<Email, set<Email>>, a: Email, b: Email): (r: map<Email, set<Email>>)
    requires a in friends
    ensures r.Keys == friends.Keys
  {
    friends[a := friends[a] - {b}]
  }

  /** Friendship is mutual: whoever is in a's set has a in theirs. */
  ghost predicate Mutual(friends: map<Email, set<Email>>)
  {
    forall a, b :: a in friends && b in friends[a] ==> b in friends && a in friends[b]
  }

  /** The request-based resolvers keep friendship mutual. */
  lemma BefriendUnfriendMutual(friends: map<Email, set<Email>>, a: Email, b: Email)
    requires a in friends && b in friends && Mutual(friends)
    ensures Mutual(Befriend(friends, a, b)) && Mutual(Unfriend(friends, a, b))
    ensures b in Befriend(friends, a, b)[a] && a in Befriend(friends, a, b)[b]
    ensures b !in Unfriend(friends, a, b)[a] && a !in Unfriend(friends, a, b)[b]
  {
    var f := Befriend(friends, a, b);
    forall x, y | x in f && y in f[x]
      ensures y in f && x in f[y]
    {
      assert y in friends[x] || (x == a && y == b) || (x == b && y == a);
    }
    var g := Unfriend(friends, a, b);
    forall x, y | x in g && y in g[x]
      ensures y in g && x in g[y]
    {
      assert y in friends[x];
    }
  }

  /** Removing a friendship undoes adding it, when the two were not friends before. */
  lemma UnfriendUndoesBefriend(friends: map<Email, set<Email>>, a: Email, b: Email)
    requires a in friends && b in friends && a != b
    requires b !in friends[a] && a !in friends[b]
    ensures Unfriend(Befriend(friends, a, b), a, b) == friends
  {
    var r := Unfriend(Befriend(friends, a, b), a, b);
    assert r[a] == friends[a];
    assert r[b] == friends[b];
  }

  /** The direct AddFriend of the social app is one-directional: it breaks mutuality. */
  lemma FollowIsOneWay(friends: map<Email, set<Email>>, a: Email, b: Email)
    requires a in friends && b in friends && a != b && Mutual(friends) && b !in friends[a]
    ensures b in Follow(friends, a, b)[a] && a !in Follow(friends, a, b)[b]
    ensures !Mutual(Follow(friends, a, b))
  {
    assert a !in friends[b];
  }

  /** Friend sets that only name users. */
  ghost predicate WithinUsers(friends: map<Email, set<Email>>, users: set<Email>)
  {
    friends.Keys == users && forall e :: e in friends ==> friends[e] <= users
  }

  lemma BefriendWithinUsers(friends: map<Email, set<Email>>, users: set<Email>, a: Email, b: Email)
    requires WithinUsers(friends, users) && a in users && b in users
    ensures WithinUsers(Befriend(friends, a, b), users) && WithinUsers(Unfriend(friends, a, b), users)
  {
  }

  /** Replace the friend sets. */
  method SetFriends(db: Store, f: map<Email, set<Email>>)
    requires db.Valid() && WithinUsers(f, db.users.Keys)
    modifies db`friends
    ensures db.Valid()
    ensures db.friends == f
  {
    db.friends := f;
  }

  // ---------------------------------------------------------------------
  // Friend requests

  /** Replace the request table with one whose rows name users only. */
  method SetRequests(db: Store, r: map<(Email, Email), FriendRequest>)
    requires db.Valid() && forall p :: p in r ==> p.0 in db.users && p.1 in db.users
    modifies db`requests
    ensures db.Valid()
    ensures db.requests == r
  {
    db.requests := r;
  }

  predicate IsPending(requests: map<(Email, Email), FriendRequest>, key: (Email, Email))
  {
    key in requests && requests[key].status == Pending
  }

  /** Never two pending requests between the same two users in opposite directions. */
  ghost predicate NoCrossedPending(requests: map<(Email, Email), FriendRequest>)
  {
    forall a, b :: IsPending(requests, (a, b)) ==> !IsPending(requests, (b, a))
  }

  /** Settling or deleting a request, or adding one nobody crosses, keeps requests uncrossed. */
  lemma SettleKeepsUncrossed(requests: map<(Email, Email), FriendRequest>, key: (Email, Email), r: FriendRequest)
    requires NoCrossedPending(requests)
    requires r.status != Pending || !IsPending(requests, (key.1, key.0))
    requires r.status == Pending ==> key.0 != key.1
    ensures NoCrossedPending(requests[key := r])
    ensures NoCrossedPending(requests - {key})
  {
    var q := requests[key := r];
    forall a, b | IsPending(q, (a, b))
      ensures !IsPending(q, (b, a))
    {
      if (a, b) != key && (b, a) != key {
        assert IsPending(requests, (a, b));
      }
    }
    var d := requests - {key};
    forall a, b | IsPending(d, (a, b))
      ensures !IsPending(d, (b, a))
    {
      assert IsPending(requests, (a, b));
    }
  }

  /** What SendFriendRequest does for from_user and to_user. */
  datatype SendDecision = Refuse(message: string, shown: Option<(Email, Email)>) | Insert | Collide

  /**
   * The checks as written, in order: the caller, an existing friend, an
   * unknown user, a pending request either way. A request row left from an
   * earlier, settled request makes the insert break the (from_user,
   * to_user) uniqueness.
   */
  function DecideAsWritten(users: map<Email, User>, friends: map<Email, set<Email>>,
                           requests: map<(Email, Email), FriendRequest>, from: Email, to: Email): SendDecision
  {
    if from == to then Refuse("You cannot send a friend request to yourself.", None)
    else if from in friends && to in friends[from] then Refuse("You are already friends with this user.", None)
    else if to !in users then Refuse("User not found.", None)
    else if IsPending(requests, (from, to)) then Refuse("Friend request already sent.", Some((from, to)))
    else if IsPending(requests, (to, from)) then
      Refuse("This user has already sent you a friend request. Accept it instead.", Some((to, from)))
    else if (from, to) in requests then Collide
    else Insert
  }

  /** The same checks, with a settled earlier request replaced by the new pending one. */
  function Decide(users: map<Email, User>, friends: map<Email, set<Email>>,
                  requests: map<(Email, Email), FriendRequest>, from: Email, to: Email): (d: SendDecision)
    ensures !d.Collide?
  {
    var w := DecideAsWritten(users, friends, requests, from, to);
    if w.Collide? then Insert else w
  }

  /**
   * The two agree except where a settled request already links the two
   * users in that direction; a new request is inserted exactly when no
   * check refuses it.
   */
  lemma DecideSpec(users: map<Email, User>, friends: map<Email, set<Email>>,
                   requests: map<(Email, Email), FriendRequest>, from: Email, to: Email)
    ensures (from, to) !in requests ==> Decide(users, friends, requests, from, to) == DecideAsWritten(users, friends, requests, from, to)
    ensures Decide(users, friends, requests, from, to).Insert? <==>
              from != to && !(from in friends && to in friends[from]) && to in users &&
              !IsPending(requests, (from, to)) && !IsPending(requests, (to, from))
  {
  }

  /**
   * After a declined request the sender can never ask again as written:
   * the row is still there, rejected, and the insert collides.
   */
  lemma DeclinedSenderLockedOut(users: map<Email, User>, friends: map<Email, set<Email>>,
                                requests: map<(Email, Email), FriendRequest>, a: Email, b: Email, now: int)
    requires a != b && b in users && a in friends && b !in friends[a]
    requires requests == map[(a, b) := FriendRequest(Rejected, now)]
    ensures DecideAsWritten(users, friends, requests, a, b) == Collide
    ensures Decide(users, friends, requests, a, b) == Insert
  {
  }

  /**
   * SendFriendRequest: refuse, in order, the cases DecideAsWritten lists;
   * otherwise store one new pending request from the caller.
   */
  method SendFriendRequest(db: Store, from: Email, to: Email, now: int) returns (reply: Reply)
    requires db.Valid() && from in db.users
    modifies db`requests
    ensures db.Valid()
    ensures var d := Decide(old(db.users), old(db.friends), old(db.requests), from, to);
            (d.Refuse? ==> reply == Reply(false, d.message, d.shown) && db.requests == old(db.requests)) &&
            (d.Insert? ==> reply == Reply(true, "Friend request sent successfully.", Some((from, to))) &&
                           db.requests == old(db.requests)[(from, to) := FriendRequest(Pending, now)])
    ensures old(NoCrossedPending(db.requests)) ==> NoCrossedPending(db.requests)
  {
    var d := Decide(db.users, db.friends, db.requests, from, to);
    if d.Refuse? {
      return Reply(false, d.message, d.shown);
    }
    if NoCrossedPending(db.requests) {
      SettleKeepsUncrossed(db.requests, (from, to), FriendRequest(Pending, now));
    }
    SetRequests(db, db.requests[(from, to) := FriendRequest(Pending, now)]);
    reply := Reply(true, "Friend request sent successfully.", Some((from, to)));
  }

  /**
   * AcceptFriendRequest: only a pending request addressed to the caller.
   * Both friend sets gain the other user and the request is accepted, in
   * one transaction.
   */
  method AcceptFriendRequest(db: Store, caller: Email, key: (Email, Email), now: int) returns (reply: Reply)
    requires db.Valid()
    modifies db`friends, db`requests
    ensures db.Valid()
    ensures !(IsPending(old(db.requests), key) && key.1 == caller) ==>
              reply == Failure("Friend request not found.") &&
              db.requests == old(db.requests) && db.friends == old(db.friends)
    ensures IsPending(old(db.requests), key) && key.1 == caller ==>
              reply == Reply(true, "Friend request accepted successfully.", Some(key)) &&
              db.friends == Befriend(old(db.friends), key.0, caller) &&
              db.requests == old(db.requests)[key := old(db.requests)[key].(status := Accepted)]
    ensures old(Mutual(db.friends)) ==> Mutual(db.friends)
    ensures old(NoCrossedPending(db.requests)) ==> NoCrossedPending(db.requests)
  {
    if !(IsPending(db.requests, key) && key.1 == caller) {
      return Failure("Friend request not found.");
    }
    if Mutual(db.friends) {
      BefriendUnfriendMutual(db.friends, key.0, caller);
    }
    BefriendWithinUsers(db.friends, db.users.Keys, key.0, caller);
    SetFriends(db, Befriend(db.friends, key.0, caller));
    if NoCrossedPending(db.requests) {
      SettleKeepsUncrossed(db.requests, key, db.requests[key].(status := Accepted));
    }
    SetRequests(db, db.requests[key := db.requests[key].(status := Accepted)]);
    reply := Reply(true, "Friend request accepted successfully.", Some(key));
  }

  /** DeclineFriendRequest: a pending request addressed to the caller becomes rejected; friendships stay. */
  method DeclineFriendRequest(db: Store, caller: Email, key: (Email, Email)) returns (reply: Reply)
    requires db.Valid()
    modifies db`requests
    ensures db.Valid()
    ensures !(IsPending(old(db.requests), key) && key.1 == caller) ==>
              reply == Failure("Friend request not found.") && db.requests == old(db.requests)
    ensures IsPending(old(db.requests), key) && key.1 == caller ==>
              reply == Reply(true, "Friend request declined.", Some(key)) &&
              db.requests == old(db.requests)[key := old(db.requests)[key].(status := Rejected)]
    ensures old(NoCrossedPending(db.requests)) ==> NoCrossedPending(db.requests)
  {
    if !(IsPending(db.requests, key) && key.1 == caller) {
      return Failure("Friend request not found.");
    }
    if NoCrossedPending(db.requests) {
      SettleKeepsUncrossed(db.requests, key, db.requests[key].(status := Rejected));
    }
    SetRequests(db, db.requests[key := db.requests[key].(status := Rejected)]);
    reply := Reply(true, "Friend request declined.", Some(key));
  }

  /** CancelFriendRequest: the caller's own pending outgoing request is deleted. */
  method CancelFriendRequest(db: Store, caller: Email, key: (Email, Email)) returns (reply: Reply)
    requires db.Valid()
    modifies db`requests
    ensures db.Valid()
    ensures !(IsPending(old(db.requests), key) && key.0 == caller) ==>
              reply == Failure("Friend request not found.") && db.requests == old(db.requests)
    ensures IsPending(old(db.requests), key) && key.0 == caller ==>
              reply == Reply(true, "Friend request cancelled successfully.", None) &&
              db.requests == old(db.requests) - {key}
    ensures old(NoCrossedPending(db.requests)) ==> NoCrossedPending(db.requests)
  {
    if !(IsPending(db.requests, key) && key.0 == caller) {
      return Failure("Friend request not found.");
    }
    if NoCrossedPending(db.requests) {
      SettleKeepsUncrossed(db.requests, key, db.requests[key]);
    }
    SetRequests(db, db.requests - {key});
    reply := Reply(true, "Friend request cancelled successfully.", None);
  }

  /** An accepted request between a and b, in either direction, turned into a rejected one. */
  function Downgraded(requests: map<(Email, Email), FriendRequest>, a: Email, b: Email): (r: map<(Email, Email), FriendRequest>)
    ensures r.Keys == requests.Keys
  {
    var r := if (a, b) in requests && requests[(a, b)].status == Accepted
             then requests[(a, b) := requests[(a, b)].(status := Rejected)] else requests;
    if (b, a) in r && r[(b, a)].status == Accepted then r[(b, a) := r[(b, a)].(status := Rejected)] else r
  }

  /** Only the accepted requests between the two users change, and no pending one is created. */
  lemma DowngradedSpec(requests: map<(Email, Email), FriendRequest>, a: Email, b: Email)
    ensures var r := Downgraded(requests, a, b);
            r.Keys == requests.Keys &&
            (forall k :: k in r && k != (a, b) && k != (b, a) ==> r[k] == requests[k]) &&
            (forall k :: k in r ==> (r[k].status == Pending <==> requests[k].status == Pending)) &&
            ((a, b) in r ==> r[(a, b)].status != Accepted) && ((b, a) in r ==> r[(b, a)].status != Accepted)
  {
  }

  /**
   * RemoveFriend (account/graphql/mutations.py): the friend must exist and
   * be in the caller's set; the friendship goes in both directions and any
   * accepted request between them becomes rejected.
   */
  method RemoveFriend(db: Store, user: Email, friend: Email) returns (reply: Reply)
    requires db.Valid() && user in db.users
    modifies db`friends, db`requests
    ensures db.Valid()
    ensures friend !in old(db.users) ==>
              reply == Failure("User not found.") && db.friends == old(db.friends) && db.requests == old(db.requests)
    ensures friend in old(db.users) && friend !in old(db.friends)[user] ==>
              reply == Failure("You are not friends with this user.") &&
              db.friends == old(db.friends) && db.requests == old(db.requests)
    ensures friend in old(db.users) && friend in old(db.friends)[user] ==>
              reply == Reply(true, "Friend removed successfully.", None) &&
              db.friends == Unfriend(old(db.friends), user, friend) &&
              db.requests == Downgraded(old(db.requests), user, friend)
    ensures old(Mutual(db.friends)) ==> Mutual(db.friends)
  {
    if friend !in db.users {
      return Failure("User not found.");
    }
    if friend !in db.friends[user] {
      return Failure("You are not friends with this user.");
    }
    if Mutual(db.friends) {
      BefriendUnfriendMutual(db.friends, user, friend);
    }
    BefriendWithinUsers(db.friends, db.users.Keys, user, friend);
    SetFriends(db, Unfriend(db.friends, user, friend));
    SetRequests(db, Downgraded(db.requests, user, friend));
    reply := Reply(true, "Friend removed successfully.", None);
  }

  /** AddFriend (account/graphql/social_mutations.py): the friend joins the caller's set only. */
  method AddFriend(db: Store, user: Email, friend: Email) returns (reply: Reply)
    requires db.Valid() && user in db.users
    modifies db
    ensures db.Valid()
    ensures friend !in old(db.users) ==> reply == Failure("User not found.") && db.friends == old(db.friends)
    ensures friend in old(db.users) && friend == user ==>
              reply == Failure("You cannot add yourself as a friend.") && db.friends == old(db.friends)
    ensures friend in old(db.users) && friend != user ==>
              reply == Reply(true, "Friend added successfully.", None) && db.friends == Follow(old(db.friends), user, friend)
    ensures db.users == old(db.users) && db.profiles == old(db.profiles) && db.requests == old(db.requests)
    ensures db.links == old(db.links) && db.favorites == old(db.favorites)
    ensures old(user !in db.friends[user]) ==> user !in db.friends[user]
  {
    if friend !in db.users {
      return Failure("User not found.");
    }
    if friend == user {
      return Failure("You cannot add yourself as a friend.");
    }
    db.friends := Follow(db.friends, user, friend);
    reply := Reply(true, "Friend added successfully.", None);
  }

  /**
   * RemoveFriend (account/graphql/social_mutations.py): the friend leaves
   * the caller's set only, whether or not it was there.
   */
  method UnfollowFriend(db: Store, user: Email, friend: Email) returns (reply: Reply)
    requires db.Valid() && user in db.users
    modifies db
    ensures db.Valid()
    ensures friend !in old(db.users) ==> reply == Failure("User not found.") && db.friends == old(db.friends)
    ensures friend in old(db.users) ==>
              reply == Reply(true, "Friend removed successfully.", None) && db.friends == Unfollow(old(db.friends), user, friend)
    ensures friend !in db.friends[user] || friend !in old(db.users)
    ensures db.users == old(db.users) && db.profiles == old(db.profiles) && db.requests == old(db.requests)
    ensures db.links == old(db.links) && db.favorites == old(db.favorites)
  {
    if friend !in db.users {
      return Failure("User not found.");
    }
    db.friends := Unfollow(db.friends, user, friend);
    reply := Reply(true, "Friend removed successfully.", None);
  }

  /** Following and then unfollowing someone not followed before restores the friend sets. */
  lemma UnfollowUndoesFollow(friends: map<Email, set<Email>>, a: Email, b: Email)
    requires a in friends && b !in friends[a]
    ensures Unfollow(Follow(friends, a, b), a, b) == friends
  {
    assert Unfollow(Follow(friends, a, b), a, b)[a] == friends[a];
  }

  // ---------------------------------------------------------------------
  // Social links

  datatype LinkReply = LinkReply(success: bool, message: string, link: Option<SocialLink>)

  /** The id of the caller's link on that platform other than `except`, if any. */
  predicate PlatformTaken(links: map<nat, SocialLink>, owner: Email, platform: string, except: Option<nat>)
  {
    exists i :: i in links && links[i].owner == owner && links[i].platform == platform && Some(i) != except
  }

  /** SocialLink.objects.get(id=..., user=user). */
  predicate OwnLink(links: map<nat, SocialLink>, id: nat, user: Email)
  {
    id in links && links[id].owner == user
  }

  /**
   * AddSocialLink: a second link on the same platform for the same user
   * breaks the (user, platform) uniqueness and fails; `id` is the fresh
   * primary key and `detail` the database's error text.
   */
  method AddSocialLink(db: Store, user: Email, platform: string, url: string, id: nat, detail: string)
      returns (reply: LinkReply)
    requires db.Valid() && user in db.users && id !in db.links
    modifies db
    ensures db.Valid()
    ensures PlatformTaken(old(db.links), user, platform, None) ==>
              reply == LinkReply(false, "Error adding social link: " + detail, None) && db.links == old(db.links)
    ensures !PlatformTaken(old(db.links), user, platform, None) ==>
              reply == LinkReply(true, "Social link added successfully.", Some(SocialLink(user, platform, url))) &&
              db.links == old(db.links)[id := SocialLink(user, platform, url)]
    ensures db.users == old(db.users) && db.profiles == old(db.profiles) && db.friends == old(db.friends)
    ensures db.requests == old(db.requests) && db.favorites == old(db.favorites)
  {
    if PlatformTaken(db.links, user, platform, None) {
      return LinkReply(false, "Error adding social link: " + detail, None);
    }
    var link := SocialLink(user, platform, url);
    db.links := db.links[id := link];
    reply := LinkReply(true, "Social link added successfully.", Some(link));
  }

  /** The link after an update: each non-null input replaces its field. */
  function EditedLink(l: SocialLink, platform: Option<string>, url: Option<string>): SocialLink
  {
    l.(platform := if platform.Some? then platform.value else l.platform, url := if url.Some? then url.value else l.url)
  }

  /** An update never moves a link to another owner and leaves the fields it was not sent. */
  lemma EditedLinkSpec(l: SocialLink, platform: Option<string>, url: Option<string>)
    ensures var m := EditedLink(l, platform, url);
            m.owner == l.owner && (platform.None? ==> m.platform == l.platform) && (url.None? ==> m.url == l.url) &&
            (platform.Some? ==> m.platform == platform.value) && (url.Some? ==> m.url == url.value) &&
            EditedLink(m, platform, url) == m
  {
  }

  /**
   * UpdateSocialLink (account/graphql/mutations.py and
   * account/graphql/social_mutations.py): only a link the caller owns;
   * moving it onto a platform the caller already has another link for
   * breaks the uniqueness and fails.
   */
  method UpdateSocialLink(db: Store, user: Email, id: nat, platform: Option<string>, url: Option<string>, detail: string)
      returns (reply: LinkReply)
    requires db.Valid()
    modifies db
    ensures db.Valid()
    ensures !OwnLink(old(db.links), id, user) ==>
              reply == LinkReply(false, "Social link not found.", None) && db.links == old(db.links)
    ensures OwnLink(old(db.links), id, user) ==>
              var m := EditedLink(old(db.links)[id], platform, url);
              (PlatformTaken(old(db.links), user, m.platform, Some(id)) ==>
                 reply == LinkReply(false, "Error updating social link: " + detail, None) && db.links == old(db.links)) &&
              (!PlatformTaken(old(db.links), user, m.platform, Some(id)) ==>
                 reply == LinkReply(true, "Social link updated successfully.", Some(m)) && db.links == old(db.links)[id := m])
    ensures db.users == old(db.users) && db.profiles == old(db.profiles) && db.friends == old(db.friends)
    ensures db.requests == old(db.requests) && db.favorites == old(db.favorites)
  {
    if !OwnLink(db.links, id, user) {
      return LinkReply(false, "Social link not found.", None);
    }
    var m := EditedLink(db.links[id], platform, url);
    if PlatformTaken(db.links, user, m.platform, Some(id)) {
      return LinkReply(false, "Error updating social link: " + detail, None);
    }
    db.links := db.links[id := m];
    reply := LinkReply(true, "Social link updated successfully.", Some(m));
  }

  /** DeleteSocialLink: only a link the caller owns is deleted. */
  method DeleteSocialLink(db: Store, user: Email, id: nat) returns (reply: LinkReply)
    requires db.Valid()
    modifies db
    ensures db.Valid()
    ensures !OwnLink(old(db.links), id, user) ==>
              reply == LinkReply(false, "Social link not found.", None) && db.links == old(db.links)
    ensures OwnLink(old(db.links), id, user) ==>
              reply == LinkReply(true, "Social link deleted successfully.", None) && db.links == old(db.links) - {id}
    ensures db.users == old(db.users) && db.profiles == old(db.profiles) && db.friends == old(db.friends)
    ensures db.requests == old(db.requests) && db.favorites == old(db.favorites)
  {
    if !OwnLink(db.links, id, user) {
      return LinkReply(false, "Social link not found.", None);
    }
    db.links := db.links - {id};
    reply := LinkReply(true, "Social link deleted successfully.", None);
  }
}
