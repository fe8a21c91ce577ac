/**
 * The two aggregation handlers of the user controller.  `getUserChannelProfile` finds a channel
 * by username and counts its subscription records; an aggregation `$match` is not cast by the
 * schema, so the requested name is only lowercased (not trimmed) before it is compared with the
 * stored username.  `getWatchHistory` is modelled as it behaves: its answer reads a field the
 * aggregation never produces.
 */
module ChannelProfile {
  import opened Common
  import opened JsText
  import opened UserModel
  import opened UserController

  type SubscriptionId = nat

  /** A subscription record: `subscriber` follows `channel`. */
  datatype Subscription = Subscription(subscriber: UserId, channel: UserId)

  /** The projected channel document. */
  datatype Channel = Channel(
    id: UserId, fullName: string, username: string, subscribersCount: nat, channelsSubscribedTo: nat,
    isSubscribed: bool, avatar: string, coverImage: Option<string>, email: string)

  /** The `subscribers` lookup: subscriptions whose channel is `id`. */
  function SubscribersOf(subs: map<SubscriptionId, Subscription>, id: UserId): set<SubscriptionId> {
    set s | s in subs && subs[s].channel == id
  }

  /** The `subscribedTo` lookup: subscriptions whose subscriber is `id`. */
  function SubscribedToBy(subs: map<SubscriptionId, Subscription>, id: UserId): set<SubscriptionId> {
    set s | s in subs && subs[s].subscriber == id
  }

  /** `$in: [req.user?._id, "$subscribers.subscriber"]`: a guest is never among the subscribers. */
  predicate Follows(subs: map<SubscriptionId, Subscription>, requester: Option<UserId>, id: UserId) {
    requester.Some? && exists s :: s in subs && subs[s].channel == id && subs[s].subscriber == requester.value
  }

  /** The `$lookup`, `$addFields` and `$project` stages applied to the user record `id`. */
  function ChannelOf(users: map<UserId, User>, subs: map<SubscriptionId, Subscription>, id: UserId, requester: Option<UserId>)
    : (c: Channel)
    requires id in users
    ensures c.id == id && c.username == users[id].username && c.email == users[id].email
    ensures c.fullName == users[id].fullName && c.avatar == users[id].avatar && c.coverImage == users[id].coverImage
    ensures c.subscribersCount <= |subs| && c.channelsSubscribedTo <= |subs|
    ensures c.isSubscribed <==>
      requester.Some? && exists s :: s in SubscribersOf(subs, id) && subs[s].subscriber == requester.value
  {
    assert SubscribersOf(subs, id) <= subs.Keys && SubscribedToBy(subs, id) <= subs.Keys;
    SubsetCard(SubscribersOf(subs, id), subs.Keys);
    SubsetCard(SubscribedToBy(subs, id), subs.Keys);
    var u := users[id];
    Channel(id, u.fullName, u.username, |SubscribersOf(subs, id)|, |SubscribedToBy(subs, id)|,
            Follows(subs, requester, id), u.avatar, u.coverImage, u.email)
  }

  lemma SubsetCard<T>(a: set<T>, b: set<T>)
    requires a <= b
    ensures |a| <= |b|
  {
    assert b == a + (b - a);
  }

  /** The ids the `$match` stage lets through. */
  function ChannelHits(users: map<UserId, User>, name: string): set<UserId> {
    set id | id in users && users[id].username == Lower(name)
  }

  /** `getUserChannelProfile` with the route parameter `username` and the user the middleware
      attached (`None` for a guest or a `null` user); `channel[0]` is taken to be the matching
      record with the least id. */
  function GetUserChannelProfile(
    users: map<UserId, User>, subs: map<SubscriptionId, Subscription>, username: Option<string>,
    requester: Option<UserId>)
    : (r: Result<Channel>)
    ensures username.None? || Trim(username.value) == "" ==> r == Err(400, "username is missing")
    ensures username.Some? && Trim(username.value) != "" ==>
      (r.Ok? <==> exists id :: id in users && users[id].username == Lower(username.value))
    ensures r.Err? && username.Some? && Trim(username.value) != "" ==> r == Err(404, "channel does not exist")
    ensures r.Ok? ==>
      && username.Some?
      && r.value.id in users
      && users[r.value.id].username == Lower(username.value)
      && r.value.username == users[r.value.id].username
      && r.value.email == users[r.value.id].email
      && r.value.subscribersCount == |SubscribersOf(subs, r.value.id)|
      && r.value.channelsSubscribedTo == |SubscribedToBy(subs, r.value.id)|
      && (r.value.isSubscribed <==> Follows(subs, requester, r.value.id))
      && r.value == ChannelOf(users, subs, r.value.id, requester)
  {
    if username.None? || Trim(username.value) == "" then Err(400, "username is missing")
    else
      var hits := ChannelHits(users, username.value);
      if hits == {} then
        assert forall id :: id in users ==> users[id].username != Lower(username.value) by {
          forall id | id in users ensures users[id].username != Lower(username.value) {
            assert id !in hits;
          }
        }
        Err(404, "channel does not exist")
      else
        var id := Least(hits);
        Ok(ChannelOf(users, subs, id, requester))
  }

  /** The stored (normalized) username finds its own record. */
  lemma StoredUsernameFindsChannel(
    users: map<UserId, User>, subs: map<SubscriptionId, Subscription>, id: UserId, requester: Option<UserId>)
    requires CollectionInvariant(users) && id in users
    ensures GetUserChannelProfile(users, subs, Some(users[id].username), requester)
      == Ok(ChannelOf(users, subs, id, requester))
  {
    var name := users[id].username;
    KeyIsNormalized(name);
    assert Trim(name) == name;
    assert Lower(name) == name;
    var hits := ChannelHits(users, name);
    assert id in hits;
    var m := Least(hits);
    assert users[m].username == name;
  }

  /** The lookup ignores the case of the requested name. */
  lemma {:induction false} ChannelLookupIgnoresCase(
    users: map<UserId, User>, subs: map<SubscriptionId, Subscription>, name: string, requester: Option<UserId>)
    ensures GetUserChannelProfile(users, subs, Some(Lower(name)), requester)
      == GetUserChannelProfile(users, subs, Some(name), requester)
  {
    LowerIdempotent(name);
    TrimCommutesWithLower(name);
    assert |Lower(Trim(name))| == |Trim(name)|;
    SameHitsSameProfile(users, subs, Lower(name), name, requester);
  }

  /** The profile depends on the requested name only through the blank check and the ids the
      `$match` stage lets through. */
  lemma SameHitsSameProfile(
    users: map<UserId, User>, subs: map<SubscriptionId, Subscription>, a: string, b: string, requester: Option<UserId>)
    requires (Trim(a) == []) == (Trim(b) == [])
    requires Lower(a) == Lower(b)
    ensures GetUserChannelProfile(users, subs, Some(a), requester) == GetUserChannelProfile(users, subs, Some(b), requester)
  {
    assert ChannelHits(users, a) == ChannelHits(users, b);
  }

  /** Unlike login, the channel lookup does not trim: a name with white space at either end
      finds no channel once usernames are stored normalized. */
  lemma PaddedNameNotFound(
    users: map<UserId, User>, subs: map<SubscriptionId, Subscription>, name: string, requester: Option<UserId>)
    requires CollectionInvariant(users)
    requires Trim(name) != [] && (IsWhitespace(name[0]) || IsWhitespace(name[|name| - 1]))
    ensures GetUserChannelProfile(users, subs, Some(name), requester) == Err(404, "channel does not exist")
  {
    LowerPointwise(name);
    LowerCharKeepsWhitespace(name[0]);
    LowerCharKeepsWhitespace(name[|name| - 1]);
    forall id | id in users ensures users[id].username != Lower(name) {
      assert IsKey(users[id].username);
    }
  }

  /** A guest is never reported as subscribed. */
  lemma GuestNeverSubscribed(users: map<UserId, User>, subs: map<SubscriptionId, Subscription>, name: Option<string>)
    requires GetUserChannelProfile(users, subs, name, None).Ok?
    ensures !GetUserChannelProfile(users, subs, name, None).value.isSubscribed
  {
  }

  /** A new subscription of `follower` to `channel` raises the channel's subscriber count and the
      follower's subscription count by one and makes the follower see the channel as subscribed. */
  lemma SubscribeCounts(
    users: map<UserId, User>, subs: map<SubscriptionId, Subscription>, sid: SubscriptionId,
    follower: UserId, channel: UserId)
    requires sid !in subs && channel in users && follower in users
    ensures var after := subs[sid := Subscription(follower, channel)];
      && ChannelOf(users, after, channel, Some(follower)).subscribersCount
         == ChannelOf(users, subs, channel, Some(follower)).subscribersCount + 1
      && ChannelOf(users, after, follower, None).channelsSubscribedTo
         == ChannelOf(users, subs, follower, None).channelsSubscribedTo + 1
      && ChannelOf(users, after, channel, Some(follower)).isSubscribed
  {
    var after := subs[sid := Subscription(follower, channel)];
    SubscribersGrow(subs, sid, follower, channel);
    SubscribedToGrows(subs, sid, follower, channel);
    assert sid in after && after[sid].channel == channel && after[sid].subscriber == follower;
  }

  lemma SubscribersGrow(subs: map<SubscriptionId, Subscription>, sid: SubscriptionId, follower: UserId, channel: UserId)
    requires sid !in subs
    ensures |SubscribersOf(subs[sid := Subscription(follower, channel)], channel)| == |SubscribersOf(subs, channel)| + 1
  {
    var after := subs[sid := Subscription(follower, channel)];
    var a := SubscribersOf(subs, channel);
    forall s | s in SubscribersOf(after, channel) ensures s in a + {sid} {
      if s != sid { assert s in subs; }
    }
    forall s | s in a + {sid} ensures s in SubscribersOf(after, channel) {
      if s != sid { assert s in subs && subs[s].channel == channel; }
    }
    assert SubscribersOf(after, channel) == a + {sid};
    assert sid !in a;
  }

  lemma SubscribedToGrows(subs: map<SubscriptionId, Subscription>, sid: SubscriptionId, follower: UserId, channel: UserId)
    requires sid !in subs
    ensures |SubscribedToBy(subs[sid := Subscription(follower, channel)], follower)| == |SubscribedToBy(subs, follower)| + 1
  {
    var after := subs[sid := Subscription(follower, channel)];
    var a := SubscribedToBy(subs, follower);
    forall s | s in SubscribedToBy(after, follower) ensures s in a + {sid} {
      if s != sid { assert s in subs; }
    }
    forall s | s in a + {sid} ensures s in SubscribedToBy(after, follower) {
      if s != sid { assert s in subs && subs[s].subscriber == follower; }
    }
    assert SubscribedToBy(after, follower) == a + {sid};
    assert sid !in a;
  }

  // ----- getWatchHistory -----

  /** `getWatchHistory` for the user the middleware attached (`None` for `null`): reading
      `req.user._id` on `null` throws, an id matching no record leaves `user[0]` undefined and
      reading from it throws, and otherwise the answer is `user[0].WatchHistory`, which is
      undefined (`None`) because the looked-up field is `watchHistory`. */
  function GetWatchHistory(users: map<UserId, User>, requester: Option<UserId>): (r: Result<Option<seq<VideoId>>>)
    ensures r.Err? ==> r.status == InternalError
    ensures r.Ok? <==> requester.Some? && requester.value in users
    ensures r.Ok? ==> r.value.None?
  {
    if requester.None? then Err(InternalError, "Cannot read properties of null (reading '_id')")
    else if requester.value !in users then Err(InternalError, "Cannot read properties of undefined (reading 'WatchHistory')")
    else Ok(None)
  }

  /** The answer does not depend on what the user watched. */
  lemma WatchHistoryIgnored(users: map<UserId, User>, id: UserId, history: seq<VideoId>)
    requires id in users
    ensures GetWatchHistory(users[id := users[id].(watchHistory := history)], Some(id)) == GetWatchHistory(users, Some(id))
    ensures GetWatchHistory(users, Some(id)) == Ok(None)
  {
  }
}
