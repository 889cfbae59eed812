/** The friend-request graph of controllers/friend.js. Each user owns one
    friend document holding the users they are friends with and the users
    whose requests to them are pending; there is no list of sent requests.
    The store maps an owner's id to that owner's document. */
module Friends {
  import opened Common

  /** The friend document of one user; its owner is the key it is stored
      under. Entries are kept in insertion order and may repeat. */
  datatype FriendRecord = FriendRecord(friends: seq<UserId>, friendRequests: seq<UserId>)

  /** The document created for every new account. */
  const EMPTY_RECORD := FriendRecord([], [])

  /** Friendship as membership is symmetric: whoever is in a friends list has
      a document that lists the owner back. */
  ghost predicate Symmetric(m: map<UserId, FriendRecord>)
  {
    forall a, b :: a in m && b in m[a].friends ==> b in m && a in m[b].friends
  }

  /** The response body of the two read accessors. */
  datatype Listing = Listing(message: string, entries: seq<UserId>)

  /** The store after `owner`'s document gained `x` at the end of its friends
      list (`friend.friends.push({user: x})` followed by `save`). */
  function WithFriend(m: map<UserId, FriendRecord>, owner: UserId, x: UserId): (r: map<UserId, FriendRecord>)
    requires owner in m
    ensures r.Keys == m.Keys
    ensures forall u :: u in m && u != owner ==> r[u] == m[u]
    ensures r[owner].friendRequests == m[owner].friendRequests
    ensures r[owner].friends == m[owner].friends + [x]
  {
    m[owner := m[owner].(friends := m[owner].friends + [x])]
  }

  /** The store after every `x` entry left `owner`'s friends list
      (`friend.friends = friend.friends.filter(f => f.user != x)` followed by
      `save`). */
  function WithoutFriend(m: map<UserId, FriendRecord>, owner: UserId, x: UserId): (r: map<UserId, FriendRecord>)
    requires owner in m
    ensures r.Keys == m.Keys
    ensures forall u :: u in m && u != owner ==> r[u] == m[u]
    ensures r[owner].friendRequests == m[owner].friendRequests
    ensures forall v :: v in r[owner].friends <==> v in m[owner].friends && v != x
  {
    m[owner := m[owner].(friends := RemoveAll(m[owner].friends, x))]
  }

  /** The store after every request from `x` left `owner`'s incoming list. */
  function WithoutRequest(m: map<UserId, FriendRecord>, owner: UserId, x: UserId): (r: map<UserId, FriendRecord>)
    requires owner in m
    ensures r.Keys == m.Keys
    ensures forall u :: u in m && u != owner ==> r[u] == m[u]
    ensures r[owner].friends == m[owner].friends
    ensures x !in r[owner].friendRequests
  {
    m[owner := m[owner].(friendRequests := RemoveAll(m[owner].friendRequests, x))]
  }

  /** After an accept has saved both documents, friendship is still
      symmetric. */
  lemma AcceptKeepsSymmetry(m: map<UserId, FriendRecord>, accepter: UserId, requester: UserId)
    requires Symmetric(m)
    requires accepter in m && requester in m
    ensures Symmetric(WithFriend(WithFriend(WithoutRequest(m, accepter, requester), accepter, requester),
                                 requester, accepter))
  {
    var m1 := WithFriend(WithoutRequest(m, accepter, requester), accepter, requester);
    var m2 := WithFriend(m1, requester, accepter);
    forall a, b | a in m2 && b in m2[a].friends
      ensures b in m2 && a in m2[b].friends
    {
      if !((a == accepter && b == requester) || (a == requester && b == accepter)) {
        assert b in m[a].friends;
        assert a in m[b].friends;
      }
    }
  }

  /** What a completed accept leaves in the two documents. */
  lemma AcceptOutcome(m: map<UserId, FriendRecord>, accepter: UserId, requester: UserId)
    requires accepter in m && requester in m
    ensures var m2 := WithFriend(WithFriend(WithoutRequest(m, accepter, requester), accepter, requester),
                                 requester, accepter);
            && requester !in m2[accepter].friendRequests
            && (accepter != requester ==>
                  m2[accepter].friends == m[accepter].friends + [requester] &&
                  m2[requester].friends == m[requester].friends + [accepter])
            && (accepter == requester ==> m2[accepter].friends == m[accepter].friends + [accepter, accepter])
            && (Symmetric(m) ==> Symmetric(m2))
  {
    var m1 := WithFriend(WithoutRequest(m, accepter, requester), accepter, requester);
    var m2 := WithFriend(m1, requester, accepter);
    if accepter == requester {
      assert m2[accepter].friends == m[accepter].friends + [requester] + [accepter];
    }
    if Symmetric(m) {
      AcceptKeepsSymmetry(m, accepter, requester);
    }
  }

  /** After a removal has saved both documents, friendship is still
      symmetric. */
  lemma RemoveKeepsSymmetry(m: map<UserId, FriendRecord>, user: UserId, friend: UserId)
    requires Symmetric(m)
    requires user in m && friend in m
    ensures Symmetric(WithoutFriend(WithoutFriend(m, user, friend), friend, user))
  {
    var m1 := WithoutFriend(m, user, friend);
    var m2 := WithoutFriend(m1, friend, user);
    forall a, b | a in m2 && b in m2[a].friends
      ensures b in m2 && a in m2[b].friends
    {
      assert b in m1[a].friends;
      assert b in m[a].friends;
      assert a in m[b].friends;
      assert a in m1[b].friends;
    }
  }

  class FriendStore {
    var records: map<UserId, FriendRecord>

    constructor ()
      ensures records == map[]
    {
      records := map[];
    }

    /** `sendFriendRequest`: the caller `from` asks `to` for friendship. Only
        the recipient's incoming list changes. Requests to oneself, to a
        user already a friend, or to a user who has a pending request from
        the recipient are not refused. */
    method SendFriendRequest(from: UserId, to: UserId) returns (r: Result<()>)
      modifies this
      ensures to == "" ==>
        r == Err(Error(BadRequest, "Please mention ID to whom you want to send the request"))
      ensures to != "" && to !in old(records) ==>
        r == Err(Error(BadRequest, "No user with that ID found"))
      ensures to != "" && to in old(records) && from in old(records)[to].friendRequests ==>
        r == Err(Error(BadRequest, "Request already sent to this user"))
      ensures r.Err? ==> records == old(records)
      ensures r.Ok? <==> to != "" && to in old(records) && from !in old(records)[to].friendRequests
      ensures r.Ok? ==>
        records == old(records)[to := old(records)[to].(
                     friendRequests := old(records)[to].friendRequests + [from])]
      ensures r.Ok? ==> Count(records[to].friendRequests, from) == 1
      ensures Symmetric(old(records)) ==> Symmetric(records)
    {
      if to == "" {
        return Err(Error(BadRequest, "Please mention ID to whom you want to send the request"));
      }
      if to !in records {
        return Err(Error(BadRequest, "No user with that ID found"));
      }
      var friend := records[to];
      if from in friend.friendRequests {
        return Err(Error(BadRequest, "Request already sent to this user"));
      }
      CountAppend(friend.friendRequests, from, from);
      friend := friend.(friendRequests := friend.friendRequests + [from]);
      records := records[to := friend];
      r := Ok(());
    }

    /** `acceptFriendRequest`: the caller `user` accepts the pending request of
        `requester`. The accepter's document is saved first (every request
        from the requester dropped, the requester appended to friends); then
        the requester's document is loaded and the accepter appended to its
        friends. If the requester has no document the first save stays in
        place and the handler fails. */
    method AcceptFriendRequest(user: UserId, requester: UserId) returns (r: Result<UserId>)
      modifies this
      ensures requester == "" ==>
        r == Err(Error(BadRequest, "Please send requester user id")) && records == old(records)
      ensures requester != "" && user !in old(records) ==>
        r == Err(Fault) && records == old(records)
      ensures requester != "" && user in old(records) && requester !in old(records)[user].friendRequests ==>
        r == Err(Error(BadRequest, "No such Friend request exist")) && records == old(records)
      ensures requester != "" && user in old(records) && requester in old(records)[user].friendRequests ==>
        var m1 := WithFriend(WithoutRequest(old(records), user, requester), user, requester);
        if requester in m1 then r == Ok(requester) && records == WithFriend(m1, requester, user)
        else r == Err(Fault) && records == m1
      ensures r.Ok? ==> requester !in records[user].friendRequests
      ensures r.Ok? && user != requester ==>
        records[user].friends == old(records)[user].friends + [requester] &&
        records[requester].friends == old(records)[requester].friends + [user]
      ensures r.Ok? && user == requester ==> records[user].friends == old(records)[user].friends + [user, user]
      ensures r.Ok? ==> Symmetric(old(records)) ==> Symmetric(records)
    {
      if requester == "" {
        return Err(Error(BadRequest, "Please send requester user id"));
      }
      if user !in records {
        return Err(Fault);
      }
      var friend := records[user];
      if requester !in friend.friendRequests {
        return Err(Error(BadRequest, "No such Friend request exist"));
      }
      friend := friend.(friendRequests := RemoveAll(friend.friendRequests, requester));
      friend := friend.(friends := friend.friends + [requester]);
      records := records[user := friend];
      ghost var m1 := WithFriend(WithoutRequest(old(records), user, requester), user, requester);
      assert records == m1;
      if requester !in records {
        return Err(Fault);
      }
      friend := records[requester];
      friend := friend.(friends := friend.friends + [user]);
      records := records[requester := friend];
      assert records == WithFriend(m1, requester, user);
      AcceptOutcome(old(records), user, requester);
      r := Ok(requester);
    }

    /** `declineFriendRequest`: the caller drops every pending request from
        `friendId`; nothing else changes. Returns the remaining requests. */
    method DeclineFriendRequest(user: UserId, friendId: UserId) returns (r: Result<seq<UserId>>)
      modifies this
      ensures friendId == "" ==>
        r == Err(Error(BadRequest, "Please send friendId for declining the friend request"))
      ensures friendId != "" && user !in old(records) ==> r == Err(Fault)
      ensures friendId != "" && user in old(records) && friendId !in old(records)[user].friendRequests ==>
        r == Err(Error(BadRequest, "No such user's friend request exists"))
      ensures r.Err? ==> records == old(records)
      ensures r.Ok? <==> friendId != "" && user in old(records) && friendId in old(records)[user].friendRequests
      ensures r.Ok? ==>
        records == WithoutRequest(old(records), user, friendId) &&
        r.value == RemoveAll(old(records)[user].friendRequests, friendId)
      ensures Symmetric(old(records)) ==> Symmetric(records)
    {
      if friendId == "" {
        return Err(Error(BadRequest, "Please send friendId for declining the friend request"));
      }
      if user !in records {
        return Err(Fault);
      }
      var friend := records[user];
      if friendId !in friend.friendRequests {
        return Err(Error(BadRequest, "No such user's friend request exists"));
      }
      friend := friend.(friendRequests := RemoveAll(friend.friendRequests, friendId));
      records := records[user := friend];
      r := Ok(friend.friendRequests);
    }

    /** `removeFriend`: the caller's document loses every `friendId` entry and
        is saved; then `friendId`'s document loses every entry of the caller.
        Pending requests are untouched. If `friendId` has no document the
        first save stays in place and the handler fails. */
    method RemoveFriend(user: UserId, friendId: UserId) returns (r: Result<()>)
      modifies this
      ensures friendId == "" ==>
        r == Err(Error(BadRequest, "Please specify friend which is to be removed")) && records == old(records)
      ensures friendId != "" && user !in old(records) ==>
        r == Err(Fault) && records == old(records)
      ensures friendId != "" && user in old(records) && friendId !in old(records)[user].friends ==>
        r == Err(Error(BadRequest, "Friend with such friendId does not exists in the friends list")) &&
        records == old(records)
      ensures friendId != "" && user in old(records) && friendId in old(records)[user].friends ==>
        var m1 := WithoutFriend(old(records), user, friendId);
        if friendId in m1 then r == Ok(()) && records == WithoutFriend(m1, friendId, user)
        else r == Err(Fault) && records == m1
      ensures r.Ok? ==> friendId !in records[user].friends && user !in records[friendId].friends
      ensures r.Ok? ==> forall u :: u in old(records) ==>
                          u in records && records[u].friendRequests == old(records)[u].friendRequests
      ensures r.Ok? ==> Symmetric(old(records)) ==> Symmetric(records)
    {
      if friendId == "" {
        return Err(Error(BadRequest, "Please specify friend which is to be removed"));
      }
      if user !in records {
        return Err(Fault);
      }
      var friend := records[user];
      if friendId !in friend.friends {
        return Err(Error(BadRequest, "Friend with such friendId does not exists in the friends list"));
      }
      friend := friend.(friends := RemoveAll(friend.friends, friendId));
      records := records[user := friend];
      if friendId !in records {
        return Err(Fault);
      }
      friend := records[friendId];
      friend := friend.(friends := RemoveAll(friend.friends, user));
      if Symmetric(old(records)) {
        RemoveKeepsSymmetry(old(records), user, friendId);
      }
      records := records[friendId := friend];
      r := Ok(());
    }

    /** `getAllFriendRequests`: the caller's pending requests, as stored. */
    method GetAllFriendRequests(user: UserId) returns (r: Result<Listing>)
      ensures user !in records ==> r == Err(Fault)
      ensures user in records ==>
        r.Ok? && r.value.entries == records[user].friendRequests &&
        r.value.message == (if |r.value.entries| > 0 then "Pending Friend Requests found"
                            else "No pending friend request")
    {
      if user !in records {
        return Err(Fault);
      }
      var requests := records[user].friendRequests;
      r := Ok(Listing(if |requests| > 0 then "Pending Friend Requests found" else "No pending friend request",
                      requests));
    }

    /** `getAllFriends`: the caller's friends, as stored. */
    method GetAllFriends(user: UserId) returns (r: Result<Listing>)
      ensures user !in records ==> r == Err(Fault)
      ensures user in records ==>
        r.Ok? && r.value.entries == records[user].friends &&
        r.value.message == (if |r.value.entries| > 0 then "Friends Found" else "No Friends Found")
    {
      if user !in records {
        return Err(Fault);
      }
      var friends := records[user].friends;
      r := Ok(Listing(if |friends| > 0 then "Friends Found" else "No Friends Found", friends));
    }
  }
}
