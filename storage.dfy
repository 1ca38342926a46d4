/**
 * The in-memory store of the server: two tables keyed by integer id, each with its own
 * auto-increment counter. A JavaScript `Map` is a map plus the order in which its keys were
 * first inserted; both are kept here, so that listing the table follows insertion order.
 */
module Storage {
  import opened Wrappers
  import opened Schema

  class MemStorage {
    var users: map<int, User>
    var userIds: seq<int>
    var recommendations: map<int, Recommendation>
    var recommendationIds: seq<int>
    var currentUserId: int
    var currentRecommendationId: int

    /** The users table: ids 1 to `currentUserId - 1` are in use, inserted in ascending order,
        and each record carries its own key. */
    ghost predicate UsersValid()
      reads this
    {
      && currentUserId >= 1
      && |userIds| == currentUserId - 1
      && (forall k | 0 <= k < |userIds| :: userIds[k] == k + 1)
      && (forall id :: id in users <==> 1 <= id < currentUserId)
      && (forall id | id in users :: users[id].id == id)
    }

    /** The recommendations table, with the same shape as the users table. */
    ghost predicate RecommendationsValid()
      reads this
    {
      && currentRecommendationId >= 1
      && |recommendationIds| == currentRecommendationId - 1
      && (forall k | 0 <= k < |recommendationIds| :: recommendationIds[k] == k + 1)
      && (forall id :: id in recommendations <==> 1 <= id < currentRecommendationId)
      && (forall id | id in recommendations :: recommendations[id].id == id)
    }

    ghost predicate Valid()
      reads this
    {
      UsersValid() && RecommendationsValid()
    }

    /** Both tables empty, both counters at 1. */
    constructor ()
      ensures Valid()
      ensures users == map[] && userIds == [] && currentUserId == 1
      ensures recommendations == map[] && recommendationIds == [] && currentRecommendationId == 1
    {
      users := map[];
      userIds := [];
      recommendations := map[];
      recommendationIds := [];
      currentUserId := 1;
      currentRecommendationId := 1;
    }

    /** The user stored under `id`, if any. */
    method GetUser(id: int) returns (u: Option<User>)
      requires Valid()
      ensures u.Some? <==> 1 <= id < currentUserId
      ensures u.Some? ==> u.value == users[id] && u.value.id == id
    {
      u := if id in users then Some(users[id]) else None;
    }

    /** The first inserted user whose username equals `username` exactly, if any. */
    method GetUserByUsername(username: string) returns (u: Option<User>)
      requires Valid()
      ensures u.Some? ==> u.value.id in users && users[u.value.id] == u.value && u.value.username == username
      ensures u.Some? ==> forall id | id in users && id < u.value.id :: users[id].username != username
      ensures u.None? ==> forall id | id in users :: users[id].username != username
    {
      var i := 0;
      while i < |userIds|
        invariant 0 <= i <= |userIds|
        invariant forall id | 1 <= id <= i :: users[id].username != username
      {
        var user := users[userIds[i]];
        if user.username == username {
          return Some(user);
        }
        i := i + 1;
      }
      return None;
    }

    /** Stores a new user under the next user id, which was not in use before. */
    method CreateUser(insert: InsertUser) returns (user: User)
      requires Valid()
      modifies this
      ensures Valid()
      ensures user == UserWithId(insert, old(currentUserId)) && user.id !in old(users)
      ensures currentUserId == old(currentUserId) + 1
      ensures users == old(users)[user.id := user] && userIds == old(userIds) + [user.id]
      ensures recommendations == old(recommendations) && recommendationIds == old(recommendationIds)
      ensures currentRecommendationId == old(currentRecommendationId)
    {
      var id := currentUserId;
      currentUserId := currentUserId + 1;
      user := UserWithId(insert, id);
      users := users[id := user];
      userIds := userIds + [id];
    }

    /** Stores a recommendation under the next recommendation id, which was not in use before;
        `createdAt` is the timestamp the clock gave. */
    method SaveRecommendation(insert: InsertRecommendation, createdAt: string) returns (saved: Recommendation)
      requires Valid()
      modifies this
      ensures Valid()
      ensures saved == RecommendationWithId(insert, old(currentRecommendationId), createdAt)
      ensures saved.id !in old(recommendations)
      ensures currentRecommendationId == old(currentRecommendationId) + 1
      ensures recommendations == old(recommendations)[saved.id := saved]
      ensures recommendationIds == old(recommendationIds) + [saved.id]
      ensures users == old(users) && userIds == old(userIds) && currentUserId == old(currentUserId)
    {
      var id := currentRecommendationId;
      currentRecommendationId := currentRecommendationId + 1;
      saved := RecommendationWithId(insert, id, createdAt);
      recommendations := recommendations[id := saved];
      recommendationIds := recommendationIds + [id];
    }

    /** The recommendation stored under `id`; nothing for an id that no save returned. */
    method GetRecommendation(id: int) returns (r: Option<Recommendation>)
      requires Valid()
      ensures r.Some? <==> 1 <= id < currentRecommendationId
      ensures r.Some? ==> r.value == recommendations[id] && r.value.id == id
    {
      r := if id in recommendations then Some(recommendations[id]) else None;
    }

    /** Every stored recommendation once, in insertion order, which is ascending id order. */
    method GetAllRecommendations() returns (all: seq<Recommendation>)
      requires Valid()
      ensures |all| == currentRecommendationId - 1
      ensures forall k | 0 <= k < |all| :: all[k] == recommendations[recommendationIds[k]]
      ensures forall k | 0 <= k < |all| :: all[k].id == k + 1
      ensures forall id | id in recommendations :: all[id - 1] == recommendations[id]
    {
      all := [];
      var i := 0;
      while i < |recommendationIds|
        invariant 0 <= i <= |recommendationIds|
        invariant |all| == i
        invariant forall k | 0 <= k < i :: all[k] == recommendations[recommendationIds[k]]
      {
        all := all + [recommendations[recommendationIds[i]]];
        i := i + 1;
      }
    }
  }

  /** Saving and then reading back by the returned id gives the saved record: its insert part is
      what was saved, plus the allocated id and the timestamp. */
  method SaveThenGet(store: MemStorage, insert: InsertRecommendation, createdAt: string)
    returns (saved: Recommendation, found: Option<Recommendation>)
    requires store.Valid()
    modifies store
    ensures store.Valid()
    ensures found == Some(saved)
    ensures InsertRecommendationOf(saved) == insert && saved.createdAt == createdAt
    ensures saved.id == old(store.currentRecommendationId)
    ensures forall id | id in old(store.recommendations) ::
      id in store.recommendations && store.recommendations[id] == old(store.recommendations)[id]
  {
    saved := store.SaveRecommendation(insert, createdAt);
    found := store.GetRecommendation(saved.id);
  }
}
