/**
 * The user queries of internal/user/aql.go over the `users` and `follows`
 * collections: lookup by key, the following and mutual-following checks, the
 * follower and following counts and the removal of a follow edge. User
 * arguments are document ids ("users/<key>").
 */
module UserQueries {
  import opened Wrappers
  import opened Domain
  import opened Store
  import opened Collections

  /** `GetUserByID` through `QueryOne`: the user whose key equals `key`, or nothing. */
  function UserByKey(users: seq<User>, key: string): (r: Option<User>)
    ensures r.None? <==> forall i :: 0 <= i < |users| ==> users[i].key != key
    ensures r.Some? ==> r.value in users && r.value.key == key
  {
    Find(users, (u: User) => u.key == key)
  }

  /** A follows edge from `from` to `to`. */
  predicate Follows(e: FollowsEdge, from: string, to: string)
  {
    e.from == from && e.to == to
  }

  /** `CheckIsFollowing` with the repository's `len(results) > 0`. */
  function CheckIsFollowing(follows: seq<FollowsEdge>, from: string, to: string): (r: bool)
    ensures r <==> exists i :: 0 <= i < |follows| && follows[i].from == from && follows[i].to == to
  {
    Count(follows, (e: FollowsEdge) => Follows(e, from, to)) > 0
  }

  /** `CheckMutualFollowers`: both follow sub-queries are non-empty. */
  function CheckMutualFollowers(follows: seq<FollowsEdge>, user1: string, user2: string): (r: bool)
    ensures r <==> ((exists i :: 0 <= i < |follows| && follows[i].from == user1 && follows[i].to == user2)
                    && (exists j :: 0 <= j < |follows| && follows[j].from == user2 && follows[j].to == user1))
  {
    var follows1 := Filter(follows, (e: FollowsEdge) => Follows(e, user1, user2));
    var follows2 := Filter(follows, (e: FollowsEdge) => Follows(e, user2, user1));
    CountFilter(follows, (e: FollowsEdge) => Follows(e, user1, user2));
    CountFilter(follows, (e: FollowsEdge) => Follows(e, user2, user1));
    |follows1| > 0 && |follows2| > 0
  }

  /** Mutual following does not depend on the order of the two users. */
  lemma MutualSymmetric(follows: seq<FollowsEdge>, user1: string, user2: string)
    ensures CheckMutualFollowers(follows, user1, user2) == CheckMutualFollowers(follows, user2, user1)
    ensures CheckMutualFollowers(follows, user1, user2) ==
            (CheckIsFollowing(follows, user1, user2) && CheckIsFollowing(follows, user2, user1))
  {
  }

  /** `GetFollowerCount`: the number of follows edges into `user`. */
  function GetFollowerCount(follows: seq<FollowsEdge>, user: string): (n: nat)
    ensures n == |Filter(follows, (e: FollowsEdge) => e.to == user)|
    ensures n == 0 <==> forall i :: 0 <= i < |follows| ==> follows[i].to != user
  {
    CountFilter(follows, (e: FollowsEdge) => e.to == user);
    Count(follows, (e: FollowsEdge) => e.to == user)
  }

  /** `GetFollowingCount`: the number of follows edges out of `user`. */
  function GetFollowingCount(follows: seq<FollowsEdge>, user: string): (n: nat)
    ensures n == |Filter(follows, (e: FollowsEdge) => e.from == user)|
    ensures n == 0 <==> forall i :: 0 <= i < |follows| ==> follows[i].from != user
  {
    CountFilter(follows, (e: FollowsEdge) => e.from == user);
    Count(follows, (e: FollowsEdge) => e.from == user)
  }

  /** One more edge raises the follower count of its target and the following count of its source by one. */
  lemma CountsAfterFollow(follows: seq<FollowsEdge>, e: FollowsEdge)
    ensures GetFollowerCount(follows + [e], e.to) == GetFollowerCount(follows, e.to) + 1
    ensures GetFollowingCount(follows + [e], e.from) == GetFollowingCount(follows, e.from) + 1
  {
    CountConcat(follows, [e], (x: FollowsEdge) => x.to == e.to);
    CountConcat(follows, [e], (x: FollowsEdge) => x.from == e.from);
  }

  /** The follows edges left by `DeleteFollowEdge`: every edge from `from` to `to` is removed. */
  function Unfollowed(follows: seq<FollowsEdge>, from: string, to: string): (r: seq<FollowsEdge>)
    ensures |r| <= |follows|
    ensures forall e :: e in r <==> e in follows && !Follows(e, from, to)
  {
    var r := Filter(follows, (e: FollowsEdge) => !Follows(e, from, to));
    assert forall e :: e in follows && !Follows(e, from, to) ==> e in r by {
      forall e | e in follows && !Follows(e, from, to) ensures e in r {
        var i :| 0 <= i < |follows| && follows[i] == e;
      }
    }
    r
  }

  lemma UnfollowedSnoc(follows: seq<FollowsEdge>, e: FollowsEdge, from: string, to: string)
    ensures Unfollowed(follows + [e], from, to) ==
            Unfollowed(follows, from, to) + (if Follows(e, from, to) then [] else [e])
  {
    FilterConcat(follows, [e], (x: FollowsEdge) => !Follows(x, from, to));
  }

  /** After the removal the check is empty, and every other pair follows exactly as before. */
  lemma UnfollowedStopsFollowing(follows: seq<FollowsEdge>, from: string, to: string, a: string, b: string)
    ensures !CheckIsFollowing(Unfollowed(follows, from, to), from, to)
    ensures (a, b) != (from, to) ==> CheckIsFollowing(Unfollowed(follows, from, to), a, b) == CheckIsFollowing(follows, a, b)
  {
    var r := Unfollowed(follows, from, to);
    forall i | 0 <= i < |r| ensures !Follows(r[i], from, to) {
      assert r[i] in r;
    }
    if (a, b) != (from, to) {
      if CheckIsFollowing(follows, a, b) {
        var i :| 0 <= i < |follows| && follows[i].from == a && follows[i].to == b;
        assert follows[i] in r;
      }
      if CheckIsFollowing(r, a, b) {
        var i :| 0 <= i < |r| && r[i].from == a && r[i].to == b;
        assert r[i] in r;
      }
    }
  }

  /** Removing a pair nobody follows changes nothing. */
  lemma UnfollowedNothing(follows: seq<FollowsEdge>, from: string, to: string)
    requires !CheckIsFollowing(follows, from, to)
    ensures Unfollowed(follows, from, to) == follows
  {
    FilterAll(follows, (e: FollowsEdge) => !Follows(e, from, to));
  }

  /** `DeleteFollowEdge`: the removal runs over the edge collection, edge by edge. */
  method DeleteFollowEdge(db: Db, from: string, to: string) returns (err: Option<Error>)
    modifies db
    ensures UserDeleteFollow in old(db.failing) ==> err == Some(QueryFailed) && db.graph == old(db.graph)
    ensures UserDeleteFollow !in old(db.failing) ==>
      err == None && db.graph == old(db.graph).(follows := Unfollowed(old(db.graph.follows), from, to))
    ensures db.failing == old(db.failing) && db.nextKey == old(db.nextKey)
  {
    if UserDeleteFollow in db.failing {
      return Some(QueryFailed);
    }
    var kept := KeepOthers(db.graph.follows, from, to);
    db.graph := db.graph.(follows := kept);
    return None;
  }

  /** The loop of `DeleteFollowEdge`: the edges of `follows` in order, less every edge from `from` to `to`. */
  method KeepOthers(follows: seq<FollowsEdge>, from: string, to: string) returns (kept: seq<FollowsEdge>)
    ensures kept == Unfollowed(follows, from, to)
  {
    kept := [];
    var i := 0;
    while i < |follows|
      invariant 0 <= i <= |follows|
      invariant kept == Unfollowed(follows[..i], from, to)
    {
      if !(follows[i].from == from && follows[i].to == to) {
        kept := kept + [follows[i]];
      }
      UnfollowedSnoc(follows[..i], follows[i], from, to);
      assert follows[..i + 1] == follows[..i] + [follows[i]];
      i := i + 1;
    }
    assert follows[..i] == follows;
  }
}
