/**
 * The user service of internal/user/service.go over the repository of
 * internal/user/repository.go: reading and creating users, following and
 * unfollowing, and the mutual-follow check. The repository takes user keys
 * and binds them as "users/<key>". The service clock (`time.Now()`, in
 * milliseconds) is a parameter.
 */
module UserService {
  import opened Wrappers
  import opened Domain
  import opened Store
  import opened Text
  import opened UserQueries
  import opened Collections

  predicate UserKeyTaken(users: seq<User>, key: string)
  {
    exists i :: 0 <= i < |users| && users[i].key == key
  }

  predicate FollowKeyTaken(follows: seq<FollowsEdge>, key: string)
  {
    exists i :: 0 <= i < |follows| && follows[i].key == key
  }

  // ----- the repository -----------------------------------------------------

  /** `IsFollowing` of the repository: the check bound to "users/<followerId>" and "users/<followeeId>". */
  function IsFollowing(db: Db, followerId: string, followeeId: string): (r: Res<bool>)
    reads db
    ensures r.Fail? <==> UserIsFollowing in db.failing
    ensures r.Fail? ==> r.error == QueryFailed
    ensures r.Ok? ==> (r.value <==> exists i :: 0 <= i < |db.graph.follows| &&
                                     db.graph.follows[i].from == Id(Users, followerId) && db.graph.follows[i].to == Id(Users, followeeId))
  {
    db.Read(UserIsFollowing, CheckIsFollowing(db.graph.follows, Id(Users, followerId), Id(Users, followeeId)))
  }

  /**
   * `AreMutualFollowers` of the repository, which the service's own
   * `AreMutualFollowers` returns unchanged; false together with the error on
   * failure. The query always yields one row, so the no-row branch is never taken.
   */
  function AreMutualFollowers(db: Db, userId1: string, userId2: string): (r: (bool, Option<Error>))
    reads db
    ensures r.1.Some? <==> UserAreMutualFollowers in db.failing
    ensures r.1.Some? ==> r == (false, Some(QueryFailed))
    ensures r.1.None? ==> r.0 == CheckMutualFollowers(db.graph.follows, Id(Users, userId1), Id(Users, userId2))
  {
    var result := db.Read(UserAreMutualFollowers, CheckMutualFollowers(db.graph.follows, Id(Users, userId1), Id(Users, userId2)));
    if result.Fail? then (false, Some(result.error)) else (result.value, None)
  }

  /** The mutual check answers the same with the two users swapped. */
  lemma AreMutualFollowersSymmetric(db: Db, userId1: string, userId2: string)
    ensures AreMutualFollowers(db, userId1, userId2) == AreMutualFollowers(db, userId2, userId1)
  {
    MutualSymmetric(db.graph.follows, Id(Users, userId1), Id(Users, userId2));
  }

  /** `GetFollowerCount` of the repository; 0 together with the error on failure. */
  function FollowerCount(db: Db, userId: string): (r: (int, Option<Error>))
    reads db
    ensures r.1.Some? <==> UserGetFollowerCount in db.failing
    ensures r.1.Some? ==> r == (0, Some(QueryFailed))
    ensures r.1.None? ==> r.0 == |Filter(db.graph.follows, (e: FollowsEdge) => e.to == Id(Users, userId))|
  {
    var result := db.Read(UserGetFollowerCount, GetFollowerCount(db.graph.follows, Id(Users, userId)));
    if result.Fail? then (0, Some(result.error)) else (result.value, None)
  }

  /** `GetFollowingCount` of the repository; 0 together with the error on failure. */
  function FollowingCount(db: Db, userId: string): (r: (int, Option<Error>))
    reads db
    ensures r.1.Some? <==> UserGetFollowingCount in db.failing
    ensures r.1.Some? ==> r == (0, Some(QueryFailed))
    ensures r.1.None? ==> r.0 == |Filter(db.graph.follows, (e: FollowsEdge) => e.from == Id(Users, userId))|
  {
    var result := db.Read(UserGetFollowingCount, GetFollowingCount(db.graph.follows, Id(Users, userId)));
    if result.Fail? then (0, Some(result.error)) else (result.value, None)
  }

  /**
   * The repository's `CreateFollow`: an edge from "users/<followerId>" to
   * "users/<followeeId>" under a key the store generates; its `createdAt` is
   * never set, so it is stored as 0.
   */
  method CreateFollow(db: Db, followerId: string, followeeId: string) returns (r: Res<string>)
    modifies db
    ensures UserCreateFollow in old(db.failing) ==>
      r == Fail(InsertFailed) && db.graph == old(db.graph) && db.nextKey == old(db.nextKey)
    ensures UserCreateFollow !in old(db.failing) ==> db.nextKey == old(db.nextKey) + 1
    ensures UserCreateFollow !in old(db.failing) && FollowKeyTaken(old(db.graph.follows), Decimal(old(db.nextKey))) ==>
      r == Fail(Wrap("create document: ", DuplicateKey)) && db.graph == old(db.graph)
    ensures UserCreateFollow !in old(db.failing) && !FollowKeyTaken(old(db.graph.follows), Decimal(old(db.nextKey))) ==>
      r == Ok(Decimal(old(db.nextKey)))
      && db.graph == old(db.graph).(follows := old(db.graph.follows) + [FollowEdge(Decimal(old(db.nextKey)), followerId, followeeId)])
    ensures db.failing == old(db.failing)
  {
    if UserCreateFollow in db.failing {
      return Fail(InsertFailed);
    }
    var key := db.GenerateKey();
    if FollowKeyTaken(db.graph.follows, key) {
      return Fail(Wrap("create document: ", DuplicateKey));
    }
    db.graph := db.graph.(follows := db.graph.follows + [FollowEdge(key, followerId, followeeId)]);
    return Ok(key);
  }

  /** The repository's `DeleteFollow`: the removal bound to the two user ids. */
  method DeleteFollow(db: Db, followerId: string, followeeId: string) returns (err: Option<Error>)
    modifies db
    ensures UserDeleteFollow in old(db.failing) ==> err == Some(QueryFailed) && db.graph == old(db.graph)
    ensures UserDeleteFollow !in old(db.failing) ==>
      err == None && db.graph == old(db.graph).(follows := Unfollowed(old(db.graph.follows), Id(Users, followerId), Id(Users, followeeId)))
    ensures db.failing == old(db.failing) && db.nextKey == old(db.nextKey)
  {
    err := DeleteFollowEdge(db, Id(Users, followerId), Id(Users, followeeId));
  }

  // ----- GetUser and CreateUser -------------------------------------------------

  /** `GetUser`: the user by key; a missing user is `NotFound`. */
  function GetUser(db: Db, id: string): (r: Res<User>)
    reads db
    ensures UserGetByID in db.failing ==> r == Fail(Wrap("get user: ", QueryFailed))
    ensures r == Fail(Domain(NotFound)) <==> UserGetByID !in db.failing && !UserKeyTaken(db.graph.users, id)
    ensures r.Ok? ==> r.value in db.graph.users && r.value.key == id
    ensures UserGetByID !in db.failing && UserKeyTaken(db.graph.users, id) ==> r.Ok?
  {
    var user := db.Read(UserGetByID, UserByKey(db.graph.users, id));
    if user.Fail? then Fail(Wrap("get user: ", user.error))
    else if user.value.None? then Fail(Domain(NotFound))
    else Ok(user.value.value)
  }

  datatype CreateUserRequest = CreateUserRequest(username: string, interests: seq<string>, settings: UserSettings)
  datatype CreateUserResponse = CreateUserResponse(key: string, createdAt: int)

  /** The user document `CreateUser` inserts, before the store gives it a key: no posts or responses yet. */
  function NewUser(req: CreateUserRequest, now: int): User
  {
    User("", req.username, now, req.interests, [], req.settings, UserStats(0, 0), None)
  }

  /** `CreateUser` at time `now`: one user document under a generated key. */
  function UserCreated(g: Graph, failing: set<Op>, nextKey: nat, req: CreateUserRequest, now: int): (c: Creation<CreateUserResponse>)
    ensures UserCreate in failing ==> c == Creation(Fail(Wrap("create user: ", InsertFailed)), g, nextKey)
    ensures c.result.Ok? <==> UserCreate !in failing && !UserKeyTaken(g.users, Decimal(nextKey))
    ensures c.result.Ok? ==> c.result.value == CreateUserResponse(Decimal(nextKey), now)
    ensures c.result.Ok? ==> c.graph == g.(users := g.users + [NewUser(req, now).(key := Decimal(nextKey))])
    ensures c.result.Fail? ==> c.graph == g
  {
    if UserCreate in failing then Creation(Fail(Wrap("create user: ", InsertFailed)), g, nextKey)
    else
      var key := Decimal(nextKey);
      if UserKeyTaken(g.users, key) then
        Creation(Fail(Wrap("create user: ", Wrap("create document: ", DuplicateKey))), g, nextKey + 1)
      else Creation(Ok(CreateUserResponse(key, now)), g.(users := g.users + [NewUser(req, now).(key := key)]), nextKey + 1)
  }

  /** The repository's `Create` for users: the store generates the key. */
  method CreateUserDocument(db: Db, user: User) returns (r: Res<string>)
    modifies db
    ensures UserCreate in old(db.failing) ==>
      r == Fail(InsertFailed) && db.graph == old(db.graph) && db.nextKey == old(db.nextKey)
    ensures UserCreate !in old(db.failing) ==> db.nextKey == old(db.nextKey) + 1
    ensures UserCreate !in old(db.failing) && UserKeyTaken(old(db.graph.users), Decimal(old(db.nextKey))) ==>
      r == Fail(Wrap("create document: ", DuplicateKey)) && db.graph == old(db.graph)
    ensures UserCreate !in old(db.failing) && !UserKeyTaken(old(db.graph.users), Decimal(old(db.nextKey))) ==>
      r == Ok(Decimal(old(db.nextKey)))
      && db.graph == old(db.graph).(users := old(db.graph.users) + [user.(key := Decimal(old(db.nextKey)))])
    ensures db.failing == old(db.failing)
  {
    if UserCreate in db.failing {
      return Fail(InsertFailed);
    }
    var key := db.GenerateKey();
    if UserKeyTaken(db.graph.users, key) {
      return Fail(Wrap("create document: ", DuplicateKey));
    }
    db.graph := db.graph.(users := db.graph.users + [user.(key := key)]);
    return Ok(key);
  }

  method CreateUser(db: Db, req: CreateUserRequest, now: int) returns (r: Res<CreateUserResponse>)
    modifies db
    ensures UserCreated(old(db.graph), old(db.failing), old(db.nextKey), req, now) == Creation(r, db.graph, db.nextKey)
    ensures db.failing == old(db.failing)
  {
    var user := NewUser(req, now);
    var key := CreateUserDocument(db, user);
    if key.Fail? {
      return Fail(Wrap("create user: ", key.error));
    }
    return Ok(CreateUserResponse(key.value, now));
  }

  /** A created user is read back under the returned key, with empty stats and the same creation time. */
  lemma CreatedThenGet(g: Graph, failing: set<Op>, nextKey: nat, req: CreateUserRequest, now: int)
    requires UserCreated(g, failing, nextKey, req, now).result.Ok? && UserGetByID !in failing
    ensures var c := UserCreated(g, failing, nextKey, req, now);
      UserByKey(c.graph.users, c.result.value.key) == Some(NewUser(req, now).(key := c.result.value.key))
      && UserByKey(c.graph.users, c.result.value.key).value.stats == UserStats(0, 0)
      && UserByKey(c.graph.users, c.result.value.key).value.createdAt == c.result.value.createdAt
  {
    var c := UserCreated(g, failing, nextKey, req, now);
    var key := Decimal(nextKey);
    assert forall j :: 0 <= j < |g.users| ==> c.graph.users[j].key != key;
    FindAt(c.graph.users, (u: User) => u.key == key, |g.users|);
  }

  // ----- following ----------------------------------------------------------------

  datatype FollowUserResponse = FollowUserResponse(success: bool, followId: string)

  /** The follows edge `CreateFollow` inserts. */
  function FollowEdge(key: string, followerId: string, followeeId: string): FollowsEdge
  {
    FollowsEdge(key, Id(Users, followerId), Id(Users, followeeId), 0)
  }

  /**
   * `FollowUser`: an existing follow is rejected; the two user lookups abort
   * only on a store error, so a missing user or following oneself is accepted;
   * then one follows edge is inserted under a generated key.
   */
  function Following(g: Graph, failing: set<Op>, nextKey: nat, followerId: string, followeeId: string)
    : (c: Creation<FollowUserResponse>)
    ensures UserIsFollowing in failing ==> c == Creation(Fail(Wrap("check following: ", QueryFailed)), g, nextKey)
    ensures c.result == Fail(Domain(AlreadyExists)) <==>
      UserIsFollowing !in failing && CheckIsFollowing(g.follows, Id(Users, followerId), Id(Users, followeeId))
    ensures c.result.Ok? <==>
      UserIsFollowing !in failing && !CheckIsFollowing(g.follows, Id(Users, followerId), Id(Users, followeeId))
      && UserGetByID !in failing && UserCreateFollow !in failing && !FollowKeyTaken(g.follows, Decimal(nextKey))
    ensures c.result.Ok? ==> c.result.value == FollowUserResponse(true, Decimal(nextKey))
    ensures c.result.Ok? ==> c.graph == g.(follows := g.follows + [FollowEdge(Decimal(nextKey), followerId, followeeId)])
    ensures c.result.Fail? ==> c.graph == g
  {
    if UserIsFollowing in failing then Creation(Fail(Wrap("check following: ", QueryFailed)), g, nextKey)
    else if CheckIsFollowing(g.follows, Id(Users, followerId), Id(Users, followeeId)) then
      Creation(Fail(Domain(AlreadyExists)), g, nextKey)
    else if UserGetByID in failing then Creation(Fail(Wrap("get follower: ", QueryFailed)), g, nextKey)
    else if UserCreateFollow in failing then Creation(Fail(Wrap("create follow: ", InsertFailed)), g, nextKey)
    else
      var key := Decimal(nextKey);
      if FollowKeyTaken(g.follows, key) then
        Creation(Fail(Wrap("create follow: ", Wrap("create document: ", DuplicateKey))), g, nextKey + 1)
      else
        Creation(Ok(FollowUserResponse(true, key)),
                 g.(follows := g.follows + [FollowEdge(key, followerId, followeeId)]), nextKey + 1)
  }

  method FollowUser(db: Db, followerId: string, followeeId: string) returns (r: Res<FollowUserResponse>)
    modifies db
    ensures Following(old(db.graph), old(db.failing), old(db.nextKey), followerId, followeeId) == Creation(r, db.graph, db.nextKey)
    ensures db.failing == old(db.failing)
  {
    var isFollowing := IsFollowing(db, followerId, followeeId);
    if isFollowing.Fail? {
      return Fail(Wrap("check following: ", isFollowing.error));
    }
    if isFollowing.value {
      return Fail(Domain(AlreadyExists));
    }
    // the users found are not used: only a store error stops the follow
    var follower := db.Read(UserGetByID, UserByKey(db.graph.users, followerId));
    if follower.Fail? {
      return Fail(Wrap("get follower: ", follower.error));
    }
    var followId := CreateFollow(db, followerId, followeeId);
    if followId.Fail? {
      return Fail(Wrap("create follow: ", followId.error));
    }
    return Ok(FollowUserResponse(true, followId.value));
  }

  /** Following twice: the second attempt is `AlreadyExists` and adds nothing. */
  lemma FollowTwice(g: Graph, failing: set<Op>, nextKey: nat, followerId: string, followeeId: string)
    requires Following(g, failing, nextKey, followerId, followeeId).result.Ok?
    ensures var c := Following(g, failing, nextKey, followerId, followeeId);
      Following(c.graph, failing, c.nextKey, followerId, followeeId) == Creation(Fail(Domain(AlreadyExists)), c.graph, c.nextKey)
  {
    var c := Following(g, failing, nextKey, followerId, followeeId);
    assert c.graph.follows[|g.follows|] == FollowEdge(Decimal(nextKey), followerId, followeeId);
  }

  /**
   * A follow is accepted whatever the users collection holds: with the same
   * follows and store state it succeeds for unknown users and for oneself.
   */
  lemma FollowNoExistenceCheck(g: Graph, failing: set<Op>, nextKey: nat, followerId: string, followeeId: string, users: seq<User>)
    ensures Following(g, failing, nextKey, followerId, followeeId) ==
            Following(g.(users := users), failing, nextKey, followerId, followeeId).(graph := g.(follows :=
              Following(g.(users := users), failing, nextKey, followerId, followeeId).graph.follows))
  {
  }

  /** A successful follow adds one follower to the followee and one followed user to the follower. */
  lemma FollowRaisesCounts(g: Graph, failing: set<Op>, nextKey: nat, followerId: string, followeeId: string)
    requires Following(g, failing, nextKey, followerId, followeeId).result.Ok?
    ensures var after := Following(g, failing, nextKey, followerId, followeeId).graph.follows;
      && GetFollowerCount(after, Id(Users, followeeId)) == GetFollowerCount(g.follows, Id(Users, followeeId)) + 1
      && GetFollowingCount(after, Id(Users, followerId)) == GetFollowingCount(g.follows, Id(Users, followerId)) + 1
      && CheckIsFollowing(after, Id(Users, followerId), Id(Users, followeeId))
  {
    var e := FollowEdge(Decimal(nextKey), followerId, followeeId);
    CountsAfterFollow(g.follows, e);
    var after := Following(g, failing, nextKey, followerId, followeeId).graph.follows;
    assert after[|g.follows|] == e;
  }

  /** `UnfollowUser`: exactly the repository's edge removal. */
  method UnfollowUser(db: Db, followerId: string, followeeId: string) returns (err: Option<Error>)
    modifies db
    ensures UserDeleteFollow in old(db.failing) ==> err == Some(QueryFailed) && db.graph == old(db.graph)
    ensures UserDeleteFollow !in old(db.failing) ==>
      err == None && db.graph == old(db.graph).(follows := Unfollowed(old(db.graph.follows), Id(Users, followerId), Id(Users, followeeId)))
    ensures db.failing == old(db.failing) && db.nextKey == old(db.nextKey)
  {
    err := DeleteFollow(db, followerId, followeeId);
  }

  /** Following and then unfollowing restores the follows collection exactly. */
  lemma FollowThenUnfollow(g: Graph, failing: set<Op>, nextKey: nat, followerId: string, followeeId: string)
    requires Following(g, failing, nextKey, followerId, followeeId).result.Ok?
    ensures var after := Following(g, failing, nextKey, followerId, followeeId).graph.follows;
      Unfollowed(after, Id(Users, followerId), Id(Users, followeeId)) == g.follows
  {
    var e := FollowEdge(Decimal(nextKey), followerId, followeeId);
    UnfollowedSnoc(g.follows, e, Id(Users, followerId), Id(Users, followeeId));
    UnfollowedNothing(g.follows, Id(Users, followerId), Id(Users, followeeId));
  }

  /** Two follows in opposite directions make the pair mutual followers. */
  lemma FollowBackMutual(g: Graph, failing: set<Op>, nextKey: nat, a: string, b: string)
    requires CheckIsFollowing(g.follows, Id(Users, b), Id(Users, a))
    requires Following(g, failing, nextKey, a, b).result.Ok?
    ensures var after := Following(g, failing, nextKey, a, b).graph.follows;
      CheckMutualFollowers(after, Id(Users, a), Id(Users, b))
  {
    var after := Following(g, failing, nextKey, a, b).graph.follows;
    assert after[|g.follows|] == FollowEdge(Decimal(nextKey), a, b);
    var i :| 0 <= i < |g.follows| && g.follows[i].from == Id(Users, b) && g.follows[i].to == Id(Users, a);
    assert after[i] == g.follows[i];
  }
}
