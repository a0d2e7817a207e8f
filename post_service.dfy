/**
 * The post service of internal/post/service.go: reading a post with its tags,
 * creating text posts and polls (the post, its authorship edge, its resolved
 * tags and one tag edge per key), responding to a post and voting on a poll.
 * Each operation is a sequence of guarded store calls; it is specified by a
 * function of the store before the call giving the result and the store after.
 */
module PostService {
  import opened Wrappers
  import opened Domain
  import opened Store
  import opened Text
  import opened Collections
  import opened PostQueries
  import opened TagQueries
  import opened TagService
  import Grouping

  // ----- the repository's edge inserts (internal/post/repository.go) --------

  method CreateCreatedEdge(db: Db, userId: string, postId: string, createdAt: int) returns (err: Option<Error>)
    modifies db
    ensures PostCreateCreatedEdge in db.failing ==> err == Some(InsertFailed) && db.graph == old(db.graph)
    ensures PostCreateCreatedEdge !in db.failing ==>
      err == None && db.graph == old(db.graph).(created := old(db.graph.created) + [CreatedEdge(Id(Users, userId), Id(Posts, postId), createdAt)])
    ensures db.failing == old(db.failing) && db.nextKey == old(db.nextKey)
  {
    if PostCreateCreatedEdge in db.failing {
      return Some(InsertFailed);
    }
    db.graph := db.graph.(created := db.graph.created + [CreatedEdge(Id(Users, userId), Id(Posts, postId), createdAt)]);
    return None;
  }

  method CreateRespondedEdge(db: Db, userId: string, postId: string, chatId: string, createdAt: int) returns (err: Option<Error>)
    modifies db
    ensures PostCreateRespondedEdge in db.failing ==> err == Some(InsertFailed) && db.graph == old(db.graph)
    ensures PostCreateRespondedEdge !in db.failing ==>
      err == None && db.graph == old(db.graph).(responded := old(db.graph.responded) + [RespondedEdge(Id(Users, userId), Id(Posts, postId), chatId, createdAt)])
    ensures db.failing == old(db.failing) && db.nextKey == old(db.nextKey)
  {
    if PostCreateRespondedEdge in db.failing {
      return Some(InsertFailed);
    }
    db.graph := db.graph.(responded := db.graph.responded + [RespondedEdge(Id(Users, userId), Id(Posts, postId), chatId, createdAt)]);
    return None;
  }

  method CreateVotedEdge(db: Db, userId: string, postId: string, option: string, createdAt: int) returns (err: Option<Error>)
    modifies db
    ensures PostCreateVotedEdge in db.failing ==> err == Some(InsertFailed) && db.graph == old(db.graph)
    ensures PostCreateVotedEdge !in db.failing ==>
      err == None && db.graph == old(db.graph).(voted := old(db.graph.voted) + [VotedEdge(Id(Users, userId), Id(Posts, postId), option, createdAt)])
    ensures db.failing == old(db.failing) && db.nextKey == old(db.nextKey)
  {
    if PostCreateVotedEdge in db.failing {
      return Some(InsertFailed);
    }
    db.graph := db.graph.(voted := db.graph.voted + [VotedEdge(Id(Users, userId), Id(Posts, postId), option, createdAt)]);
    return None;
  }

  /** The edge from a post to a tag, marked as proposed by the AI classifier. */
  function TagEdge(postKey: string, tagKey: string, confidence: real): PostHasTagEdge
  {
    PostHasTagEdge(Id(Posts, postKey), Id(Tags, tagKey), confidence, "ai")
  }

  method CreatePostHasTagEdge(db: Db, postKey: string, tagKey: string, confidence: real) returns (err: Option<Error>)
    modifies db
    ensures PostCreatePostHasTagEdge in db.failing ==> err == Some(InsertFailed) && db.graph == old(db.graph)
    ensures PostCreatePostHasTagEdge !in db.failing ==>
      err == None && db.graph == old(db.graph).(postHasTag := old(db.graph.postHasTag) + [TagEdge(postKey, tagKey, confidence)])
    ensures db.failing == old(db.failing) && db.nextKey == old(db.nextKey)
  {
    if PostCreatePostHasTagEdge in db.failing {
      return Some(InsertFailed);
    }
    db.graph := db.graph.(postHasTag := db.graph.postHasTag + [TagEdge(postKey, tagKey, confidence)]);
    return None;
  }

  // ----- reading a post -----------------------------------------------------

  datatype PostView = PostView(key: string, authorId: string, postType: string, text: string,
                               pollOptions: seq<string>, category: string, intent: string, depth: string,
                               aiRaw: AIRaw, tags: seq<string>, createdAt: int)

  /** The response fields are the stored post's, plus its tag keys. */
  function View(p: Post, tags: seq<string>): PostView
  {
    PostView(p.key, p.authorId, p.postType, p.text, p.pollOptions, p.category, p.intent, p.depth, p.aiRaw, tags, p.createdAt)
  }

  /** `GetPost`: the post by key, then its tags; a missing post is `NotFound`. */
  function GetPost(db: Db, id: string): (r: Res<PostView>)
    reads db
    ensures PostGetByID in db.failing ==> r == Fail(Wrap("get post: ", QueryFailed))
    ensures r == Fail(Domain(NotFound)) <==> PostGetByID !in db.failing && !PostKeyTaken(db.graph.posts, id)
    ensures PostGetByID !in db.failing && PostKeyTaken(db.graph.posts, id) ==>
      (r.Fail? <==> PostGetPostTags in db.failing) && (r.Fail? ==> r == Fail(Wrap("get post tags: ", QueryFailed)))
    ensures r.Ok? ==> r.value.key == id && r.value.tags == PostTagKeys(db.graph.postHasTag, db.graph.tags, Id(Posts, id))
    ensures r.Ok? ==> exists p :: p in db.graph.posts && p.key == id && r.value == View(p, r.value.tags)
  {
    var found := db.Read(PostGetByID, PostByKey(db.graph.posts, id));
    if found.Fail? then Fail(Wrap("get post: ", found.error))
    else if found.value.None? then Fail(Domain(NotFound))
    else
      var tags := db.Read(PostGetPostTags, PostTagKeys(db.graph.postHasTag, db.graph.tags, Id(Posts, id)));
      if tags.Fail? then Fail(Wrap("get post tags: ", tags.error))
      else Ok(View(found.value.value, tags.value))
  }

  // ----- creating a post ----------------------------------------------------

  datatype CreatePostRequest = CreatePostRequest(authorId: string, postType: string, text: string,
                                                 pollOptions: seq<string>, aiRaw: AIRaw)

  datatype CreatePostResponse = CreatePostResponse(key: string, category: string, tags: seq<string>, createdAt: int)

  /**
   * The post document `createPostInternal` inserts: the request's type is
   * ignored for the one given, the category and depth are normalised and the
   * intent is stored as the classifier gave it.
   */
  function NewPost(req: CreatePostRequest, postType: string, now: int): Post
  {
    Post("", req.authorId, postType, req.text, req.pollOptions, NormalizeCategory(req.aiRaw.category),
         req.aiRaw.intent, NormalizeDepth(req.aiRaw.depth), req.aiRaw, now)
  }

  /** The tag edges of a new post, one per key, in key order. */
  function TagEdges(postKey: string, keys: seq<string>, confidence: real): (r: seq<PostHasTagEdge>)
    ensures |r| == |keys|
    ensures forall i :: 0 <= i < |keys| ==> r[i] == TagEdge(postKey, keys[i], confidence)
  {
    if |keys| == 0 then [] else TagEdges(postKey, keys[..|keys| - 1], confidence) + [TagEdge(postKey, keys[|keys| - 1], confidence)]
  }

  /**
   * `createPostInternal` from the store `g`: insert the post under a generated
   * key, then the authorship edge, then resolve the AI tags and add one edge
   * per resolved key. The concurrent edge work is taken in that order and stops
   * at the first error; nothing already written is undone.
   */
  function Created(g: Graph, failing: set<Op>, nextKey: nat, req: CreatePostRequest, postType: string, now: int): (c: Creation<CreatePostResponse>)
    ensures c.graph.users == g.users && c.graph.chats == g.chats && c.graph.messages == g.messages
    ensures c.graph.responded == g.responded && c.graph.voted == g.voted && c.graph.follows == g.follows
    ensures c.graph.participatesIn == g.participatesIn && c.graph.reacted == g.reacted
    ensures c.result.Ok? ==> |c.graph.posts| == |g.posts| + 1 && c.graph.posts[..|g.posts|] == g.posts
    ensures c.result.Ok? ==> c.graph.posts[|g.posts|] == NewPost(req, postType, now).(key := c.result.value.key)
    ensures c.result.Ok? ==> c.graph.created == g.created + [CreatedEdge(Id(Users, req.authorId), Id(Posts, c.result.value.key), now)]
    ensures c.result.Ok? ==> c.graph.postHasTag == g.postHasTag + TagEdges(c.result.value.key, c.result.value.tags, req.aiRaw.confidence)
    ensures c.result.Ok? ==> c.result.value.category == NormalizeCategory(req.aiRaw.category) && c.result.value.createdAt == now
    ensures PostCreate in failing ==> c == Creation(Fail(Wrap("create post: ", InsertFailed)), g, nextKey)
    ensures c.result.Ok? <==>
      PostCreate !in failing && !PostKeyTaken(g.posts, Decimal(nextKey)) && EdgesSucceed(g, failing, nextKey + 1, req, now)
  {
    if PostCreate in failing then Creation(Fail(Wrap("create post: ", InsertFailed)), g, nextKey)
    else
      var key := Decimal(nextKey);
      if PostKeyTaken(g.posts, key) then
        Creation(Fail(Wrap("create post: ", Wrap("create document: ", DuplicateKey))), g, nextKey + 1)
      else
        var g1 := g.(posts := g.posts + [NewPost(req, postType, now).(key := key)]);
        EdgesCreated(g1, failing, nextKey + 1, req, key, now)
  }

  /**
   * When the edge work of `createPostInternal` succeeds: the authorship edge
   * is inserted, the tag batch resolves, and the tag edges are inserted
   * unless no key is left.
   */
  predicate EdgesSucceed(g: Graph, failing: set<Op>, nextKey: nat, req: CreatePostRequest, now: int)
  {
    var b := ResolveAll(g.tags, failing, nextKey, req.aiRaw.tags, now);
    && PostCreateCreatedEdge !in failing
    && b.result.Ok?
    && (|Dedup(b.result.value)| > 0 ==> PostCreatePostHasTagEdge !in failing)
  }

  /**
   * The part of `createPostInternal` after the post is stored under `key`:
   * the authorship edge, then the tag batch and one edge per resolved key.
   */
  function EdgesCreated(g: Graph, failing: set<Op>, nextKey: nat, req: CreatePostRequest, key: string, now: int)
    : (c: Creation<CreatePostResponse>)
    ensures c.graph.users == g.users && c.graph.chats == g.chats && c.graph.messages == g.messages
    ensures c.graph.responded == g.responded && c.graph.voted == g.voted && c.graph.follows == g.follows
    ensures c.graph.participatesIn == g.participatesIn && c.graph.reacted == g.reacted && c.graph.posts == g.posts
    ensures c.result.Ok? ==> c.result.value.key == key
    ensures c.result.Ok? ==> c.graph.created == g.created + [CreatedEdge(Id(Users, req.authorId), Id(Posts, key), now)]
    ensures c.result.Ok? ==> c.graph.postHasTag == g.postHasTag + TagEdges(key, c.result.value.tags, req.aiRaw.confidence)
    ensures c.result.Ok? ==> c.result.value.category == NormalizeCategory(req.aiRaw.category) && c.result.value.createdAt == now
    ensures c.result.Ok? <==> EdgesSucceed(g, failing, nextKey, req, now)
  {
    if PostCreateCreatedEdge in failing then Creation(Fail(Wrap("post creation edges: ", InsertFailed)), g, nextKey)
    else
      var g2 := g.(created := g.created + [CreatedEdge(Id(Users, req.authorId), Id(Posts, key), now)]);
      var b := ResolveAll(g2.tags, failing, nextKey, req.aiRaw.tags, now);
      var g3 := g2.(tags := b.tags);
      if b.result.Fail? then
        Creation(Fail(Wrap("post creation edges: ", Wrap("normalize tags: ", b.result.error))), g3, b.nextKey)
      else
        var keys := Dedup(b.result.value);
        if |keys| > 0 && PostCreatePostHasTagEdge in failing then
          Creation(Fail(Wrap("post creation edges: ", InsertFailed)), g3, b.nextKey)
        else
          Creation(Ok(CreatePostResponse(key, NormalizeCategory(req.aiRaw.category), keys, now)),
                   g3.(postHasTag := g3.postHasTag + TagEdges(key, keys, req.aiRaw.confidence)), b.nextKey)
  }

  /** The edge work of `createPostInternal`, step by step against the store. */
  method CreateEdges(db: Db, req: CreatePostRequest, postKey: string, now: int) returns (r: Res<CreatePostResponse>)
    modifies db
    ensures EdgesCreated(old(db.graph), old(db.failing), old(db.nextKey), req, postKey, now) == Creation(r, db.graph, db.nextKey)
    ensures db.failing == old(db.failing)
  {
    var edgeErr := CreateCreatedEdge(db, req.authorId, postKey, now);
    if edgeErr.Some? {
      return Fail(Wrap("post creation edges: ", edgeErr.value));
    }
    var normalized := NormalizeTags(db, req.aiRaw.tags, now);
    if normalized.Fail? {
      return Fail(Wrap("post creation edges: ", normalized.error));
    }
    var keys := normalized.value;
    var tagErr := CreateTagEdges(db, postKey, keys, req.aiRaw.confidence);
    if tagErr.Some? {
      return Fail(Wrap("post creation edges: ", tagErr.value));
    }
    return Ok(CreatePostResponse(postKey, NormalizeCategory(req.aiRaw.category), keys, now));
  }

  /** The tag-edge loop of `createPostInternal`: one edge per key, stopping at the first failed insert. */
  method CreateTagEdges(db: Db, postKey: string, keys: seq<string>, confidence: real) returns (err: Option<Error>)
    modifies db
    ensures |keys| > 0 && PostCreatePostHasTagEdge in db.failing ==> err == Some(InsertFailed) && db.graph == old(db.graph)
    ensures !(|keys| > 0 && PostCreatePostHasTagEdge in db.failing) ==>
      err == None && db.graph == old(db.graph).(postHasTag := old(db.graph.postHasTag) + TagEdges(postKey, keys, confidence))
    ensures db.failing == old(db.failing) && db.nextKey == old(db.nextKey)
  {
    var i := 0;
    while i < |keys|
      invariant 0 <= i <= |keys|
      invariant i > 0 ==> PostCreatePostHasTagEdge !in db.failing
      invariant db.graph == old(db.graph).(postHasTag := old(db.graph.postHasTag) + TagEdges(postKey, keys[..i], confidence))
      invariant db.failing == old(db.failing) && db.nextKey == old(db.nextKey)
    {
      err := CreatePostHasTagEdge(db, postKey, keys[i], confidence);
      if err.Some? {
        assert i == 0 && keys[..i] == [];
        return;
      }
      assert keys[..i + 1][..i] == keys[..i];
      i := i + 1;
    }
    assert keys[..i] == keys;
    err := None;
  }

  /** `createPostInternal`, step by step against the store. */
  method CreatePostInternal(db: Db, req: CreatePostRequest, postType: string, now: int) returns (r: Res<CreatePostResponse>)
    modifies db
    ensures Created(old(db.graph), old(db.failing), old(db.nextKey), req, postType, now) == Creation(r, db.graph, db.nextKey)
    ensures db.failing == old(db.failing)
  {
    if PostCreate in db.failing {
      return Fail(Wrap("create post: ", InsertFailed));
    }
    var postKey := db.GenerateKey();
    if PostKeyTaken(db.graph.posts, postKey) {
      return Fail(Wrap("create post: ", Wrap("create document: ", DuplicateKey)));
    }
    db.graph := db.graph.(posts := db.graph.posts + [NewPost(req, postType, now).(key := postKey)]);
    r := CreateEdges(db, req, postKey, now);
  }

  /** `CreatePost`: a text post. */
  method CreatePost(db: Db, req: CreatePostRequest, now: int) returns (r: Res<CreatePostResponse>)
    modifies db
    ensures Created(old(db.graph), old(db.failing), old(db.nextKey), req, PostTypeText, now) == Creation(r, db.graph, db.nextKey)
    ensures db.failing == old(db.failing)
  {
    r := CreatePostInternal(db, req, PostTypeText, now);
  }

  /** The error of a poll with fewer than two options. */
  const TooFewOptions := Wrapped("", Domain(InvalidInput), ": poll requires at least 2 options")

  /** `CreatePoll`: fewer than two options is invalid input before any store call. */
  function CreatedPoll(g: Graph, failing: set<Op>, nextKey: nat, req: CreatePostRequest, now: int): (c: Creation<CreatePostResponse>)
    ensures |req.pollOptions| < 2 <==> c.result == Fail(TooFewOptions)
    ensures |req.pollOptions| < 2 ==> c.graph == g && c.nextKey == nextKey
    ensures |req.pollOptions| >= 2 ==> c == Created(g, failing, nextKey, req, PostTypePoll, now)
  {
    if |req.pollOptions| < 2 then Creation(Fail(TooFewOptions), g, nextKey)
    else
      CreatedErrors(g, failing, nextKey, req, PostTypePoll, now);
      Created(g, failing, nextKey, req, PostTypePoll, now)
  }

  /** No error of post creation is the too-few-options error. */
  lemma CreatedErrors(g: Graph, failing: set<Op>, nextKey: nat, req: CreatePostRequest, postType: string, now: int)
    ensures Created(g, failing, nextKey, req, postType, now).result != Fail(TooFewOptions)
  {
  }

  method CreatePoll(db: Db, req: CreatePostRequest, now: int) returns (r: Res<CreatePostResponse>)
    modifies db
    ensures CreatedPoll(old(db.graph), old(db.failing), old(db.nextKey), req, now) == Creation(r, db.graph, db.nextKey)
    ensures db.failing == old(db.failing)
  {
    if |req.pollOptions| < 2 {
      return Fail(TooFewOptions);
    }
    r := CreatePostInternal(db, req, PostTypePoll, now);
  }

  /** A created post's category and depth are always in the closed vocabularies. */
  lemma CreatedNormalized(g: Graph, failing: set<Op>, nextKey: nat, req: CreatePostRequest, postType: string, now: int)
    requires Created(g, failing, nextKey, req, postType, now).result.Ok?
    ensures var c := Created(g, failing, nextKey, req, postType, now);
      var p := c.graph.posts[|g.posts|];
      ValidCategory(p.category) && ValidDepth(p.depth) && p.intent == req.aiRaw.intent && p.aiRaw == req.aiRaw
      && (ValidCategory(req.aiRaw.category) ==> p.category == req.aiRaw.category)
      && (ValidDepth(req.aiRaw.depth) ==> p.depth == req.aiRaw.depth)
  {
  }

  /** The response's tags are the resolved keys without "" and repeats, in first-occurrence order. */
  lemma CreatedTags(g: Graph, failing: set<Op>, nextKey: nat, req: CreatePostRequest, postType: string, now: int)
    requires Created(g, failing, nextKey, req, postType, now).result.Ok?
    ensures var c := Created(g, failing, nextKey, req, postType, now);
      var b := ResolveAll(g.tags, failing, nextKey + 1, req.aiRaw.tags, now);
      b.result.Ok? && c.result.value.tags == Dedup(b.result.value) && Grouping.NoRepeats(c.result.value.tags)
      && FirstOccurrenceOrder(c.result.value.tags, b.result.value)
  {
    var b := ResolveAll(g.tags, failing, nextKey + 1, req.aiRaw.tags, now);
    DedupDistinct(b.result.value);
    DedupFirstOrder(b.result.value);
  }

  /** Once the post is stored, a later failure leaves it stored: creation is not atomic. */
  lemma CreatedNotRolledBack(g: Graph, failing: set<Op>, nextKey: nat, req: CreatePostRequest, postType: string, now: int)
    requires PostCreate !in failing && !PostKeyTaken(g.posts, Decimal(nextKey)) && PostCreateCreatedEdge in failing
    ensures var c := Created(g, failing, nextKey, req, postType, now);
      c.result.Fail? && c.graph.posts == g.posts + [NewPost(req, postType, now).(key := Decimal(nextKey))]
  {
  }

  /** Every `post_has_tag` edge leaves a stored post. */
  ghost predicate TagEdgesFromPosts(g: Graph)
  {
    forall e :: e in g.postHasTag ==> exists p :: p in g.posts && e.from == Id(Posts, p.key)
  }

  lemma {:induction false} TagKeysWithIdUnique(tags: seq<Tag>, k: string)
    requires UniqueKeys(tags) && KeyTaken(tags, k)
    ensures TagKeysWithId(tags, Id(Tags, k)) == [k]
  {
    assert tags == [tags[0]] + tags[1..];
    assert UniqueKeys(tags[1..]) by {
      forall i, j | 0 <= i < j < |tags[1..]| ensures tags[1..][i].key != tags[1..][j].key {
        assert tags[1..][i] == tags[i + 1] && tags[1..][j] == tags[j + 1];
      }
    }
    IdInjective(Tags, tags[0].key, k);
    if tags[0].key == k {
      forall t | t in tags[1..] ensures Id(Tags, t.key) != Id(Tags, k) {
        var j :| 0 <= j < |tags[1..]| && tags[1..][j] == t;
        assert tags[j + 1] == t;
        IdInjective(Tags, t.key, k);
      }
      TagKeysWithIdNone(tags[1..], Id(Tags, k));
    } else {
      var j :| 0 <= j < |tags| && tags[j].key == k;
      assert tags[1..][j - 1].key == k;
      TagKeysWithIdUnique(tags[1..], k);
    }
  }

  /** The tag edges of a new post lead back to exactly its keys, when each key names one stored tag. */
  lemma {:induction false} TagEdgesKeys(tags: seq<Tag>, postKey: string, keys: seq<string>, confidence: real)
    requires UniqueKeys(tags)
    requires forall i :: 0 <= i < |keys| ==> KeyTaken(tags, keys[i])
    ensures PostTagKeys(TagEdges(postKey, keys, confidence), tags, Id(Posts, postKey)) == keys
    decreases |keys|
  {
    if |keys| > 0 {
      var init := keys[..|keys| - 1];
      var last := keys[|keys| - 1];
      TagEdgesKeys(tags, postKey, init, confidence);
      PostTagKeysConcat(TagEdges(postKey, init, confidence), [TagEdge(postKey, last, confidence)], tags, Id(Posts, postKey));
      TagKeysWithIdUnique(tags, last);
      assert PostTagKeys([TagEdge(postKey, last, confidence)], tags, Id(Posts, postKey)) == [last] + PostTagKeys([], tags, Id(Posts, postKey));
      assert init + [last] == keys;
    }
  }

  /** A newly created post is found under the returned key. */
  lemma CreatedFound(g: Graph, failing: set<Op>, nextKey: nat, req: CreatePostRequest, postType: string, now: int)
    requires Created(g, failing, nextKey, req, postType, now).result.Ok?
    ensures var c := Created(g, failing, nextKey, req, postType, now);
      PostByKey(c.graph.posts, c.result.value.key) == Some(NewPost(req, postType, now).(key := c.result.value.key))
  {
    var c := Created(g, failing, nextKey, req, postType, now);
    var key := Decimal(nextKey);
    assert c.result.value.key == key;
    assert !PostKeyTaken(g.posts, key);
    assert forall j :: 0 <= j < |g.posts| ==> c.graph.posts[j].key != key;
    FindAt(c.graph.posts, (p: Post) => p.key == key, |g.posts|);
  }

  /** The tags read back for a newly created post are the response's tags. */
  lemma CreatedTagsRead(g: Graph, failing: set<Op>, nextKey: nat, req: CreatePostRequest, postType: string, now: int)
    requires Created(g, failing, nextKey, req, postType, now).result.Ok?
    requires UniqueKeys(g.tags) && TagEdgesFromPosts(g)
    ensures var c := Created(g, failing, nextKey, req, postType, now);
      PostTagKeys(c.graph.postHasTag, c.graph.tags, Id(Posts, c.result.value.key)) == c.result.value.tags
  {
    var c := Created(g, failing, nextKey, req, postType, now);
    var key := Decimal(nextKey);
    var b := ResolveAll(g.tags, failing, nextKey + 1, req.aiRaw.tags, now);
    CreatedOk(g, failing, nextKey, req, postType, now);
    var keys := c.result.value.tags;
    ResolveAllUniqueKeys(g.tags, failing, nextKey + 1, req.aiRaw.tags, now);
    ResolveAllKeys(g.tags, failing, nextKey + 1, req.aiRaw.tags, now);
    DedupMembers(b.result.value);
    forall i | 0 <= i < |keys| ensures KeyTaken(b.tags, keys[i]) {
      assert keys[i] in b.result.value && keys[i] != "";
    }
    NewTagEdgesRead(g.postHasTag, b.tags, g.posts, key, keys, req.aiRaw.confidence);
  }

  /** What a successful creation consists of: the generated key was free and the tag batch succeeded. */
  lemma CreatedOk(g: Graph, failing: set<Op>, nextKey: nat, req: CreatePostRequest, postType: string, now: int)
    requires Created(g, failing, nextKey, req, postType, now).result.Ok?
    ensures var c := Created(g, failing, nextKey, req, postType, now);
      var b := ResolveAll(g.tags, failing, nextKey + 1, req.aiRaw.tags, now);
      && c.result.value.key == Decimal(nextKey) && !PostKeyTaken(g.posts, Decimal(nextKey))
      && b.result.Ok? && c.result.value.tags == Dedup(b.result.value) && c.graph.tags == b.tags
      && c.graph.postHasTag == g.postHasTag + TagEdges(Decimal(nextKey), c.result.value.tags, req.aiRaw.confidence)
  {
  }

  /**
   * The tags read back for a post with a fresh key are the keys of its new
   * edges, when each key names one stored tag and the old edges leave stored posts.
   */
  lemma NewTagEdgesRead(edges: seq<PostHasTagEdge>, tags: seq<Tag>, posts: seq<Post>, key: string,
                        keys: seq<string>, confidence: real)
    requires UniqueKeys(tags)
    requires forall i :: 0 <= i < |keys| ==> KeyTaken(tags, keys[i])
    requires forall e :: e in edges ==> exists p :: p in posts && e.from == Id(Posts, p.key)
    requires !PostKeyTaken(posts, key)
    ensures PostTagKeys(edges + TagEdges(key, keys, confidence), tags, Id(Posts, key)) == keys
  {
    forall j | 0 <= j < |edges| ensures edges[j].from != Id(Posts, key) {
      var e := edges[j];
      assert e in edges;
      var p :| p in posts && e.from == Id(Posts, p.key);
      IdInjective(Posts, p.key, key);
    }
    PostTagKeysOtherPost(edges, tags, Id(Posts, key));
    TagEdgesKeys(tags, key, keys, confidence);
    PostTagKeysConcat(edges, TagEdges(key, keys, confidence), tags, Id(Posts, key));
  }

  /**
   * Reading a newly created post back: it is found under the returned key and
   * its tags are exactly the response's tags, provided tag keys are unique and
   * every tag edge leaves a stored post.
   */
  lemma CreatedThenRead(g: Graph, failing: set<Op>, nextKey: nat, req: CreatePostRequest, postType: string, now: int)
    requires Created(g, failing, nextKey, req, postType, now).result.Ok?
    requires UniqueKeys(g.tags) && TagEdgesFromPosts(g)
    ensures var c := Created(g, failing, nextKey, req, postType, now);
      var key := c.result.value.key;
      && PostByKey(c.graph.posts, key) == Some(NewPost(req, postType, now).(key := key))
      && PostTagKeys(c.graph.postHasTag, c.graph.tags, Id(Posts, key)) == c.result.value.tags
  {
    CreatedFound(g, failing, nextKey, req, postType, now);
    CreatedTagsRead(g, failing, nextKey, req, postType, now);
  }

  // ----- responding to a post -------------------------------------------------

  datatype RespondToPostResponse = RespondToPostResponse(chatId: string, messageId: string, createdAt: int)

  /** The responded edge `RespondToPost` adds; the chat is not created yet, so its id is "". */
  function ResponseEdge(postId: string, userId: string, now: int): RespondedEdge
  {
    RespondedEdge(Id(Users, userId), Id(Posts, postId), "", now)
  }

  /**
   * `RespondToPost`: the post must exist and the user must not have responded
   * yet; then one responded edge is added. Chat and message ids stay "".
   */
  function Responding(g: Graph, failing: set<Op>, postId: string, userId: string, now: int): (r: Outcome<RespondToPostResponse>)
    ensures r.result.Ok? ==> r.graph == g.(responded := g.responded + [ResponseEdge(postId, userId, now)])
    ensures r.result.Ok? ==> r.result.value == RespondToPostResponse("", "", now)
    ensures r.result.Fail? ==> r.graph == g
    ensures r.result == Fail(Domain(NotFound)) <==> PostGetByID !in failing && !PostKeyTaken(g.posts, postId)
    ensures r.result == Fail(Domain(AlreadyExists)) <==>
      PostGetByID !in failing && PostKeyTaken(g.posts, postId) && PostHasUserResponded !in failing &&
      UserResponded(g.responded, Id(Users, userId), Id(Posts, postId))
    ensures r.result.Ok? <==>
      PostGetByID !in failing && PostKeyTaken(g.posts, postId) && PostHasUserResponded !in failing &&
      !UserResponded(g.responded, Id(Users, userId), Id(Posts, postId)) && PostCreateRespondedEdge !in failing
  {
    if PostGetByID in failing then Outcome(Fail(Wrap("get post: ", QueryFailed)), g)
    else if PostByKey(g.posts, postId).None? then Outcome(Fail(Domain(NotFound)), g)
    else if PostHasUserResponded in failing then Outcome(Fail(Wrap("check responded: ", QueryFailed)), g)
    else if UserResponded(g.responded, Id(Users, userId), Id(Posts, postId)) then Outcome(Fail(Domain(AlreadyExists)), g)
    else if PostCreateRespondedEdge in failing then Outcome(Fail(Wrap("create responded edge: ", InsertFailed)), g)
    else Outcome(Ok(RespondToPostResponse("", "", now)), g.(responded := g.responded + [ResponseEdge(postId, userId, now)]))
  }

  method RespondToPost(db: Db, postId: string, userId: string, now: int) returns (r: Res<RespondToPostResponse>)
    modifies db
    ensures Responding(old(db.graph), old(db.failing), postId, userId, now) == Outcome(r, db.graph)
    ensures db.failing == old(db.failing) && db.nextKey == old(db.nextKey)
  {
    var found := db.Read(PostGetByID, PostByKey(db.graph.posts, postId));
    if found.Fail? {
      return Fail(Wrap("get post: ", found.error));
    }
    if found.value.None? {
      return Fail(Domain(NotFound));
    }
    var hasResponded := db.Read(PostHasUserResponded, UserResponded(db.graph.responded, Id(Users, userId), Id(Posts, postId)));
    if hasResponded.Fail? {
      return Fail(Wrap("check responded: ", hasResponded.error));
    }
    if hasResponded.value {
      return Fail(Domain(AlreadyExists));
    }
    var chatId := "";
    var messageId := "";
    var err := CreateRespondedEdge(db, userId, postId, chatId, now);
    if err.Some? {
      return Fail(Wrap("create responded edge: ", err.value));
    }
    return Ok(RespondToPostResponse(chatId, messageId, now));
  }

  /** A second response by the same user to the same post is rejected. */
  lemma RespondTwice(g: Graph, failing: set<Op>, postId: string, userId: string, now: int, later: int)
    requires Responding(g, failing, postId, userId, now).result.Ok?
    ensures Responding(Responding(g, failing, postId, userId, now).graph, failing, postId, userId, later).result
            == Fail(Domain(AlreadyExists))
  {
    var g2 := Responding(g, failing, postId, userId, now).graph;
    assert g2.posts == g.posts;
    assert g2.responded[|g.responded|] == ResponseEdge(postId, userId, now);
  }

  // ----- voting -----------------------------------------------------------------

  datatype VoteResponse = VoteResponse(postId: string, option: string, votes: map<string, nat>)

  const NotAPoll := Wrapped("", Domain(InvalidInput), ": post is not a poll")
  const InvalidOption := Wrapped("", Domain(InvalidInput), ": invalid poll option")

  /** The stored post with key `postId`, when there is one. */
  function PostOf(g: Graph, postId: string): Post
    requires PostKeyTaken(g.posts, postId)
  {
    PostByKey(g.posts, postId).value
  }

  /** The voted edge a vote adds. */
  function Ballot(postId: string, userId: string, option: string, now: int): VotedEdge
  {
    VotedEdge(Id(Users, userId), Id(Posts, postId), option, now)
  }

  /**
   * `Vote`: the guards in order (missing post, not a poll, unknown option,
   * already voted), then the voted edge, then the counts read after it.
   */
  function Voting(g: Graph, failing: set<Op>, postId: string, userId: string, option: string, now: int): (r: Outcome<VoteResponse>)
    ensures r.result.Ok? ==> r.graph == g.(voted := g.voted + [Ballot(postId, userId, option, now)])
    ensures r.result.Ok? ==> r.result.value == VoteResponse(postId, option, PollVotes(r.graph.voted, Id(Posts, postId)))
    ensures r.graph == g || r.graph == g.(voted := g.voted + [Ballot(postId, userId, option, now)])
    ensures r.result == Fail(Domain(NotFound)) <==> PostGetByID !in failing && !PostKeyTaken(g.posts, postId)
    ensures r.result == Fail(NotAPoll) <==>
      PostGetByID !in failing && PostKeyTaken(g.posts, postId) && PostOf(g, postId).postType != PostTypePoll
    ensures r.result == Fail(InvalidOption) <==>
      PostGetByID !in failing && PostKeyTaken(g.posts, postId) && PostOf(g, postId).postType == PostTypePoll &&
      option !in PostOf(g, postId).pollOptions
    ensures r.result == Fail(Domain(AlreadyExists)) <==>
      PostGetByID !in failing && PostKeyTaken(g.posts, postId) && PostOf(g, postId).postType == PostTypePoll &&
      option in PostOf(g, postId).pollOptions && PostHasUserVoted !in failing &&
      UserVoted(g.voted, Id(Users, userId), Id(Posts, postId))
    ensures r.result.Ok? <==>
      PostGetByID !in failing && PostKeyTaken(g.posts, postId) && PostOf(g, postId).postType == PostTypePoll &&
      option in PostOf(g, postId).pollOptions && PostHasUserVoted !in failing &&
      !UserVoted(g.voted, Id(Users, userId), Id(Posts, postId)) && PostCreateVotedEdge !in failing && PostGetVotes !in failing
  {
    if PostGetByID in failing then Outcome(Fail(Wrap("get post: ", QueryFailed)), g)
    else match PostByKey(g.posts, postId)
      case None => Outcome(Fail(Domain(NotFound)), g)
      case Some(post) =>
        if post.postType != PostTypePoll then Outcome(Fail(NotAPoll), g)
        else if option !in post.pollOptions then Outcome(Fail(InvalidOption), g)
        else if PostHasUserVoted in failing then Outcome(Fail(Wrap("check voted: ", QueryFailed)), g)
        else if UserVoted(g.voted, Id(Users, userId), Id(Posts, postId)) then Outcome(Fail(Domain(AlreadyExists)), g)
        else if PostCreateVotedEdge in failing then Outcome(Fail(Wrap("create vote: ", InsertFailed)), g)
        else
          var g1 := g.(voted := g.voted + [Ballot(postId, userId, option, now)]);
          if PostGetVotes in failing then Outcome(Fail(Wrap("get votes: ", QueryFailed)), g1)
          else Outcome(Ok(VoteResponse(postId, option, PollVotes(g1.voted, Id(Posts, postId)))), g1)
  }

  /** The option check of `Vote`: a scan of the poll options that stops at the first match. */
  method IsValidOption(options: seq<string>, option: string) returns (valid: bool)
    ensures valid <==> option in options
  {
    valid := false;
    var i := 0;
    while i < |options|
      invariant 0 <= i <= |options|
      invariant !valid && option !in options[..i]
    {
      if options[i] == option {
        valid := true;
        return;
      }
      assert options[..i + 1] == options[..i] + [options[i]];
      i := i + 1;
    }
    assert options[..i] == options;
  }

  method Vote(db: Db, postId: string, userId: string, option: string, now: int) returns (r: Res<VoteResponse>)
    modifies db
    ensures Voting(old(db.graph), old(db.failing), postId, userId, option, now) == Outcome(r, db.graph)
    ensures db.failing == old(db.failing) && db.nextKey == old(db.nextKey)
  {
    var found := db.Read(PostGetByID, PostByKey(db.graph.posts, postId));
    if found.Fail? {
      return Fail(Wrap("get post: ", found.error));
    }
    if found.value.None? {
      return Fail(Domain(NotFound));
    }
    var post := found.value.value;
    if post.postType != PostTypePoll {
      return Fail(NotAPoll);
    }
    var validOption := IsValidOption(post.pollOptions, option);
    if !validOption {
      return Fail(InvalidOption);
    }
    var hasVoted := db.Read(PostHasUserVoted, UserVoted(db.graph.voted, Id(Users, userId), Id(Posts, postId)));
    if hasVoted.Fail? {
      return Fail(Wrap("check voted: ", hasVoted.error));
    }
    if hasVoted.value {
      return Fail(Domain(AlreadyExists));
    }
    var err := CreateVotedEdge(db, userId, postId, option, now);
    if err.Some? {
      return Fail(Wrap("create vote: ", err.value));
    }
    var votes := db.Read(PostGetVotes, PollVotes(db.graph.voted, Id(Posts, postId)));
    if votes.Fail? {
      return Fail(Wrap("get votes: ", votes.error));
    }
    return Ok(VoteResponse(postId, option, votes.value));
  }

  /** A successful vote raises the chosen option's count by one and leaves the other counts alone. */
  lemma VoteCounted(g: Graph, failing: set<Op>, postId: string, userId: string, option: string, now: int)
    requires Voting(g, failing, postId, userId, option, now).result.Ok?
    ensures var votes := Voting(g, failing, postId, userId, option, now).result.value.votes;
      var before := PollVotes(g.voted, Id(Posts, postId));
      && option in votes
      && votes[option] == (if option in before then before[option] else 0) + 1
      && (forall o :: o != option ==> (o in votes <==> o in before))
      && (forall o :: o != option && o in before ==> votes[o] == before[o])
  {
    var e := Ballot(postId, userId, option, now);
    PollVotesAdd(g.voted, Id(Posts, postId), e, option);
    forall o | o != option
      ensures o in PollVotes(g.voted + [e], Id(Posts, postId)) <==> o in PollVotes(g.voted, Id(Posts, postId))
      ensures o in PollVotes(g.voted, Id(Posts, postId)) ==>
        PollVotes(g.voted + [e], Id(Posts, postId))[o] == PollVotes(g.voted, Id(Posts, postId))[o]
    {
      PollVotesAdd(g.voted, Id(Posts, postId), e, o);
    }
  }

  /** A second vote by the same user on the same poll is rejected. */
  lemma VoteTwice(g: Graph, failing: set<Op>, postId: string, userId: string, option: string, other: string, now: int, later: int)
    requires Voting(g, failing, postId, userId, option, now).result.Ok?
    requires PostGetByID !in failing
    ensures var g2 := Voting(g, failing, postId, userId, option, now).graph;
      var second := Voting(g2, failing, postId, userId, other, later).result;
      second.Fail? && (second == Fail(Domain(AlreadyExists)) <==> other in PostOf(g, postId).pollOptions)
  {
    var g2 := Voting(g, failing, postId, userId, option, now).graph;
    assert g2.posts == g.posts;
    assert g2.voted[|g.voted|] == Ballot(postId, userId, option, now);
  }
}
