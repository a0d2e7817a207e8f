/**
 * The graph document store the repositories run their queries against: the
 * document collections (users, posts, tags, chats, messages) and the edge
 * collections, each a sequence in storage order. Document ids are
 * "<collection>/<key>"; edges refer to documents by id.
 */
module Store {
  import opened Wrappers
  import opened Domain
  import Text

  datatype Tag = Tag(key: string, labelText: string, aliases: seq<string>, usageCount: int, createdAt: int)

  /** The AI classification stored with a post; `confidence` is passed through untouched. */
  datatype AIRaw = AIRaw(category: string, intent: string, depth: string, tags: seq<string>,
                         confidence: real, risk: string, flags: seq<string>)

  datatype Post = Post(key: string, authorId: string, postType: string, text: string,
                       pollOptions: seq<string>, category: string, intent: string, depth: string,
                       aiRaw: AIRaw, createdAt: int)

  datatype UserSettings = UserSettings(allowDMs: bool, allowTagging: bool)
  datatype UserStats = UserStats(postsCreated: int, responsesGiven: int)

  /** A user document; `avatarUrl` is an attribute the queries read from stored documents. */
  datatype User = User(key: string, username: string, createdAt: int, interests: seq<string>,
                       blockedTopics: seq<string>, settings: UserSettings, stats: UserStats,
                       avatarUrl: Option<string>)

  datatype Chat = Chat(key: string, postId: string, chatType: string, createdAt: int,
                       expiresAt: int, participantCount: int)

  datatype Message = Message(key: string, chatId: string, senderId: string, text: string,
                             status: string, createdAt: int)

  datatype CreatedEdge = CreatedEdge(from: string, to: string, createdAt: int)
  datatype RespondedEdge = RespondedEdge(from: string, to: string, chatId: string, createdAt: int)
  datatype VotedEdge = VotedEdge(from: string, to: string, option: string, createdAt: int)
  datatype PostHasTagEdge = PostHasTagEdge(from: string, to: string, confidence: real, source: string)
  datatype FollowsEdge = FollowsEdge(key: string, from: string, to: string, createdAt: int)
  datatype ParticipatesInEdge = ParticipatesInEdge(from: string, to: string, role: string, status: string,
                                                   notificationsEnabled: bool, joinedAt: Option<int>)
  datatype ReactedEdge = ReactedEdge(from: string, to: string, emoji: string)

  datatype Graph = Graph(
    users: seq<User>,
    posts: seq<Post>,
    tags: seq<Tag>,
    chats: seq<Chat>,
    messages: seq<Message>,
    created: seq<CreatedEdge>,
    responded: seq<RespondedEdge>,
    voted: seq<VotedEdge>,
    postHasTag: seq<PostHasTagEdge>,
    follows: seq<FollowsEdge>,
    participatesIn: seq<ParticipatesInEdge>,
    reacted: seq<ReactedEdge>)

  /** The repository operations; an operation in `Db.failing` returns a store error. */
  datatype Op =
    | TagGetByID | TagGetByAlias | TagCreate | TagIncrementUsageCount | TagList | TagSearch
    | PostGetByID | PostCreate | PostCreateCreatedEdge | PostCreateRespondedEdge | PostCreateVotedEdge
    | PostCreatePostHasTagEdge | PostGetPostTags | PostGetVotes | PostHasUserVoted | PostHasUserResponded
    | ChatGetByID | ChatCreate | ChatCreateMessage | ChatGetMessages | ChatUpdateMessageStatus
    | ChatGetUnreadCount | ChatCreateParticipation | ChatUpdateParticipation | ChatGetParticipation
    | ChatGetParticipants | ChatGetUserChatThreads | ChatGetChatForPostAndUser
    | UserGetByID | UserCreate | UserCreateFollow | UserDeleteFollow | UserIsFollowing
    | UserAreMutualFollowers | UserGetFollowerCount | UserGetFollowingCount
    | FeedGetRecommendedPosts | FeedGetUserInteractionTags | FeedGetUserCategories | FeedGetUserIntents

  const Users := "users"
  const Posts := "posts"
  const Tags := "tags"
  const Chats := "chats"
  const Messages := "messages"

  /** A document's `_id`. */
  function Id(collection: string, key: string): string
  {
    collection + "/" + key
  }

  lemma IdInjective(collection: string, k1: string, k2: string)
    ensures Id(collection, k1) == Id(collection, k2) <==> k1 == k2
  {
    if Id(collection, k1) == Id(collection, k2) {
      assert k1 == Id(collection, k1)[|collection| + 1..];
    }
  }

  /** The error an unreachable or failing store reports. */
  const Unavailable := StoreError("store unavailable")

  /** The error a unique-key violation reports. */
  const DuplicateKey := StoreError("unique constraint violated")

  /** The error a query reports for a negative `LIMIT` offset or count. */
  const InvalidLimit := Wrap("query failed: ", StoreError("invalid LIMIT value"))

  /** A query through a failing operation: the driver's `Query` wraps the store's error with "query failed: ". */
  const QueryFailed := Wrap("query failed: ", Unavailable)

  /** An insert through a failing operation reports the driver's wrapped error. */
  const InsertFailed := Wrap("create document: ", Unavailable)

  /** The outcome of an operation that generates no key: the result, and the collections after it. */
  datatype Outcome<T> = Outcome(result: Res<T>, graph: Graph)

  /** The outcome of an operation that inserts documents: the result, the collections and the key generator after it. */
  datatype Creation<T> = Creation(result: Res<T>, graph: Graph, nextKey: nat)

  /** The store: its collections, the operations that currently fail, and its key generator. */
  class Db {
    var graph: Graph
    var failing: set<Op>
    var nextKey: nat

    constructor (graph: Graph, failing: set<Op>, nextKey: nat)
      ensures this.graph == graph && this.failing == failing && this.nextKey == nextKey
    {
      this.graph := graph;
      this.failing := failing;
      this.nextKey := nextKey;
    }

    /** A read through `op`: the query's value, or a store error when `op` fails. */
    function Read<T>(op: Op, value: T): (r: Res<T>)
      reads this
      ensures r.Ok? <==> op !in failing
      ensures r.Ok? ==> r.value == value
      ensures r.Fail? ==> r.error == QueryFailed
    {
      if op in failing then Fail(QueryFailed) else Ok(value)
    }

    /** The key the store generates for a document inserted without one. */
    method GenerateKey() returns (key: string)
      modifies this
      ensures key == Text.Decimal(old(nextKey))
      ensures nextKey == old(nextKey) + 1
      ensures graph == old(graph) && failing == old(failing)
    {
      key := Text.Decimal(nextKey);
      nextKey := nextKey + 1;
    }
  }
}
