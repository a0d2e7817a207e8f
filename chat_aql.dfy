/**
 * The chat queries of internal/chat/aql.go over the `chats`, `messages`,
 * `participates_in` and `users` collections: lookup, the message page, the
 * unread count, the status and participation updates, the participants, the
 * user's chat threads and the chat of a post and user. Chat and user
 * arguments are document ids ("chats/<key>", "users/<key>").
 */
module ChatQueries {
  import opened Wrappers
  import opened Domain
  import opened Store
  import opened Collections
  import opened Sorting

  /** `GetChatByID` through `QueryOne`: the chat whose key equals `key`, or nothing. */
  function ChatByKey(chats: seq<Chat>, key: string): (r: Option<Chat>)
    ensures r.None? <==> forall i :: 0 <= i < |chats| ==> chats[i].key != key
    ensures r.Some? ==> r.value in chats && r.value.key == key
  {
    Find(chats, (c: Chat) => c.key == key)
  }

  /** The user has a `participates_in` edge into the chat. */
  predicate Participates(edges: seq<ParticipatesInEdge>, userId: string, chatId: string)
  {
    exists i :: 0 <= i < |edges| && edges[i].from == userId && edges[i].to == chatId
  }

  // ----- messages ---------------------------------------------------------------

  /** The messages of a chat, in storage order. */
  function ChatMessages(messages: seq<Message>, chatId: string): (r: seq<Message>)
    ensures forall m :: m in r <==> m in messages && m.chatId == chatId
  {
    var r := Filter(messages, (m: Message) => m.chatId == chatId);
    assert forall m :: m in messages && m.chatId == chatId ==> m in r by {
      forall m | m in messages && m.chatId == chatId ensures m in r {
        var i :| 0 <= i < |messages| && messages[i] == m;
      }
    }
    r
  }

  /** `SORT m.createdAt ASC`. */
  predicate Earlier(a: Message, b: Message)
  {
    a.createdAt <= b.createdAt
  }

  /** `SORT m.createdAt DESC LIMIT 1`: a message no other message is newer than. */
  function Latest(ms: seq<Message>): (r: Option<Message>)
    ensures r.None? <==> |ms| == 0
    ensures r.Some? ==> r.value in ms && forall i :: 0 <= i < |ms| ==> ms[i].createdAt <= r.value.createdAt
  {
    if |ms| == 0 then None
    else
      var rest := Latest(ms[1..]);
      if rest.None? || rest.value.createdAt <= ms[0].createdAt then Some(ms[0])
      else
        assert forall i :: 1 <= i < |ms| ==> ms[i] == ms[1..][i - 1];
        rest
  }

  /**
   * `GetChatMessages`: the chat's messages, oldest first, skipping `offset`
   * and at most `limit` of them; a negative offset or count is a query error.
   */
  function MessagesPage(messages: seq<Message>, chatId: string, offset: int, limit: int): (r: Res<seq<Message>>)
    ensures r.Fail? <==> offset < 0 || limit < 0
    ensures r.Fail? ==> r.error == InvalidLimit
    ensures r.Ok? ==> var n := |ChatMessages(messages, chatId)|;
      |r.value| == if offset > n then 0 else if limit < n - offset then limit else n - offset
    ensures r.Ok? ==> forall i :: 0 <= i < |r.value| ==> r.value[i] in messages && r.value[i].chatId == chatId
    ensures r.Ok? ==> multiset(r.value) <= multiset(ChatMessages(messages, chatId))
    ensures r.Ok? ==> SortedBy(r.value, Earlier)
  {
    if offset < 0 || limit < 0 then Fail(InvalidLimit)
    else
      PageSorted(ChatMessages(messages, chatId), offset, limit);
      var w := Window(SortBy(ChatMessages(messages, chatId), Earlier), offset, limit);
      PageMembers(messages, chatId, offset, limit, w);
      WindowSubMultiset(SortBy(ChatMessages(messages, chatId), Earlier), offset, limit);
      Ok(w)
  }

  /**
   * The page is the `offset`-th stretch of the chat's messages, oldest first:
   * those skipped are no newer than any listed, those listed no newer than
   * any after them, and a short page leaves no message out.
   */
  lemma MessagesPageWindow(messages: seq<Message>, chatId: string, offset: int, limit: int)
    requires offset >= 0 && limit >= 0
    ensures exists before, after ::
      WindowParts(ChatMessages(messages, chatId), before, MessagesPage(messages, chatId, offset, limit).value, after, Earlier, offset, limit)
  {
    var ms := ChatMessages(messages, chatId);
    WindowSplit(ms, offset, limit, Earlier);
    var before, after :| WindowParts(ms, before, Window(SortBy(ms, Earlier), offset, limit), after, Earlier, offset, limit);
    assert MessagesPage(messages, chatId, offset, limit).value == Window(SortBy(ms, Earlier), offset, limit);
  }

  lemma PageSorted(ms: seq<Message>, offset: nat, limit: nat)
    ensures SortedBy(Window(SortBy(ms, Earlier), offset, limit), Earlier)
  {
    SortBySorted(ms, Earlier);
    WindowSorted(SortBy(ms, Earlier), offset, limit, Earlier);
  }

  lemma PageMembers(messages: seq<Message>, chatId: string, offset: nat, limit: nat, w: seq<Message>)
    requires w == Window(SortBy(ChatMessages(messages, chatId), Earlier), offset, limit)
    ensures forall i :: 0 <= i < |w| ==> w[i] in messages && w[i].chatId == chatId
  {
    var ms := ChatMessages(messages, chatId);
    var sorted := SortBy(ms, Earlier);
    forall i | 0 <= i < |w| ensures w[i] in messages && w[i].chatId == chatId {
      assert w[i] == sorted[offset + i];
      assert sorted[offset + i] in multiset(ms);
    }
  }

  /** From the start, with room for all of them, the page holds every message of the chat. */
  lemma MessagesPageComplete(messages: seq<Message>, chatId: string, limit: int, m: Message)
    requires limit >= |ChatMessages(messages, chatId)|
    requires m in messages && m.chatId == chatId
    ensures m in MessagesPage(messages, chatId, 0, limit).value
  {
    var ms := ChatMessages(messages, chatId);
    var sorted := SortBy(ms, Earlier);
    assert m in multiset(sorted);
    assert MessagesPage(messages, chatId, 0, limit).value == sorted;
  }

  /** A message of the chat that the user neither sent nor has seen. */
  predicate Unread(m: Message, chatId: string, userId: string)
  {
    m.chatId == chatId && m.senderId != userId && m.status != MessageStatusSeen
  }

  /** `GetChatUnreadCount`: the chat's messages not sent by the user and not seen. */
  function UnreadMessages(messages: seq<Message>, chatId: string, userId: string): (n: nat)
    ensures n == |Filter(messages, (m: Message) => Unread(m, chatId, userId))|
    ensures n == 0 <==> forall i :: 0 <= i < |messages| ==> !Unread(messages[i], chatId, userId)
  {
    CountFilter(messages, (m: Message) => Unread(m, chatId, userId));
    Count(messages, (m: Message) => Unread(m, chatId, userId))
  }

  /** Marking a message seen never raises an unread count. */
  lemma {:induction false} SeenNotUnread(messages: seq<Message>, key: string, chatId: string, userId: string)
    ensures UnreadMessages(WithStatus(messages, key, MessageStatusSeen), chatId, userId) <= UnreadMessages(messages, chatId, userId)
  {
    if |messages| > 0 {
      var seen := WithStatus(messages, key, MessageStatusSeen);
      SeenNotUnread(messages[1..], key, chatId, userId);
      WithStatusTail(messages, key, MessageStatusSeen);
      UnreadCons(messages, chatId, userId);
      UnreadCons(seen, chatId, userId);
      assert Unread(seen[0], chatId, userId) ==> Unread(messages[0], chatId, userId);
    }
  }

  lemma WithStatusTail(messages: seq<Message>, key: string, status: string)
    requires |messages| > 0
    ensures WithStatus(messages, key, status)[1..] == WithStatus(messages[1..], key, status)
  {
  }

  lemma UnreadCons(messages: seq<Message>, chatId: string, userId: string)
    requires |messages| > 0
    ensures UnreadMessages(messages, chatId, userId) ==
            (if Unread(messages[0], chatId, userId) then 1 else 0) + UnreadMessages(messages[1..], chatId, userId)
  {
  }

  // ----- updates ------------------------------------------------------------

  /** The messages after `UpdateMessageStatus(key, status)`. */
  function WithStatus(messages: seq<Message>, key: string, status: string): seq<Message>
  {
    seq(|messages|, i requires 0 <= i < |messages| =>
      if messages[i].key == key then messages[i].(status := status) else messages[i])
  }

  /** The update changes only the messages with that key, and only their status. */
  lemma WithStatusOnly(messages: seq<Message>, key: string, status: string)
    ensures |WithStatus(messages, key, status)| == |messages|
    ensures forall i :: 0 <= i < |messages| ==>
      && WithStatus(messages, key, status)[i].(status := messages[i].status) == messages[i]
      && WithStatus(messages, key, status)[i].status == (if messages[i].key == key then status else messages[i].status)
  {
  }

  /** `UpdateMessageStatus`: the update runs over the collection, message by message. */
  method UpdateMessageStatus(db: Db, key: string, status: string) returns (err: Option<Error>)
    modifies db
    ensures ChatUpdateMessageStatus in old(db.failing) ==> err == Some(QueryFailed) && db.graph == old(db.graph)
    ensures ChatUpdateMessageStatus !in old(db.failing) ==>
      err == None && db.graph == old(db.graph).(messages := WithStatus(old(db.graph.messages), key, status))
    ensures db.failing == old(db.failing) && db.nextKey == old(db.nextKey)
  {
    if ChatUpdateMessageStatus in db.failing {
      return Some(QueryFailed);
    }
    var messages := db.graph.messages;
    var i := 0;
    while i < |messages|
      invariant 0 <= i <= |messages| == |db.graph.messages|
      invariant forall j :: 0 <= j < i ==> messages[j] == WithStatus(db.graph.messages, key, status)[j]
      invariant forall j :: i <= j < |messages| ==> messages[j] == db.graph.messages[j]
    {
      if messages[i].key == key {
        messages := messages[i := messages[i].(status := status)];
      }
      i := i + 1;
    }
    assert messages == WithStatus(db.graph.messages, key, status);
    db.graph := db.graph.(messages := messages);
    return None;
  }

  /** The participation edges after `UpdateParticipation(from, to, ...)`. */
  function WithParticipation(edges: seq<ParticipatesInEdge>, from: string, to: string, status: string,
                             notificationsEnabled: bool, joinedAt: Option<int>): seq<ParticipatesInEdge>
  {
    seq(|edges|, i requires 0 <= i < |edges| =>
      if edges[i].from == from && edges[i].to == to
      then edges[i].(status := status, notificationsEnabled := notificationsEnabled, joinedAt := joinedAt)
      else edges[i])
  }

  /**
   * Only the edges from `from` to `to` change, and only in status,
   * notifications and join time; role and endpoints stay.
   */
  lemma WithParticipationOnly(edges: seq<ParticipatesInEdge>, from: string, to: string, status: string,
                              notificationsEnabled: bool, joinedAt: Option<int>)
    ensures var after := WithParticipation(edges, from, to, status, notificationsEnabled, joinedAt);
      && |after| == |edges|
      && (forall i :: 0 <= i < |edges| ==>
            after[i].from == edges[i].from && after[i].to == edges[i].to && after[i].role == edges[i].role)
      && (forall i :: 0 <= i < |edges| && !(edges[i].from == from && edges[i].to == to) ==> after[i] == edges[i])
      && (forall i :: 0 <= i < |edges| && edges[i].from == from && edges[i].to == to ==>
            after[i].status == status && after[i].notificationsEnabled == notificationsEnabled && after[i].joinedAt == joinedAt)
  {
  }

  /** `UpdateParticipation`: the update runs over the edge collection, edge by edge. */
  method UpdateParticipation(db: Db, from: string, to: string, status: string, notificationsEnabled: bool, joinedAt: Option<int>)
    returns (err: Option<Error>)
    modifies db
    ensures ChatUpdateParticipation in old(db.failing) ==> err == Some(QueryFailed) && db.graph == old(db.graph)
    ensures ChatUpdateParticipation !in old(db.failing) ==>
      err == None && db.graph == old(db.graph).(participatesIn :=
        WithParticipation(old(db.graph.participatesIn), from, to, status, notificationsEnabled, joinedAt))
    ensures db.failing == old(db.failing) && db.nextKey == old(db.nextKey)
  {
    if ChatUpdateParticipation in db.failing {
      return Some(QueryFailed);
    }
    var edges := db.graph.participatesIn;
    ghost var target := WithParticipation(db.graph.participatesIn, from, to, status, notificationsEnabled, joinedAt);
    var i := 0;
    while i < |edges|
      invariant 0 <= i <= |edges| == |db.graph.participatesIn|
      invariant forall j :: 0 <= j < i ==> edges[j] == target[j]
      invariant forall j :: i <= j < |edges| ==> edges[j] == db.graph.participatesIn[j]
    {
      if edges[i].from == from && edges[i].to == to {
        edges := edges[i := edges[i].(status := status, notificationsEnabled := notificationsEnabled, joinedAt := joinedAt)];
      }
      i := i + 1;
    }
    assert edges == target;
    db.graph := db.graph.(participatesIn := edges);
    return None;
  }

  // ----- participation ------------------------------------------------------

  /** `GetParticipation` through `QueryOne`: the first edge from `from` to `to`. */
  function Participation(edges: seq<ParticipatesInEdge>, from: string, to: string): (r: Option<ParticipatesInEdge>)
    ensures r.None? <==> !Participates(edges, from, to)
    ensures r.Some? ==> r.value in edges && r.value.from == from && r.value.to == to
  {
    Find(edges, (e: ParticipatesInEdge) => e.from == from && e.to == to)
  }

  datatype Participant = Participant(id: string, username: string, avatarUrl: Option<string>, role: string, status: string)

  function ParticipantOf(u: User, e: ParticipatesInEdge): Participant
  {
    Participant(u.key, u.username, u.avatarUrl, e.role, e.status)
  }

  /** `GetChatParticipants`: for each edge into the chat, the users it leaves, with the edge's role and status. */
  function Participants(edges: seq<ParticipatesInEdge>, users: seq<User>, chatId: string): (r: seq<Participant>)
    ensures forall x :: x in r <==>
      exists e, u :: e in edges && u in users && e.to == chatId && Id(Users, u.key) == e.from && x == ParticipantOf(u, e)
  {
    if |edges| == 0 then []
    else
      assert forall e :: e in edges <==> e == edges[0] || e in edges[1..];
      var e := edges[0];
      var here := if e.to == chatId then EdgeParticipants(e, users) else [];
      here + Participants(edges[1..], users, chatId)
  }

  /** The participants one edge contributes: one per user whose id is the edge's `_from`. */
  function EdgeParticipants(e: ParticipatesInEdge, users: seq<User>): (r: seq<Participant>)
    ensures forall x :: x in r <==> exists u :: u in users && Id(Users, u.key) == e.from && x == ParticipantOf(u, e)
  {
    if |users| == 0 then []
    else
      assert forall u :: u in users <==> u == users[0] || u in users[1..];
      (if Id(Users, users[0].key) == e.from then [ParticipantOf(users[0], e)] else []) + EdgeParticipants(e, users[1..])
  }

  // ----- chat threads ---------------------------------------------------------

  datatype QuestionContext = QuestionContext(id: string, text: string, authorId: string, createdAt: int, formattedTime: string)
  datatype ChatPartner = ChatPartner(id: string, username: string, avatarUrl: Option<string>)
  datatype ThreadMessage = ThreadMessage(id: string, text: string, senderId: string, createdAt: int, formattedTime: string)
  datatype ChatThread = ChatThread(id: string, question: QuestionContext, partner: ChatPartner,
                                   lastMessage: ThreadMessage, unreadCount: nat, hasUnread: bool)

  /** `DOCUMENT(id)` over the chats. */
  function ChatById(chats: seq<Chat>, id: string): (r: Option<Chat>)
    ensures r.Some? ==> r.value in chats && Id(Chats, r.value.key) == id
    ensures r.None? <==> forall i :: 0 <= i < |chats| ==> Id(Chats, chats[i].key) != id
  {
    Find(chats, (c: Chat) => Id(Chats, c.key) == id)
  }

  /** `DOCUMENT(chat.postId)` over the posts. */
  function PostById(posts: seq<Post>, id: string): (r: Option<Post>)
    ensures r.Some? ==> r.value in posts && Id(Posts, r.value.key) == id
    ensures r.None? <==> forall i :: 0 <= i < |posts| ==> Id(Posts, posts[i].key) != id
  {
    Find(posts, (p: Post) => Id(Posts, p.key) == id)
  }

  /**
   * `partner`: over the chat's edges, in order, the first user other than
   * `userId` whose id is the edge's `_from`.
   */
  function Partner(edges: seq<ParticipatesInEdge>, users: seq<User>, chatId: string, userId: string): (r: Option<User>)
    ensures r.Some? ==> r.value in users && Id(Users, r.value.key) != userId && Participates(edges, Id(Users, r.value.key), chatId)
    ensures r.None? <==> forall e, u :: e in edges && u in users && e.to == chatId && e.from != userId ==> e.from != Id(Users, u.key)
  {
    if |edges| == 0 then None
    else
      assert forall e :: e in edges <==> e == edges[0] || e in edges[1..];
      var e := edges[0];
      var found := Find(users, (u: User) => Id(Users, u.key) == e.from);
      if e.to == chatId && e.from != userId && found.Some? then found
      else
        var rest := Partner(edges[1..], users, chatId, userId);
        assert rest.Some? ==> Participates(edges, Id(Users, rest.value.key), chatId) by {
          if rest.Some? {
            var i :| 0 <= i < |edges[1..]| && edges[1..][i].from == Id(Users, rest.value.key) && edges[1..][i].to == chatId;
            assert edges[i + 1] == edges[1..][i];
          }
        }
        rest
  }

  function QuestionOf(p: Option<Post>): QuestionContext
  {
    match p
    case None => QuestionContext("", "", "", 0, "")
    case Some(post) => QuestionContext(post.key, post.text, post.authorId, post.createdAt, "")
  }

  function PartnerOf(u: Option<User>): ChatPartner
  {
    match u
    case None => ChatPartner("", "", None)
    case Some(user) => ChatPartner(user.key, user.username, user.avatarUrl)
  }

  /** The latest message of a chat: none exactly when the chat has no message, else a newest one. */
  lemma LatestOfChat(messages: seq<Message>, chatId: string)
    ensures var l := Latest(ChatMessages(messages, chatId));
      && (l.None? <==> forall m :: m in messages ==> m.chatId != chatId)
      && (l.Some? ==> l.value in messages && l.value.chatId == chatId)
      && (l.Some? ==> forall m :: m in messages && m.chatId == chatId ==> m.createdAt <= l.value.createdAt)
  {
    var ms := ChatMessages(messages, chatId);
    var l := Latest(ms);
    if l.Some? {
      assert l.value in ms;
      forall m | m in messages && m.chatId == chatId ensures m.createdAt <= l.value.createdAt {
        assert m in ms;
        var i :| 0 <= i < |ms| && ms[i] == m;
      }
    }
  }

  /**
   * The thread one participation edge of the user yields: none when its chat
   * does not exist or has no message (`FILTER lastMsg != null`).
   */
  function ThreadOf(g: Graph, userId: string, e: ParticipatesInEdge): (r: Option<ChatThread>)
    ensures r.Some? <==> ChatById(g.chats, e.to).Some? && exists m :: m in g.messages && m.chatId == e.to
    ensures r.Some? ==> (r.value.hasUnread <==> r.value.unreadCount > 0)
    ensures r.Some? ==> r.value.unreadCount == UnreadMessages(g.messages, e.to, userId)
    ensures r.Some? ==> r.value.id == ChatById(g.chats, e.to).value.key
    ensures r.Some? ==> forall m :: m in g.messages && m.chatId == e.to ==> m.createdAt <= r.value.lastMessage.createdAt
  {
    match ChatById(g.chats, e.to)
    case None => None
    case Some(chat) =>
      var chatId := Id(Chats, chat.key);
      LatestOfChat(g.messages, chatId);
      match Latest(ChatMessages(g.messages, chatId))
      case None => None
      case Some(last) =>
        var unread := UnreadMessages(g.messages, chatId, userId);
        Some(ChatThread(chat.key, QuestionOf(PostById(g.posts, chat.postId)),
                        PartnerOf(Partner(g.participatesIn, g.users, chatId, userId)),
                        ThreadMessage(last.key, last.text, last.senderId, last.createdAt, ""),
                        unread, unread > 0))
  }

  /** The threads of the user's participation edges, edge by edge. */
  function AllThreads(g: Graph, userId: string, edges: seq<ParticipatesInEdge>): (r: seq<ChatThread>)
    ensures forall t :: t in r <==> exists e :: e in edges && e.from == userId && ThreadOf(g, userId, e) == Some(t)
  {
    if |edges| == 0 then []
    else
      assert forall e :: e in edges <==> e == edges[0] || e in edges[1..];
      var e := edges[0];
      var here := if e.from == userId && ThreadOf(g, userId, e).Some? then [ThreadOf(g, userId, e).value] else [];
      assert forall t :: t in here <==> e.from == userId && ThreadOf(g, userId, e) == Some(t);
      var rest := AllThreads(g, userId, edges[1..]);
      assert forall t :: t in here + rest <==> t in here || t in rest;
      here + rest
  }

  /** `SORT lastMsg.createdAt DESC`. */
  predicate NewerThread(a: ChatThread, b: ChatThread)
  {
    a.lastMessage.createdAt >= b.lastMessage.createdAt
  }

  /** `GetUserChatThreads`: the user's threads, most recent message first, at most `limit`. */
  function UserChatThreads(g: Graph, userId: string, limit: int): (r: Res<seq<ChatThread>>)
    ensures r.Fail? <==> limit < 0
    ensures r.Ok? ==> var all := AllThreads(g, userId, g.participatesIn);
      |r.value| == if limit < |all| then limit else |all|
    ensures r.Ok? ==> forall i :: 0 <= i < |r.value| ==> r.value[i] in AllThreads(g, userId, g.participatesIn)
    ensures r.Ok? ==> multiset(r.value) <= multiset(AllThreads(g, userId, g.participatesIn))
    ensures r.Ok? ==> SortedBy(r.value, NewerThread)
  {
    if limit < 0 then Fail(InvalidLimit)
    else
      var all := AllThreads(g, userId, g.participatesIn);
      var w := Take(SortBy(all, NewerThread), limit);
      SortedTake(all, limit, NewerThread);
      TakeSortMembers(all, limit, NewerThread, w);
      TakeSubMultiset(SortBy(all, NewerThread), limit);
      Ok(w)
  }

  lemma ThreadOrigin(g: Graph, userId: string, limit: int, t: ChatThread)
    requires UserChatThreads(g, userId, limit).Ok? && t in UserChatThreads(g, userId, limit).value
    ensures exists e :: e in g.participatesIn && e.from == userId && ThreadOf(g, userId, e) == Some(t)
  {
    var r := UserChatThreads(g, userId, limit).value;
    var k :| 0 <= k < |r| && r[k] == t;
    assert t in AllThreads(g, userId, g.participatesIn);
  }

  /** Every thread returned comes from a chat of the user that has a message, and flags unread messages exactly. */
  lemma ThreadsHaveMessages(g: Graph, userId: string, limit: int, t: ChatThread)
    requires UserChatThreads(g, userId, limit).Ok? && t in UserChatThreads(g, userId, limit).value
    ensures exists c, m :: c in g.chats && t.id == c.key && Participates(g.participatesIn, userId, Id(Chats, c.key))
                           && m in g.messages && m.chatId == Id(Chats, c.key)
    ensures t.hasUnread <==> t.unreadCount > 0
  {
    ThreadOrigin(g, userId, limit, t);
    var e :| e in g.participatesIn && e.from == userId && ThreadOf(g, userId, e) == Some(t);
    ThreadFacts(g, userId, e, t);
  }

  lemma ThreadFacts(g: Graph, userId: string, e: ParticipatesInEdge, t: ChatThread)
    requires e in g.participatesIn && e.from == userId && ThreadOf(g, userId, e) == Some(t)
    ensures exists c, m :: c in g.chats && t.id == c.key && Participates(g.participatesIn, userId, Id(Chats, c.key))
                           && m in g.messages && m.chatId == Id(Chats, c.key)
  {
    var c := ChatById(g.chats, e.to).value;
    var m :| m in g.messages && m.chatId == e.to;
    var i :| 0 <= i < |g.participatesIn| && g.participatesIn[i] == e;
    assert Participates(g.participatesIn, userId, Id(Chats, c.key));
  }

  /**
   * A thread left out (or returned fewer times than the user's edges give it)
   * is no more recent than any returned, and `limit` threads were returned.
   */
  lemma ThreadsComplete(g: Graph, userId: string, limit: int, t: ChatThread)
    requires limit >= 0
    requires multiset(UserChatThreads(g, userId, limit).value)[t] < multiset(AllThreads(g, userId, g.participatesIn))[t]
    ensures var r := UserChatThreads(g, userId, limit).value;
      |r| == limit && forall i :: 0 <= i < limit ==> r[i].lastMessage.createdAt >= t.lastMessage.createdAt
  {
    var all := AllThreads(g, userId, g.participatesIn);
    assert UserChatThreads(g, userId, limit).value == Take(SortBy(all, NewerThread), limit);
    TakeSortedComplete(all, limit, NewerThread, t);
  }

  /** `GetChatForPostAndUser` through `QueryOne`: the first chat about the post in which the user participates. */
  function ChatForPostAndUser(g: Graph, postId: string, userId: string): (r: Option<Chat>)
    ensures r.None? <==> forall i :: 0 <= i < |g.chats| ==>
      !(g.chats[i].postId == postId && Participates(g.participatesIn, userId, Id(Chats, g.chats[i].key)))
    ensures r.Some? ==>
      r.value in g.chats && r.value.postId == postId && Participates(g.participatesIn, userId, Id(Chats, r.value.key))
  {
    Find(g.chats, (c: Chat) => c.postId == postId && Participates(g.participatesIn, userId, Id(Chats, c.key)))
  }
}
