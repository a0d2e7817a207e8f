/**
 * The chat service of internal/chat/service.go over the repository of
 * internal/chat/repository.go. The repository takes chat, user and post keys
 * and binds them as "chats/<key>", "users/<key>" and "posts/<key>". Reading a
 * chat with its first messages, listing a user's threads with relative times,
 * sending a message, accepting and muting a chat, listing participants and
 * creating a chat with its participation edges. Each state-changing operation
 * is specified by a function of the store before the call; the service clock
 * (`time.Now()`) is a parameter, in milliseconds for stored times and in
 * nanoseconds for relative-time formatting.
 */
module ChatService {
  import opened Wrappers
  import opened Domain
  import opened Store
  import opened Text
  import opened Collections
  import opened Sorting
  import opened ChatQueries
  import opened RelativeTime

  predicate ChatKeyTaken(chats: seq<Chat>, key: string)
  {
    exists i :: 0 <= i < |chats| && chats[i].key == key
  }

  predicate MessageKeyTaken(messages: seq<Message>, key: string)
  {
    exists i :: 0 <= i < |messages| && messages[i].key == key
  }

  // ----- the repository -----------------------------------------------------

  /** `GetMessages`: the message page of "chats/<chatId>". */
  function GetMessages(db: Db, chatId: string, limit: int, offset: int): (r: Res<seq<Message>>)
    reads db
    ensures r.Fail? <==> ChatGetMessages in db.failing || offset < 0 || limit < 0
    ensures r.Ok? ==> MessagesPage(db.graph.messages, Id(Chats, chatId), offset, limit) == Ok(r.value)
  {
    var page := db.Read(ChatGetMessages, MessagesPage(db.graph.messages, Id(Chats, chatId), offset, limit));
    if page.Fail? then Fail(page.error) else page.value
  }

  /**
   * `GetUnreadCount`: the count of "users/<userId>" in "chats/<chatId>" and
   * the error; on an error the count is 0. The query returns one `LENGTH` row
   * in every case, so the repository's no-row branch, which also answers 0,
   * is never taken and is not written here.
   */
  function GetUnreadCount(db: Db, chatId: string, userId: string): (r: (int, Option<Error>))
    reads db
    ensures r.1.Some? <==> ChatGetUnreadCount in db.failing
    ensures r.1.Some? ==> r == (0, Some(QueryFailed))
    ensures r.1.None? ==> r.0 == |Filter(db.graph.messages, (m: Message) => Unread(m, Id(Chats, chatId), Id(Users, userId)))|
  {
    var result := db.Read(ChatGetUnreadCount, UnreadMessages(db.graph.messages, Id(Chats, chatId), Id(Users, userId)));
    if result.Fail? then (0, Some(result.error)) else (result.value, None)
  }

  /** A zero count without error means no message of the chat is waiting for the user. */
  lemma UnreadCountZero(db: Db, chatId: string, userId: string)
    requires ChatGetUnreadCount !in db.failing
    ensures GetUnreadCount(db, chatId, userId).0 == 0 <==>
      forall i :: 0 <= i < |db.graph.messages| ==> !Unread(db.graph.messages[i], Id(Chats, chatId), Id(Users, userId))
  {
    var n := UnreadMessages(db.graph.messages, Id(Chats, chatId), Id(Users, userId));
    assert GetUnreadCount(db, chatId, userId).0 == n;
  }

  /** What `GetUserChatThreads` of the repository returns: the threads and the next cursor. */
  datatype ThreadPage = ThreadPage(threads: seq<ChatThread>, cursor: string)

  /** The cursor rule: a full, non-empty page carries its last thread's last-message time in decimal. */
  function ThreadCursor(threads: seq<ChatThread>, limit: int): (c: string)
    ensures c != "" <==> |threads| == limit && limit > 0
    ensures c != "" ==> c == Decimal(threads[|threads| - 1].lastMessage.createdAt)
  {
    if |threads| == limit && |threads| > 0 then Decimal(threads[|threads| - 1].lastMessage.createdAt) else ""
  }

  /** `GetUserChatThreads` of the repository: the query bound to "users/<id>" and the limit; the cursor is not bound. */
  function GetUserChatThreads(db: Db, userId: string, limit: int, cursor: string): (r: Res<ThreadPage>)
    reads db
    ensures r.Fail? <==> ChatGetUserChatThreads in db.failing || limit < 0
    ensures r.Ok? ==> UserChatThreads(db.graph, Id(Users, userId), limit) == Ok(r.value.threads)
    ensures r.Ok? ==> (r.value.cursor != "" <==> |r.value.threads| == limit && limit > 0)
    ensures r.Ok? && r.value.cursor != "" ==>
      r.value.cursor == Decimal(r.value.threads[|r.value.threads| - 1].lastMessage.createdAt)
  {
    var found := db.Read(ChatGetUserChatThreads, UserChatThreads(db.graph, Id(Users, userId), limit));
    if found.Fail? then Fail(found.error)
    else if found.value.Fail? then Fail(found.value.error)
    else Ok(ThreadPage(found.value.value, ThreadCursor(found.value.value, limit)))
  }

  /** An empty cursor means the page holds every thread of the user. */
  lemma ThreadPageLast(db: Db, userId: string, limit: int, cursor: string)
    requires limit > 0 && GetUserChatThreads(db, userId, limit, cursor).Ok?
    requires GetUserChatThreads(db, userId, limit, cursor).value.cursor == ""
    ensures |GetUserChatThreads(db, userId, limit, cursor).value.threads| ==
            |AllThreads(db.graph, Id(Users, userId), db.graph.participatesIn)|
  {
  }

  /** The cursor argument has no effect on the page. */
  lemma ThreadPageIgnoresCursor(db: Db, userId: string, limit: int, cursor: string, other: string)
    ensures GetUserChatThreads(db, userId, limit, cursor) == GetUserChatThreads(db, userId, limit, other)
  {
  }

  /** `GetChatForPostAndUser` of the repository, bound to "posts/<postId>" and "users/<userId>". */
  function GetChatForPostAndUser(db: Db, postId: string, userId: string): (r: Res<Option<Chat>>)
    reads db
    ensures r.Fail? <==> ChatGetChatForPostAndUser in db.failing
    ensures r.Ok? && r.value.Some? ==>
      r.value.value in db.graph.chats && r.value.value.postId == Id(Posts, postId)
      && Participates(db.graph.participatesIn, Id(Users, userId), Id(Chats, r.value.value.key))
    ensures r.Ok? && r.value.None? ==> forall i :: 0 <= i < |db.graph.chats| ==>
      !(db.graph.chats[i].postId == Id(Posts, postId)
        && Participates(db.graph.participatesIn, Id(Users, userId), Id(Chats, db.graph.chats[i].key)))
  {
    db.Read(ChatGetChatForPostAndUser, ChatForPostAndUser(db.graph, Id(Posts, postId), Id(Users, userId)))
  }

  /** The repository's `Create` for chats: the store generates the key. */
  method CreateChatDocument(db: Db, chat: Chat) returns (r: Res<string>)
    modifies db
    ensures ChatCreate in old(db.failing) ==>
      r == Fail(InsertFailed) && db.graph == old(db.graph) && db.nextKey == old(db.nextKey)
    ensures ChatCreate !in old(db.failing) ==> db.nextKey == old(db.nextKey) + 1
    ensures ChatCreate !in old(db.failing) && ChatKeyTaken(old(db.graph.chats), Decimal(old(db.nextKey))) ==>
      r == Fail(Wrap("create document: ", DuplicateKey)) && db.graph == old(db.graph)
    ensures ChatCreate !in old(db.failing) && !ChatKeyTaken(old(db.graph.chats), Decimal(old(db.nextKey))) ==>
      r == Ok(Decimal(old(db.nextKey)))
      && db.graph == old(db.graph).(chats := old(db.graph.chats) + [chat.(key := Decimal(old(db.nextKey)))])
    ensures db.failing == old(db.failing)
  {
    if ChatCreate in db.failing {
      return Fail(InsertFailed);
    }
    var key := db.GenerateKey();
    if ChatKeyTaken(db.graph.chats, key) {
      return Fail(Wrap("create document: ", DuplicateKey));
    }
    db.graph := db.graph.(chats := db.graph.chats + [chat.(key := key)]);
    return Ok(key);
  }

  /** The repository's `CreateMessage`: the store generates the key. */
  method CreateMessage(db: Db, msg: Message) returns (r: Res<string>)
    modifies db
    ensures ChatCreateMessage in old(db.failing) ==>
      r == Fail(InsertFailed) && db.graph == old(db.graph) && db.nextKey == old(db.nextKey)
    ensures ChatCreateMessage !in old(db.failing) ==> db.nextKey == old(db.nextKey) + 1
    ensures ChatCreateMessage !in old(db.failing) && MessageKeyTaken(old(db.graph.messages), Decimal(old(db.nextKey))) ==>
      r == Fail(Wrap("create document: ", DuplicateKey)) && db.graph == old(db.graph)
    ensures ChatCreateMessage !in old(db.failing) && !MessageKeyTaken(old(db.graph.messages), Decimal(old(db.nextKey))) ==>
      r == Ok(Decimal(old(db.nextKey)))
      && db.graph == old(db.graph).(messages := old(db.graph.messages) + [msg.(key := Decimal(old(db.nextKey)))])
    ensures db.failing == old(db.failing)
  {
    if ChatCreateMessage in db.failing {
      return Fail(InsertFailed);
    }
    var key := db.GenerateKey();
    if MessageKeyTaken(db.graph.messages, key) {
      return Fail(Wrap("create document: ", DuplicateKey));
    }
    db.graph := db.graph.(messages := db.graph.messages + [msg.(key := key)]);
    return Ok(key);
  }

  /** The repository's `CreateParticipation`: an edge insert, which takes no generated key. */
  method CreateParticipation(db: Db, edge: ParticipatesInEdge) returns (err: Option<Error>)
    modifies db
    ensures ChatCreateParticipation in db.failing ==> err == Some(InsertFailed) && db.graph == old(db.graph)
    ensures ChatCreateParticipation !in db.failing ==>
      err == None && db.graph == old(db.graph).(participatesIn := old(db.graph.participatesIn) + [edge])
    ensures db.failing == old(db.failing) && db.nextKey == old(db.nextKey)
  {
    if ChatCreateParticipation in db.failing {
      return Some(InsertFailed);
    }
    db.graph := db.graph.(participatesIn := db.graph.participatesIn + [edge]);
    return None;
  }

  // ----- GetChat ----------------------------------------------------------------

  datatype MessageResponse = MessageResponse(key: string, senderId: string, text: string, status: string, createdAt: int)

  datatype GetChatResponse = GetChatResponse(key: string, postId: string, chatType: string,
                                             messages: seq<MessageResponse>, createdAt: int)

  /** The fields of a message copied into a response. */
  function ResponseOf(m: Message): MessageResponse
  {
    MessageResponse(m.key, m.senderId, m.text, m.status, m.createdAt)
  }

  function Responses(ms: seq<Message>): (r: seq<MessageResponse>)
    ensures |r| == |ms| && forall i :: 0 <= i < |ms| ==> r[i] == ResponseOf(ms[i])
  {
    seq(|ms|, i requires 0 <= i < |ms| => ResponseOf(ms[i]))
  }

  /** `GetChat` reads one page of this many messages, from the start. */
  const ChatPageSize := 100

  /**
   * `GetChat`: the chat by key, then its first page of messages, each copied
   * field by field in the order fetched.
   */
  function ChatView(db: Db, chatId: string): (r: Res<GetChatResponse>)
    reads db
    ensures ChatGetByID in db.failing ==> r == Fail(Wrap("get chat: ", QueryFailed))
    ensures r == Fail(Domain(NotFound)) <==> ChatGetByID !in db.failing && !ChatKeyTaken(db.graph.chats, chatId)
    ensures ChatGetByID !in db.failing && ChatKeyTaken(db.graph.chats, chatId) ==>
      (r.Fail? <==> ChatGetMessages in db.failing) && (r.Fail? ==> r == Fail(Wrap("get messages: ", QueryFailed)))
    ensures r.Ok? ==> exists c :: (c in db.graph.chats && c.key == chatId &&
                                   r.value == GetChatResponse(c.key, c.postId, c.chatType, r.value.messages, c.createdAt))
    ensures r.Ok? ==> |r.value.messages| <= ChatPageSize
    ensures r.Ok? ==> forall i :: 0 <= i < |r.value.messages| ==>
      exists m :: m in db.graph.messages && m.chatId == Id(Chats, chatId) && r.value.messages[i] == ResponseOf(m)
    ensures r.Ok? ==> forall i, j :: 0 <= i < j < |r.value.messages| ==>
      r.value.messages[i].createdAt <= r.value.messages[j].createdAt
    ensures r.Ok? ==> r.value.messages == Responses(MessagesPage(db.graph.messages, Id(Chats, chatId), 0, ChatPageSize).value)
  {
    var found := db.Read(ChatGetByID, ChatByKey(db.graph.chats, chatId));
    if found.Fail? then Fail(Wrap("get chat: ", found.error))
    else if found.value.None? then Fail(Domain(NotFound))
    else
      var chat := found.value.value;
      var messages := GetMessages(db, chatId, ChatPageSize, 0);
      if messages.Fail? then Fail(Wrap("get messages: ", messages.error))
      else
        var ms := messages.value;
        assert forall i :: 0 <= i < |ms| ==> ms[i] in db.graph.messages && ms[i].chatId == Id(Chats, chatId);
        Ok(GetChatResponse(chat.key, chat.postId, chat.chatType, Responses(ms), chat.createdAt))
  }

  /**
   * The chat is shown with its oldest `ChatPageSize` messages: every message
   * of the chat left out is no older than any shown, and a short page leaves
   * none out.
   */
  lemma ChatViewFirstPage(db: Db, chatId: string)
    requires ChatView(db, chatId).Ok?
    ensures exists page, after ::
      && WindowParts(ChatMessages(db.graph.messages, Id(Chats, chatId)), [], page, after, Earlier, 0, ChatPageSize)
      && ChatView(db, chatId).value.messages == Responses(page)
  {
    var ms := ChatMessages(db.graph.messages, Id(Chats, chatId));
    MessagesPageWindow(db.graph.messages, Id(Chats, chatId), 0, ChatPageSize);
    var page := MessagesPage(db.graph.messages, Id(Chats, chatId), 0, ChatPageSize).value;
    var before, after :| WindowParts(ms, before, page, after, Earlier, 0, ChatPageSize);
    assert before == [];
  }

  /** A chat with at most a page of messages is returned with every one of them. */
  lemma ChatViewComplete(db: Db, chatId: string, m: Message)
    requires ChatView(db, chatId).Ok?
    requires |ChatMessages(db.graph.messages, Id(Chats, chatId))| <= ChatPageSize
    requires m in db.graph.messages && m.chatId == Id(Chats, chatId)
    ensures ResponseOf(m) in ChatView(db, chatId).value.messages
  {
    MessagesPageComplete(db.graph.messages, Id(Chats, chatId), ChatPageSize, m);
    var ms := GetMessages(db, chatId, ChatPageSize, 0).value;
    var k :| 0 <= k < |ms| && ms[k] == m;
    assert ChatView(db, chatId).value.messages == Responses(ms);
    assert Responses(ms)[k] == ResponseOf(m);
  }

  /** The copying loop of `GetChat`, into a slice of the messages' length. */
  method CopyMessages(ms: seq<Message>) returns (r: seq<MessageResponse>)
    ensures r == Responses(ms)
  {
    var responses := new MessageResponse[|ms|];
    for i := 0 to |ms|
      invariant forall k :: 0 <= k < i ==> responses[k] == ResponseOf(ms[k])
    {
      var msg := ms[i];
      responses[i] := MessageResponse(msg.key, msg.senderId, msg.text, msg.status, msg.createdAt);
    }
    r := responses[..];
  }

  method GetChat(db: Db, chatId: string) returns (r: Res<GetChatResponse>)
    ensures r == ChatView(db, chatId)
  {
    var found := db.Read(ChatGetByID, ChatByKey(db.graph.chats, chatId));
    if found.Fail? {
      return Fail(Wrap("get chat: ", found.error));
    }
    if found.value.None? {
      return Fail(Domain(NotFound));
    }
    var chat := found.value.value;
    var messages := GetMessages(db, chatId, 100, 0);
    if messages.Fail? {
      return Fail(Wrap("get messages: ", messages.error));
    }
    var responses := CopyMessages(messages.value);
    return Ok(GetChatResponse(chat.key, chat.postId, chat.chatType, responses, chat.createdAt));
  }

  // ----- GetUserChats -----------------------------------------------------------

  datatype ChatThreadsResponse = ChatThreadsResponse(threads: seq<ChatThread>, nextCursor: Option<string>)

  /** The limit after clamping: 50 when not positive, at most 100. */
  function ChatsLimit(limit: int): (r: int)
    ensures 1 <= r <= 100
    ensures limit <= 0 ==> r == 50
    ensures 1 <= limit <= 100 ==> r == limit
    ensures limit > 100 ==> r == 100
  {
    if limit <= 0 then 50 else if limit > 100 then 100 else limit
  }

  /** A thread with its question's and last message's relative times filled in; nothing else changes. */
  function StampThread(t: ChatThread, nowNanos: int): (r: ChatThread)
    ensures r.(question := t.question, lastMessage := t.lastMessage) == t
    ensures r.question.(formattedTime := t.question.formattedTime) == t.question
    ensures r.lastMessage.(formattedTime := t.lastMessage.formattedTime) == t.lastMessage
    ensures r.question.formattedTime == FormatTime(t.question.createdAt, nowNanos)
    ensures r.lastMessage.formattedTime == FormatTime(t.lastMessage.createdAt, nowNanos)
  {
    t.(question := t.question.(formattedTime := FormatTime(t.question.createdAt, nowNanos)),
       lastMessage := t.lastMessage.(formattedTime := FormatTime(t.lastMessage.createdAt, nowNanos)))
  }

  /** The formatting loop: each thread stamped in place, in order. */
  method FormatThreads(threads: array<ChatThread>, nowNanos: int)
    modifies threads
    ensures threads[..] == StampThreads(old(threads[..]), nowNanos)
  {
    ghost var orig := threads[..];
    for i := 0 to threads.Length
      invariant threads[..] == StampThreads(orig[..i], nowNanos) + orig[i..]
    {
      StampStep(orig, i, nowNanos);
      threads[i] := FormatThread(threads[i], nowNanos);
    }
    assert orig[..threads.Length] == orig;
  }

  lemma StampStep(orig: seq<ChatThread>, i: nat, nowNanos: int)
    requires i < |orig|
    ensures (StampThreads(orig[..i], nowNanos) + orig[i..])[i] == orig[i]
    ensures (StampThreads(orig[..i], nowNanos) + orig[i..])[i := StampThread(orig[i], nowNanos)]
         == StampThreads(orig[..i + 1], nowNanos) + orig[i + 1..]
  {
  }

  /** The loop body: both times of one thread formatted. */
  method FormatThread(t: ChatThread, nowNanos: int) returns (r: ChatThread)
    ensures r == StampThread(t, nowNanos)
  {
    r := t;
    var questionTime := FormatTime(r.question.createdAt, nowNanos);
    r := r.(question := r.question.(formattedTime := questionTime));
    var messageTime := FormatTime(r.lastMessage.createdAt, nowNanos);
    r := r.(lastMessage := r.lastMessage.(formattedTime := messageTime));
  }

  function StampThreads(threads: seq<ChatThread>, nowNanos: int): (r: seq<ChatThread>)
    ensures |r| == |threads| && forall i :: 0 <= i < |threads| ==> r[i] == StampThread(threads[i], nowNanos)
  {
    seq(|threads|, i requires 0 <= i < |threads| => StampThread(threads[i], nowNanos))
  }

  /** The threads of a page copied into a slice and stamped in place. */
  method FormatThreadItems(found: seq<ChatThread>, nowNanos: int) returns (r: seq<ChatThread>)
    ensures r == StampThreads(found, nowNanos)
  {
    var threads := new ChatThread[|found|](i requires 0 <= i < |found| => found[i]);
    FormatThreads(threads, nowNanos);
    r := threads[..];
  }

  /** `GetUserChats` at service time `nowNanos`. */
  function UserChats(db: Db, userId: string, limit: int, cursor: string, nowNanos: int): (r: Res<ChatThreadsResponse>)
    reads db
    ensures r.Fail? <==> ChatGetUserChatThreads in db.failing
    ensures r.Fail? ==> r.error == Wrap("get user chats: ", QueryFailed)
    ensures r.Ok? ==> |r.value.threads| <= ChatsLimit(limit)
    ensures r.Ok? ==> (r.value.nextCursor.Some? <==> |r.value.threads| == ChatsLimit(limit))
    ensures r.Ok? && r.value.nextCursor.Some? ==>
      r.value.nextCursor.value == Decimal(r.value.threads[|r.value.threads| - 1].lastMessage.createdAt)
    ensures r.Ok? ==> var found := UserChatThreads(db.graph, Id(Users, userId), ChatsLimit(limit));
      found.Ok? && r.value.threads == StampThreads(found.value, nowNanos)
  {
    var page := GetUserChatThreads(db, userId, ChatsLimit(limit), cursor);
    if page.Fail? then Fail(Wrap("get user chats: ", page.error))
    else
      Ok(ChatThreadsResponse(StampThreads(page.value.threads, nowNanos),
                             if page.value.cursor == "" then None else Some(page.value.cursor)))
  }

  method GetUserChats(db: Db, userId: string, limit: int, cursor: string, nowNanos: int) returns (r: Res<ChatThreadsResponse>)
    ensures r == UserChats(db, userId, limit, cursor, nowNanos)
  {
    var n := limit;
    if n <= 0 {
      n := 50;
    }
    if n > 100 {
      n := 100;
    }
    var page := GetUserChatThreads(db, userId, n, cursor);
    if page.Fail? {
      return Fail(Wrap("get user chats: ", page.error));
    }
    var threads := FormatThreadItems(page.value.threads, nowNanos);
    var cursorPtr: Option<string> := None;
    if page.value.cursor != "" {
      cursorPtr := Some(page.value.cursor);
    }
    return Ok(ChatThreadsResponse(threads, cursorPtr));
  }

  /** The listed threads are ordered newest last message first. */
  lemma UserChatsNewestFirst(db: Db, userId: string, limit: int, cursor: string, nowNanos: int)
    requires UserChats(db, userId, limit, cursor, nowNanos).Ok?
    ensures var ts := UserChats(db, userId, limit, cursor, nowNanos).value.threads;
      forall i, j :: 0 <= i < j < |ts| ==> ts[i].lastMessage.createdAt >= ts[j].lastMessage.createdAt
  {
    var ts := UserChats(db, userId, limit, cursor, nowNanos).value.threads;
    var found := UserChatThreads(db.graph, Id(Users, userId), ChatsLimit(limit)).value;
    assert ts == StampThreads(found, nowNanos);
    assert SortedBy(found, NewerThread);
    forall i, j | 0 <= i < j < |ts| ensures ts[i].lastMessage.createdAt >= ts[j].lastMessage.createdAt {
      assert NewerThread(found[i], found[j]);
    }
  }

  /** Each listed thread flags unread messages exactly when it counts some. */
  lemma UserChatsUnreadFlag(db: Db, userId: string, limit: int, cursor: string, nowNanos: int, i: int)
    requires UserChats(db, userId, limit, cursor, nowNanos).Ok?
    requires 0 <= i < |UserChats(db, userId, limit, cursor, nowNanos).value.threads|
    ensures var t := UserChats(db, userId, limit, cursor, nowNanos).value.threads[i];
      t.hasUnread <==> t.unreadCount > 0
  {
    var found := UserChatThreads(db.graph, Id(Users, userId), ChatsLimit(limit)).value;
    assert found[i] in found;
    ThreadsHaveMessages(db.graph, Id(Users, userId), ChatsLimit(limit), found[i]);
  }

  /** The cursor of a request has no effect on the listing. */
  lemma UserChatsIgnoresCursor(db: Db, userId: string, limit: int, cursor: string, other: string, nowNanos: int)
    ensures UserChats(db, userId, limit, cursor, nowNanos) == UserChats(db, userId, limit, other, nowNanos)
  {
  }

  // ----- SendMessage ------------------------------------------------------------

  datatype SendMessageRequest = SendMessageRequest(senderId: string, text: string)
  datatype SendMessageResponse = SendMessageResponse(messageId: string, createdAt: int)

  /** The message `SendMessage` inserts, before the store gives it a key. */
  function NewMessage(chatId: string, req: SendMessageRequest, now: int): Message
  {
    Message("", Id(Chats, chatId), Id(Users, req.senderId), req.text, MessageStatusSent, now)
  }

  /**
   * `SendMessage` at time `now`: the chat must exist and the sender must
   * participate in it, whatever the state of the participation; then one
   * message is inserted under a generated key.
   */
  function Sending(g: Graph, failing: set<Op>, nextKey: nat, chatId: string, req: SendMessageRequest, now: int)
    : (c: Creation<SendMessageResponse>)
    ensures c.result == Fail(Domain(NotFound)) <==> ChatGetByID !in failing && !ChatKeyTaken(g.chats, chatId)
    ensures c.result == Fail(Domain(Forbidden)) <==>
      ChatGetByID !in failing && ChatKeyTaken(g.chats, chatId) && ChatGetParticipation !in failing
      && !Participates(g.participatesIn, Id(Users, req.senderId), Id(Chats, chatId))
    ensures c.result.Ok? <==>
      ChatGetByID !in failing && ChatKeyTaken(g.chats, chatId) && ChatGetParticipation !in failing
      && Participates(g.participatesIn, Id(Users, req.senderId), Id(Chats, chatId))
      && ChatCreateMessage !in failing && !MessageKeyTaken(g.messages, Decimal(nextKey))
    ensures c.result.Ok? ==>
      c.result.value == SendMessageResponse(Decimal(nextKey), now)
      && c.graph == g.(messages := g.messages + [NewMessage(chatId, req, now).(key := Decimal(nextKey))])
    ensures c.result.Fail? ==> c.graph == g
    ensures ChatGetByID in failing ==> c.result == Fail(Wrap("get chat: ", QueryFailed))
  {
    if ChatGetByID in failing then Creation(Fail(Wrap("get chat: ", QueryFailed)), g, nextKey)
    else if ChatByKey(g.chats, chatId).None? then Creation(Fail(Domain(NotFound)), g, nextKey)
    else if ChatGetParticipation in failing then Creation(Fail(Wrap("get participation: ", QueryFailed)), g, nextKey)
    else if Participation(g.participatesIn, Id(Users, req.senderId), Id(Chats, chatId)).None? then
      Creation(Fail(Domain(Forbidden)), g, nextKey)
    else if ChatCreateMessage in failing then Creation(Fail(Wrap("create message: ", InsertFailed)), g, nextKey)
    else
      var key := Decimal(nextKey);
      if MessageKeyTaken(g.messages, key) then
        Creation(Fail(Wrap("create message: ", Wrap("create document: ", DuplicateKey))), g, nextKey + 1)
      else
        Creation(Ok(SendMessageResponse(key, now)),
                 g.(messages := g.messages + [NewMessage(chatId, req, now).(key := key)]), nextKey + 1)
  }

  method SendMessage(db: Db, chatId: string, req: SendMessageRequest, now: int) returns (r: Res<SendMessageResponse>)
    modifies db
    ensures Sending(old(db.graph), old(db.failing), old(db.nextKey), chatId, req, now) == Creation(r, db.graph, db.nextKey)
    ensures db.failing == old(db.failing)
  {
    var chat := db.Read(ChatGetByID, ChatByKey(db.graph.chats, chatId));
    if chat.Fail? {
      return Fail(Wrap("get chat: ", chat.error));
    }
    if chat.value.None? {
      return Fail(Domain(NotFound));
    }
    var participation := db.Read(ChatGetParticipation,
                                 Participation(db.graph.participatesIn, Id(Users, req.senderId), Id(Chats, chatId)));
    if participation.Fail? {
      return Fail(Wrap("get participation: ", participation.error));
    }
    if participation.value.None? {
      return Fail(Domain(Forbidden));
    }
    var msg := NewMessage(chatId, req, now);
    var msgId := CreateMessage(db, msg);
    if msgId.Fail? {
      return Fail(Wrap("create message: ", msgId.error));
    }
    return Ok(SendMessageResponse(msgId.value, now));
  }

  /**
   * A sent message is one of the chat's messages, it is unread for every
   * other user and it leaves the sender's own unread count as it was.
   */
  lemma SentUnreadForOthers(g: Graph, failing: set<Op>, nextKey: nat, chatId: string, req: SendMessageRequest,
                            now: int, userId: string)
    requires Sending(g, failing, nextKey, chatId, req, now).result.Ok?
    ensures var after := Sending(g, failing, nextKey, chatId, req, now).graph;
      && NewMessage(chatId, req, now).(key := Decimal(nextKey)) in ChatMessages(after.messages, Id(Chats, chatId))
      && UnreadMessages(after.messages, Id(Chats, chatId), userId) ==
         UnreadMessages(g.messages, Id(Chats, chatId), userId) + (if userId == Id(Users, req.senderId) then 0 else 1)
  {
    var m := NewMessage(chatId, req, now).(key := Decimal(nextKey));
    CountConcat(g.messages, [m], (x: Message) => Unread(x, Id(Chats, chatId), userId));
  }

  // ----- AcceptChat and MuteChat ------------------------------------------------

  datatype AcceptChatResponse = AcceptChatResponse(success: bool, chatId: string, status: string)
  datatype MuteChatResponse = MuteChatResponse(success: bool, chatId: string, status: string)

  const AlreadyAccepted := Wrapped("", Domain(InvalidInput), ": chat already accepted or muted")

  /** The first participation edge of the user in the chat, read through `GetParticipation`. */
  function ParticipationOf(g: Graph, chatId: string, userId: string): Option<ParticipatesInEdge>
  {
    Participation(g.participatesIn, Id(Users, userId), Id(Chats, chatId))
  }

  /**
   * `AcceptChat` at time `now`: only a pending participation is accepted; it
   * becomes active with notifications on and joined now.
   */
  function Accepting(g: Graph, failing: set<Op>, chatId: string, userId: string, now: int): (r: Outcome<AcceptChatResponse>)
    ensures ChatGetParticipation in failing ==> r == Outcome(Fail(Wrap("get participation: ", QueryFailed)), g)
    ensures r.result == Fail(Domain(NotFound)) <==>
      ChatGetParticipation !in failing && !Participates(g.participatesIn, Id(Users, userId), Id(Chats, chatId))
    ensures r.result == Fail(AlreadyAccepted) <==>
      ChatGetParticipation !in failing && ParticipationOf(g, chatId, userId).Some?
      && ParticipationOf(g, chatId, userId).value.status != StatusPending
    ensures r.result.Ok? <==>
      ChatGetParticipation !in failing && ParticipationOf(g, chatId, userId).Some?
      && ParticipationOf(g, chatId, userId).value.status == StatusPending && ChatUpdateParticipation !in failing
    ensures r.result.Ok? ==>
      r.result.value == AcceptChatResponse(true, chatId, StatusActive)
      && r.graph == g.(participatesIn := WithParticipation(g.participatesIn, Id(Users, userId), Id(Chats, chatId),
                                                           StatusActive, true, Some(now)))
    ensures r.result.Fail? ==> r.graph == g
  {
    var p := ParticipationOf(g, chatId, userId);
    if ChatGetParticipation in failing then Outcome(Fail(Wrap("get participation: ", QueryFailed)), g)
    else if p.None? then Outcome(Fail(Domain(NotFound)), g)
    else if p.value.status != StatusPending then Outcome(Fail(AlreadyAccepted), g)
    else if ChatUpdateParticipation in failing then Outcome(Fail(Wrap("update participation: ", QueryFailed)), g)
    else
      Outcome(Ok(AcceptChatResponse(true, chatId, StatusActive)),
              g.(participatesIn := WithParticipation(g.participatesIn, Id(Users, userId), Id(Chats, chatId),
                                                     StatusActive, true, Some(now))))
  }

  method AcceptChat(db: Db, chatId: string, userId: string, now: int) returns (r: Res<AcceptChatResponse>)
    modifies db
    ensures Accepting(old(db.graph), old(db.failing), chatId, userId, now) == Outcome(r, db.graph)
    ensures db.failing == old(db.failing) && db.nextKey == old(db.nextKey)
  {
    var participation := db.Read(ChatGetParticipation,
                                 Participation(db.graph.participatesIn, Id(Users, userId), Id(Chats, chatId)));
    if participation.Fail? {
      return Fail(Wrap("get participation: ", participation.error));
    }
    if participation.value.None? {
      return Fail(Domain(NotFound));
    }
    if participation.value.value.status != StatusPending {
      return Fail(AlreadyAccepted);
    }
    var err := UpdateParticipation(db, Id(Users, userId), Id(Chats, chatId), StatusActive, true, Some(now));
    if err.Some? {
      return Fail(Wrap("update participation: ", err.value));
    }
    return Ok(AcceptChatResponse(true, chatId, StatusActive));
  }

  /**
   * After an update of the edges from `from` to `to`, the participation read
   * back for that pair is the first such edge with the new fields.
   */
  lemma ParticipationUpdated(edges: seq<ParticipatesInEdge>, from: string, to: string, status: string,
                             notificationsEnabled: bool, joinedAt: Option<int>)
    requires Participates(edges, from, to)
    ensures Participation(WithParticipation(edges, from, to, status, notificationsEnabled, joinedAt), from, to) ==
      Some(Participation(edges, from, to).value.(status := status, notificationsEnabled := notificationsEnabled, joinedAt := joinedAt))
  {
    var after := WithParticipation(edges, from, to, status, notificationsEnabled, joinedAt);
    var p := (e: ParticipatesInEdge) => e.from == from && e.to == to;
    var first := Participation(edges, from, to).value;
    var i :| 0 <= i < |edges| && edges[i] == first && p(edges[i]) && forall j :: 0 <= j < i ==> !p(edges[j]);
    FindAt(after, p, i);
  }

  /** An accepted participation reads back active, with notifications on and joined at `now`. */
  lemma AcceptedThenActive(g: Graph, failing: set<Op>, chatId: string, userId: string, now: int)
    requires Accepting(g, failing, chatId, userId, now).result.Ok?
    ensures var after := Accepting(g, failing, chatId, userId, now).graph;
      ParticipationOf(after, chatId, userId) ==
        Some(ParticipationOf(g, chatId, userId).value.(status := StatusActive, notificationsEnabled := true, joinedAt := Some(now)))
  {
    ParticipationUpdated(g.participatesIn, Id(Users, userId), Id(Chats, chatId), StatusActive, true, Some(now));
  }

  /** Accepting twice: the second attempt is rejected and changes nothing. */
  lemma AcceptTwice(g: Graph, failing: set<Op>, chatId: string, userId: string, now: int, later: int)
    requires Accepting(g, failing, chatId, userId, now).result.Ok?
    ensures var after := Accepting(g, failing, chatId, userId, now).graph;
      Accepting(after, failing, chatId, userId, later) == Outcome(Fail(AlreadyAccepted), after)
  {
    AcceptedThenActive(g, failing, chatId, userId, now);
  }

  /**
   * `MuteChat`: any existing participation, in whatever state, becomes muted
   * with notifications off; its join time is written back unchanged.
   */
  function Muting(g: Graph, failing: set<Op>, chatId: string, userId: string): (r: Outcome<MuteChatResponse>)
    ensures ChatGetParticipation in failing ==> r == Outcome(Fail(Wrap("get participation: ", QueryFailed)), g)
    ensures r.result == Fail(Domain(NotFound)) <==>
      ChatGetParticipation !in failing && !Participates(g.participatesIn, Id(Users, userId), Id(Chats, chatId))
    ensures r.result.Ok? <==>
      ChatGetParticipation !in failing && Participates(g.participatesIn, Id(Users, userId), Id(Chats, chatId))
      && ChatUpdateParticipation !in failing
    ensures r.result.Ok? ==>
      r.result.value == MuteChatResponse(true, chatId, StatusMuted)
      && r.graph == g.(participatesIn := WithParticipation(g.participatesIn, Id(Users, userId), Id(Chats, chatId),
                                                           StatusMuted, false, ParticipationOf(g, chatId, userId).value.joinedAt))
    ensures r.result.Fail? ==> r.graph == g
  {
    var p := ParticipationOf(g, chatId, userId);
    if ChatGetParticipation in failing then Outcome(Fail(Wrap("get participation: ", QueryFailed)), g)
    else if p.None? then Outcome(Fail(Domain(NotFound)), g)
    else if ChatUpdateParticipation in failing then Outcome(Fail(Wrap("update participation: ", QueryFailed)), g)
    else
      Outcome(Ok(MuteChatResponse(true, chatId, StatusMuted)),
              g.(participatesIn := WithParticipation(g.participatesIn, Id(Users, userId), Id(Chats, chatId),
                                                     StatusMuted, false, p.value.joinedAt)))
  }

  method MuteChat(db: Db, chatId: string, userId: string) returns (r: Res<MuteChatResponse>)
    modifies db
    ensures Muting(old(db.graph), old(db.failing), chatId, userId) == Outcome(r, db.graph)
    ensures db.failing == old(db.failing) && db.nextKey == old(db.nextKey)
  {
    var participation := db.Read(ChatGetParticipation,
                                 Participation(db.graph.participatesIn, Id(Users, userId), Id(Chats, chatId)));
    if participation.Fail? {
      return Fail(Wrap("get participation: ", participation.error));
    }
    if participation.value.None? {
      return Fail(Domain(NotFound));
    }
    var err := UpdateParticipation(db, Id(Users, userId), Id(Chats, chatId), StatusMuted, false,
                                   participation.value.value.joinedAt);
    if err.Some? {
      return Fail(Wrap("update participation: ", err.value));
    }
    return Ok(MuteChatResponse(true, chatId, StatusMuted));
  }

  /** A muted participation reads back muted with notifications off and the same join time and role. */
  lemma MutedKeepsJoinedAt(g: Graph, failing: set<Op>, chatId: string, userId: string)
    requires Muting(g, failing, chatId, userId).result.Ok?
    ensures var before := ParticipationOf(g, chatId, userId).value;
      var after := ParticipationOf(Muting(g, failing, chatId, userId).graph, chatId, userId);
      after.Some? && after.value.status == StatusMuted && !after.value.notificationsEnabled
      && after.value.joinedAt == before.joinedAt && after.value.role == before.role
  {
    var before := ParticipationOf(g, chatId, userId).value;
    ParticipationUpdated(g.participatesIn, Id(Users, userId), Id(Chats, chatId), StatusMuted, false, before.joinedAt);
  }

  /** A muted chat cannot be accepted again. */
  lemma MutedThenAcceptRejected(g: Graph, failing: set<Op>, chatId: string, userId: string, now: int)
    requires Muting(g, failing, chatId, userId).result.Ok?
    ensures var after := Muting(g, failing, chatId, userId).graph;
      Accepting(after, failing, chatId, userId, now) == Outcome(Fail(AlreadyAccepted), after)
  {
    MutedKeepsJoinedAt(g, failing, chatId, userId);
  }

  // ----- GetParticipants --------------------------------------------------------

  datatype ParticipantsResponse = ParticipantsResponse(chatId: string, chatType: string, participants: seq<Participant>)

  /** `GetParticipants`: the chat must exist; then the users of its participation edges. */
  function ParticipantsView(db: Db, chatId: string): (r: Res<ParticipantsResponse>)
    reads db
    ensures ChatGetByID in db.failing ==> r == Fail(Wrap("get chat: ", QueryFailed))
    ensures r == Fail(Domain(NotFound)) <==> ChatGetByID !in db.failing && !ChatKeyTaken(db.graph.chats, chatId)
    ensures ChatGetByID !in db.failing && ChatKeyTaken(db.graph.chats, chatId) ==>
      (r.Fail? <==> ChatGetParticipants in db.failing) && (r.Fail? ==> r == Fail(Wrap("get participants: ", QueryFailed)))
    ensures r.Ok? ==> (r.value.chatId == chatId
                       && exists c :: c in db.graph.chats && c.key == chatId && c.chatType == r.value.chatType)
    ensures r.Ok? ==> forall x :: x in r.value.participants <==>
      exists e, u :: e in db.graph.participatesIn && u in db.graph.users && e.to == Id(Chats, chatId)
                     && Id(Users, u.key) == e.from && x == ParticipantOf(u, e)
  {
    var found := db.Read(ChatGetByID, ChatByKey(db.graph.chats, chatId));
    if found.Fail? then Fail(Wrap("get chat: ", found.error))
    else if found.value.None? then Fail(Domain(NotFound))
    else
      var participants := db.Read(ChatGetParticipants, Participants(db.graph.participatesIn, db.graph.users, Id(Chats, chatId)));
      if participants.Fail? then Fail(Wrap("get participants: ", participants.error))
      else Ok(ParticipantsResponse(chatId, found.value.value.chatType, participants.value))
  }

  // ----- CreateChat -------------------------------------------------------------

  /** The chat document `CreateChat` inserts, before the store gives it a key; it does not expire. */
  function NewChat(postId: string, chatType: string, participants: seq<string>, now: int): Chat
  {
    Chat("", Id(Posts, postId), chatType, now, 0, |participants|)
  }

  /** The participation edge of `userId`: the first participant is the author, the others responders. */
  function JoinEdge(chatKey: string, userId: string, first: bool, now: int): ParticipatesInEdge
  {
    ParticipatesInEdge(Id(Users, userId), Id(Chats, chatKey), if first then RoleAuthor else RoleResponder,
                       StatusActive, true, Some(now))
  }

  /** The participation edges of a new chat, one per participant, in order. */
  function JoinEdges(chatKey: string, participants: seq<string>, now: int): (r: seq<ParticipatesInEdge>)
    ensures |r| == |participants|
  {
    if |participants| == 0 then []
    else JoinEdges(chatKey, participants[..|participants| - 1], now)
         + [JoinEdge(chatKey, participants[|participants| - 1], |participants| == 1, now)]
  }

  lemma {:induction false} JoinEdgesAt(chatKey: string, participants: seq<string>, now: int, i: int)
    requires 0 <= i < |participants|
    ensures JoinEdges(chatKey, participants, now)[i] == JoinEdge(chatKey, participants[i], i == 0, now)
    decreases |participants|
  {
    if i < |participants| - 1 {
      JoinEdgesAt(chatKey, participants[..|participants| - 1], now, i);
    }
  }

  /**
   * `CreateChat` at time `now`: the chat under a generated key, then one
   * active participation edge per participant. A failure after the chat is
   * stored leaves it stored.
   */
  function Creating(g: Graph, failing: set<Op>, nextKey: nat, postId: string, chatType: string,
                    participants: seq<string>, now: int): (c: Creation<string>)
    ensures ChatCreate in failing ==> c == Creation(Fail(Wrap("create chat: ", InsertFailed)), g, nextKey)
    ensures ChatCreate !in failing ==> c.nextKey == nextKey + 1
    ensures c.result.Ok? <==>
      ChatCreate !in failing && !ChatKeyTaken(g.chats, Decimal(nextKey))
      && (|participants| == 0 || ChatCreateParticipation !in failing)
    ensures c.result.Ok? ==> c.result.value == Decimal(nextKey)
    ensures c.result.Ok? ==> c.graph == g.(chats := g.chats + [NewChat(postId, chatType, participants, now).(key := Decimal(nextKey))],
                       participatesIn := g.participatesIn + JoinEdges(Decimal(nextKey), participants, now))
    ensures ChatCreate !in failing && !ChatKeyTaken(g.chats, Decimal(nextKey)) && c.result.Fail? ==>
      c.result == Fail(Wrap("create participation: ", InsertFailed))
      && c.graph == g.(chats := g.chats + [NewChat(postId, chatType, participants, now).(key := Decimal(nextKey))])
  {
    if ChatCreate in failing then Creation(Fail(Wrap("create chat: ", InsertFailed)), g, nextKey)
    else
      var key := Decimal(nextKey);
      if ChatKeyTaken(g.chats, key) then
        Creation(Fail(Wrap("create chat: ", Wrap("create document: ", DuplicateKey))), g, nextKey + 1)
      else
        var g1 := g.(chats := g.chats + [NewChat(postId, chatType, participants, now).(key := key)]);
        if |participants| > 0 && ChatCreateParticipation in failing then
          Creation(Fail(Wrap("create participation: ", InsertFailed)), g1, nextKey + 1)
        else
          Creation(Ok(key), g1.(participatesIn := g1.participatesIn + JoinEdges(key, participants, now)), nextKey + 1)
  }

  method CreateChat(db: Db, postId: string, chatType: string, participants: seq<string>, now: int) returns (r: Res<string>)
    modifies db
    ensures Creating(old(db.graph), old(db.failing), old(db.nextKey), postId, chatType, participants, now)
            == Creation(r, db.graph, db.nextKey)
    ensures db.failing == old(db.failing)
  {
    var chatId := CreateChatDocument(db, NewChat(postId, chatType, participants, now));
    if chatId.Fail? {
      return Fail(Wrap("create chat: ", chatId.error));
    }
    var err := CreateJoinEdges(db, chatId.value, participants, now);
    if err.Some? {
      return Fail(Wrap("create participation: ", err.value));
    }
    return Ok(chatId.value);
  }

  /** The participation loop of `CreateChat`: one edge per participant, stopping at the first failed insert. */
  method CreateJoinEdges(db: Db, chatKey: string, participants: seq<string>, now: int) returns (err: Option<Error>)
    modifies db
    ensures |participants| > 0 && ChatCreateParticipation in db.failing ==> err == Some(InsertFailed) && db.graph == old(db.graph)
    ensures !(|participants| > 0 && ChatCreateParticipation in db.failing) ==>
      err == None && db.graph == old(db.graph).(participatesIn := old(db.graph.participatesIn) + JoinEdges(chatKey, participants, now))
    ensures db.failing == old(db.failing) && db.nextKey == old(db.nextKey)
  {
    for i := 0 to |participants|
      invariant db.graph == old(db.graph).(participatesIn := old(db.graph.participatesIn) + JoinEdges(chatKey, participants[..i], now))
      invariant i > 0 ==> ChatCreateParticipation !in db.failing
      invariant db.failing == old(db.failing) && db.nextKey == old(db.nextKey)
    {
      var role := RoleResponder;
      var status := StatusActive;
      if i == 0 {
        role := RoleAuthor;
      }
      var edge := ParticipatesInEdge(Id(Users, participants[i]), Id(Chats, chatKey), role, status, true, Some(now));
      err := CreateParticipation(db, edge);
      if err.Some? {
        assert participants[..i] == [];
        return;
      }
      assert participants[..i + 1][..i] == participants[..i];
      assert edge == JoinEdge(chatKey, participants[i], i == 0, now);
    }
    assert participants[..|participants|] == participants;
    return None;
  }

  /** The new chat is found under the returned key and counts its participants. */
  lemma CreatedChatFound(g: Graph, failing: set<Op>, nextKey: nat, postId: string, chatType: string,
                         participants: seq<string>, now: int)
    requires Creating(g, failing, nextKey, postId, chatType, participants, now).result.Ok?
    ensures var c := Creating(g, failing, nextKey, postId, chatType, participants, now);
      ChatByKey(c.graph.chats, c.result.value) == Some(NewChat(postId, chatType, participants, now).(key := c.result.value))
      && ChatByKey(c.graph.chats, c.result.value).value.participantCount == |participants|
  {
    var c := Creating(g, failing, nextKey, postId, chatType, participants, now);
    var key := Decimal(nextKey);
    assert forall j :: 0 <= j < |g.chats| ==> c.graph.chats[j].key != key;
    FindAt(c.graph.chats, (x: Chat) => x.key == key, |g.chats|);
  }

  /** Every participation edge leads into a stored chat. */
  ghost predicate EdgesIntoChats(g: Graph)
  {
    forall e :: e in g.participatesIn ==> exists ch :: ch in g.chats && e.to == Id(Chats, ch.key)
  }

  /** Old edges lead into old chats, so none of them leads into the new one. */
  lemma OldEdgesElsewhere(g: Graph, key: string)
    requires EdgesIntoChats(g) && !ChatKeyTaken(g.chats, key)
    ensures forall j :: 0 <= j < |g.participatesIn| ==> g.participatesIn[j].to != Id(Chats, key)
  {
    forall j | 0 <= j < |g.participatesIn| ensures g.participatesIn[j].to != Id(Chats, key) {
      var e := g.participatesIn[j];
      assert e in g.participatesIn;
      var ch :| ch in g.chats && e.to == Id(Chats, ch.key);
      IdInjective(Chats, ch.key, key);
    }
  }

  /** The first edge of a participant among a new chat's edges: author exactly for the first participant. */
  lemma FirstJoin(key: string, participants: seq<string>, now: int, i: int)
    requires 0 <= i < |participants|
    ensures var edges := JoinEdges(key, participants, now);
      Participation(edges, Id(Users, participants[i]), Id(Chats, key)) ==
        Some(JoinEdge(key, participants[i], participants[i] == participants[0], now))
  {
    var edges := JoinEdges(key, participants, now);
    var from := Id(Users, participants[i]);
    var p := (e: ParticipatesInEdge) => e.from == from && e.to == Id(Chats, key);
    JoinEdgesAt(key, participants, now, i);
    assert p(edges[i]);
    var r := Find(edges, p);
    var k :| 0 <= k < |edges| && edges[k] == r.value && p(edges[k]) && forall j :: 0 <= j < k ==> !p(edges[j]);
    JoinEdgesAt(key, participants, now, k);
    IdInjective(Users, participants[k], participants[i]);
    JoinEdgesAt(key, participants, now, 0);
    IdInjective(Users, participants[0], participants[i]);
    assert (k == 0) == (participants[i] == participants[0]);
  }

  /**
   * Each participant of a new chat reads back an active participation with
   * notifications on, joined at `now`; the role is author for the first
   * participant (and anyone equal to it) and responder for the others. This
   * needs every earlier edge to lead into a stored chat.
   */
  lemma CreatedChatRoles(g: Graph, failing: set<Op>, nextKey: nat, postId: string, chatType: string,
                         participants: seq<string>, now: int, i: int)
    requires Creating(g, failing, nextKey, postId, chatType, participants, now).result.Ok?
    requires EdgesIntoChats(g) && 0 <= i < |participants|
    ensures var c := Creating(g, failing, nextKey, postId, chatType, participants, now);
      var edge := ParticipationOf(c.graph, c.result.value, participants[i]);
      && edge.Some?
      && edge.value.status == StatusActive && edge.value.notificationsEnabled && edge.value.joinedAt == Some(now)
      && edge.value.role == (if participants[i] == participants[0] then RoleAuthor else RoleResponder)
  {
    var c := Creating(g, failing, nextKey, postId, chatType, participants, now);
    var key := Decimal(nextKey);
    OldEdgesElsewhere(g, key);
    FirstJoin(key, participants, now, i);
    var edges := JoinEdges(key, participants, now);
    assert c.graph.participatesIn == g.participatesIn + edges;
    ParticipationSkip(g.participatesIn, edges, Id(Users, participants[i]), Id(Chats, key));
  }

  /** Edges into other chats do not change a participation lookup. */
  lemma ParticipationSkip(before: seq<ParticipatesInEdge>, edges: seq<ParticipatesInEdge>, from: string, to: string)
    requires forall j :: 0 <= j < |before| ==> before[j].to != to
    ensures Participation(before + edges, from, to) == Participation(edges, from, to)
  {
    FindSkip(before, edges, (e: ParticipatesInEdge) => e.from == from && e.to == to);
  }

  /** A participant of a new chat can send in it at once, whatever its role. */
  lemma CreatedThenSend(g: Graph, failing: set<Op>, nextKey: nat, postId: string, chatType: string,
                        participants: seq<string>, now: int, i: int, text: string, later: int)
    requires Creating(g, failing, nextKey, postId, chatType, participants, now).result.Ok?
    requires 0 <= i < |participants|
    requires ChatGetByID !in failing && ChatGetParticipation !in failing && ChatCreateMessage !in failing
    requires !MessageKeyTaken(g.messages, Decimal(nextKey + 1))
    ensures var c := Creating(g, failing, nextKey, postId, chatType, participants, now);
      Sending(c.graph, failing, c.nextKey, c.result.value, SendMessageRequest(participants[i], text), later).result.Ok?
  {
    var c := Creating(g, failing, nextKey, postId, chatType, participants, now);
    var key := Decimal(nextKey);
    assert c.graph.chats[|g.chats|].key == key;
    JoinEdgesAt(key, participants, now, i);
    assert c.graph.participatesIn[|g.participatesIn| + i] == JoinEdges(key, participants, now)[i];
  }

  /** The chat of the post is found for each participant once the chat exists. */
  lemma CreatedChatForPost(g: Graph, failing: set<Op>, nextKey: nat, postId: string, chatType: string,
                           participants: seq<string>, now: int, i: int)
    requires Creating(g, failing, nextKey, postId, chatType, participants, now).result.Ok?
    requires 0 <= i < |participants|
    ensures var c := Creating(g, failing, nextKey, postId, chatType, participants, now);
      ChatForPostAndUser(c.graph, Id(Posts, postId), Id(Users, participants[i])).Some?
  {
    var c := Creating(g, failing, nextKey, postId, chatType, participants, now);
    var key := Decimal(nextKey);
    JoinEdgesAt(key, participants, now, i);
    assert c.graph.participatesIn[|g.participatesIn| + i] == JoinEdges(key, participants, now)[i];
    assert Participates(c.graph.participatesIn, Id(Users, participants[i]), Id(Chats, c.graph.chats[|g.chats|].key));
  }
}
