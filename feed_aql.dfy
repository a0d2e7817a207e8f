/**
 * The feed queries of internal/feed/aql.go: the user's interaction profile
 * (tags, top categories, top intents of the posts they responded to) and
 * `GetRecommendedPosts`, which filters the posts, projects each with its
 * author, the user's chat and the chat's last message, scores it, sorts by
 * (score desc, createdAt desc) and truncates.
 */
module FeedQueries {
  import opened Wrappers
  import opened Domain
  import opened Store
  import opened Text
  import opened Collections
  import opened Grouping
  import opened Sorting
  import opened PostQueries
  import opened ChatQueries

  // ----- the user's interaction profile ------------------------------------

  /** The posts the user's `responded` edges point to, edge by edge. */
  function RespondedPosts(responded: seq<RespondedEdge>, posts: seq<Post>, userId: string): (r: seq<Post>)
    ensures forall p :: p in r <==> p in posts && exists e :: e in responded && e.from == userId && e.to == Id(Posts, p.key)
  {
    if |responded| == 0 then []
    else
      assert forall e :: e in responded <==> e == responded[0] || e in responded[1..];
      var e := responded[0];
      (if e.from == userId then Filter(posts, (p: Post) => Id(Posts, p.key) == e.to) else []) +
      RespondedPosts(responded[1..], posts, userId)
  }

  /** The `post_has_tag` edges leaving the posts the user's `responded` edges point to. */
  function RespondedTagEdges(responded: seq<RespondedEdge>, edges: seq<PostHasTagEdge>, userId: string): (r: seq<PostHasTagEdge>)
    ensures forall x :: x in r <==> x in edges && exists e :: e in responded && e.from == userId && x.from == e.to
  {
    if |responded| == 0 then []
    else
      assert forall e :: e in responded <==> e == responded[0] || e in responded[1..];
      var e := responded[0];
      (if e.from == userId then Filter(edges, (x: PostHasTagEdge) => x.from == e.to) else []) +
      RespondedTagEdges(responded[1..], edges, userId)
  }

  /** The keys of the stored tags that `edges` point to, edge by edge. */
  function EdgeTagKeys(edges: seq<PostHasTagEdge>, tags: seq<Tag>): (r: seq<string>)
    ensures forall k :: k in r <==> exists x, t :: x in edges && t in tags && Id(Tags, t.key) == x.to && t.key == k
  {
    if |edges| == 0 then []
    else
      assert forall x :: x in edges <==> x == edges[0] || x in edges[1..];
      TagKeysWithId(tags, edges[0].to) + EdgeTagKeys(edges[1..], tags)
  }

  function Categories(ps: seq<Post>): (r: seq<string>)
    ensures |r| == |ps| && forall i :: 0 <= i < |ps| ==> r[i] == ps[i].category
  {
    seq(|ps|, i requires 0 <= i < |ps| => ps[i].category)
  }

  function Intents(ps: seq<Post>): (r: seq<string>)
    ensures |r| == |ps| && forall i :: 0 <= i < |ps| ==> r[i] == ps[i].intent
  {
    seq(|ps|, i requires 0 <= i < |ps| => ps[i].intent)
  }

  function Targets(edges: seq<PostHasTagEdge>): (r: seq<string>)
    ensures |r| == |edges| && forall i :: 0 <= i < |edges| ==> r[i] == edges[i].to
  {
    seq(|edges|, i requires 0 <= i < |edges| => edges[i].to)
  }

  lemma TargetOf(edges: seq<PostHasTagEdge>, s: string)
    ensures s in Targets(edges) <==> exists x :: x in edges && x.to == s
  {
    if s in Targets(edges) {
      var i :| 0 <= i < |edges| && Targets(edges)[i] == s;
      assert edges[i] in edges;
    }
    if exists x :: x in edges && x.to == s {
      var x :| x in edges && x.to == s;
      var i :| 0 <= i < |edges| && edges[i] == x;
      assert Targets(edges)[i] == s;
    }
  }

  /**
   * `userTags` of `GetRecommendedPosts`: the distinct `_to` ids ("tags/<key>")
   * of the tag edges of the posts the user responded to.
   */
  function UserTagIds(g: Graph, userId: string): (r: seq<string>)
    ensures NoRepeats(r)
    ensures forall s :: s in r <==> exists x :: x in RespondedTagEdges(g.responded, g.postHasTag, userId) && x.to == s
  {
    var edges := RespondedTagEdges(g.responded, g.postHasTag, userId);
    var d := Distinct(Targets(edges));
    forall s ensures s in d <==> exists x :: x in edges && x.to == s {
      DistinctMember(Targets(edges), s);
      TargetOf(edges, s);
    }
    d
  }

  /** `GetUserCategories` (and `userCategories`): the five most frequent categories of responded posts. */
  function UserCategories(g: Graph, userId: string): (r: seq<string>)
    ensures |r| <= 5 && NoRepeats(r)
    ensures var cs := Categories(RespondedPosts(g.responded, g.posts, userId));
      (forall i :: 0 <= i < |r| ==> r[i] in cs) &&
      (forall i, j :: 0 <= i < j < |r| ==> Occurrences(cs, r[i]) >= Occurrences(cs, r[j]))
  {
    TopByCount(Categories(RespondedPosts(g.responded, g.posts, userId)), 5)
  }

  /** `GetUserIntents`: the ten most frequent intents of responded posts. */
  function UserIntents(g: Graph, userId: string): (r: seq<string>)
    ensures |r| <= 10 && NoRepeats(r)
    ensures var xs := Intents(RespondedPosts(g.responded, g.posts, userId));
      (forall i :: 0 <= i < |r| ==> r[i] in xs) &&
      (forall i, j :: 0 <= i < j < |r| ==> Occurrences(xs, r[i]) >= Occurrences(xs, r[j]))
  {
    TopByCount(Intents(RespondedPosts(g.responded, g.posts, userId)), 10)
  }

  /** `GetUserInteractionTags`: the twenty most frequent tag keys of responded posts. */
  function UserInteractionTags(g: Graph, userId: string): (r: seq<string>)
    ensures |r| <= 20 && NoRepeats(r)
    ensures forall i :: 0 <= i < |r| ==> exists t :: t in g.tags && t.key == r[i]
    ensures var ks := EdgeTagKeys(RespondedTagEdges(g.responded, g.postHasTag, userId), g.tags);
      forall i, j :: 0 <= i < j < |r| ==> Occurrences(ks, r[i]) >= Occurrences(ks, r[j])
  {
    var ks := EdgeTagKeys(RespondedTagEdges(g.responded, g.postHasTag, userId), g.tags);
    var r := TopByCount(ks, 20);
    assert forall i :: 0 <= i < |r| ==> r[i] in ks;
    r
  }

  // ----- projection of one post ----------------------------------------------

  datatype FeedAuthor = FeedAuthor(id: string, username: string, avatarUrl: Option<string>)

  datatype FeedLastMessage = FeedLastMessage(id: string, text: string, senderId: string, status: string,
                                             createdAt: int, formattedTime: string, myReaction: Option<string>)

  datatype FeedItem = FeedItem(id: string, postType: string, text: string, pollOptions: seq<string>,
                               category: string, intent: string, depth: string, tags: seq<string>,
                               author: FeedAuthor, chatId: Option<string>, lastMessage: Option<FeedLastMessage>,
                               unreadCount: nat, createdAt: int)

  /**
   * `author`: over the `created` edges into the post, in order, the first
   * user whose `_id` is the edge's `_from`; null when there is none.
   */
  function Author(created: seq<CreatedEdge>, users: seq<User>, postId: string): (r: Option<User>)
    ensures r.None? <==> forall e, u :: e in created && u in users && e.to == postId ==> e.from != Id(Users, u.key)
    ensures r.Some? ==>
      r.value in users && exists e :: e in created && e.to == postId && e.from == Id(Users, r.value.key)
  {
    if |created| == 0 then None
    else
      assert forall e :: e in created <==> e == created[0] || e in created[1..];
      var e := created[0];
      var found := Find(users, (u: User) => Id(Users, u.key) == e.from);
      if e.to == postId && found.Some? then found
      else Author(created[1..], users, postId)
  }

  /** The author object of an item; the fields of a missing author are null, read as "" by the service. */
  function AuthorFields(u: Option<User>): FeedAuthor
  {
    match u
    case None => FeedAuthor("", "", None)
    case Some(user) => FeedAuthor(user.key, user.username, user.avatarUrl)
  }

  /** `userChat`: the first chat about the post in which the user participates. */
  function UserChat(g: Graph, userId: string, p: Post): (r: Option<Chat>)
    ensures r.None? <==> forall i :: 0 <= i < |g.chats| ==>
      !(g.chats[i].postId == Id(Posts, p.key) && Participates(g.participatesIn, userId, Id(Chats, g.chats[i].key)))
    ensures r.Some? ==>
      r.value in g.chats && r.value.postId == Id(Posts, p.key) && Participates(g.participatesIn, userId, Id(Chats, r.value.key))
  {
    ChatForPostAndUser(g, Id(Posts, p.key), userId)
  }

  /** `lastMsg`: the newest message of the user's chat, null without a chat. */
  function LastMessage(g: Graph, chat: Option<Chat>): (r: Option<Message>)
    ensures chat.None? ==> r.None?
    ensures chat.Some? ==> (r.None? <==> forall i :: 0 <= i < |g.messages| ==> g.messages[i].chatId != Id(Chats, chat.value.key))
    ensures r.Some? ==>
      r.value in g.messages && r.value.chatId == Id(Chats, chat.value.key) &&
      forall i :: 0 <= i < |g.messages| && g.messages[i].chatId == Id(Chats, chat.value.key) ==>
        g.messages[i].createdAt <= r.value.createdAt
  {
    match chat
    case None => None
    case Some(c) =>
      var ms := ChatMessages(g.messages, Id(Chats, c.key));
      var r := Latest(ms);
      assert r.None? <==> forall i :: 0 <= i < |g.messages| ==> g.messages[i].chatId != Id(Chats, c.key) by {
        if |ms| == 0 {
          assert forall i :: 0 <= i < |g.messages| ==> g.messages[i].chatId != Id(Chats, c.key);
        } else {
          assert ms[0] in g.messages && ms[0].chatId == Id(Chats, c.key);
        }
      }
      assert r.Some? ==> forall i :: 0 <= i < |g.messages| && g.messages[i].chatId == Id(Chats, c.key) ==>
        g.messages[i].createdAt <= r.value.createdAt by {
        if r.Some? {
          forall i | 0 <= i < |g.messages| && g.messages[i].chatId == Id(Chats, c.key)
            ensures g.messages[i].createdAt <= r.value.createdAt
          {
            var k :| 0 <= k < |ms| && ms[k] == g.messages[i];
          }
        }
      }
      r
  }

  /** `myReaction`: the emoji of the user's first reaction to the last message, null without one. */
  function MyReaction(g: Graph, userId: string, last: Option<Message>): (r: Option<string>)
    ensures last.None? ==> r.None?
    ensures r.Some? ==> exists e :: e in g.reacted && e.from == userId && e.to == Id(Messages, last.value.key) && e.emoji == r.value
    ensures last.Some? ==> (r.None? <==> forall i :: 0 <= i < |g.reacted| ==>
      !(g.reacted[i].from == userId && g.reacted[i].to == Id(Messages, last.value.key)))
    ensures r.Some? ==> exists i ::
      && 0 <= i < |g.reacted| && g.reacted[i].emoji == r.value
      && g.reacted[i].from == userId && g.reacted[i].to == Id(Messages, last.value.key)
      && forall j :: 0 <= j < i ==> !(g.reacted[j].from == userId && g.reacted[j].to == Id(Messages, last.value.key))
  {
    match last
    case None => None
    case Some(m) =>
      match Find(g.reacted, (e: ReactedEdge) => e.from == userId && e.to == Id(Messages, m.key))
      case None => None
      case Some(e) => Some(e.emoji)
  }

  /** `unreadCount`: messages of the user's chat not sent by the user and not seen; 0 without a chat. */
  function UnreadCount(g: Graph, userId: string, chat: Option<Chat>): (n: nat)
    ensures chat.None? ==> n == 0
    ensures chat.Some? ==> n == |Filter(g.messages, (m: Message) => Unread(m, Id(Chats, chat.value.key), userId))|
    ensures chat.Some? ==> (n == 0 <==> forall i :: 0 <= i < |g.messages| ==> !Unread(g.messages[i], Id(Chats, chat.value.key), userId))
  {
    match chat
    case None => 0
    case Some(c) =>
      UnreadMessages(g.messages, Id(Chats, c.key), userId)
  }

  /** The `lastMessage` object: the sender is shown by key, the segment after the last "/". */
  function MessageFields(m: Message, reaction: Option<string>): (r: FeedLastMessage)
    ensures '/' !in r.senderId
    ensures exists prefix :: m.senderId == prefix + r.senderId && (prefix == "" || prefix[|prefix| - 1] == '/')
  {
    LastSegmentSpec(m.senderId, '/');
    FeedLastMessage(m.key, m.text, LastSegment(m.senderId, '/'), m.status, m.createdAt, "", reaction)
  }

  /** The item `GetRecommendedPosts` returns for post `p`. */
  function Project(g: Graph, userId: string, p: Post): FeedItem
  {
    var chat := UserChat(g, userId, p);
    var last := LastMessage(g, chat);
    FeedItem(p.key, p.postType, p.text, p.pollOptions, p.category, p.intent, p.depth,
             PostTagKeys(g.postHasTag, g.tags, Id(Posts, p.key)),
             AuthorFields(Author(g.created, g.users, Id(Posts, p.key))),
             if chat.Some? then Some(chat.value.key) else None,
             if last.Some? then Some(MessageFields(last.value, MyReaction(g, userId, last))) else None,
             UnreadCount(g, userId, chat),
             p.createdAt)
  }

  // ----- scoring and ranking ---------------------------------------------------

  /** `INTERSECTION(a, b)`: the distinct values of `a` that also occur in `b`. */
  function Intersection(a: seq<string>, b: seq<string>): (r: seq<string>)
    ensures NoRepeats(r)
    ensures forall x :: x in r <==> x in a && x in b
  {
    var f := Filter(a, (x: string) => x in b);
    var d := Distinct(f);
    assert forall x :: x in d <==> x in f by {
      forall x ensures x in d <==> x in f {
        if x in f {
          var i :| 0 <= i < |f| && f[i] == x;
        }
        if x in d {
          var i :| 0 <= i < |d| && d[i] == x;
        }
      }
    }
    assert forall x :: x in f <==> x in a && x in b by {
      forall x ensures x in f <==> x in a && x in b {
        if x in a && x in b {
          var i :| 0 <= i < |a| && a[i] == x;
        }
        if x in f {
          var i :| 0 <= i < |f| && f[i] == x;
        }
      }
    }
    d
  }

  /** `(DATE_NOW() - p.createdAt) / (1000 * 60 * 60 * 24)`: age in days, as a real number. */
  function RecencyDays(now: int, createdAt: int): real
  {
    (now - createdAt) as real / 86400000.0
  }

  /** `100 - MIN([recency, 100]) * 0.1`: multiplication binds tighter, so it is `100 - 0.1 * min(recency, 100)`. */
  function RecencyTerm(recency: real): real
  {
    100.0 - (if recency <= 100.0 then recency else 100.0) * 0.1
  }

  /** The score of an item: 40 for a top category, 20 per shared tag, plus the recency term. */
  function Score(item: FeedItem, userTags: seq<string>, userCategories: seq<string>, now: int): real
  {
    var categoryMatch := if item.category in userCategories then 1 else 0;
    var tagMatch := |Intersection(item.tags, userTags)|;
    (categoryMatch * 40) as real + (tagMatch * 20) as real + RecencyTerm(RecencyDays(now, item.createdAt))
  }

  /** For a post not dated in the future the recency term lies in [90, 100]. */
  lemma RecencyTermBounds(now: int, createdAt: int)
    requires createdAt <= now
    ensures 90.0 <= RecencyTerm(RecencyDays(now, createdAt)) <= 100.0
  {
  }

  /** `SORT score DESC, p.createdAt DESC`. */
  predicate Ranks(userTags: seq<string>, userCategories: seq<string>, now: int, a: FeedItem, b: FeedItem)
  {
    var sa := Score(a, userTags, userCategories, now);
    var sb := Score(b, userTags, userCategories, now);
    sa > sb || (sa == sb && a.createdAt >= b.createdAt)
  }

  lemma RanksTotal(userTags: seq<string>, userCategories: seq<string>, now: int)
    ensures TotalPreorder((a: FeedItem, b: FeedItem) => Ranks(userTags, userCategories, now, a, b))
  {
  }

  /** `FILTER @category == '' OR p.category == @category FILTER @depth == '' OR p.depth == @depth`. */
  predicate Admits(p: Post, category: string, depth: string)
  {
    (category == "" || p.category == category) && (depth == "" || p.depth == depth)
  }

  /** The posts that pass the filters, in storage order. */
  function AdmittedPosts(posts: seq<Post>, category: string, depth: string): (r: seq<Post>)
    ensures forall p :: p in r <==> p in posts && Admits(p, category, depth)
  {
    var r := Filter(posts, (p: Post) => Admits(p, category, depth));
    assert forall p :: p in posts && Admits(p, category, depth) ==> p in r by {
      forall p | p in posts && Admits(p, category, depth) ensures p in r {
        var j :| 0 <= j < |posts| && posts[j] == p;
      }
    }
    r
  }

  /** The items of the posts that pass the filters, in storage order. */
  function Candidates(g: Graph, userId: string, category: string, depth: string): (r: seq<FeedItem>)
    ensures |r| == |AdmittedPosts(g.posts, category, depth)|
    ensures forall i :: 0 <= i < |r| ==> r[i] == Project(g, userId, AdmittedPosts(g.posts, category, depth)[i])
  {
    var ps := AdmittedPosts(g.posts, category, depth);
    seq(|ps|, i requires 0 <= i < |ps| => Project(g, userId, ps[i]))
  }

  /** Every candidate is the item of a post that passes the filters. */
  lemma CandidateOrigin(g: Graph, userId: string, category: string, depth: string, x: FeedItem)
    requires x in Candidates(g, userId, category, depth)
    ensures exists p :: p in g.posts && Admits(p, category, depth) && x == Project(g, userId, p)
  {
    var ps := AdmittedPosts(g.posts, category, depth);
    var i :| 0 <= i < |Candidates(g, userId, category, depth)| && Candidates(g, userId, category, depth)[i] == x;
    assert ps[i] in ps;
  }

  /** Every post that passes the filters has its item among the candidates. */
  lemma CandidateOfAdmitted(g: Graph, userId: string, category: string, depth: string, p: Post)
    requires p in g.posts && Admits(p, category, depth)
    ensures Project(g, userId, p) in Candidates(g, userId, category, depth)
  {
    var ps := AdmittedPosts(g.posts, category, depth);
    var i :| 0 <= i < |ps| && ps[i] == p;
    assert Candidates(g, userId, category, depth)[i] == Project(g, userId, p);
  }

  /** All candidate items, best first. */
  function Ranked(g: Graph, userId: string, category: string, depth: string, now: int): (r: seq<FeedItem>)
    ensures multiset(r) == multiset(Candidates(g, userId, category, depth))
    ensures SortedBy(r, (a: FeedItem, b: FeedItem) =>
      Ranks(UserTagIds(g, userId), UserCategories(g, userId), now, a, b))
  {
    var le := (a: FeedItem, b: FeedItem) => Ranks(UserTagIds(g, userId), UserCategories(g, userId), now, a, b);
    RanksTotal(UserTagIds(g, userId), UserCategories(g, userId), now);
    SortBySorted(Candidates(g, userId, category, depth), le);
    SortBy(Candidates(g, userId, category, depth), le)
  }

  lemma RankedOrigin(g: Graph, userId: string, category: string, depth: string, now: int)
    ensures var ranked := Ranked(g, userId, category, depth, now);
      forall i :: 0 <= i < |ranked| ==>
        exists p :: p in g.posts && Admits(p, category, depth) && ranked[i] == Project(g, userId, p)
  {
    var ranked := Ranked(g, userId, category, depth, now);
    forall i | 0 <= i < |ranked|
      ensures exists p :: p in g.posts && Admits(p, category, depth) && ranked[i] == Project(g, userId, p)
    {
      assert ranked[i] in multiset(Candidates(g, userId, category, depth));
      CandidateOrigin(g, userId, category, depth, ranked[i]);
    }
  }

  /**
   * `GetRecommendedPosts` at database time `now` (milliseconds): the best
   * `limit` items; a negative `LIMIT` is a query error.
   */
  function RecommendedPosts(g: Graph, userId: string, category: string, depth: string, limit: int, now: int): (r: Res<seq<FeedItem>>)
    ensures r.Fail? <==> limit < 0
    ensures r.Ok? ==> |r.value| == if limit < |Candidates(g, userId, category, depth)| then limit else |Candidates(g, userId, category, depth)|
    ensures r.Ok? ==> forall i :: 0 <= i < |r.value| ==>
      exists p :: p in g.posts && Admits(p, category, depth) && r.value[i] == Project(g, userId, p)
    ensures r.Ok? ==> forall x :: multiset(r.value)[x] <= multiset(Candidates(g, userId, category, depth))[x]
    ensures r.Ok? ==> SortedBy(r.value, (a: FeedItem, b: FeedItem) =>
      Ranks(UserTagIds(g, userId), UserCategories(g, userId), now, a, b))
  {
    if limit < 0 then Fail(InvalidLimit)
    else
      var w := Take(Ranked(g, userId, category, depth, now), limit);
      TopRanked(g, userId, category, depth, limit, now, w);
      Ok(w)
  }

  /** The best `limit` ranked candidates come from admitted posts, at most as often as they are candidates, in rank order. */
  lemma TopRanked(g: Graph, userId: string, category: string, depth: string, limit: nat, now: int, w: seq<FeedItem>)
    requires w == Take(Ranked(g, userId, category, depth, now), limit)
    ensures forall i :: 0 <= i < |w| ==>
      exists p :: p in g.posts && Admits(p, category, depth) && w[i] == Project(g, userId, p)
    ensures forall x :: multiset(w)[x] <= multiset(Candidates(g, userId, category, depth))[x]
    ensures SortedBy(w, (a: FeedItem, b: FeedItem) => Ranks(UserTagIds(g, userId), UserCategories(g, userId), now, a, b))
  {
    var ranked := Ranked(g, userId, category, depth, now);
    RankedOrigin(g, userId, category, depth, now);
    TakeSubMultiset(ranked, limit);
    TakeSorted(ranked, limit, (a: FeedItem, b: FeedItem) => Ranks(UserTagIds(g, userId), UserCategories(g, userId), now, a, b));
  }

  /** With a category (or depth) filter every item has exactly that category (or depth). */
  lemma RecommendedFiltered(g: Graph, userId: string, category: string, depth: string, limit: int, now: int)
    requires RecommendedPosts(g, userId, category, depth, limit, now).Ok?
    ensures var items := RecommendedPosts(g, userId, category, depth, limit, now).value;
      forall i :: 0 <= i < |items| ==>
        (category != "" ==> items[i].category == category) && (depth != "" ==> items[i].depth == depth)
  {
    var items := RecommendedPosts(g, userId, category, depth, limit, now).value;
    forall i | 0 <= i < |items|
      ensures (category != "" ==> items[i].category == category) && (depth != "" ==> items[i].depth == depth)
    {
      var p :| p in g.posts && Admits(p, category, depth) && items[i] == Project(g, userId, p);
    }
  }

  /** An empty filter excludes nothing: every post is a candidate. */
  lemma UnfilteredCandidates(g: Graph, userId: string)
    ensures |Candidates(g, userId, "", "")| == |g.posts|
  {
    FilterAll(g.posts, (p: Post) => Admits(p, "", ""));
    assert AdmittedPosts(g.posts, "", "") == Filter(g.posts, (p: Post) => Admits(p, "", ""));
  }

  /**
   * A candidate left out (or returned fewer times than it is a candidate)
   * ranks no higher than any item returned, and `limit` items were returned.
   */
  lemma RecommendedComplete(g: Graph, userId: string, category: string, depth: string, limit: int, now: int, x: FeedItem)
    requires limit >= 0
    requires multiset(RecommendedPosts(g, userId, category, depth, limit, now).value)[x] < multiset(Candidates(g, userId, category, depth))[x]
    ensures var items := RecommendedPosts(g, userId, category, depth, limit, now).value;
      |items| == limit && forall i :: 0 <= i < limit ==>
        Ranks(UserTagIds(g, userId), UserCategories(g, userId), now, items[i], x)
  {
    var le := (a: FeedItem, b: FeedItem) => Ranks(UserTagIds(g, userId), UserCategories(g, userId), now, a, b);
    RanksTotal(UserTagIds(g, userId), UserCategories(g, userId), now);
    assert RecommendedPosts(g, userId, category, depth, limit, now).value == Take(SortBy(Candidates(g, userId, category, depth), le), limit);
    TakeSortedComplete(Candidates(g, userId, category, depth), limit, le, x);
  }

  /**
   * With equal tag overlap, a post not dated in the future whose category is
   * among the user's top categories ranks strictly before one whose category
   * is not.
   */
  lemma CategoryOutranks(g: Graph, userId: string, category: string, depth: string, limit: int, now: int, i: nat, j: nat)
    requires RecommendedPosts(g, userId, category, depth, limit, now).Ok?
    requires var items := RecommendedPosts(g, userId, category, depth, limit, now).value;
      i < |items| && j < |items| && items[i].createdAt <= now && items[j].createdAt <= now
      && items[i].category in UserCategories(g, userId) && items[j].category !in UserCategories(g, userId)
      && |Intersection(items[i].tags, UserTagIds(g, userId))| == |Intersection(items[j].tags, UserTagIds(g, userId))|
    ensures i < j
  {
    var items := RecommendedPosts(g, userId, category, depth, limit, now).value;
    var a := items[i];
    var b := items[j];
    RecencyTermBounds(now, a.createdAt);
    RecencyTermBounds(now, b.createdAt);
    assert Score(a, UserTagIds(g, userId), UserCategories(g, userId), now) > Score(b, UserTagIds(g, userId), UserCategories(g, userId), now);
    assert j < i ==> Ranks(UserTagIds(g, userId), UserCategories(g, userId), now, b, a);
  }

  /**
   * `userTags` holds edge `_to` ids, `postTags` holds bare keys: when no tag
   * key contains "/" and every edge `_to` does, as document ids do, the
   * overlap is always empty and the tag term of the score is always 0.
   */
  lemma TagMatchAlwaysZero(g: Graph, userId: string, p: Post)
    requires forall t :: t in g.tags ==> '/' !in t.key
    requires forall e :: e in g.postHasTag ==> '/' in e.to
    ensures |Intersection(Project(g, userId, p).tags, UserTagIds(g, userId))| == 0
  {
    var postTags := Project(g, userId, p).tags;
    var userTags := UserTagIds(g, userId);
    var common := Intersection(postTags, userTags);
    forall x | x in postTags ensures x !in userTags {
      var e, t :| e in g.postHasTag && t in g.tags && e.from == Id(Posts, p.key) && Id(Tags, t.key) == e.to && t.key == x;
      assert '/' !in x;
      forall y | y in userTags ensures '/' in y {
        var z :| z in RespondedTagEdges(g.responded, g.postHasTag, userId) && z.to == y;
      }
    }
    FilterNone(postTags, (x: string) => x in userTags);
    assert common == Distinct(Filter(postTags, (x: string) => x in userTags));
  }
}
