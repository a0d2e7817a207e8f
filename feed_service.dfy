/**
 * The feed service of internal/feed/service.go and the repository of
 * internal/feed/repository.go: request normalisation, the preference fetches
 * whose results are discarded, the recommended-posts query with its cursor
 * rule, and the in-place stamping of each last message's relative time.
 * The database clock (`DATE_NOW()`, milliseconds) and the service clock
 * (`time.Now()`, nanoseconds) are parameters.
 */
module FeedService {
  import opened Wrappers
  import opened Domain
  import opened Store
  import opened Text
  import opened FeedQueries
  import opened RelativeTime

  datatype FeedQuery = FeedQuery(userId: string, limit: int, cursor: string, category: string, depth: string)

  datatype FeedResponse = FeedResponse(items: seq<FeedItem>, nextCursor: Option<string>)

  /** What `GetRecommendedPosts` of the repository returns: the items and the next cursor. */
  datatype Page = Page(items: seq<FeedItem>, cursor: string)

  // ----- request normalisation --------------------------------------------

  /** The limit after clamping: 20 when not positive, at most 50. */
  function FeedLimit(limit: int): (r: int)
    ensures 1 <= r <= 50
    ensures limit <= 0 ==> r == 20
    ensures 1 <= limit <= 50 ==> r == limit
    ensures limit > 50 ==> r == 50
  {
    if limit <= 0 then 20 else if limit > 50 then 50 else limit
  }

  /** An invalid category filter is dropped; a valid one, or none, is kept. */
  function FeedCategory(category: string): (r: string)
    ensures r == "" || ValidCategory(r)
    ensures ValidCategory(category) ==> r == category
    ensures !ValidCategory(category) ==> r == ""
  {
    if category != "" && !ValidCategory(category) then "" else category
  }

  /** Clamping is idempotent: a normalised request normalises to itself. */
  lemma NormalisationIdempotent(limit: int, category: string)
    ensures FeedLimit(FeedLimit(limit)) == FeedLimit(limit)
    ensures FeedCategory(FeedCategory(category)) == FeedCategory(category)
  {
  }

  // ----- the repository -----------------------------------------------------

  /**
   * The three preference queries bound to "users/<id>". A failure of any of
   * them is the error the group reports; every failure is the store's error,
   * so the order in which the fetches finish does not change it.
   */
  function UserPreferences(db: Db, userId: string): (r: Res<(seq<string>, seq<string>, seq<string>)>)
    reads db
    ensures r.Fail? <==>
      FeedGetUserInteractionTags in db.failing || FeedGetUserCategories in db.failing || FeedGetUserIntents in db.failing
    ensures r.Fail? ==> r.error == QueryFailed
    ensures r.Ok? ==> r.value == (UserInteractionTags(db.graph, Id(Users, userId)),
                                  UserCategories(db.graph, Id(Users, userId)),
                                  UserIntents(db.graph, Id(Users, userId)))
  {
    var tags := db.Read(FeedGetUserInteractionTags, UserInteractionTags(db.graph, Id(Users, userId)));
    var categories := db.Read(FeedGetUserCategories, UserCategories(db.graph, Id(Users, userId)));
    var intents := db.Read(FeedGetUserIntents, UserIntents(db.graph, Id(Users, userId)));
    if tags.Fail? then Fail(tags.error)
    else if categories.Fail? then Fail(categories.error)
    else if intents.Fail? then Fail(intents.error)
    else Ok((tags.value, categories.value, intents.value))
  }

  /** The cursor rule: a full, non-empty page carries the last item's `createdAt` in decimal. */
  function NextCursor(items: seq<FeedItem>, limit: int): (c: string)
    ensures c != "" <==> |items| == limit && |items| > 0
    ensures c != "" ==> c == Decimal(items[|items| - 1].createdAt)
  {
    if |items| == limit && |items| > 0 then
      Decimal(items[|items| - 1].createdAt)
    else ""
  }

  /**
   * `GetRecommendedPosts` of the repository at database time `now`: the
   * query bound to "users/<id>", the limit, the category and the depth (the
   * cursor is not bound); on a query error no items and no cursor.
   */
  function RecommendedPage(db: Db, query: FeedQuery, now: int): (r: Res<Page>)
    reads db
    ensures r.Fail? <==> FeedGetRecommendedPosts in db.failing || query.limit < 0
    ensures r.Ok? ==>
      RecommendedPosts(db.graph, Id(Users, query.userId), query.category, query.depth, query.limit, now) == Ok(r.value.items)
    ensures r.Ok? ==> (r.value.cursor != "" <==> |r.value.items| == query.limit && query.limit > 0)
    ensures r.Ok? && r.value.cursor != "" ==> r.value.cursor == Decimal(r.value.items[|r.value.items| - 1].createdAt)
  {
    var items := db.Read(FeedGetRecommendedPosts,
                         RecommendedPosts(db.graph, Id(Users, query.userId), query.category, query.depth, query.limit, now));
    if items.Fail? then Fail(items.error)
    else if items.value.Fail? then Fail(items.value.error)
    else Ok(Page(items.value.value, NextCursor(items.value.value, query.limit)))
  }

  /** The cursor of a request is not part of the query: two requests differing only in it get the same page. */
  lemma RecommendedPageIgnoresCursor(db: Db, query: FeedQuery, cursor: string, now: int)
    ensures RecommendedPage(db, query, now) == RecommendedPage(db, query.(cursor := cursor), now)
  {
  }

  // ----- formatting ---------------------------------------------------------

  /** An item with its last message's relative time filled in; items without one are unchanged. */
  function Stamp(item: FeedItem, nowNanos: int): (r: FeedItem)
    ensures r.(lastMessage := item.lastMessage) == item
    ensures r.lastMessage.None? <==> item.lastMessage.None?
    ensures r.lastMessage.Some? ==>
      r.lastMessage.value.(formattedTime := item.lastMessage.value.formattedTime) == item.lastMessage.value
      && r.lastMessage.value.formattedTime == FormatTime(item.lastMessage.value.createdAt, nowNanos)
  {
    match item.lastMessage
    case None => item
    case Some(m) => item.(lastMessage := Some(m.(formattedTime := FormatTime(m.createdAt, nowNanos))))
  }

  /** The formatting loop: each item stamped in place, in order. */
  method FormatTimes(items: array<FeedItem>, nowNanos: int)
    modifies items
    ensures items[..] == StampAll(old(items[..]), nowNanos)
  {
    ghost var orig := items[..];
    for i := 0 to items.Length
      invariant items[..] == StampAll(orig[..i], nowNanos) + orig[i..]
    {
      StampStep(orig, i, nowNanos);
      items[i] := FormatItem(items[i], nowNanos);
    }
    assert orig[..items.Length] == orig;
  }

  lemma StampStep(orig: seq<FeedItem>, i: nat, nowNanos: int)
    requires i < |orig|
    ensures (StampAll(orig[..i], nowNanos) + orig[i..])[i] == orig[i]
    ensures (StampAll(orig[..i], nowNanos) + orig[i..])[i := Stamp(orig[i], nowNanos)]
         == StampAll(orig[..i + 1], nowNanos) + orig[i + 1..]
  {
  }

  /** The loop body: the last message's time formatted when there is one. */
  method FormatItem(item: FeedItem, nowNanos: int) returns (r: FeedItem)
    ensures r == Stamp(item, nowNanos)
  {
    r := item;
    if r.lastMessage.Some? {
      var m := r.lastMessage.value;
      var formatted := FormatTime(m.createdAt, nowNanos);
      r := r.(lastMessage := Some(m.(formattedTime := formatted)));
    }
  }

  function StampAll(items: seq<FeedItem>, nowNanos: int): (r: seq<FeedItem>)
    ensures |r| == |items| && forall i :: 0 <= i < |items| ==> r[i] == Stamp(items[i], nowNanos)
  {
    seq(|items|, i requires 0 <= i < |items| => Stamp(items[i], nowNanos))
  }

  /** The items of a page copied into a slice and stamped in place. */
  method FormatItems(found: seq<FeedItem>, nowNanos: int) returns (r: seq<FeedItem>)
    ensures r == StampAll(found, nowNanos)
  {
    var items := new FeedItem[|found|](i requires 0 <= i < |found| => found[i]);
    assert items[..] == found;
    FormatTimes(items, nowNanos);
    r := items[..];
  }

  // ----- GetFeed --------------------------------------------------------------

  /** The request as the service forwards it to the repository. */
  function Normalised(query: FeedQuery): FeedQuery
  {
    query.(limit := FeedLimit(query.limit), category := FeedCategory(query.category))
  }

  /**
   * `GetFeed` at database time `now` and service time `nowNanos`. The
   * preferences must all be fetched before the posts are queried, and their
   * values are not used.
   */
  function Feed(db: Db, query: FeedQuery, now: int, nowNanos: int): (r: Res<FeedResponse>)
    reads db
    ensures r.Fail? <==> FeedGetUserInteractionTags in db.failing || FeedGetUserCategories in db.failing
                         || FeedGetUserIntents in db.failing || FeedGetRecommendedPosts in db.failing
    ensures UserPreferences(db, query.userId).Fail? ==> r == Fail(Wrap("get user preferences: ", QueryFailed))
    ensures UserPreferences(db, query.userId).Ok? && r.Fail? ==> r == Fail(Wrap("get recommended posts: ", QueryFailed))
    ensures r.Ok? ==> |r.value.items| <= FeedLimit(query.limit)
    ensures r.Ok? ==> (r.value.nextCursor.Some? <==> |r.value.items| == FeedLimit(query.limit))
    ensures r.Ok? && r.value.nextCursor.Some? ==>
      r.value.nextCursor.value == Decimal(r.value.items[|r.value.items| - 1].createdAt)
    ensures r.Ok? ==> var items := RecommendedPosts(db.graph, Id(Users, query.userId), FeedCategory(query.category),
                                                    query.depth, FeedLimit(query.limit), now);
      items.Ok? && r.value.items == StampAll(items.value, nowNanos)
  {
    var q := Normalised(query);
    var prefs := UserPreferences(db, q.userId);
    if prefs.Fail? then Fail(Wrap("get user preferences: ", prefs.error))
    else
      var page := RecommendedPage(db, q, now);
      if page.Fail? then Fail(Wrap("get recommended posts: ", page.error))
      else
        var resp := FeedResponse(StampAll(page.value.items, nowNanos),
                                 if page.value.cursor == "" then None else Some(page.value.cursor));
        FeedPage(db, query, now, nowNanos, page.value, resp);
        Ok(resp)
  }

  /** The response built from a page of recommended posts: stamped items, and the cursor exactly for a full page. */
  lemma FeedPage(db: Db, query: FeedQuery, now: int, nowNanos: int, page: Page, resp: FeedResponse)
    requires RecommendedPage(db, Normalised(query), now) == Ok(page)
    requires resp == FeedResponse(StampAll(page.items, nowNanos), if page.cursor == "" then None else Some(page.cursor))
    ensures |resp.items| <= FeedLimit(query.limit)
    ensures resp.nextCursor.Some? <==> |resp.items| == FeedLimit(query.limit)
    ensures resp.nextCursor.Some? ==> resp.nextCursor.value == Decimal(resp.items[|resp.items| - 1].createdAt)
    ensures var items := RecommendedPosts(db.graph, Id(Users, query.userId), FeedCategory(query.category),
                                          query.depth, FeedLimit(query.limit), now);
      items.Ok? && resp.items == StampAll(items.value, nowNanos)
  {
    StampKeepsCreatedAt(page.items, nowNanos);
  }

  lemma StampKeepsCreatedAt(items: seq<FeedItem>, nowNanos: int)
    ensures forall i :: 0 <= i < |items| ==> StampAll(items, nowNanos)[i].createdAt == items[i].createdAt
  {
  }

  /** The imperative `GetFeed`: it reassigns the request's fields and stamps the items in place. */
  method GetFeed(db: Db, query: FeedQuery, now: int, nowNanos: int) returns (r: Res<FeedResponse>)
    ensures r == Feed(db, query, now, nowNanos)
  {
    var q := query;
    if q.limit <= 0 {
      q := q.(limit := 20);
    }
    if q.limit > 50 {
      q := q.(limit := 50);
    }
    if q.category != "" && !ValidCategory(q.category) {
      q := q.(category := "");
    }
    assert q == Normalised(query);

    var prefs := UserPreferences(db, q.userId);
    if prefs.Fail? {
      return Fail(Wrap("get user preferences: ", prefs.error));
    }

    var page := RecommendedPage(db, q, now);
    if page.Fail? {
      return Fail(Wrap("get recommended posts: ", page.error));
    }

    var items := FormatItems(page.value.items, nowNanos);

    var cursor: Option<string> := None;
    if page.value.cursor != "" {
      cursor := Some(page.value.cursor);
    }
    return Ok(FeedResponse(items, cursor));
  }

  /** A page without a next cursor holds every post that passes the filters. */
  lemma LastPageComplete(db: Db, query: FeedQuery, now: int, nowNanos: int)
    requires Feed(db, query, now, nowNanos).Ok? && Feed(db, query, now, nowNanos).value.nextCursor.None?
    ensures |Feed(db, query, now, nowNanos).value.items| ==
            |Candidates(db.graph, Id(Users, query.userId), FeedCategory(query.category), query.depth)|
  {
  }

  /** The request's cursor has no effect on the feed. */
  lemma FeedIgnoresCursor(db: Db, query: FeedQuery, cursor: string, now: int, nowNanos: int)
    ensures Feed(db, query, now, nowNanos) == Feed(db, query.(cursor := cursor), now, nowNanos)
  {
  }
}
