/**
 * The tag queries of internal/tag/aql.go over the `tags` collection: lookup by
 * key and by alias or label, listing by usage, substring search, and the
 * in-place usage increment; plus the repository's insert.
 */
module TagQueries {
  import opened Wrappers
  import opened Domain
  import opened Store
  import opened Text
  import opened Collections
  import opened Sorting

  /** No two tags share a key (the `_key` of a collection is unique). */
  ghost predicate UniqueKeys(tags: seq<Tag>)
  {
    forall i, j :: 0 <= i < j < |tags| ==> tags[i].key != tags[j].key
  }

  predicate KeyTaken(tags: seq<Tag>, key: string)
  {
    exists i :: 0 <= i < |tags| && tags[i].key == key
  }

  /** `GetTagByID`: the tag whose key equals `key`, or nothing. */
  function TagByKey(tags: seq<Tag>, key: string): (r: Option<Tag>)
    ensures r.Some? <==> KeyTaken(tags, key)
    ensures r.Some? ==> r.value in tags && r.value.key == key
  {
    Find(tags, (t: Tag) => t.key == key)
  }

  /** The filter of `GetTagByAlias`: exact alias membership, or labels equal ignoring case. */
  predicate AliasMatch(t: Tag, alias: string)
  {
    alias in t.aliases || LowerStr(t.labelText) == LowerStr(alias)
  }

  /** `GetTagByAlias` through `QueryOne`: the first tag in storage order that matches. */
  function TagByAlias(tags: seq<Tag>, alias: string): (r: Option<Tag>)
    ensures r.None? <==> forall i :: 0 <= i < |tags| ==> !AliasMatch(tags[i], alias)
    ensures r.Some? ==> exists i :: 0 <= i < |tags| && tags[i] == r.value && AliasMatch(tags[i], alias)
                          && forall j :: 0 <= j < i ==> !AliasMatch(tags[j], alias)
  {
    Find(tags, (t: Tag) => AliasMatch(t, alias))
  }

  /** Alias membership is exact: a tag with alias "wfh" is not found by "WFH". */
  lemma AliasIsCaseSensitive()
    ensures var t := Tag("remote-work", "Remote Work", ["wfh"], 3, 0);
      AliasMatch(t, "wfh") && !AliasMatch(t, "WFH")
  {
    var t := Tag("remote-work", "Remote Work", ["wfh"], 3, 0);
    assert "WFH"[0] != "wfh"[0];
    assert |LowerStr(t.labelText)| != |LowerStr("WFH")|;
  }

  /** The order of `SORT t.usageCount DESC`. */
  predicate ByUsage(a: Tag, b: Tag)
  {
    a.usageCount >= b.usageCount
  }

  lemma ByUsageTotal()
    ensures TotalPreorder(ByUsage)
  {
  }

  /** `ListTagsByUsage`: skip `offset`, take `limit`, in non-increasing usage order. */
  function ListByUsage(tags: seq<Tag>, offset: int, limit: int): (r: Res<seq<Tag>>)
    ensures r.Fail? <==> offset < 0 || limit < 0
    ensures r.Fail? ==> r.error == InvalidLimit
    ensures r.Ok? ==> |r.value| == if offset > |tags| then 0 else if limit < |tags| - offset then limit else |tags| - offset
    ensures r.Ok? ==> forall i :: 0 <= i < |r.value| ==> r.value[i] in tags
    ensures r.Ok? ==> multiset(r.value) <= multiset(tags)
    ensures r.Ok? ==> SortedBy(r.value, ByUsage)
  {
    if offset < 0 || limit < 0 then Fail(InvalidLimit)
    else
      var sorted := SortBy(tags, ByUsage);
      ByUsageTotal();
      SortBySorted(tags, ByUsage);
      WindowSorted(sorted, offset, limit, ByUsage);
      var w := Window(sorted, offset, limit);
      assert forall i :: 0 <= i < |w| ==> w[i] in multiset(sorted);
      WindowSubMultiset(sorted, offset, limit);
      Ok(w)
  }

  /**
   * The page is the `offset`-th stretch of the usage order: the tags skipped
   * are used at least as often as every tag listed, the tags listed at least
   * as often as every tag after them, and a short page leaves no tag out.
   */
  lemma ListByUsageWindow(tags: seq<Tag>, offset: int, limit: int)
    requires offset >= 0 && limit >= 0
    ensures exists before, after :: WindowParts(tags, before, ListByUsage(tags, offset, limit).value, after, ByUsage, offset, limit)
  {
    ByUsageTotal();
    WindowSplit(tags, offset, limit, ByUsage);
    var before, after :| WindowParts(tags, before, Window(SortBy(tags, ByUsage), offset, limit), after, ByUsage, offset, limit);
    assert ListByUsage(tags, offset, limit).value == Window(SortBy(tags, ByUsage), offset, limit);
  }

  /** The filter of `SearchTags`: the label or some alias contains the query, ignoring case. */
  predicate SearchMatch(t: Tag, query: string)
  {
    || Contains(LowerStr(t.labelText), LowerStr(query))
    || exists a :: a in t.aliases && Contains(LowerStr(a), LowerStr(query))
  }

  /** The tags `SearchTags` filters for, in storage order. */
  function Matching(tags: seq<Tag>, query: string): (r: seq<Tag>)
    ensures forall i :: 0 <= i < |r| ==> r[i] in tags && SearchMatch(r[i], query)
    ensures forall i :: 0 <= i < |tags| && SearchMatch(tags[i], query) ==> tags[i] in r
  {
    Filter(tags, (t: Tag) => SearchMatch(t, query))
  }

  /** `SearchTags`: the matching tags by non-increasing usage, at most `limit` of them. */
  function Search(tags: seq<Tag>, query: string, limit: int): (r: Res<seq<Tag>>)
    ensures r.Fail? <==> limit < 0
    ensures r.Fail? ==> r.error == InvalidLimit
    ensures r.Ok? ==> forall i :: 0 <= i < |r.value| ==> r.value[i] in tags && SearchMatch(r.value[i], query)
    ensures r.Ok? ==> |r.value| == if limit < |Matching(tags, query)| then limit else |Matching(tags, query)|
    ensures r.Ok? ==> multiset(r.value) <= multiset(Matching(tags, query))
  {
    if limit < 0 then Fail(InvalidLimit)
    else
      var r := Take(SortBy(Matching(tags, query), ByUsage), limit);
      TopMatches(tags, query, limit, r);
      Ok(r)
  }

  lemma TopMatches(tags: seq<Tag>, query: string, limit: nat, r: seq<Tag>)
    requires r == Take(SortBy(Matching(tags, query), ByUsage), limit)
    ensures forall i :: 0 <= i < |r| ==> r[i] in tags && SearchMatch(r[i], query)
    ensures multiset(r) <= multiset(Matching(tags, query))
  {
    var matching := Matching(tags, query);
    assert forall i :: 0 <= i < |r| ==> r[i] in multiset(matching);
    TakeSubMultiset(SortBy(matching, ByUsage), limit);
  }

  /**
   * The results are the most used matches: every match left out is used no
   * more often than any result, and a short result leaves no match out.
   */
  lemma SearchTop(tags: seq<Tag>, query: string, limit: int)
    requires limit >= 0
    ensures exists after :: WindowParts(Matching(tags, query), [], Search(tags, query, limit).value, after, ByUsage, 0, limit)
  {
    ByUsageTotal();
    var matching := Matching(tags, query);
    TakeSplit(matching, limit, ByUsage);
    var after :| WindowParts(matching, [], Take(SortBy(matching, ByUsage), limit), after, ByUsage, 0, limit);
    assert Search(tags, query, limit).value == Take(SortBy(matching, ByUsage), limit);
  }

  /** Search results come in non-increasing usage order. */
  lemma SearchSorted(tags: seq<Tag>, query: string, limit: int)
    requires limit >= 0
    ensures SortedBy(Search(tags, query, limit).value, ByUsage)
  {
    ByUsageTotal();
    SortBySorted(Matching(tags, query), ByUsage);
    TakeSorted(SortBy(Matching(tags, query), ByUsage), limit, ByUsage);
  }

  /** When the matches fit within `limit`, every matching tag is among the results. */
  lemma SearchComplete(tags: seq<Tag>, query: string, limit: int, t: Tag)
    requires |Matching(tags, query)| <= limit
    requires t in tags && SearchMatch(t, query)
    ensures t in Search(tags, query, limit).value
  {
    var matching := Matching(tags, query);
    assert t in multiset(matching);
  }

  /** The tags after `IncrementTagUsageCount(key)`. */
  function Incremented(tags: seq<Tag>, key: string): seq<Tag>
  {
    seq(|tags|, i requires 0 <= i < |tags| =>
      if tags[i].key == key then tags[i].(usageCount := tags[i].usageCount + 1) else tags[i])
  }

  /**
   * The increment raises exactly the usage of the tags with that key, by one,
   * and changes nothing else.
   */
  lemma IncrementedOnly(tags: seq<Tag>, key: string)
    ensures |Incremented(tags, key)| == |tags|
    ensures forall i :: 0 <= i < |tags| ==>
      && Incremented(tags, key)[i].key == tags[i].key
      && Incremented(tags, key)[i].labelText == tags[i].labelText
      && Incremented(tags, key)[i].aliases == tags[i].aliases
      && Incremented(tags, key)[i].createdAt == tags[i].createdAt
      && Incremented(tags, key)[i].usageCount == tags[i].usageCount + (if tags[i].key == key then 1 else 0)
  {
  }

  /** The alias lookup does not see usage counts, so an increment keeps its answer. */
  lemma {:induction false} IncrementedKeepsAlias(tags: seq<Tag>, key: string, alias: string)
    ensures var before := TagByAlias(tags, alias);
      var after := TagByAlias(Incremented(tags, key), alias);
      (before.None? <==> after.None?) && (before.Some? ==> before.value.key == after.value.key)
  {
    var inc := Incremented(tags, key);
    assert forall i :: 0 <= i < |tags| ==> (AliasMatch(inc[i], alias) <==> AliasMatch(tags[i], alias));
    var before := TagByAlias(tags, alias);
    if before.Some? {
      var i :| 0 <= i < |tags| && tags[i] == before.value && AliasMatch(tags[i], alias)
                && forall j :: 0 <= j < i ==> !AliasMatch(tags[j], alias);
      FindAt(inc, (t: Tag) => AliasMatch(t, alias), i);
    }
  }

  /** `IncrementTagUsageCount`: the update runs over the collection, tag by tag. */
  method IncrementTagUsageCount(db: Db, key: string) returns (err: Option<Error>)
    modifies db
    ensures TagIncrementUsageCount in old(db.failing) ==> err == Some(QueryFailed) && db.graph == old(db.graph)
    ensures TagIncrementUsageCount !in old(db.failing) ==>
      err == None && db.graph == old(db.graph).(tags := Incremented(old(db.graph.tags), key))
    ensures db.failing == old(db.failing) && db.nextKey == old(db.nextKey)
  {
    if TagIncrementUsageCount in db.failing {
      return Some(QueryFailed);
    }
    var tags := db.graph.tags;
    var i := 0;
    while i < |tags|
      invariant 0 <= i <= |tags| == |db.graph.tags|
      invariant forall j :: 0 <= j < i ==> tags[j] == Incremented(db.graph.tags, key)[j]
      invariant forall j :: i <= j < |tags| ==> tags[j] == db.graph.tags[j]
    {
      if tags[i].key == key {
        tags := tags[i := tags[i].(usageCount := tags[i].usageCount + 1)];
      }
      i := i + 1;
    }
    assert tags == Incremented(db.graph.tags, key);
    db.graph := db.graph.(tags := tags);
    return None;
  }

  /** The outcome of inserting a tag document. */
  datatype Insertion = Insertion(result: Res<string>, tags: seq<Tag>, nextKey: nat)

  /**
   * Inserting `t`: an empty key (omitted from the document) is generated by the
   * store; a key already present is a unique-constraint violation.
   */
  function Inserted(tags: seq<Tag>, failing: set<Op>, nextKey: nat, t: Tag): (r: Insertion)
    ensures r.result.Ok? <==>
      TagCreate !in failing && !KeyTaken(tags, if t.key == "" then Decimal(nextKey) else t.key)
    ensures r.result.Ok? ==>
      r.result.value == (if t.key == "" then Decimal(nextKey) else t.key) && r.tags == tags + [t.(key := r.result.value)]
    ensures r.result.Fail? ==> r.tags == tags
    ensures UniqueKeys(tags) ==> UniqueKeys(r.tags)
  {
    if TagCreate in failing then Insertion(Fail(Wrap("create document: ", Unavailable)), tags, nextKey)
    else
      var key := if t.key == "" then Decimal(nextKey) else t.key;
      var next := if t.key == "" then nextKey + 1 else nextKey;
      if KeyTaken(tags, key) then Insertion(Fail(Wrap("create document: ", DuplicateKey)), tags, next)
      else Insertion(Ok(key), tags + [t.(key := key)], next)
  }

  /** The repository's `Create` for tags. */
  method CreateTag(db: Db, t: Tag) returns (r: Res<string>)
    modifies db
    ensures var ins := Inserted(old(db.graph.tags), old(db.failing), old(db.nextKey), t);
      r == ins.result && db.graph == old(db.graph).(tags := ins.tags) && db.nextKey == ins.nextKey
    ensures db.failing == old(db.failing)
  {
    if TagCreate in db.failing {
      return Fail(Wrap("create document: ", Unavailable));
    }
    var key := t.key;
    if key == "" {
      key := db.GenerateKey();
    }
    if KeyTaken(db.graph.tags, key) {
      return Fail(Wrap("create document: ", DuplicateKey));
    }
    db.graph := db.graph.(tags := db.graph.tags + [t.(key := key)]);
    return Ok(key);
  }
}
