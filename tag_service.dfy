/**
 * The tag service of internal/tag/service.go: lookups with their limit
 * defaults, and the resolution of raw AI tags to canonical tag keys
 * (find by alias or label, else create, else fall back to the key).
 */
module TagService {
  import opened Wrappers
  import opened Domain
  import opened Store
  import opened TagNames
  import opened TagQueries
  import Grouping

  /** `GetTag`: a store error is wrapped with "get tag: ", a missing tag is `NotFound`. */
  function GetTag(db: Db, id: string): (r: Res<Tag>)
    reads db
    ensures TagGetByID in db.failing ==> r == Fail(Wrap("get tag: ", QueryFailed))
    ensures TagGetByID !in db.failing ==> (r.Ok? <==> KeyTaken(db.graph.tags, id))
    ensures TagGetByID !in db.failing && r.Fail? ==> r.error == Domain(NotFound)
    ensures r.Ok? ==> r.value in db.graph.tags && r.value.key == id
  {
    var found := db.Read(TagGetByID, TagByKey(db.graph.tags, id));
    if found.Fail? then Fail(Wrap("get tag: ", found.error))
    else if found.value.None? then Fail(Domain(NotFound))
    else Ok(found.value.value)
  }

  /** The page size `ListTags` uses: 50 when not positive, at most 100. */
  function ListLimit(limit: int): (r: int)
    ensures 1 <= r <= 100
    ensures 1 <= limit <= 100 ==> r == limit
    ensures limit <= 0 ==> r == 50
    ensures limit > 100 ==> r == 100
  {
    if limit <= 0 then 50 else if limit > 100 then 100 else limit
  }

  /** `ListTags`: at most `ListLimit(limit)` tags after `offset`, by non-increasing usage. */
  function ListTags(db: Db, limit: int, offset: int): (r: Res<seq<Tag>>)
    reads db
    ensures r.Fail? <==> TagList in db.failing || offset < 0
    ensures r.Ok? ==> |r.value| <= ListLimit(limit) && Sorting.SortedBy(r.value, ByUsage)
    ensures r.Ok? ==> forall i :: 0 <= i < |r.value| ==> r.value[i] in db.graph.tags
    ensures r.Ok? ==> multiset(r.value) <= multiset(db.graph.tags)
    ensures r.Ok? && offset + ListLimit(limit) <= |db.graph.tags| ==> |r.value| == ListLimit(limit)
  {
    if TagList in db.failing then Fail(QueryFailed)
    else ListByUsage(db.graph.tags, offset, ListLimit(limit))
  }

  /** A listed page holds the tags that follow the first `offset` in usage order. */
  lemma ListTagsWindow(db: Db, limit: int, offset: int)
    requires ListTags(db, limit, offset).Ok?
    ensures exists before, after ::
      Sorting.WindowParts(db.graph.tags, before, ListTags(db, limit, offset).value, after, ByUsage, offset, ListLimit(limit))
  {
    ListByUsageWindow(db.graph.tags, offset, ListLimit(limit));
  }

  /** The result count `SearchTags` uses: 20 when not positive, otherwise unchanged. */
  function SearchLimit(limit: int): (r: int)
    ensures r >= 1
    ensures limit > 0 ==> r == limit
    ensures limit <= 0 ==> r == 20
  {
    if limit <= 0 then 20 else limit
  }

  /** `SearchTags`: matching tags, at most `SearchLimit(limit)` of them. */
  function SearchTags(db: Db, query: string, limit: int): (r: Res<seq<Tag>>)
    reads db
    ensures r.Fail? <==> TagSearch in db.failing
    ensures r.Ok? ==> |r.value| <= SearchLimit(limit)
    ensures r.Ok? ==> forall i :: 0 <= i < |r.value| ==> r.value[i] in db.graph.tags && SearchMatch(r.value[i], query)
    ensures r.Ok? ==> multiset(r.value) <= multiset(Matching(db.graph.tags, query))
    ensures r.Ok? ==> Sorting.SortedBy(r.value, ByUsage)
  {
    if TagSearch in db.failing then Fail(QueryFailed)
    else
      SearchSorted(db.graph.tags, query, SearchLimit(limit));
      Search(db.graph.tags, query, SearchLimit(limit))
  }

  /** The results are the `SearchLimit(limit)` most used matching tags. */
  lemma SearchTagsTop(db: Db, query: string, limit: int)
    requires SearchTags(db, query, limit).Ok?
    ensures exists after ::
      Sorting.WindowParts(Matching(db.graph.tags, query), [], SearchTags(db, query, limit).value, after, ByUsage, 0, SearchLimit(limit))
  {
    SearchTop(db.graph.tags, query, SearchLimit(limit));
  }

  // ----- resolving one raw tag ----------------------------------------------

  /** The tag created for a raw tag nobody knows yet. */
  function NewTag(raw: string, now: int): Tag
  {
    Tag(ToTagKey(raw), TagLabel(raw), [raw], 1, now)
  }

  /** The outcome of resolving one raw tag: the key or error, and the tags and key generator after it. */
  datatype Resolution = Resolution(result: Res<string>, tags: seq<Tag>, nextKey: nat)

  /**
   * `normalizeTag` against the tags, the failing operations and the key
   * generator, at time `now`. The usage increment of a found tag is taken as
   * done, unless that operation fails; its error is never seen.
   */
  function Resolve(tags: seq<Tag>, failing: set<Op>, nextKey: nat, raw: string, now: int): Resolution
  {
    if TagGetByAlias in failing then Resolution(Fail(QueryFailed), tags, nextKey)
    else match TagByAlias(tags, raw)
      case Some(t) =>
        Resolution(Ok(t.key), if TagIncrementUsageCount in failing then tags else Incremented(tags, t.key), nextKey)
      case None =>
        var key := ToTagKey(raw);
        var ins := Inserted(tags, failing, nextKey, NewTag(raw, now));
        if ins.result.Ok? then Resolution(Ok(key), ins.tags, ins.nextKey)
        else if TagGetByID !in failing && TagByKey(ins.tags, key).Some? then
          Resolution(Ok(TagByKey(ins.tags, key).value.key), ins.tags, ins.nextKey)
        else Resolution(Fail(ins.result.error), ins.tags, ins.nextKey)
  }

  /** `normalizeTag`, step by step against the store. */
  method NormalizeTag(db: Db, raw: string, now: int) returns (r: Res<string>)
    modifies db
    ensures var s := Resolve(old(db.graph.tags), old(db.failing), old(db.nextKey), raw, now);
      r == s.result && db.graph == old(db.graph).(tags := s.tags) && db.nextKey == s.nextKey
    ensures db.failing == old(db.failing)
  {
    var found := db.Read(TagGetByAlias, TagByAlias(db.graph.tags, raw));
    if found.Fail? {
      return Fail(found.error);
    }
    if found.value.Some? {
      var existing := found.value.value;
      var ignored := IncrementTagUsageCount(db, existing.key);
      return Ok(existing.key);
    }
    var key := ToTagKey(raw);
    var tagLabel := ToTagLabel(raw);
    var created := CreateTag(db, Tag(key, tagLabel, [raw], 1, now));
    if created.Fail? {
      var byKey := db.Read(TagGetByID, TagByKey(db.graph.tags, key));
      if byKey.Ok? && byKey.value.Some? {
        return Ok(byKey.value.value.key);
      }
      return Fail(created.error);
    }
    return Ok(key);
  }

  /** A tag found by alias or label is returned and no tag is created; only usage counts may change. */
  lemma ResolveFound(tags: seq<Tag>, failing: set<Op>, nextKey: nat, raw: string, now: int, t: Tag)
    requires TagGetByAlias !in failing
    requires TagByAlias(tags, raw) == Some(t)
    ensures var s := Resolve(tags, failing, nextKey, raw, now);
      && s.result == Ok(t.key)
      && |s.tags| == |tags| && s.nextKey == nextKey
      && forall i :: 0 <= i < |tags| ==> s.tags[i].key == tags[i].key && s.tags[i].aliases == tags[i].aliases
  {
    IncrementedOnly(tags, t.key);
  }

  /**
   * A tag nobody knows is stored under `toTagKey(raw)` with label
   * `toTagLabel(raw)`, aliases `[raw]` and usage 1, and its key is returned.
   */
  lemma ResolveCreates(tags: seq<Tag>, failing: set<Op>, nextKey: nat, raw: string, now: int)
    requires TagGetByAlias !in failing && TagCreate !in failing
    requires TagByAlias(tags, raw).None?
    requires ToTagKey(raw) != "" && !KeyTaken(tags, ToTagKey(raw))
    ensures var s := Resolve(tags, failing, nextKey, raw, now);
      && s.result == Ok(ToTagKey(raw))
      && s.tags == tags + [Tag(ToTagKey(raw), TagLabel(raw), [raw], 1, now)]
  {
  }

  /**
   * When the insert fails, the key is returned if a tag with it can be read;
   * otherwise the insert's error is returned. The tags do not change.
   */
  lemma ResolveFallsBack(tags: seq<Tag>, failing: set<Op>, nextKey: nat, raw: string, now: int)
    requires TagGetByAlias !in failing
    requires TagByAlias(tags, raw).None?
    requires ToTagKey(raw) != ""
    requires TagCreate in failing || KeyTaken(tags, ToTagKey(raw))
    ensures var s := Resolve(tags, failing, nextKey, raw, now);
      && s.tags == tags
      && (TagGetByID !in failing && KeyTaken(tags, ToTagKey(raw)) ==> s.result == Ok(ToTagKey(raw)))
      && (TagGetByID in failing || !KeyTaken(tags, ToTagKey(raw)) ==>
            s.result == Inserted(tags, failing, nextKey, NewTag(raw, now)).result && s.result.Fail?)
  {
  }

  /**
   * A raw tag whose key is empty is stored under a generated key, yet the
   * empty key is what is returned.
   */
  lemma ResolveEmptyKey(tags: seq<Tag>, failing: set<Op>, nextKey: nat, raw: string, now: int)
    requires TagGetByAlias !in failing && TagCreate !in failing
    requires TagByAlias(tags, raw).None?
    requires ToTagKey(raw) == "" && !KeyTaken(tags, Text.Decimal(nextKey))
    ensures var s := Resolve(tags, failing, nextKey, raw, now);
      s.result == Ok("") && s.tags == tags + [NewTag(raw, now).(key := Text.Decimal(nextKey))]
  {
  }

  /** Resolution keeps tag keys unique. */
  lemma ResolveUniqueKeys(tags: seq<Tag>, failing: set<Op>, nextKey: nat, raw: string, now: int)
    requires UniqueKeys(tags)
    ensures UniqueKeys(Resolve(tags, failing, nextKey, raw, now).tags)
  {
    if TagGetByAlias !in failing && TagByAlias(tags, raw).Some? {
      IncrementedUnique(tags, TagByAlias(tags, raw).value.key);
    }
  }

  /** A usage increment keeps every key, so it keeps them unique. */
  lemma IncrementedUnique(tags: seq<Tag>, key: string)
    requires UniqueKeys(tags)
    ensures UniqueKeys(Incremented(tags, key))
  {
    IncrementedOnly(tags, key);
  }

  /** Resolving the same raw tag again returns the same (non-empty) key and creates no tag. */
  lemma ResolveAgain(tags: seq<Tag>, failing: set<Op>, nextKey: nat, raw: string, now: int, later: int)
    requires Resolve(tags, failing, nextKey, raw, now).result.Ok?
    requires Resolve(tags, failing, nextKey, raw, now).result.value != ""
    ensures var s1 := Resolve(tags, failing, nextKey, raw, now);
      var s2 := Resolve(s1.tags, failing, s1.nextKey, raw, later);
      s2.result == s1.result && |s2.tags| == |s1.tags|
  {
    var s1 := Resolve(tags, failing, nextKey, raw, now);
    var t1 := s1.tags;
    match TagByAlias(tags, raw)
    case Some(t) =>
      if TagIncrementUsageCount !in failing {
        IncrementedKeepsAlias(tags, t.key, raw);
        IncrementedOnly(t1, TagByAlias(t1, raw).value.key);
      }
    case None =>
      var ins := Inserted(tags, failing, nextKey, NewTag(raw, now));
      if ins.result.Ok? {
        var n := NewTag(raw, now);
        assert t1 == tags + [n];
        assert forall j :: 0 <= j < |tags| ==> !AliasMatch(t1[j], raw);
        assert AliasMatch(t1[|tags|], raw);
        Collections.FindAt(t1, (x: Tag) => AliasMatch(x, raw), |tags|);
        var found := t1[|tags|];
        IncrementedOnly(t1, found.key);
      } else {
        assert t1 == tags;
        assert TagByKey(t1, ToTagKey(raw)).Some?;
      }
  }

  /**
   * Two raw tags with the same non-empty key, neither found by alias or label
   * when it is resolved, resolve to that key, and the second creates nothing.
   */
  lemma ResolveSameKey(tags: seq<Tag>, failing: set<Op>, nextKey: nat, raw1: string, raw2: string, now: int, later: int)
    requires TagGetByAlias !in failing && TagCreate !in failing && TagGetByID !in failing
    requires ToTagKey(raw1) == ToTagKey(raw2) != ""
    requires TagByAlias(tags, raw1).None?
    requires TagByAlias(Resolve(tags, failing, nextKey, raw1, now).tags, raw2).None?
    ensures var s1 := Resolve(tags, failing, nextKey, raw1, now);
      var s2 := Resolve(s1.tags, failing, s1.nextKey, raw2, later);
      && s1.result == Ok(ToTagKey(raw1)) && s2.result == s1.result
      && s2.tags == s1.tags && s2.nextKey == s1.nextKey
  {
    var key := ToTagKey(raw1);
    var s1 := Resolve(tags, failing, nextKey, raw1, now);
    var ins := Inserted(tags, failing, nextKey, NewTag(raw1, now));
    if ins.result.Ok? {
      assert s1.tags[|tags|].key == key;
    }
    assert KeyTaken(s1.tags, key);
  }

  /**
   * The lookup by alias runs before the key is derived, so two raw tags with
   * the same key can resolve to different tags: one found by alias keeps the
   * found tag's key, and one no tag matches gets a tag of its own.
   */
  lemma ResolveAliasBeforeKey(tags: seq<Tag>, failing: set<Op>, nextKey: nat, raw1: string, raw2: string, now: int, later: int)
    requires TagGetByAlias !in failing && TagCreate !in failing
    requires ToTagKey(raw1) == ToTagKey(raw2) != ""
    requires TagByAlias(tags, raw1).Some? && TagByAlias(tags, raw1).value.key != ToTagKey(raw2)
    requires TagByAlias(tags, raw2).None? && !KeyTaken(tags, ToTagKey(raw2))
    ensures var s1 := Resolve(tags, failing, nextKey, raw1, now);
      var s2 := Resolve(s1.tags, failing, s1.nextKey, raw2, later);
      && s1.result == Ok(TagByAlias(tags, raw1).value.key) && s2.result == Ok(ToTagKey(raw2))
      && s1.result != s2.result && |s2.tags| == |s1.tags| + 1
  {
    var t := TagByAlias(tags, raw1).value;
    ResolveFound(tags, failing, nextKey, raw1, now, t);
    var s1 := Resolve(tags, failing, nextKey, raw1, now);
    IncrementedKeepsAlias(tags, t.key, raw2);
    assert TagByAlias(s1.tags, raw2).None?;
    assert !KeyTaken(s1.tags, ToTagKey(raw2)) by {
      forall i | 0 <= i < |s1.tags| ensures s1.tags[i].key != ToTagKey(raw2) {
        assert tags[i].key != ToTagKey(raw2);
      }
    }
    ResolveCreates(s1.tags, failing, s1.nextKey, raw2, later);
  }

  /**
   * An instance of `ResolveAliasBeforeKey`: "wfh" is an alias of
   * "remote-work", while "wfh!", whose key is "wfh" too, matches no tag.
   */
  lemma WfhResolvesTwoWays()
    ensures var tags := [Tag("remote-work", "Remote Work", ["wfh"], 3, 0)];
      && ToTagKey("wfh") == ToTagKey("wfh!") == "wfh"
      && TagByAlias(tags, "wfh") == Some(tags[0]) && tags[0].key != "wfh"
      && TagByAlias(tags, "wfh!").None? && !KeyTaken(tags, "wfh")
  {
    var tags := [Tag("remote-work", "Remote Work", ["wfh"], 3, 0)];
    assert AliasMatch(tags[0], "wfh");
    Collections.FindAt(tags, (t: Tag) => AliasMatch(t, "wfh"), 0);
    NotAliasOfRemoteWork(tags[0]);
    ToTagKeyWfh();
    assert |"remote-work"| != |"wfh"|;
    OneKeyTaken(tags[0], "wfh");
  }

  lemma OneKeyTaken(t: Tag, key: string)
    ensures KeyTaken([t], key) <==> t.key == key
  {
    assert [t][0] == t;
  }

  /** "wfh!" is neither an alias of a tag whose only alias is "wfh", nor its label "Remote Work". */
  lemma NotAliasOfRemoteWork(t: Tag)
    requires t.labelText == "Remote Work" && t.aliases == ["wfh"]
    ensures !AliasMatch(t, "wfh!")
  {
    assert |Text.LowerStr("Remote Work")| != |Text.LowerStr("wfh!")|;
    assert "wfh!" != "wfh";
  }

  // ----- resolving a batch ----------------------------------------------------

  /** The outcome of resolving a batch: the keys in input order or the first error. */
  datatype Batch = Batch(result: Res<seq<string>>, tags: seq<Tag>, nextKey: nat)

  /**
   * The raw tags resolved one after another, stopping at the first error; each
   * resolution sees the store as the previous ones left it.
   */
  function ResolveAll(tags: seq<Tag>, failing: set<Op>, nextKey: nat, raws: seq<string>, now: int): (b: Batch)
    ensures b.result.Ok? ==> |b.result.value| == |raws|
    decreases |raws|
  {
    if |raws| == 0 then Batch(Ok([]), tags, nextKey)
    else Step(ResolveAll(tags, failing, nextKey, raws[..|raws| - 1], now), failing, raws[|raws| - 1], now)
  }

  /** One more raw tag of a batch: nothing happens after an error. */
  function Step(b: Batch, failing: set<Op>, raw: string, now: int): (r: Batch)
    ensures b.result.Fail? ==> r == b
    ensures r.result.Ok? ==> b.result.Ok? && |r.result.value| == |b.result.value| + 1
  {
    if b.result.Fail? then b
    else
      var s := Resolve(b.tags, failing, b.nextKey, raw, now);
      if s.result.Fail? then Batch(Fail(s.result.error), s.tags, s.nextKey)
      else Batch(Ok(b.result.value + [s.result.value]), s.tags, s.nextKey)
  }

  lemma ResolveAllSnoc(tags: seq<Tag>, failing: set<Op>, nextKey: nat, raws: seq<string>, i: nat, now: int)
    requires i < |raws|
    ensures ResolveAll(tags, failing, nextKey, raws[..i + 1], now)
         == Step(ResolveAll(tags, failing, nextKey, raws[..i], now), failing, raws[i], now)
  {
    assert raws[..i + 1][..i] == raws[..i];
  }

  lemma StepOk(b: Batch, failing: set<Op>, raw: string, now: int)
    requires b.result.Ok? && Resolve(b.tags, failing, b.nextKey, raw, now).result.Ok?
    ensures var s := Resolve(b.tags, failing, b.nextKey, raw, now);
      Step(b, failing, raw, now) == Batch(Ok(b.result.value + [s.result.value]), s.tags, s.nextKey)
  {
  }

  lemma StepFail(b: Batch, failing: set<Op>, raw: string, now: int)
    requires b.result.Ok? && Resolve(b.tags, failing, b.nextKey, raw, now).result.Fail?
    ensures Step(b, failing, raw, now).result.Fail?
  {
  }

  lemma ResolveAllAfterFail(tags: seq<Tag>, failing: set<Op>, nextKey: nat, raws: seq<string>, now: int)
    requires |raws| > 0 && ResolveAll(tags, failing, nextKey, raws[..|raws| - 1], now).result.Fail?
    ensures ResolveAll(tags, failing, nextKey, raws, now) == ResolveAll(tags, failing, nextKey, raws[..|raws| - 1], now)
  {
  }

  /** Once a prefix of the batch fails, the whole batch fails with the same error. */
  lemma {:induction false} ResolveAllFailPrefix(tags: seq<Tag>, failing: set<Op>, nextKey: nat, raws: seq<string>, n: nat, now: int)
    requires n <= |raws|
    requires ResolveAll(tags, failing, nextKey, raws[..n], now).result.Fail?
    ensures ResolveAll(tags, failing, nextKey, raws, now) == ResolveAll(tags, failing, nextKey, raws[..n], now)
    decreases |raws| - n
  {
    var m := |raws| - 1;
    if n < |raws| {
      var shorter := raws[..m];
      assert shorter[..n] == raws[..n];
      ResolveAllFailPrefix(tags, failing, nextKey, shorter, n, now);
      assert ResolveAll(tags, failing, nextKey, shorter, now) == ResolveAll(tags, failing, nextKey, raws[..n], now);
      ResolveAllAfterFail(tags, failing, nextKey, raws, now);
      assert ResolveAll(tags, failing, nextKey, raws, now) == ResolveAll(tags, failing, nextKey, shorter, now);
    } else {
      assert raws[..n] == raws;
    }
  }

  /** A failing lookup fails every non-empty batch. */
  lemma {:induction false} ResolveAllLookupFails(tags: seq<Tag>, failing: set<Op>, nextKey: nat, raws: seq<string>, now: int)
    requires TagGetByAlias in failing && |raws| > 0
    ensures ResolveAll(tags, failing, nextKey, raws, now).result == Fail(QueryFailed)
  {
    if |raws| > 1 {
      ResolveAllLookupFails(tags, failing, nextKey, raws[..|raws| - 1], now);
    }
  }

  /** A batch keeps tag keys unique. */
  lemma {:induction false} ResolveAllUniqueKeys(tags: seq<Tag>, failing: set<Op>, nextKey: nat, raws: seq<string>, now: int)
    requires UniqueKeys(tags)
    ensures UniqueKeys(ResolveAll(tags, failing, nextKey, raws, now).tags)
    decreases |raws|
  {
    if |raws| > 0 {
      var b := ResolveAll(tags, failing, nextKey, raws[..|raws| - 1], now);
      ResolveAllUniqueKeys(tags, failing, nextKey, raws[..|raws| - 1], now);
      ResolveUniqueKeys(b.tags, failing, b.nextKey, raws[|raws| - 1], now);
    }
  }

  /** A resolution loses no key, and a non-empty key it returns names a stored tag. */
  lemma ResolveKeys(tags: seq<Tag>, failing: set<Op>, nextKey: nat, raw: string, now: int)
    ensures forall k :: KeyTaken(tags, k) ==> KeyTaken(Resolve(tags, failing, nextKey, raw, now).tags, k)
    ensures Resolve(tags, failing, nextKey, raw, now).result.Ok? && Resolve(tags, failing, nextKey, raw, now).result.value != "" ==>
      KeyTaken(Resolve(tags, failing, nextKey, raw, now).tags, Resolve(tags, failing, nextKey, raw, now).result.value)
  {
    var s := Resolve(tags, failing, nextKey, raw, now);
    if TagGetByAlias in failing {
      KeysKept(tags, s.tags);
    } else if TagByAlias(tags, raw).Some? {
      ResolveKeysFound(tags, failing, nextKey, raw, now, s, TagByAlias(tags, raw).value);
    } else {
      ResolveKeysCreated(tags, failing, nextKey, raw, now, s);
    }
  }

  lemma ResolveKeysFound(tags: seq<Tag>, failing: set<Op>, nextKey: nat, raw: string, now: int, s: Resolution, t: Tag)
    requires TagGetByAlias !in failing && TagByAlias(tags, raw) == Some(t)
    requires s == Resolve(tags, failing, nextKey, raw, now)
    ensures forall k :: KeyTaken(tags, k) ==> KeyTaken(s.tags, k)
    ensures s.result == Ok(t.key) && KeyTaken(s.tags, t.key)
  {
    IncrementedOnly(tags, t.key);
    KeysKept(tags, s.tags);
    var i :| 0 <= i < |tags| && tags[i] == t;
    assert s.tags[i].key == t.key;
  }

  lemma ResolveKeysCreated(tags: seq<Tag>, failing: set<Op>, nextKey: nat, raw: string, now: int, s: Resolution)
    requires TagGetByAlias !in failing && TagByAlias(tags, raw).None?
    requires s == Resolve(tags, failing, nextKey, raw, now)
    ensures forall k :: KeyTaken(tags, k) ==> KeyTaken(s.tags, k)
    ensures s.result.Ok? && s.result.value != "" ==> KeyTaken(s.tags, s.result.value)
  {
    var ins := Inserted(tags, failing, nextKey, NewTag(raw, now));
    KeysKept(tags, s.tags);
    if ins.result.Ok? && ToTagKey(raw) != "" {
      assert s.tags[|tags|].key == ToTagKey(raw);
    }
  }

  /** A list whose first elements carry the keys of `tags` takes every key `tags` takes. */
  lemma KeysKept(tags: seq<Tag>, after: seq<Tag>)
    requires |tags| <= |after| && forall i :: 0 <= i < |tags| ==> after[i].key == tags[i].key
    ensures forall k :: KeyTaken(tags, k) ==> KeyTaken(after, k)
  {
    forall k | KeyTaken(tags, k) ensures KeyTaken(after, k) {
      var i :| 0 <= i < |tags| && tags[i].key == k;
      assert after[i].key == k;
    }
  }

  /** A batch loses no key, and every non-empty key it returns names a stored tag. */
  lemma {:induction false} ResolveAllKeys(tags: seq<Tag>, failing: set<Op>, nextKey: nat, raws: seq<string>, now: int)
    ensures forall k :: KeyTaken(tags, k) ==> KeyTaken(ResolveAll(tags, failing, nextKey, raws, now).tags, k)
    ensures var b := ResolveAll(tags, failing, nextKey, raws, now);
      b.result.Ok? ==> forall i :: 0 <= i < |b.result.value| && b.result.value[i] != "" ==> KeyTaken(b.tags, b.result.value[i])
    decreases |raws|
  {
    if |raws| > 0 {
      var b := ResolveAll(tags, failing, nextKey, raws[..|raws| - 1], now);
      ResolveAllKeys(tags, failing, nextKey, raws[..|raws| - 1], now);
      StepKeys(tags, b, failing, raws[|raws| - 1], now);
    }
  }

  /** One step of a batch keeps the keys of `tags` stored and adds a stored key, if any. */
  lemma StepKeys(tags: seq<Tag>, b: Batch, failing: set<Op>, raw: string, now: int)
    requires forall k :: KeyTaken(tags, k) ==> KeyTaken(b.tags, k)
    requires b.result.Ok? ==> forall i :: 0 <= i < |b.result.value| && b.result.value[i] != "" ==> KeyTaken(b.tags, b.result.value[i])
    ensures var r := Step(b, failing, raw, now);
      (forall k :: KeyTaken(tags, k) ==> KeyTaken(r.tags, k))
      && (r.result.Ok? ==> forall i :: 0 <= i < |r.result.value| && r.result.value[i] != "" ==> KeyTaken(r.tags, r.result.value[i]))
  {
    if b.result.Ok? {
      ResolveKeys(b.tags, failing, b.nextKey, raw, now);
      var r := Step(b, failing, raw, now);
      if r.result.Ok? {
        var s := Resolve(b.tags, failing, b.nextKey, raw, now);
        assert r.result.value == b.result.value + [s.result.value];
        forall i | 0 <= i < |r.result.value| && r.result.value[i] != "" ensures KeyTaken(r.tags, r.result.value[i]) {
          if i < |b.result.value| {
            assert r.result.value[i] == b.result.value[i];
          }
        }
      }
    }
  }

  // ----- de-duplication -------------------------------------------------------

  /** The keys without "" and without repeats, each at its first occurrence. */
  function Dedup(keys: seq<string>): seq<string>
  {
    if |keys| == 0 then []
    else
      var d := Dedup(keys[..|keys| - 1]);
      var x := keys[|keys| - 1];
      if x == "" || x in d then d else d + [x]
  }

  /** The position of the first occurrence of `x`. */
  function FirstIndex(s: seq<string>, x: string): (r: nat)
    requires x in s
    ensures r < |s| && s[r] == x && forall j :: 0 <= j < r ==> s[j] != x
  {
    if s[0] == x then 0 else 1 + FirstIndex(s[1..], x)
  }

  /** De-duplication keeps exactly the non-empty keys. */
  lemma {:induction false} DedupMembers(keys: seq<string>)
    ensures forall x :: x in Dedup(keys) <==> x in keys && x != ""
  {
    if |keys| > 0 {
      var p := keys[..|keys| - 1];
      DedupMembers(p);
      assert keys == p + [keys[|keys| - 1]];
    }
  }

  /** De-duplication leaves no key twice. */
  lemma {:induction false} DedupDistinct(keys: seq<string>)
    ensures Grouping.NoRepeats(Dedup(keys))
  {
    if |keys| > 0 {
      var p := keys[..|keys| - 1];
      var x := keys[|keys| - 1];
      DedupDistinct(p);
      var d := Dedup(p);
      if !(x == "" || x in d) {
        var e := d + [x];
        forall i, j | 0 <= i < j < |e| ensures e[i] != e[j] {
          if j == |d| {
            assert e[i] == d[i] && e[j] == x && d[i] in d;
            assert d[i] != x;
          } else {
            assert e[i] == d[i] && e[j] == d[j];
            assert d[i] != d[j];
          }
        }
      }
    }
  }

  /** Every element of `d` occurs in `keys`, and their first occurrences there come in the order of `d`. */
  ghost predicate FirstOccurrenceOrder(d: seq<string>, keys: seq<string>)
  {
    && (forall i :: 0 <= i < |d| ==> d[i] in keys)
    && (forall i, j :: 0 <= i < j < |d| ==> FirstIndex(keys, d[i]) < FirstIndex(keys, d[j]))
  }

  /** Appending an element does not move the first occurrence of one already present. */
  lemma FirstIndexSnoc(p: seq<string>, x: string, y: string)
    requires y in p
    ensures FirstIndex(p + [x], y) == FirstIndex(p, y)
  {
    var b := FirstIndex(p, y);
    assert (p + [x])[b] == y;
  }

  /** The order of first occurrences survives appending a key to the input, and to both when it is new. */
  lemma FirstOrderSnoc(d: seq<string>, p: seq<string>, x: string, added: bool)
    requires FirstOccurrenceOrder(d, p)
    requires added ==> x !in p
    ensures FirstOccurrenceOrder(if added then d + [x] else d, p + [x])
  {
    var keys := p + [x];
    forall i | 0 <= i < |d| ensures keys[FirstIndex(p, d[i])] == d[i] && FirstIndex(keys, d[i]) == FirstIndex(p, d[i]) {
      FirstIndexSnoc(p, x, d[i]);
    }
    if added {
      assert keys[|p|] == x;
      assert FirstIndex(keys, x) == |p|;
      var e := d + [x];
      forall i, j | 0 <= i < j < |e|
        ensures e[i] in keys && e[j] in keys && FirstIndex(keys, e[i]) < FirstIndex(keys, e[j])
      {
        assert e[i] == d[i];
        if j == |d| {
          assert e[j] == x;
        } else {
          assert e[j] == d[j];
        }
      }
    }
  }

  /** De-duplicated keys appear in the order of their first occurrences. */
  lemma {:induction false} DedupFirstOrder(keys: seq<string>)
    ensures FirstOccurrenceOrder(Dedup(keys), keys)
  {
    if |keys| > 0 {
      var p := keys[..|keys| - 1];
      var x := keys[|keys| - 1];
      DedupFirstOrder(p);
      DedupMembers(p);
      assert keys == p + [x];
      FirstOrderSnoc(Dedup(p), p, x, !(x == "" || x in Dedup(p)));
    }
  }

  /** The de-duplication loop of `NormalizeTags`: keys copied in order, skipping "" and keys already `seen`. */
  method RemoveDuplicates(keys: seq<string>) returns (unique: seq<string>)
    ensures unique == Dedup(keys)
  {
    var seen: set<string> := {};
    unique := [];
    var j := 0;
    while j < |keys|
      invariant 0 <= j <= |keys|
      invariant unique == Dedup(keys[..j])
      invariant forall x :: x in seen <==> x in unique
    {
      var key := keys[j];
      assert keys[..j + 1][..j] == keys[..j];
      if key != "" && key !in seen {
        seen := seen + {key};
        unique := unique + [key];
      }
      j := j + 1;
    }
    assert keys[..j] == keys;
  }

  /** The resolution loop of `NormalizeTags`: `normalizedKeys[i]` is the key of `rawTags[i]`. */
  method ResolveEach(db: Db, rawTags: seq<string>, now: int) returns (r: Res<seq<string>>)
    modifies db
    ensures ResolveAll(old(db.graph.tags), old(db.failing), old(db.nextKey), rawTags, now) == Batch(r, db.graph.tags, db.nextKey)
    ensures db.graph == old(db.graph).(tags := db.graph.tags) && db.failing == old(db.failing)
  {
    ghost var tags0, next0 := db.graph.tags, db.nextKey;
    var normalizedKeys := new string[|rawTags|];
    var i := 0;
    while i < |rawTags|
      invariant 0 <= i <= |rawTags|
      invariant db.failing == old(db.failing)
      invariant ResolveAll(tags0, db.failing, next0, rawTags[..i], now) == Batch(Ok(normalizedKeys[..i]), db.graph.tags, db.nextKey)
      invariant db.graph == old(db.graph).(tags := db.graph.tags)
    {
      ResolveAllSnoc(tags0, db.failing, next0, rawTags, i, now);
      ghost var b := ResolveAll(tags0, db.failing, next0, rawTags[..i], now);
      var key := NormalizeTag(db, rawTags[i], now);
      ghost var s := Resolve(b.tags, db.failing, b.nextKey, rawTags[i], now);
      assert key == s.result && db.graph.tags == s.tags && db.nextKey == s.nextKey;
      if key.Fail? {
        StepFail(b, db.failing, rawTags[i], now);
        ResolveAllFailPrefix(tags0, db.failing, next0, rawTags, i + 1, now);
        return Fail(key.error);
      }
      StepOk(b, db.failing, rawTags[i], now);
      normalizedKeys[i] := key.value;
      assert normalizedKeys[..i + 1] == normalizedKeys[..i] + [key.value];
      i := i + 1;
    }
    assert rawTags[..i] == rawTags;
    assert normalizedKeys[..i] == normalizedKeys[..];
    return Ok(normalizedKeys[..]);
  }

  /** `NormalizeTags`: every raw tag resolved in turn, then the keys de-duplicated. */
  method NormalizeTags(db: Db, rawTags: seq<string>, now: int) returns (r: Res<seq<string>>)
    modifies db
    ensures var b := ResolveAll(old(db.graph.tags), old(db.failing), old(db.nextKey), rawTags, now);
      && db.graph == old(db.graph).(tags := b.tags) && db.nextKey == b.nextKey
      && (b.result.Ok? ==> r == Ok(Dedup(b.result.value)))
      && (b.result.Fail? ==> r == Fail(Wrap("normalize tags: ", b.result.error)))
    ensures |rawTags| == 0 ==> r == Ok([]) && db.graph == old(db.graph) && db.nextKey == old(db.nextKey)
    ensures db.failing == old(db.failing)
  {
    if |rawTags| == 0 {
      return Ok([]);
    }
    var keys := ResolveEach(db, rawTags, now);
    if keys.Fail? {
      return Fail(Wrap("normalize tags: ", keys.error));
    }
    var unique := RemoveDuplicates(keys.value);
    return Ok(unique);
  }
}
