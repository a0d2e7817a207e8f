/**
 * The post queries of internal/post/aql.go over the `posts`, `tags`, `voted`,
 * `responded` and `post_has_tag` collections: lookup by key, the tag keys of a
 * post, the vote count per poll option, and the voted / responded checks.
 */
module PostQueries {
  import opened Wrappers
  import opened Store
  import opened Collections
  import opened Grouping

  predicate PostKeyTaken(posts: seq<Post>, key: string)
  {
    exists i :: 0 <= i < |posts| && posts[i].key == key
  }

  /** `GetPostByID` through `QueryOne`: the post whose key equals `key`, or nothing. */
  function PostByKey(posts: seq<Post>, key: string): (r: Option<Post>)
    ensures r.Some? <==> PostKeyTaken(posts, key)
    ensures r.Some? ==> r.value in posts && r.value.key == key
  {
    Find(posts, (p: Post) => p.key == key)
  }

  /** The inner loop of `GetPostTags`: the keys of the tags whose `_id` is `to`. */
  function TagKeysWithId(tags: seq<Tag>, to: string): (r: seq<string>)
    ensures forall k :: k in r <==> exists t :: t in tags && Id(Tags, t.key) == to && t.key == k
  {
    if |tags| == 0 then []
    else
      assert forall t :: t in tags <==> t == tags[0] || t in tags[1..];
      (if Id(Tags, tags[0].key) == to then [tags[0].key] else []) + TagKeysWithId(tags[1..], to)
  }

  /**
   * `GetPostTags`: for each `post_has_tag` edge leaving `postId`, the keys of
   * the tags it points to. An edge to a tag that does not exist yields nothing.
   */
  function PostTagKeys(edges: seq<PostHasTagEdge>, tags: seq<Tag>, postId: string): (r: seq<string>)
    ensures forall k :: k in r <==>
      exists e, t :: e in edges && t in tags && e.from == postId && Id(Tags, t.key) == e.to && t.key == k
  {
    if |edges| == 0 then []
    else
      assert forall e :: e in edges <==> e == edges[0] || e in edges[1..];
      (if edges[0].from == postId then TagKeysWithId(tags, edges[0].to) else []) + PostTagKeys(edges[1..], tags, postId)
  }

  lemma {:induction false} PostTagKeysConcat(a: seq<PostHasTagEdge>, b: seq<PostHasTagEdge>, tags: seq<Tag>, postId: string)
    ensures PostTagKeys(a + b, tags, postId) == PostTagKeys(a, tags, postId) + PostTagKeys(b, tags, postId)
  {
    if |a| > 0 {
      assert (a + b)[1..] == a[1..] + b;
      PostTagKeysConcat(a[1..], b, tags, postId);
    } else {
      assert a + b == b;
    }
  }

  /** An edge to a tag that does not exist adds nothing to the post's tags. */
  lemma PostTagKeysMissingTag(edges: seq<PostHasTagEdge>, tags: seq<Tag>, postId: string, e: PostHasTagEdge)
    requires forall t :: t in tags ==> Id(Tags, t.key) != e.to
    ensures PostTagKeys(edges + [e], tags, postId) == PostTagKeys(edges, tags, postId)
  {
    PostTagKeysConcat(edges, [e], tags, postId);
    assert PostTagKeys([e], tags, postId) == (if e.from == postId then TagKeysWithId(tags, e.to) else []) + PostTagKeys([], tags, postId);
    TagKeysWithIdNone(tags, e.to);
  }

  lemma {:induction false} TagKeysWithIdNone(tags: seq<Tag>, to: string)
    requires forall t :: t in tags ==> Id(Tags, t.key) != to
    ensures TagKeysWithId(tags, to) == []
  {
    if |tags| > 0 {
      assert tags[0] in tags;
      TagKeysWithIdNone(tags[1..], to);
    }
  }

  /** Edges leaving other posts add nothing to the post's tags. */
  lemma {:induction false} PostTagKeysOtherPost(edges: seq<PostHasTagEdge>, tags: seq<Tag>, postId: string)
    requires forall i :: 0 <= i < |edges| ==> edges[i].from != postId
    ensures PostTagKeys(edges, tags, postId) == []
  {
    if |edges| > 0 {
      PostTagKeysOtherPost(edges[1..], tags, postId);
    }
  }

  /** The options of the votes cast on `postId`, one per `voted` edge, in storage order. */
  function VoteOptions(voted: seq<VotedEdge>, postId: string): (r: seq<string>)
    ensures |r| == Count(voted, (e: VotedEdge) => e.to == postId)
  {
    if |voted| == 0 then []
    else (if voted[0].to == postId then [voted[0].option] else []) + VoteOptions(voted[1..], postId)
  }

  /** An option's count is the number of `voted` edges to the post carrying it. */
  lemma {:induction false} VoteOptionsCount(voted: seq<VotedEdge>, postId: string, option: string)
    ensures Occurrences(VoteOptions(voted, postId), option) ==
            Count(voted, (e: VotedEdge) => e.to == postId && e.option == option)
  {
    if |voted| > 0 {
      VoteOptionsCount(voted[1..], postId, option);
      var head := if voted[0].to == postId then [voted[0].option] else [];
      assert VoteOptions(voted, postId) == head + VoteOptions(voted[1..], postId);
      assert multiset(VoteOptions(voted, postId)) == multiset(head) + multiset(VoteOptions(voted[1..], postId));
    }
  }

  /**
   * `GetPollVotes` collected into the repository's map: one entry per option
   * that received a vote, holding the number of votes for it.
   */
  function PollVotes(voted: seq<VotedEdge>, postId: string): (r: map<string, nat>)
    ensures forall o :: o in r <==> o in VoteOptions(voted, postId)
    ensures forall o :: o in r ==> r[o] > 0 && r[o] == Count(voted, (e: VotedEdge) => e.to == postId && e.option == o)
  {
    var options := VoteOptions(voted, postId);
    var groups := Distinct(options);
    PollGroups(voted, postId, options, groups);
    map o | o in groups :: Occurrences(options, o)
  }

  /** The groups of `PollVotes` are the options voted for, each with a positive count of its votes. */
  lemma PollGroups(voted: seq<VotedEdge>, postId: string, options: seq<string>, groups: seq<string>)
    requires options == VoteOptions(voted, postId) && groups == Distinct(options)
    ensures forall o :: o in groups <==> o in options
    ensures forall o :: o in groups ==>
      Occurrences(options, o) > 0 && Occurrences(options, o) == Count(voted, (e: VotedEdge) => e.to == postId && e.option == o)
  {
    forall o ensures o in groups <==> o in options {
      DistinctMember(options, o);
    }
    forall o | o in groups
      ensures Occurrences(options, o) > 0 && Occurrences(options, o) == Count(voted, (e: VotedEdge) => e.to == postId && e.option == o)
    {
      VoteOptionsCount(voted, postId, o);
    }
  }

  /** One more vote on the post adds its option to the map, or raises that option's count by one. */
  lemma PollVotesAdd(voted: seq<VotedEdge>, postId: string, e: VotedEdge, o: string)
    requires e.to == postId
    ensures o in PollVotes(voted + [e], postId) <==> o in PollVotes(voted, postId) || o == e.option
    ensures o in PollVotes(voted + [e], postId) ==>
      PollVotes(voted + [e], postId)[o] ==
        (if o in PollVotes(voted, postId) then PollVotes(voted, postId)[o] else 0) + (if o == e.option then 1 else 0)
  {
    var p := (v: VotedEdge) => v.to == postId && v.option == o;
    CountConcat(voted, [e], p);
    VoteOptionsCount(voted, postId, o);
    VoteOptionsCount(voted + [e], postId, o);
  }

  /** The sum of the map's counts over `keys`. */
  function SumVotes(keys: seq<string>, m: map<string, nat>): nat
    requires forall i :: 0 <= i < |keys| ==> keys[i] in m
  {
    if |keys| == 0 then 0 else m[keys[0]] + SumVotes(keys[1..], m)
  }

  lemma {:induction false} SumVotesOccurrences(keys: seq<string>, options: seq<string>, m: map<string, nat>)
    requires forall i :: 0 <= i < |keys| ==> keys[i] in m && m[keys[i]] == Occurrences(options, keys[i])
    ensures SumVotes(keys, m) == SumOccurrences(keys, options)
  {
    if |keys| > 0 {
      SumVotesOccurrences(keys[1..], options, m);
    }
  }

  /** The per-option counts add up to the number of votes cast on the post. */
  lemma PollVotesSum(voted: seq<VotedEdge>, postId: string)
    ensures var options := Distinct(VoteOptions(voted, postId));
      (forall i :: 0 <= i < |options| ==> options[i] in PollVotes(voted, postId))
      && SumVotes(options, PollVotes(voted, postId)) == Count(voted, (e: VotedEdge) => e.to == postId)
  {
    var all := VoteOptions(voted, postId);
    var options := Distinct(all);
    var m := PollVotes(voted, postId);
    assert forall i :: 0 <= i < |options| ==> options[i] in m && m[options[i]] == Occurrences(all, options[i]) by {
      forall i | 0 <= i < |options| ensures options[i] in m && m[options[i]] == Occurrences(all, options[i]) {
        VoteOptionsCount(voted, postId, options[i]);
      }
    }
    SumVotesOccurrences(options, all, m);
    GroupCountsSum(all);
  }

  /** `CheckUserVoted` with the repository's `len(results) > 0`. */
  function UserVoted(voted: seq<VotedEdge>, userId: string, postId: string): (r: bool)
    ensures r <==> exists i :: 0 <= i < |voted| && voted[i].from == userId && voted[i].to == postId
  {
    Count(voted, (e: VotedEdge) => e.from == userId && e.to == postId) > 0
  }

  /** `CheckUserResponded` with the repository's `len(results) > 0`. */
  function UserResponded(responded: seq<RespondedEdge>, userId: string, postId: string): (r: bool)
    ensures r <==> exists i :: 0 <= i < |responded| && responded[i].from == userId && responded[i].to == postId
  {
    Count(responded, (e: RespondedEdge) => e.from == userId && e.to == postId) > 0
  }
}
