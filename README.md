# ask.me API core, modelled in Dafny

ask.me is a question-and-answer service. A user posts a text question or a
poll with tags, a category and a depth. Others respond, vote and open
one-to-one chats about a post. A personalised feed recommends posts by the
tags and categories the reader interacts with. The API stores everything in
ArangoDB: document collections (users, posts, tags, chats, messages) and edge
collections (created, responded, voted, post_has_tag, follows,
participates_in, reacted).

This project models the core of that service:

- tag normalisation (`toTagKey`, `toTagLabel`, `normalizeTag`, `NormalizeTags`) and the tag queries;
- post creation, responses and poll votes;
- the feed's recommendation query and its paging;
- chat threads, messages, participation (accept, mute) and chat creation;
- users and following;
- the HTTP middleware helpers and the domain-error to status mapping.

The model is built on three pieces:

- **`Store.Db` is the database.** It is a class holding every collection as a sequence in storage order. It also holds the set of repository operations that fail with a store error, and a key generator. A query is a function of the collections. A write is a method that changes `db.graph`.
- **Each state-changing service operation has a specification function of the old state.** Examples are `PostService.Created`, `ChatService.Sending` and `UserService.Following`. The operation's method is proved equal to its specification function. The lemmas are stated against these functions: round trips, idempotence, "a second attempt is rejected", counts.
- **Errors are values.** A domain sentinel, a store error or a `%w` wrapping with its text, so `errors.Is` and `err.Error()` are modelled exactly. A failing query or update carries the driver's "query failed: " wrapping (`Store.QueryFailed`), a failing insert its "create document: " wrapping (`Store.InsertFailed`), and a negative `LIMIT` fails as a query (`Store.InvalidLimit`).

The service clock (`time.Now()`, `DATE_NOW()`) is an explicit parameter.

## Model

| member | source | states |
|---|---|---|
| Domain.ValidCategoryIsCategoryList | internal/domain/types.go:28-36 | the category switch accepts exactly the ten declared category constants |
| Domain.NormalizeCategory | internal/domain/types.go:39-44 | the result is always a valid category; a valid category is kept, anything else becomes "other" |
| Domain.NormalizeCategoryIdempotent | internal/domain/types.go:39-44 | normalising a category twice is normalising it once |
| Domain.NormalizeDepth | internal/domain/types.go:56-62 | the result is always casual, neutral or serious; those three are kept, anything else becomes "neutral" |
| Domain.NormalizeDepthIdempotent | internal/domain/types.go:56-62 | normalising a depth twice is normalising it once |
| TagNames.KeepKeyChars | internal/tag/service.go:141-142 | the result holds only a-z, 0-9 and "-" and is never longer than the input |
| TagNames.KeepKeyCharsAll | internal/tag/service.go:141-142 | a string made only of key characters is left unchanged |
| TagNames.CollapseHyphens | internal/tag/service.go:144-145 | no "--" remains; the first and last characters and emptiness are kept; key characters stay key characters |
| TagNames.CollapseHyphensNoDouble | internal/tag/service.go:144-145 | a string without "--" is left unchanged |
| TagNames.TrimLeft | internal/tag/service.go:147 | the result is a suffix of the input that does not start with "-", and equals the input when it did not start with one |
| TagNames.TrimRight | internal/tag/service.go:147 | the result is a prefix of the input that does not end with "-", and equals the input when it did not end with one |
| TagNames.TrimHyphens | internal/tag/service.go:147 | neither edge of the result is "-"; key characters and the absence of "--" are kept; a string without edge hyphens is unchanged |
| TagNames.ToTagKey | internal/tag/service.go:134-149 | every key is well formed: hyphen-separated words of [a-z0-9], or empty |
| TagNames.WellFormedKeyFixed | internal/tag/service.go:134-149 | a well-formed key is its own key |
| TagNames.ToTagKeyIdempotent | internal/tag/service.go:134-149 | toTagKey applied twice equals toTagKey applied once |
| TagNames.ToTagKeyWfh | internal/tag/service.go:134-149 | "wfh" and "wfh!" have the same key, "wfh" |
| TagNames.LeadByte | internal/tag/service.go:162 | `word[0]` is the first byte of the UTF-8 encoding: the character itself below 0x80, and a lead byte 0xC2 to 0xF4 otherwise |
| TagNames.TrailingBytes | internal/tag/service.go:162 | a character is followed by 0 to 3 more bytes in UTF-8, and by none exactly when it is ASCII |
| TagNames.InitialUpper | internal/tag/service.go:162 | `strings.ToUpper(string(word[0]))` upper-cases an ASCII initial, and turns any other initial into a Latin-1 character in 0xC0 to 0xDF, the upper-cased reading of its lead byte |
| TagNames.TitleWord | internal/tag/service.go:161-163 | a non-empty word becomes that upper-cased first byte, one U+FFFD for each remaining byte of its first character, then the rest lower-cased; the empty word is kept |
| TagNames.TitleWordAscii | internal/tag/service.go:162 | with an ASCII initial the word is the title-case word by characters |
| TagNames.TitleWordNonAsciiInitial | internal/tag/service.go:162 | "élan" becomes "Ã", U+FFFD and "lan", which is no longer the word up to case |
| TagNames.TitleWordCorrected | internal/tag/service.go:162 | the intended title case: the same length, the first character upper-cased and every other lower-cased |
| TagNames.TitleWordCorrectedKeepsWord | internal/tag/service.go:162 | the intended title case keeps every character up to case |
| TagNames.TitleWords | internal/tag/service.go:160-164 | each word is replaced by its `TitleWord` form, at the same position, byte indexing included |
| TagNames.ToTagLabel | internal/tag/service.go:154-166 | the method that rewrites `words[i]` in place returns the fields of the input (split at Unicode white space, once hyphens and underscores are blanks), each title-cased by its first byte as `TitleWord` says, joined by single blanks |
| TagNames.TagLabelWellFormed | internal/tag/service.go:154-166 | a label has no "-" or "_", is single-spaced with no edge blanks, and each of its words is in title case |
| TagNames.KeyFields | internal/tag/service.go:156-159 | the label fields of a well-formed key are its hyphen-separated words, all non-empty lower-case alphanumeric |
| TagNames.LabelOfKey | internal/tag/service.go:134-166 | lower-casing the label of a well-formed key and turning its blanks into hyphens gives back the key |
| TagNames.KeyLabelKey | internal/tag/service.go:134-166 | round trip: the key of a well-formed key's label is the key ("career-change" to "Career Change" and back) |
| TagQueries.TagByKey | internal/tag/aql.go:6-10 | `GetTagByID` yields a tag exactly when one has the key, and then a stored tag with that key |
| TagQueries.TagByAlias | internal/tag/aql.go:13-17 | `GetTagByAlias` through `QueryOne` yields nothing exactly when no tag matches, and otherwise the first matching tag in storage order |
| TagQueries.AliasIsCaseSensitive | internal/tag/aql.go:15 | alias membership is exact: the alias "wfh" matches "wfh" but not "WFH" |
| TagQueries.ByUsageTotal | internal/tag/aql.go:29 | `SORT usageCount DESC` is a total preorder |
| TagQueries.ListByUsage | internal/tag/aql.go:27-32 | a negative offset or limit is an error; otherwise the page has the length `LIMIT offset, limit` gives, holds stored tags, each at most as often as stored, and is ordered by non-increasing usage |
| TagQueries.ListByUsageWindow | internal/tag/aql.go:27-32 | the page is the window after `offset` tags of the usage order: the stored tags divide into the `offset` skipped (or all), the page and the rest, every skipped tag is used at least as much as every tag on the page, every tag on the page at least as much as every one after it, and nothing follows a short page |
| TagQueries.Matching | internal/tag/aql.go:36-42 | the filtered tags are exactly the stored tags whose label or some alias contains the query, ignoring case |
| TagQueries.Search | internal/tag/aql.go:35-46 | a negative limit is an error; otherwise only matching stored tags are returned, each at most as often as stored, at most `limit` of them, and fewer only when fewer match |
| TagQueries.SearchTop | internal/tag/aql.go:35-46 | the result is the head of the matching tags by usage: the matches divide into the result and the rest, every result is used at least as much as every match left out, and nothing is left out of a short result |
| TagQueries.SearchSorted | internal/tag/aql.go:43 | search results come by non-increasing usage |
| TagQueries.SearchComplete | internal/tag/aql.go:35-46 | when the matches fit within the limit, every matching tag is returned |
| TagQueries.IncrementedOnly | internal/tag/aql.go:20-24 | the update raises by one exactly the usage of the tags with the key, and changes no other field or tag |
| TagQueries.IncrementedKeepsAlias | internal/tag/aql.go:13-24 | an increment does not change which tag the alias lookup finds |
| TagQueries.IncrementTagUsageCount | internal/tag/aql.go:20-24 | the method's loop leaves the tags as `Incremented` says, or changes nothing and reports the store error |
| TagQueries.Inserted | internal/tag/repository.go:26-28 | an insert succeeds exactly when the store works and the key (generated when empty) is free; it then appends the tag under that key; unique keys stay unique |
| TagQueries.CreateTag | internal/tag/repository.go:26-28 | the repository's insert does what `Inserted` says |
| TagService.GetTag | internal/tag/service.go:24-33 | a store error is wrapped with "get tag: "; otherwise the tag is returned exactly when its key is stored, and a missing tag is `NotFound` |
| TagService.ListLimit | internal/tag/service.go:36-41 | the page size is 50 when not positive, 100 when above 100, and otherwise unchanged |
| TagService.ListTags | internal/tag/service.go:35-43 | fails exactly on a store error or a negative offset; at most `ListLimit` stored tags, each at most as often as stored, by non-increasing usage, and a full page when enough tags follow the offset |
| TagService.ListTagsWindow | internal/tag/service.go:35-43 | a page is the window after `offset` tags of the usage order, with the clamped limit: the skipped tags precede it, it precedes the rest, and nothing follows a short page |
| TagService.SearchLimit | internal/tag/service.go:46-48 | the result count is 20 when not positive, and otherwise unchanged |
| TagService.SearchTags | internal/tag/service.go:45-50 | fails exactly on a store error; otherwise at most `SearchLimit` matching stored tags, each at most as often as stored, by non-increasing usage |
| TagService.SearchTagsTop | internal/tag/service.go:45-50 | a result is the head of the matching tags by usage, with the clamped limit: every tag returned is used at least as much as every match left out, and nothing is left out of a short result |
| TagService.NormalizeTag | internal/tag/service.go:91-129 | the step-by-step method does what the resolution function `Resolve` says to the tags and the key generator |
| TagService.ResolveFound | internal/tag/service.go:93-104 | a tag found by alias or label is returned and no tag is created |
| TagService.ResolveCreates | internal/tag/service.go:106-128 | an unknown raw tag is stored under `toTagKey(raw)` with its label, aliases `[raw]` and usage 1, and that key is returned |
| TagService.ResolveFallsBack | internal/tag/service.go:118-126 | when the insert fails, the key is returned if a tag with it can be read, otherwise the insert's error; the tags do not change |
| TagService.ResolveEmptyKey | internal/tag/service.go:106-128 | a raw tag whose key is empty is stored under a generated key, yet "" is returned |
| TagService.ResolveUniqueKeys | internal/tag/service.go:91-129 | resolution keeps tag keys unique |
| TagService.ResolveAgain | internal/tag/service.go:91-129 | resolving the same raw tag again returns the same non-empty key and creates no tag |
| TagService.ResolveSameKey | internal/tag/service.go:91-129 | two raw tags with the same non-empty key, neither found by alias or label, resolve to the same key, and the second creates nothing |
| TagService.ResolveAliasBeforeKey | internal/tag/service.go:93-128 | the alias lookup comes before the key: a raw tag found under another tag's key keeps that key, and a later raw tag with the same derived key gets a new tag of its own, so the two results differ |
| TagService.WfhResolvesTwoWays | internal/tag/service.go:93-128 | with one stored tag "remote-work" aliased "wfh", the raw tags "wfh" and "wfh!" meet the conditions of `ResolveAliasBeforeKey`: "wfh" resolves to "remote-work" and then "wfh!" to a new "wfh" |
| TagService.ResolveAll | internal/tag/service.go:59-76 | a successful batch returns one key per raw tag |
| TagService.Step | internal/tag/service.go:64-71 | after an error nothing more happens; a successful step adds one key |
| TagService.ResolveAllSnoc | internal/tag/service.go:62-72 | resolving one more raw tag is one more step of the batch |
| TagService.ResolveAllFailPrefix | internal/tag/service.go:74-76 | once a prefix of the batch fails, the whole batch fails with that error |
| TagService.ResolveAllLookupFails | internal/tag/service.go:93-96 | a failing alias lookup fails every non-empty batch with the store error |
| TagService.ResolveAllUniqueKeys | internal/tag/service.go:59-76 | a batch keeps tag keys unique |
| TagService.ResolveKeys | internal/tag/service.go:91-129 | a resolution loses no stored key, and a non-empty key it returns names a stored tag |
| TagService.ResolveAllKeys | internal/tag/service.go:59-76 | a batch loses no stored key, and every non-empty key it returns names a stored tag |
| TagService.DedupMembers | internal/tag/service.go:79-86 | de-duplication keeps exactly the non-empty keys |
| TagService.DedupDistinct | internal/tag/service.go:79-86 | de-duplication leaves no key twice |
| TagService.DedupFirstOrder | internal/tag/service.go:79-86 | de-duplicated keys come in the order of their first occurrences |
| TagService.RemoveDuplicates | internal/tag/service.go:79-86 | the `seen`-map loop computes `Dedup` of the keys |
| TagService.ResolveEach | internal/tag/service.go:59-72 | the resolution loop fills `normalizedKeys[i]` with the key of `rawTags[i]`, as `ResolveAll` says, and touches only the tags |
| TagService.NormalizeTags | internal/tag/service.go:54-89 | an empty input returns no keys and changes nothing; otherwise the de-duplicated keys of the batch, or its error wrapped with "normalize tags: " |
| PostQueries.PostByKey | internal/post/aql.go:6-10 | the post found is a stored post with the asked key, and there is one exactly when the key is taken |
| PostQueries.TagKeysWithId | internal/post/aql.go:15-17 | exactly the keys of the stored tags whose `_id` is the edge's target |
| PostQueries.PostTagKeys | internal/post/aql.go:13-19 | a key is returned exactly when some `post_has_tag` edge from the post reaches a stored tag with that key |
| PostQueries.PostTagKeysConcat | internal/post/aql.go:13-19 | the query distributes over the edge collection in storage order |
| PostQueries.PostTagKeysMissingTag | internal/post/aql.go:15-17 | an edge to a tag that does not exist contributes nothing |
| PostQueries.PostTagKeysOtherPost | internal/post/aql.go:14 | edges leaving other posts contribute nothing |
| PostQueries.VoteOptions | internal/post/aql.go:22-27 | one option per `voted` edge into the post |
| PostQueries.VoteOptionsCount | internal/post/aql.go:22-27 | an option occurs once per vote for it on the post |
| PostQueries.PollVotes | internal/post/aql.go:22-27 | the map holds exactly the options that received a vote, each with its positive vote count (also modelled from internal/post/repository.go:84-101) |
| PostQueries.PollVotesAdd | internal/post/repository.go:84-101 | one more vote adds its option or raises that option's count by one, and no other count changes |
| PostQueries.PollVotesSum | internal/post/repository.go:84-101 | the counts add up to the number of votes on the post |
| PostQueries.UserVoted | internal/post/aql.go:30-34 | true exactly when a `voted` edge joins the user to the post (also modelled from internal/post/repository.go:103-112) |
| PostQueries.UserResponded | internal/post/aql.go:37-41 | true exactly when a `responded` edge joins the user to the post (also modelled from internal/post/repository.go:114-123) |
| PostService.CreateCreatedEdge | internal/post/repository.go:35-43 | a failing insert reports the wrapped store error and writes nothing; otherwise exactly one authorship edge is appended |
| PostService.CreateRespondedEdge | internal/post/repository.go:45-54 | a failing insert writes nothing; otherwise exactly one responded edge carrying the chat id is appended |
| PostService.CreateVotedEdge | internal/post/repository.go:56-65 | a failing insert writes nothing; otherwise exactly one voted edge carrying the option is appended |
| PostService.CreatePostHasTagEdge | internal/post/repository.go:67-76 | a failing insert writes nothing; otherwise exactly one tag edge carrying the confidence is appended |
| PostService.GetPost | internal/post/service.go:27-54 | a store failure is wrapped with "get post: " or "get post tags: "; `NotFound` exactly when the key is missing; a result has the asked key, the stored post's fields and the post's tag keys |
| PostService.TagEdges | internal/post/service.go:109-113 | one tag edge per normalised key, in key order |
| PostService.Created | internal/post/service.go:67-127 | creation touches only posts, tags, authorship and tag edges; it succeeds exactly when the post insert works under a free generated key and the edge work succeeds as `EdgesSucceed` says; a success appends the normalised post under the returned key, one authorship edge and one tag edge per returned tag; a failing insert changes nothing and is wrapped with "create post: " |
| PostService.CreatePostInternal | internal/post/service.go:67-127 | the store afterwards and the result are those `Created` describes |
| PostService.EdgesCreated | internal/post/service.go:90-126 | after the post is stored, it succeeds exactly when the authorship insert works, the tag batch resolves and, when a key is left, the tag-edge inserts work (`EdgesSucceed`); a success adds its authorship edge and one tag edge per returned tag; posts and every other edge collection are kept, and the response carries the post key, the normalised category and the time |
| PostService.CreateEdges | internal/post/service.go:90-126 | the store afterwards and the result are those `EdgesCreated` describes |
| PostService.CreateTagEdges | internal/post/service.go:108-112 | a failing first insert changes nothing; otherwise one tag edge per key is appended, in order |
| PostService.CreatePost | internal/post/service.go:56-58 | a text post is created as `Created` describes |
| PostService.CreatedPoll | internal/post/service.go:60-65 | fewer than two options is the invalid-input error with nothing written; otherwise creation as a poll |
| PostService.CreatedErrors | internal/post/service.go:60-65 | the too-few-options error comes only from the option guard |
| PostService.CreatePoll | internal/post/service.go:60-65 | the store afterwards and the result are those `CreatedPoll` describes |
| PostService.CreatedNormalized | internal/post/service.go:70-84 | a stored post's category and depth are always valid, valid classifier values are kept, and the intent and raw classification are stored as given |
| PostService.CreatedTags | internal/post/service.go:99-115 | the returned tags are the resolved keys without "" and repeats, in first-occurrence order (also modelled from internal/tag/service.go:79-86) |
| PostService.CreatedNotRolledBack | internal/post/service.go:86-119 | when an edge fails after the post was inserted, the call fails but the post stays stored |
| PostService.TagKeysWithIdUnique | internal/post/aql.go:15-17 | with unique tag keys, an edge to a stored tag yields exactly that key |
| PostService.TagEdgesKeys | internal/post/aql.go:13-19 | the tag edges written for a new post read back as exactly their keys (also modelled from internal/post/service.go:109-113) |
| PostService.CreatedFound | internal/post/service.go:86-89 | a created post is found under the returned key (also modelled from internal/post/aql.go:6-10) |
| PostService.CreatedTagsRead | internal/post/service.go:109-124 | the tags read back for a created post are the returned tags, when tag keys are unique and tag edges leave stored posts (also modelled from internal/post/aql.go:13-19) |
| PostService.CreatedThenRead | internal/post/service.go:67-127 | creating and then reading a post gives back the stored post and exactly the returned tags (also modelled from internal/post/service.go:27-54) |
| PostService.Responding | internal/post/service.go:129-165 | `NotFound` exactly for a missing post, `AlreadyExists` exactly when the user already responded, success exactly when every step succeeds; a success adds one responded edge with empty chat id, a failure changes nothing |
| PostService.RespondToPost | internal/post/service.go:129-165 | the store afterwards and the result are those `Responding` describes |
| PostService.RespondTwice | internal/post/service.go:139-146 | a second response by the same user to the same post is rejected as `AlreadyExists` |
| PostService.Voting | internal/post/service.go:167-219 | each guard's error holds exactly when the earlier guards pass and it fails (missing post, not a poll, unknown option, already voted); it succeeds exactly when every guard passes and the vote insert and the count query work; a success adds one voted edge and returns the counts read after it |
| PostService.IsValidOption | internal/post/service.go:180-187 | the scan finds the option exactly when the poll lists it |
| PostService.Vote | internal/post/service.go:167-219 | the store afterwards and the result are those `Voting` describes |
| PostService.VoteCounted | internal/post/service.go:203-217 | a successful vote raises the chosen option's count by one and leaves every other count alone |
| PostService.VoteTwice | internal/post/service.go:192-199 | a second vote by the same user on the same poll fails, and it is `AlreadyExists` exactly when the second option is valid |
| Grouping.Distinct | internal/feed/aql.go:13 | `RETURN DISTINCT`: no value twice, and exactly the values of the input |
| Grouping.ByFrequency | internal/feed/aql.go:21-22 | `COLLECT … WITH COUNT … SORT cnt DESC`: each group once, in non-increasing count |
| Grouping.TopByCount | internal/feed/aql.go:21-24 | at most `n` distinct input values, in non-increasing count (also modelled from internal/feed/aql.go:131-134) |
| Grouping.TopByCountComplete | internal/feed/aql.go:21-24 | a value left out of the top `n` is no more frequent than any value kept, and `n` values were kept |
| Grouping.GroupCountsSum | internal/feed/aql.go:21 | the group counts add up to the number of input rows |
| FeedQueries.RespondedPosts | internal/feed/aql.go:17-20 | exactly the stored posts the user's `responded` edges point to |
| FeedQueries.RespondedTagEdges | internal/feed/aql.go:9-12 | exactly the tag edges leaving posts the user responded to |
| FeedQueries.EdgeTagKeys | internal/feed/aql.go:129-130 | exactly the keys of stored tags those edges reach |
| FeedQueries.UserTagIds | internal/feed/aql.go:8-14 | the distinct `_to` ids of the tag edges of responded posts |
| FeedQueries.UserCategories | internal/feed/aql.go:16-25 | at most five distinct categories of responded posts, most frequent first (also modelled from internal/feed/aql.go:138-147) |
| FeedQueries.UserIntents | internal/feed/aql.go:150-159 | at most ten distinct intents of responded posts, most frequent first |
| FeedQueries.UserInteractionTags | internal/feed/aql.go:124-135 | at most twenty distinct stored tag keys of responded posts, most frequent first |
| FeedQueries.Author | internal/feed/aql.go:34-40 | null exactly when no `created` edge into the post comes from a stored user; otherwise such a user |
| FeedQueries.UserChat | internal/feed/aql.go:43-49 | null exactly when no chat about the post has the user as participant; otherwise such a chat |
| FeedQueries.LastMessage | internal/feed/aql.go:52-58 | null without a chat or without messages in it; otherwise a message of the chat no older than any other |
| FeedQueries.MyReaction | internal/feed/aql.go:61-65 | null without a last message; otherwise null exactly when the user has no reaction to it, and else the emoji of the user's first reaction to it in storage order |
| FeedQueries.UnreadCount | internal/feed/aql.go:67-74 | 0 without a chat; otherwise the number of messages of the chat neither sent by the user nor seen |
| FeedQueries.MessageFields | internal/feed/aql.go:113 | the sender is shown by the segment after the last "/" of its id |
| FeedQueries.Intersection | internal/feed/aql.go:86 | `INTERSECTION`: the distinct values in both lists |
| FeedQueries.RecencyTermBounds | internal/feed/aql.go:88-90 | for a post not dated in the future, the recency term of the score lies between 90 and 100 |
| FeedQueries.RanksTotal | internal/feed/aql.go:92 | `SORT score DESC, p.createdAt DESC` is a total preorder |
| FeedQueries.AdmittedPosts | internal/feed/aql.go:30-31 | exactly the stored posts an empty or matching category and depth filter lets through |
| FeedQueries.Candidates | internal/feed/aql.go:28-120 | one projected item per admitted post, in storage order |
| FeedQueries.CandidateOrigin | internal/feed/aql.go:28-120 | every candidate is the item of an admitted post |
| FeedQueries.CandidateOfAdmitted | internal/feed/aql.go:28-31 | every admitted post has its item among the candidates |
| FeedQueries.Ranked | internal/feed/aql.go:92 | a permutation of the candidates, sorted by score and then recency |
| FeedQueries.RankedOrigin | internal/feed/aql.go:28-120 | every ranked item is the item of an admitted post |
| FeedQueries.RecommendedPosts | internal/feed/aql.go:6-121 | a negative limit is a query error; otherwise the first `limit` (or all) candidates, each from an admitted post and each at most as often as it is a candidate, in ranking order |
| FeedQueries.TopRanked | internal/feed/aql.go:92-93 | the first `limit` of the ranking come from admitted posts, are among the candidates at most as often as they occur there, and are in ranking order |
| FeedQueries.RecommendedFiltered | internal/feed/aql.go:30-31 | with a category or depth filter every item has exactly that category or depth |
| FeedQueries.UnfilteredCandidates | internal/feed/aql.go:30-31 | empty filters admit every post |
| FeedQueries.RecommendedComplete | internal/feed/aql.go:92-93 | a candidate returned fewer times than it occurs (in particular one left out) ranks no higher than any item returned, and the page is full |
| FeedQueries.CategoryOutranks | internal/feed/aql.go:86-92 | with equal tag overlap, a post in one of the user's top categories ranks before one that is not |
| FeedQueries.TagMatchAlwaysZero | internal/feed/aql.go:13 | `userTags` holds tag ids and `postTags` bare keys, so the tag overlap is always empty when keys contain no "/" (also modelled from internal/feed/aql.go:82-86) |
| FeedService.FeedLimit | internal/feed/service.go:31-36 | the limit becomes 20 when not positive, 50 when above 50, and stays otherwise |
| FeedService.FeedCategory | internal/feed/service.go:39-41 | an invalid category filter is dropped and a valid one kept |
| FeedService.NormalisationIdempotent | internal/feed/service.go:31-41 | normalising the request twice is normalising it once |
| FeedService.UserPreferences | internal/feed/service.go:44-70 | the group fails exactly when one preference query fails, with the store error; otherwise the three queries' results for "users/<id>" (also modelled from internal/feed/repository.go:38-54) |
| FeedService.NextCursor | internal/feed/repository.go:30-33 | a cursor exactly for a full non-empty page, the last item's `createdAt` in decimal |
| FeedService.RecommendedPage | internal/feed/repository.go:19-36 | fails exactly on a store failure or negative limit; otherwise the query's items for "users/<id>" and the cursor rule |
| FeedService.RecommendedPageIgnoresCursor | internal/feed/repository.go:20-25 | the request's cursor is not bound into the query |
| FeedService.Stamp | internal/feed/service.go:85-87 | only the last message's formatted time changes, to the relative time of its `createdAt` |
| FeedService.FormatTimes | internal/feed/service.go:84-88 | each item of the array is stamped in place |
| FeedService.StampAll | internal/feed/service.go:84-88 | every item stamped, length kept |
| FeedService.FormatItems | internal/feed/service.go:84-88 | the copied, stamped items are `StampAll` of the page |
| FeedService.Feed | internal/feed/service.go:30-99 | fails exactly when a store call fails, wrapped with "get user preferences: " or "get recommended posts: "; a page holds at most the clamped limit of ranked candidates under the normalised filters, stamped, with a cursor exactly when it is full |
| FeedService.StampKeepsCreatedAt | internal/feed/service.go:84-88 | stamping never changes an item's `createdAt`, on which the cursor is built |
| FeedService.GetFeed | internal/feed/service.go:30-99 | the imperative service returns what `Feed` describes |
| FeedService.LastPageComplete | internal/feed/service.go:90-93 | a page without a cursor holds every admitted post |
| FeedService.FeedIgnoresCursor | internal/feed/service.go:30-99 | the request's cursor has no effect on the feed |
| RelativeTime.Bucket | internal/feed/service.go:107-138 | the bands partition the durations in the order of the Go switch, and each count is the whole number of units elapsed |
| RelativeTime.Elapsed | internal/feed/service.go:102-104 | `now.Sub(time.UnixMilli(timestamp))` is the difference in nanoseconds when it fits a `time.Duration`, and the nearest bound (±(2^63-1) nanoseconds, -2^63 below) when it does not |
| RelativeTime.FormatTime | internal/feed/service.go:102-139 | the text of each band of the saturated elapsed time, singular "1 minute ago", "1 hour ago", "1 month ago" and decimal counts elsewhere (also modelled from internal/chat/service.go:234-271) |
| RelativeTime.FormatTimeSaturates | internal/feed/service.go:102-139 | every time at least 2^63-1 nanoseconds back shows "3558 months ago" |
| RelativeTime.BucketMonotone | internal/feed/service.go:107-138 | an older time never falls into a more recent band nor shows a smaller count in the same band |
| ChatQueries.ChatByKey | internal/chat/aql.go:6-10 | the chat found has the asked key, and there is none exactly when no chat has it |
| ChatQueries.ChatMessages | internal/chat/aql.go:14-15 | exactly the stored messages of the chat |
| ChatQueries.Latest | internal/chat/aql.go:91-97 | null exactly for no messages; otherwise one no older than any other |
| ChatQueries.MessagesPage | internal/chat/aql.go:13-19 | a negative offset or count is a query error; otherwise the right number of the chat's messages, each at most as often as stored, oldest first |
| ChatQueries.MessagesPageWindow | internal/chat/aql.go:13-19 | the page is the window after `offset` messages of the chat in time order: the skipped ones are no later than the page, the page no later than the rest, and nothing follows a short page |
| ChatQueries.MessagesPageComplete | internal/chat/aql.go:13-19 | from offset 0 with room for all, every message of the chat is on the page |
| ChatQueries.UnreadMessages | internal/chat/aql.go:29-37 | the number of the chat's messages neither sent by the user nor seen; zero exactly when there is none |
| ChatQueries.SeenNotUnread | internal/chat/aql.go:22-37 | marking a message seen never raises an unread count |
| ChatQueries.WithStatusOnly | internal/chat/aql.go:22-26 | the update changes only the status, and only of the messages with that key |
| ChatQueries.UpdateMessageStatus | internal/chat/aql.go:22-26 | a store failure changes nothing; otherwise the messages become `WithStatus` of the old ones (also modelled from internal/chat/repository.go:40-46) |
| ChatQueries.WithParticipationOnly | internal/chat/aql.go:40-48 | only the edges of the pair change, in status, notifications and join time; endpoints and role stay |
| ChatQueries.UpdateParticipation | internal/chat/aql.go:40-48 | a store failure changes nothing; otherwise the edges become `WithParticipation` of the old ones (also modelled from internal/chat/repository.go:67-76) |
| ChatQueries.Participation | internal/chat/aql.go:51-55 | null exactly when the user has no edge into the chat; otherwise such an edge (also modelled from internal/chat/repository.go:78-83) |
| ChatQueries.Participants | internal/chat/aql.go:58-70 | exactly one participant per edge into the chat and stored user it leaves, with the edge's role and status |
| ChatQueries.EdgeParticipants | internal/chat/aql.go:61-69 | the participants of one edge: the stored users it leaves |
| ChatQueries.ChatById | internal/chat/aql.go:77 | `DOCUMENT`: the chat with that id, null exactly when there is none |
| ChatQueries.PostById | internal/chat/aql.go:78 | `DOCUMENT`: a post found has that id, and none is found exactly when no stored post has it |
| ChatQueries.Partner | internal/chat/aql.go:81-88 | a stored user other than the caller with an edge into the chat; null exactly when there is none |
| ChatQueries.ThreadOf | internal/chat/aql.go:74-133 | a thread exactly for an existing chat with a message; it counts the unread messages, flags them exactly when there are some and shows the newest message |
| ChatQueries.AllThreads | internal/chat/aql.go:74-108 | exactly the threads of the user's own participation edges |
| ChatQueries.UserChatThreads | internal/chat/aql.go:73-134 | a negative limit is a query error; otherwise at most `limit` of the user's threads, each at most as often as it occurs among them, newest last message first |
| ChatQueries.ThreadOrigin | internal/chat/aql.go:74-75 | every thread returned comes from one of the user's participation edges |
| ChatQueries.ThreadsHaveMessages | internal/chat/aql.go:108 | every thread returned is a chat of the user with a message, and flags unread messages exactly (also modelled from internal/chat/aql.go:132) |
| ChatQueries.ThreadFacts | internal/chat/aql.go:74-108 | the thread of one of the user's edges is a chat of the user with a message |
| ChatQueries.ThreadsComplete | internal/chat/aql.go:109-110 | a thread returned fewer times than it occurs (in particular one left out) is no more recent than any returned, and the page is full |
| ChatQueries.ChatForPostAndUser | internal/chat/aql.go:137-144 | a chat about the post in which the user participates; null exactly when there is none |
| ChatService.GetMessages | internal/chat/repository.go:32-38 | fails exactly on a store failure or negative bounds; otherwise the message page of "chats/<id>" |
| ChatService.GetUnreadCount | internal/chat/repository.go:48-60 | on a store failure 0 and the error; otherwise the unread count of "users/<id>" in "chats/<id>" |
| ChatService.UnreadCountZero | internal/chat/repository.go:48-60 | without error the count is 0 exactly when nothing in the chat waits for the user |
| ChatService.ThreadCursor | internal/chat/repository.go:100-105 | a cursor exactly for a full non-empty page, its last thread's last-message time in decimal |
| ChatService.GetUserChatThreads | internal/chat/repository.go:91-108 | fails exactly on a store failure or negative limit; otherwise the user's threads and the cursor rule |
| ChatService.ThreadPageLast | internal/chat/repository.go:100-105 | a page without cursor holds every thread of the user |
| ChatService.ThreadPageIgnoresCursor | internal/chat/repository.go:91-95 | the cursor argument has no effect |
| ChatService.GetChatForPostAndUser | internal/chat/repository.go:110-115 | fails exactly on a store failure; a chat found is about the post and has the user as participant, and none is found exactly when there is no such chat |
| ChatService.CreateChatDocument | internal/chat/repository.go:24-26 | a failing insert changes nothing; a taken key fails as a duplicate; otherwise the chat is appended under the generated key, which is returned (also modelled from pkg/arango/client.go:108-120) |
| ChatService.CreateMessage | internal/chat/repository.go:28-30 | the same for messages (also modelled from pkg/arango/client.go:108-120) |
| ChatService.CreateParticipation | internal/chat/repository.go:62-65 | a failing insert changes nothing; otherwise exactly the edge is appended |
| ChatService.Responses | internal/chat/service.go:34-43 | one response per message, field by field |
| ChatService.ChatView | internal/chat/service.go:20-52 | errors wrapped with "get chat: " or "get messages: "; `NotFound` exactly for a missing chat; a result is the stored chat with the responses of `GetMessages(chatID, 100, 0)`: at most 100 of its messages, oldest first |
| ChatService.ChatViewFirstPage | internal/chat/service.go:29 | the messages shown are the oldest 100 of the chat: no message left out is earlier than one shown, and none is left out when fewer than 100 are shown |
| ChatService.ChatViewComplete | internal/chat/service.go:29 | a chat with at most 100 messages is shown with every one |
| ChatService.CopyMessages | internal/chat/service.go:34-43 | the copying loop yields `Responses` of the messages |
| ChatService.GetChat | internal/chat/service.go:20-52 | the imperative service returns what `ChatView` describes |
| ChatService.ChatsLimit | internal/chat/service.go:55-60 | the limit becomes 50 when not positive, 100 when above 100, and stays otherwise |
| ChatService.StampThread | internal/chat/service.go:68-71 | only the two formatted times change, to the relative times of their `createdAt` |
| ChatService.FormatThreads | internal/chat/service.go:68-71 | each thread of the array is stamped in place |
| ChatService.StampThreads | internal/chat/service.go:68-71 | every thread stamped, length kept |
| ChatService.FormatThreadItems | internal/chat/service.go:68-71 | the copied, stamped threads are `StampThreads` of the page |
| ChatService.UserChats | internal/chat/service.go:54-82 | fails exactly on a store failure, wrapped with "get user chats: "; a page is at most the clamped limit of the user's threads, stamped, with a cursor exactly when full |
| ChatService.GetUserChats | internal/chat/service.go:54-82 | the imperative service returns what `UserChats` describes |
| ChatService.UserChatsNewestFirst | internal/chat/aql.go:109 | the threads listed are newest last message first |
| ChatService.UserChatsUnreadFlag | internal/chat/aql.go:131-132 | each thread flags unread messages exactly when it counts some |
| ChatService.UserChatsIgnoresCursor | internal/chat/service.go:62 | the request's cursor has no effect on the listing |
| ChatService.Sending | internal/chat/service.go:84-122 | `NotFound` exactly for a missing chat, `Forbidden` exactly for a non-participant, success exactly when every step succeeds; a success appends one "sent" message under the generated key; a failure changes nothing |
| ChatService.SendMessage | internal/chat/service.go:84-122 | the store afterwards and the result are those `Sending` describes |
| ChatService.SentUnreadForOthers | internal/chat/service.go:105-111 | a sent message belongs to the chat and raises every other user's unread count by one, but not the sender's (also modelled from internal/chat/aql.go:29-37) |
| ChatService.Accepting | internal/chat/service.go:124-148 | `NotFound` exactly without participation, the already-accepted error exactly when it is not pending; a success makes the edges of the pair active, notified and joined now; a failure changes nothing |
| ChatService.AcceptChat | internal/chat/service.go:124-148 | the store afterwards and the result are those `Accepting` describes |
| ChatService.ParticipationUpdated | internal/chat/aql.go:40-55 | after an update, the participation read back is the first edge of the pair with the new fields |
| ChatService.AcceptedThenActive | internal/chat/service.go:137-146 | an accepted participation reads back active, notified and joined at `now` |
| ChatService.AcceptTwice | internal/chat/service.go:133-135 | a second accept is rejected and changes nothing |
| ChatService.Muting | internal/chat/service.go:150-170 | `NotFound` exactly without participation; a success makes the pair's edges muted and silent with the old join time; a failure changes nothing |
| ChatService.MuteChat | internal/chat/service.go:150-170 | the store afterwards and the result are those `Muting` describes |
| ChatService.MutedKeepsJoinedAt | internal/chat/service.go:160 | a muted participation reads back muted and silent, with the same join time and role |
| ChatService.MutedThenAcceptRejected | internal/chat/service.go:133-135 | a muted chat cannot be accepted (also modelled from internal/chat/service.go:160) |
| ChatService.ParticipantsView | internal/chat/service.go:172-191 | errors wrapped with "get chat: " or "get participants: "; `NotFound` exactly for a missing chat; a result carries the chat's type and exactly its participants |
| ChatService.JoinEdges | internal/chat/service.go:209-228 | one participation edge per participant |
| ChatService.JoinEdgesAt | internal/chat/service.go:209-224 | edge `i` belongs to participant `i`, author exactly for the first |
| ChatService.Creating | internal/chat/service.go:193-231 | a failing insert changes nothing and is wrapped with "create chat: "; success exactly when chat and every edge are inserted, adding the chat under the returned key and one edge per participant; a failing edge leaves the chat stored |
| ChatService.CreateChat | internal/chat/service.go:193-231 | the store afterwards and the result are those `Creating` describes |
| ChatService.CreateJoinEdges | internal/chat/service.go:208-228 | a failing first insert changes nothing; otherwise one active, notified participation edge per participant is appended, in order, author for the first |
| ChatService.CreatedChatFound | internal/chat/service.go:196-206 | the new chat is found under the returned key and counts its participants |
| ChatService.OldEdgesElsewhere | internal/chat/service.go:203 | edges into stored chats do not lead into a chat under a fresh key |
| ChatService.FirstJoin | internal/chat/service.go:209-224 | a participant's first edge in a new chat is author exactly when it is the first participant |
| ChatService.CreatedChatRoles | internal/chat/service.go:209-228 | each participant of a new chat reads back active, notified, joined now, author for the first participant and responder for the others |
| ChatService.CreatedThenSend | internal/chat/service.go:193-231 | any participant of a new chat can send in it at once (also modelled from internal/chat/service.go:84-122) |
| ChatService.CreatedChatForPost | internal/chat/service.go:193-231 | the new chat is found for the post and each participant (also modelled from internal/chat/aql.go:137-144) |
| Store.IdInjective | internal/user/repository.go:37-38 | a document id "<collection>/<key>" determines its key |
| Store.Db.Read | pkg/arango/client.go:68-93 | a read succeeds exactly when its operation does not fail, and then gives the query's value; otherwise it fails with the "query failed: " wrapping |
| Store.Db.GenerateKey | pkg/arango/client.go:114-119 | the store's key is the next counter value in decimal; nothing else changes |
| UserQueries.UserByKey | internal/user/aql.go:6-10 | the user found has the asked key, and there is none exactly when no user has it |
| UserQueries.CheckIsFollowing | internal/user/aql.go:20-24 | true exactly when an edge joins the two users in that direction (also modelled from internal/user/repository.go:51-60) |
| UserQueries.CheckMutualFollowers | internal/user/aql.go:27-39 | true exactly when edges join the two users in both directions |
| UserQueries.MutualSymmetric | internal/user/aql.go:27-39 | the mutual check does not depend on the order of the users, and is two following checks |
| UserQueries.GetFollowerCount | internal/user/aql.go:42-48 | the number of edges into the user; zero exactly when there are none |
| UserQueries.GetFollowingCount | internal/user/aql.go:51-57 | the number of edges out of the user; zero exactly when there are none |
| UserQueries.CountsAfterFollow | internal/user/aql.go:42-57 | one more edge raises its target's follower count and its source's following count by one |
| UserQueries.Unfollowed | internal/user/aql.go:13-17 | exactly the edges other than those of the pair are kept |
| UserQueries.UnfollowedSnoc | internal/user/aql.go:13-17 | the removal goes edge by edge in storage order |
| UserQueries.UnfollowedStopsFollowing | internal/user/aql.go:13-24 | after the removal the pair no longer follows, and every other pair follows as before |
| UserQueries.UnfollowedNothing | internal/user/aql.go:13-17 | removing a pair that does not follow changes nothing |
| UserQueries.DeleteFollowEdge | internal/user/aql.go:13-17 | a store failure changes nothing; otherwise the edges become `Unfollowed` of the old ones |
| UserQueries.KeepOthers | internal/user/aql.go:13-17 | the edge-by-edge removal keeps exactly `Unfollowed` of the edges, in order |
| UserService.IsFollowing | internal/user/repository.go:51-60 | fails exactly on a store failure; otherwise whether "users/<follower>" follows "users/<followee>" |
| UserService.AreMutualFollowers | internal/user/repository.go:62-74 | false with the error on a store failure; otherwise the mutual check of the two user ids (also modelled from internal/user/service.go:92-94) |
| UserService.AreMutualFollowersSymmetric | internal/user/service.go:92-94 | swapping the two users gives the same answer |
| UserService.FollowerCount | internal/user/repository.go:76-87 | 0 with the error on a store failure; otherwise the number of edges into the user |
| UserService.FollowingCount | internal/user/repository.go:89-100 | 0 with the error on a store failure; otherwise the number of edges out of the user |
| UserService.CreateFollow | internal/user/repository.go:35-41 | a failing insert changes nothing; a taken key fails as a duplicate; otherwise one edge between the two user ids is appended under the returned key |
| UserService.DeleteFollow | internal/user/repository.go:43-49 | a store failure changes nothing; otherwise the pair's edges are removed |
| UserService.GetUser | internal/user/service.go:20-29 | a store failure is wrapped with "get user: "; `NotFound` exactly for a missing key; otherwise the stored user with that key |
| UserService.UserCreated | internal/user/service.go:31-54 | a failing insert is wrapped with "create user: "; success exactly when the insert succeeds, appending the new user with empty stats under the returned key; a failure changes nothing |
| UserService.CreateUserDocument | internal/user/repository.go:23-25 | a failing insert changes nothing; a taken key fails as a duplicate; otherwise the user is appended under the returned key (also modelled from pkg/arango/client.go:108-120) |
| UserService.CreateUser | internal/user/service.go:31-54 | the store afterwards and the result are those `UserCreated` describes |
| UserService.CreatedThenGet | internal/user/service.go:31-54 | a created user is read back under the returned key with empty stats and the same creation time (also modelled from internal/user/aql.go:6-10) |
| UserService.Following | internal/user/service.go:56-86 | `AlreadyExists` exactly when the follow exists; success exactly when every store step succeeds, appending one edge under the returned key; a failure changes nothing |
| UserService.FollowUser | internal/user/service.go:56-86 | the store afterwards and the result are those `Following` describes |
| UserService.FollowTwice | internal/user/service.go:58-64 | a second follow is `AlreadyExists` and changes nothing |
| UserService.FollowNoExistenceCheck | internal/user/service.go:66-75 | the outcome does not depend on which users are stored: unknown users and oneself can be followed |
| UserService.FollowRaisesCounts | internal/user/service.go:77-80 | a follow raises the followee's follower count and the follower's following count by one, and the pair then follows (also modelled from internal/user/aql.go:42-57) |
| UserService.UnfollowUser | internal/user/service.go:88-90 | a store failure changes nothing; otherwise the pair's edges are removed |
| UserService.FollowThenUnfollow | internal/user/service.go:56-90 | following and then unfollowing restores the follows collection exactly |
| UserService.FollowBackMutual | internal/user/service.go:56-94 | following back someone who follows you makes the pair mutual followers |
| Middleware.ToInt64 | pkg/middleware/middleware.go:48 | `int64` arithmetic: the exact value when it fits, otherwise it is congruent modulo 2^64 |
| Middleware.Chain | pkg/middleware/middleware.go:52-59 | the loop builds `m1(m2(…mn(handler)))` |
| Middleware.ComposeAppend | pkg/middleware/middleware.go:52-59 | chaining a concatenation is chaining the first list around the chain of the second |
| Middleware.ChainOrder | pkg/middleware/middleware.go:54 | the first middleware listed is the outermost: a request passes the layers in list order |
| Middleware.HttpResponse.WriteHeader | pkg/middleware/middleware.go:43 | the status is recorded on the underlying response and nothing else changes |
| Middleware.HttpResponse.Write | pkg/middleware/middleware.go:47 | all bytes are taken and appended to the body |
| Middleware.ResponseWriter.WriteHeader | pkg/middleware/middleware.go:41-44 | the status is captured and forwarded; the byte count stays |
| Middleware.ResponseWriter.Write | pkg/middleware/middleware.go:46-50 | the bytes are forwarded and their number added to `written` in 64-bit arithmetic, exact when it fits |
| Middleware.ContainsString | pkg/middleware/middleware.go:279-286 | true exactly when the string is an element |
| Middleware.JoinStrings | pkg/middleware/middleware.go:288-297 | the loop yields `strings.Join` of the slice |
| Middleware.JoinLength | pkg/middleware/middleware.go:288-297 | a join is empty for no elements, and otherwise holds every element once and one separator between each two |
| Middleware.IntToString | pkg/middleware/middleware.go:299-316 | as written: the decimal form of every 64-bit value except the minimum, which gives "-" |
| Middleware.IntToStringCorrected | pkg/middleware/middleware.go:299-316 | the decimal form of every 64-bit value |
| Middleware.IntToStringMinInt64 | pkg/middleware/middleware.go:304-313 | the as-written text of the minimum value is a lone sign, not its decimal form |
| Middleware.CorsKeysDistinct | pkg/middleware/middleware.go:181-201 | the seven CORS header names are distinct |
| Middleware.SetIf | pkg/middleware/middleware.go:188-202 | a conditional `Header.Set` changes only its key, to exactly the value |
| Middleware.OriginHeaders | pkg/middleware/middleware.go:180-185 | "*" under a wildcard configuration; otherwise the echoed origin, with "Origin" added to `Vary` |
| Middleware.CorsHeaders | pkg/middleware/middleware.go:169-203 | nothing changes for a disallowed or missing origin, and no header outside the CORS keys ever changes |
| Middleware.CorsAllowOrigin | pkg/middleware/middleware.go:178-185 | for an allowed origin: the wildcard answer, or the echoed origin with `Vary: Origin` |
| Middleware.CorsLists | pkg/middleware/middleware.go:188-196 | the method, header and exposed-header lists are set, joined by ", ", exactly when non-empty |
| Middleware.CorsFlags | pkg/middleware/middleware.go:197-202 | credentials are announced only when enabled, and the cache age only when positive, in decimal |
| Middleware.SetJoined | pkg/middleware/middleware.go:188-196 | one list header set to the values joined by ", " when there are any |
| Middleware.AllowedCorsHeaders | pkg/middleware/middleware.go:178-203 | the header updates, in order, give `CorsHeaders` |
| Middleware.Cors | pkg/middleware/middleware.go:164-214 | the headers become `CorsHeaders`; a preflight is answered 204 and not passed on, whether or not the origin is allowed; any other method is passed on; the body is untouched |
| Middleware.DefaultMethodsJoined | pkg/middleware/middleware.go:155 | the default methods join to "GET, POST, PUT, PATCH, DELETE, OPTIONS" |
| Middleware.DefaultMaxAgeText | pkg/middleware/middleware.go:159 | the default cache age is written "86400" |
| Middleware.DefaultCorsHeaders | pkg/middleware/middleware.go:152-161 | the default configuration answers any origin with "*", the default methods, "X-Request-ID" exposed, no credentials and a one-day cache |
| Middleware.CorsWildcardKeyStable | pkg/middleware/middleware.go:178-203 | under a wildcard configuration a second pass leaves each header as the first left it |
| Middleware.CorsWildcardIdempotent | pkg/middleware/middleware.go:164-214 | under a wildcard configuration the middleware is idempotent on headers |
| Middleware.CorsEchoAddsVaryEachTime | pkg/middleware/middleware.go:184 | an echoed origin adds "Origin" to `Vary` again on every pass |
| HttpUtil.Json | pkg/httputil/response.go:19-29 | success exactly for a 2xx status, with the data and no error |
| HttpUtil.ErrorReply | pkg/httputil/response.go:32-42 | never a success; the message and no data |
| HttpUtil.NoSentinelIsNone | pkg/httputil/response.go:46-60 | the cases cover every domain sentinel (also modelled from internal/domain/errors.go:6-13) |
| HttpUtil.ErrorStatus | pkg/httputil/response.go:46-61 | the status of the first matching case in order; 500 exactly when no sentinel is reached; always a 4xx or 5xx |
| HttpUtil.IsUnique | pkg/httputil/response.go:46-58 | an error reaches at most one sentinel through its wrapping chain |
| HttpUtil.ErrorStatusOfSentinel | pkg/httputil/response.go:46-58 | each sentinel gets its own status whatever the order of the cases |
| HttpUtil.ErrorFromDomain | pkg/httputil/response.go:45-62 | a sentinel error is reported with its own text and status; any other error is 500 with a fixed text |
| HttpUtil.ErrorFromDomainThroughWrap | pkg/httputil/response.go:45-62 | wrapping keeps the status, and adds the context to the reported text |
| HttpUtil.ErrorRepliesAreFailures | pkg/httputil/response.go:24 | an error status is never reported as a success |
| HttpUtil.FollowTwiceIsConflict | pkg/httputil/response.go:49-50 | following twice is answered 409 with "resource already exists" (also modelled from internal/user/service.go:62-64) |
| HttpUtil.StoreFailureIsInternal | pkg/httputil/response.go:59-60 | a wrapped store failure is answered 500 without its text |
| Text.DecimalRoundTrip | internal/feed/repository.go:32 | the decimal text of an integer (`%d`) is non-empty and reads back as that integer (also modelled from pkg/middleware/middleware.go:299-316) |

## Left out

- The ArangoDB driver. `pkg/arango/client.go` is reduced to its contract: a query is a function of the collections, `QueryOne` is the first row or none, an insert takes a key from the store's generator, and any repository operation may fail with a store error.
- Persistent failures. `Store.Db` fails an operation on every call while it is in `failing`; a store that fails one call and succeeds on the next is not modelled.
- Concurrency. The `errgroup` fan-outs of `NormalizeTags`, `GetFeed` and `createPostInternal` are modelled sequentially in the order of the Go code, stopping at the first error. Go reports the error of whichever goroutine fails first, and the model always picks the first in code order. The texts can differ: in `createPostInternal` the authorship goroutine fails with "post creation edges: create document: …" and the tag goroutine with "post creation edges: normalize tags: …" (internal/post/service.go:92-118), and in `NormalizeTags` one raw tag's lookup error can race another's insert error.
- Concurrency, writes after a failure. After one goroutine fails, the other goroutines of the Go code keep running, and their writes persist. Examples: tag creations, usage increments and `post_has_tag` edges once the authorship insert has failed, or the remaining raw tags of `NormalizeTags`. `PostService.EdgesCreated` and `TagService.ResolveAll` make no write after the first failure, so the model does not capture these extra writes.
- TagService.Resolve: the fire-and-forget goroutine that raises a found tag's usage count is modelled as done at once, unless that operation fails; its error is never seen, as in the code.
- The `Timeout` middleware's goroutine and channel race, and the mutex of the log handler: they need a model of threads.
- The `Logger`, `Recovery`, `RequestID`, `SecureHeaders` and `ContentType` middlewares, `generateRequestID` (randomness) and `pkg/slogutil`: logging, panics and random ids.
- HTTP handlers, `pkg/httputil/request.go`, route wiring, configuration and the seed program: they only parse requests and call the services.
- HttpUtil.Json: the JSON encoding and the `Content-Type` header are not modelled; a reply is its status and envelope.
- Middleware.HttpResponse.Write: writing to the connection never fails, so the error a real `Write` can return is not modelled.
- Middleware.HttpResponse: Go's canonicalisation of header names is not modelled; header names are compared as written, and the code uses canonical names.
- The clock. `time.Now()` and `DATE_NOW()` are parameters: milliseconds for stored times, nanoseconds for the service clock of `formatTime`.
- Floating point. The feed score is an exact `real`. The classifier's confidence is an uninterpreted `real`, copied through.
- Unicode. Lower- and upper-casing and the character classes of the tag regular expressions are ASCII only. The one exception is the initial of a label word, whose Latin-1 reading of the first byte is modelled (`TagNames.InitialUpper`). White space in `strings.Fields` is Unicode white space.
- RelativeTime.FormatTime: counts come from exact integer division. The Go code divides float64 hours (`int(diff.Hours()/24)` and the like). The rounding of those floats is not modelled, so a duration a few nanoseconds below a whole number of units could show one unit more in the source. The saturation of `time.Duration` is modelled (`RelativeTime.Elapsed`).
- TagService.Resolve: the model follows the code, in which a raw tag found by alias keeps the found tag's key. Two raw tags with the same derived key therefore resolve to one tag only when neither is found by alias (`TagService.ResolveSameKey`). Otherwise they can resolve to two (`TagService.ResolveAliasBeforeKey`, `TagService.WfhResolvesTwoWays`). A design rule that one key always means one tag does not hold for the code.
- The reaction operations declared in `internal/chat/interfaces.go` have no implementation and are not modelled. The feed's `myReaction` reads a `reacted` collection that nothing writes.
- `GetPostAuthor` (internal/post/aql.go:44-54) and the repository's `GetAuthor`: no modelled operation calls them.
- The update and delete methods of the user repository, and `GetDocument`: no modelled operation calls them.
- AQL's order among equal sort keys is unspecified. The model keeps storage order among ties, and no contract depends on it.
- ChatService.GetUnreadCount: the repository's no-row branch is not modelled, because a `RETURN LENGTH(...)` query always yields one row.
- UserService.AreMutualFollowers: the same applies to the no-row branch.
- UserService.FollowUser: the "get followee: " error is not reachable. In this model a failing operation fails on every call, so the follower lookup already fails with "get follower: ".
- UserService.CreateFollow: the edge's `createdAt` is never set by the code, so it is stored as 0.
- The feed and thread cursors are computed and returned but never read by a query; the model shows that they have no effect.
- Alias lookup follows the code: `@alias IN t.aliases` is case-sensitive, and only the label comparison ignores case. A case-insensitive reading of the alias match is not what the query does.

## Findings

| source | as written | input that shows it | evidently intended | confidence | as-written member | corrected member |
|---|---|---|---|---|---|---|
| pkg/middleware/middleware.go:299-316 | `n = -n` overflows for the smallest 64-bit value, which stays negative, so the digit loop never runs and the result is "-" | `intToString(math.MinInt64)` | "-9223372036854775808", the decimal form of every int | not executed | Middleware.IntToString, Middleware.IntToStringMinInt64 | Middleware.IntToStringCorrected |
| internal/tag/service.go:162 | `string(word[0])` is the first byte of the word, not its first character; the leftover bytes of a non-ASCII initial become U+FFFD | `toTagLabel("élan")` gives "Ã\uFFFDlan" | "Élan": the first character upper-cased, the others lower-cased | not executed | TagNames.TitleWord, TagNames.TitleWordNonAsciiInitial | TagNames.TitleWordCorrected, TagNames.TitleWordCorrectedKeepsWord |
