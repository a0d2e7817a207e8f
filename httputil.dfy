/**
 * The response envelope of pkg/httputil/response.go and the mapping from
 * domain errors to HTTP status codes (the status codes of section 15 of
 * RFC 9110). Writing headers and encoding JSON onto the connection is not
 * modelled: a reply is the status code and the envelope that would be encoded.
 */
module HttpUtil {
  import opened Wrappers
  import opened Domain
  import opened Store
  import UserService

  const StatusOK := 200
  const StatusBadRequest := 400
  const StatusUnauthorized := 401
  const StatusForbidden := 403
  const StatusNotFound := 404
  const StatusConflict := 409
  const StatusInternalServerError := 500

  /** `Response`: `data` and `error` are omitted from the JSON when empty. */
  datatype Envelope<D> = Envelope(success: bool, data: Option<D>, error: string)

  /** What a handler writes: the status code and the encoded envelope. */
  datatype Reply<D> = Reply(status: int, body: Envelope<D>)

  /** `JSON`: the envelope reports success exactly for a 2xx status. */
  function Json<D>(status: int, data: D): (r: Reply<D>)
    ensures r.status == status
    ensures r.body.success <==> 200 <= status < 300
    ensures r.body.data == Some(data) && r.body.error == ""
  {
    Reply(status, Envelope(status >= 200 && status < 300, Some(data), ""))
  }

  /** `Error`: never a success, always the given message and no data. */
  function ErrorReply<D>(status: int, message: string): (r: Reply<D>)
    ensures r.status == status
    ensures !r.body.success && r.body.data.None? && r.body.error == message
  {
    Reply(status, Envelope(false, None, message))
  }

  /** No case of `ErrorFromDomain` matches. */
  predicate NoSentinel(err: Error)
  {
    !Is(err, NotFound) && !Is(err, AlreadyExists) && !Is(err, InvalidInput) && !Is(err, Unauthorized) &&
    !Is(err, Forbidden) && !Is(err, MutualFollowRequired)
  }

  /** The cases of `ErrorFromDomain` cover every sentinel of the domain package. */
  lemma NoSentinelIsNone(err: Error)
    ensures NoSentinel(err) <==> forall t: Sentinel :: !Is(err, t)
  {
    if NoSentinel(err) {
      forall t: Sentinel ensures !Is(err, t) {
        match t
        case NotFound =>
        case AlreadyExists =>
        case InvalidInput =>
        case Unauthorized =>
        case Forbidden =>
        case MutualFollowRequired =>
      }
    } else {
      assert Is(err, NotFound) || Is(err, AlreadyExists) || Is(err, InvalidInput) || Is(err, Unauthorized) ||
             Is(err, Forbidden) || Is(err, MutualFollowRequired);
    }
  }

  /** The status `ErrorFromDomain` picks: the first sentinel `errors.Is` finds, in the order of its cases. */
  function ErrorStatus(err: Error): (s: int)
    ensures Is(err, NotFound) ==> s == StatusNotFound
    ensures !Is(err, NotFound) && Is(err, AlreadyExists) ==> s == StatusConflict
    ensures !Is(err, NotFound) && !Is(err, AlreadyExists) && Is(err, InvalidInput) ==> s == StatusBadRequest
    ensures !Is(err, NotFound) && !Is(err, AlreadyExists) && !Is(err, InvalidInput) && Is(err, Unauthorized) ==>
            s == StatusUnauthorized
    ensures (!Is(err, NotFound) && !Is(err, AlreadyExists) && !Is(err, InvalidInput) && !Is(err, Unauthorized) &&
             (Is(err, Forbidden) || Is(err, MutualFollowRequired))) ==> s == StatusForbidden
    ensures s == StatusInternalServerError <==> NoSentinel(err)
    ensures 400 <= s < 600
  {
    if Is(err, NotFound) then StatusNotFound
    else if Is(err, AlreadyExists) then StatusConflict
    else if Is(err, InvalidInput) then StatusBadRequest
    else if Is(err, Unauthorized) then StatusUnauthorized
    else if Is(err, Forbidden) then StatusForbidden
    else if Is(err, MutualFollowRequired) then StatusForbidden
    else StatusInternalServerError
  }

  /** An error reaches at most one sentinel: the end of its wrapping chain. */
  lemma IsUnique(err: Error, s: Sentinel, t: Sentinel)
    requires Is(err, s) && Is(err, t)
    ensures s == t
  {
    match err
    case Domain(_) =>
    case Wrapped(_, c, _) => IsUnique(c, s, t);
  }

  /** The status each sentinel stands for. */
  function SentinelStatus(t: Sentinel): int
  {
    match t
    case NotFound => StatusNotFound
    case AlreadyExists => StatusConflict
    case InvalidInput => StatusBadRequest
    case Unauthorized => StatusUnauthorized
    case Forbidden => StatusForbidden
    case MutualFollowRequired => StatusForbidden
  }

  /** Since an error reaches one sentinel, the order of the cases never matters: each sentinel has its status. */
  lemma ErrorStatusOfSentinel(err: Error, t: Sentinel)
    requires Is(err, t)
    ensures ErrorStatus(err) == SentinelStatus(t)
  {
    forall u: Sentinel | Is(err, u) ensures u == t {
      IsUnique(err, t, u);
    }
  }

  /**
   * `ErrorFromDomain`: a sentinel error is reported with its own text; any
   * other error becomes 500 with a fixed text, so a store's message never
   * reaches the client.
   */
  function ErrorFromDomain<D>(err: Error): (r: Reply<D>)
    ensures r.status == ErrorStatus(err) && !r.body.success && r.body.data.None?
    ensures r.status != StatusInternalServerError ==> r.body.error == Domain.Message(err)
    ensures r.status == StatusInternalServerError ==> r.body.error == "internal server error"
  {
    var status := ErrorStatus(err);
    if status == StatusInternalServerError then ErrorReply(status, "internal server error")
    else ErrorReply(status, Domain.Message(err))
  }

  /** Wrapping with context keeps the status, and prefixes the reported text when there is one. */
  lemma{:induction false} ErrorFromDomainThroughWrap<D>(prefix: string, err: Error, suffix: string)
    ensures ErrorFromDomain<D>(Wrapped(prefix, err, suffix)).status == ErrorFromDomain<D>(err).status
    ensures ErrorFromDomain<D>(err).status != StatusInternalServerError ==>
            ErrorFromDomain<D>(Wrapped(prefix, err, suffix)).body.error == prefix + ErrorFromDomain<D>(err).body.error + suffix
  {
    assert forall t :: Is(Wrapped(prefix, err, suffix), t) == Is(err, t);
  }

  /** An error reply is never a 2xx status, so it is never mistaken for a `JSON` success. */
  lemma ErrorRepliesAreFailures<D>(err: Error, data: D)
    ensures !Json(ErrorFromDomain<D>(err).status, data).body.success
  {
  }

  /** Following a user twice is answered 409 Conflict with the sentinel's own text. */
  lemma FollowTwiceIsConflict<D>(g: Graph, failing: set<Op>, nextKey: nat, followerId: string, followeeId: string)
    requires UserService.Following(g, failing, nextKey, followerId, followeeId).result.Ok?
    ensures var c := UserService.Following(g, failing, nextKey, followerId, followeeId);
      var again := UserService.Following(c.graph, failing, c.nextKey, followerId, followeeId);
      again.result.Fail? && ErrorFromDomain<D>(again.result.error) == ErrorReply(StatusConflict, "resource already exists")
  {
    UserService.FollowTwice(g, failing, nextKey, followerId, followeeId);
  }

  /** A store failure, however it is wrapped, is answered 500 without its text. */
  lemma StoreFailureIsInternal<D>(prefix: string, message: string)
    ensures ErrorFromDomain<D>(Wrap(prefix, StoreError(message))) == ErrorReply<D>(StatusInternalServerError, "internal server error")
  {
    assert forall t :: !Is(Wrap(prefix, StoreError(message)), t);
  }
}
