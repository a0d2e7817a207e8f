/**
 * The closed vocabularies of the domain package (post types, categories, depths,
 * message and participant states) and the sentinel errors with Go's `%w` wrapping.
 */
module Domain {

  import Wrappers

  // Post types
  const PostTypeText := "text"
  const PostTypePoll := "poll"

  // Post categories
  const CategoryCareer := "career"
  const CategoryRelationships := "relationships"
  const CategoryTech := "tech"
  const CategoryHealth := "health"
  const CategoryFinance := "finance"
  const CategoryFun := "fun"
  const CategoryOpinion := "opinion"
  const CategoryLifestyle := "lifestyle"
  const CategoryEducation := "education"
  const CategoryOther := "other"

  /** The ten category constants, in declaration order. */
  const Categories: seq<string> := [CategoryCareer, CategoryRelationships, CategoryTech, CategoryHealth,
                                    CategoryFinance, CategoryFun, CategoryOpinion, CategoryLifestyle,
                                    CategoryEducation, CategoryOther]

  // Post depths
  const DepthCasual := "casual"
  const DepthNeutral := "neutral"
  const DepthSerious := "serious"

  // Message delivery states
  const MessageStatusSending := "sending"
  const MessageStatusSent := "sent"
  const MessageStatusDelivered := "delivered"
  const MessageStatusSeen := "seen"
  const MessageStatusFailed := "failed"

  // Chat types
  const ChatTypeDirect := "direct"
  const ChatTypeGroup := "group"

  // Participant roles
  const RoleAuthor := "author"
  const RoleResponder := "responder"
  const RoleInvited := "invited"

  // Participant states
  const StatusActive := "active"
  const StatusPending := "pending"
  const StatusMuted := "muted"

  /** The category switch: exact, case-sensitive comparison with each constant. */
  predicate ValidCategory(c: string)
  {
    c == CategoryCareer || c == CategoryRelationships || c == CategoryTech || c == CategoryHealth ||
    c == CategoryFinance || c == CategoryFun || c == CategoryOpinion || c == CategoryLifestyle ||
    c == CategoryEducation || c == CategoryOther
  }

  /** ValidCategory accepts exactly the ten declared constants. */
  lemma ValidCategoryIsCategoryList(c: string)
    ensures ValidCategory(c) <==> c in Categories
  {
  }

  /** A valid category is kept, anything else falls back to "other". */
  function NormalizeCategory(c: string): (r: string)
    ensures ValidCategory(r)
    ensures ValidCategory(c) ==> r == c
    ensures !ValidCategory(c) ==> r == CategoryOther
  {
    if ValidCategory(c) then c else CategoryOther
  }

  lemma NormalizeCategoryIdempotent(c: string)
    ensures NormalizeCategory(NormalizeCategory(c)) == NormalizeCategory(c)
  {
  }

  predicate ValidDepth(d: string)
  {
    d == DepthCasual || d == DepthNeutral || d == DepthSerious
  }

  /** casual, neutral and serious are kept, anything else becomes "neutral". */
  function NormalizeDepth(d: string): (r: string)
    ensures ValidDepth(r)
    ensures ValidDepth(d) ==> r == d
    ensures !ValidDepth(d) ==> r == DepthNeutral
  {
    if d == DepthCasual || d == DepthNeutral || d == DepthSerious then d else DepthNeutral
  }

  lemma NormalizeDepthIdempotent(d: string)
    ensures NormalizeDepth(NormalizeDepth(d)) == NormalizeDepth(d)
  {
  }

  /** The sentinel errors of the domain package. */
  datatype Sentinel = NotFound | AlreadyExists | InvalidInput | Unauthorized | Forbidden | MutualFollowRequired

  /**
   * An error value: a sentinel, a failure reported by the store, or an error
   * wrapped by `fmt.Errorf(prefix + "%w" + suffix, cause)`.
   */
  datatype Error =
    | Domain(sentinel: Sentinel)
    | StoreError(message: string)
    | Wrapped(prefix: string, cause: Error, suffix: string)

  function SentinelText(s: Sentinel): string
  {
    match s
    case NotFound => "resource not found"
    case AlreadyExists => "resource already exists"
    case InvalidInput => "invalid input"
    case Unauthorized => "unauthorized"
    case Forbidden => "forbidden"
    case MutualFollowRequired => "mutual follow required for tagging"
  }

  /** The text `err.Error()` returns. */
  function Message(e: Error): string
  {
    match e
    case Domain(s) => SentinelText(s)
    case StoreError(m) => m
    case Wrapped(p, c, s) => p + Message(c) + s
  }

  /** `errors.Is(e, target)`: the sentinel at the end of the wrapping chain. */
  predicate Is(e: Error, target: Sentinel)
  {
    match e
    case Domain(s) => s == target
    case StoreError(_) => false
    case Wrapped(_, c, _) => Is(c, target)
  }

  function Wrap(prefix: string, cause: Error): Error
  {
    Wrapped(prefix, cause, "")
  }

  type Res<T> = Wrappers.Result<T, Error>
}
