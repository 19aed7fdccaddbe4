/**
 * The seven relation arrays of a user document, their names as they appear in
 * request bodies and URLs, and the owner document the update handler reads.
 */
module Relations {
  import opened JsValue

  datatype Option<T> = None | Some(value: T)

  /** The relation arrays of a user, declared in the order the PUT handler visits them. */
  datatype Rel = Friends | Interests | Following | Bookmarks | Followers | Blogs | Liked

  /** The number of relations. */
  const RelCount: nat := 7

  /**
   * The relation at position `i` of the order in which the PUT handler runs
   * its add blocks, and its remove blocks: friends, interests, following,
   * bookmarks, followers, blogs, liked.
   */
  function RelAt(i: nat): Rel
    requires i < RelCount
  {
    if i == 0 then Friends
    else if i == 1 then Interests
    else if i == 2 then Following
    else if i == 3 then Bookmarks
    else if i == 4 then Followers
    else if i == 5 then Blogs
    else Liked
  }

  /** The position of a relation in the handler's order. */
  function Rank(rel: Rel): (i: nat)
    ensures i < RelCount && RelAt(i) == rel
  {
    match rel
    case Friends => 0
    case Interests => 1
    case Following => 2
    case Bookmarks => 3
    case Followers => 4
    case Blogs => 5
    case Liked => 6
  }

  /** The field name of a relation in the user document and in request bodies. */
  function Name(rel: Rel): string {
    match rel
    case Friends => "friends"
    case Interests => "interests"
    case Following => "following"
    case Bookmarks => "bookmarks"
    case Followers => "followers"
    case Blogs => "blogs"
    case Liked => "liked"
  }

  /** The relation a field name denotes, if any. */
  function RelNamed(s: string): (r: Option<Rel>)
    ensures r.Some? ==> Name(r.value) == s
  {
    if s == "friends" then Some(Friends)
    else if s == "interests" then Some(Interests)
    else if s == "following" then Some(Following)
    else if s == "bookmarks" then Some(Bookmarks)
    else if s == "followers" then Some(Followers)
    else if s == "blogs" then Some(Blogs)
    else if s == "liked" then Some(Liked)
    else None
  }

  /** Every relation's name is recognised as that relation, so names are distinct. */
  lemma NameRoundTrip(rel: Rel)
    ensures RelNamed(Name(rel)) == Some(rel)
  {
  }

  /** The self-referential relations: their entries are other users. */
  predicate SelfExcluded(rel: Rel) {
    rel == Friends || rel == Following || rel == Followers
  }

  /** A relation key either adds (`friends`) or removes (`remove_friends`). */
  datatype Op = Add | Remove

  datatype KeyRef = KeyRef(op: Op, rel: Rel)

  const RemovePrefix: string := "remove_"

  /** The request-body key that asks to add to, or remove from, a relation. */
  function Key(op: Op, rel: Rel): string {
    if op == Add then Name(rel) else RemovePrefix + Name(rel)
  }

  /** Recognises one of the fourteen relation keys. */
  function ParseKey(k: string): (r: Option<KeyRef>)
    ensures r.Some? ==> Key(r.value.op, r.value.rel) == k
  {
    if |k| >= |RemovePrefix| && k[..|RemovePrefix|] == RemovePrefix then
      match RelNamed(k[|RemovePrefix|..])
      case Some(rel) => (assert k == RemovePrefix + k[|RemovePrefix|..]; Some(KeyRef(Remove, rel)))
      case None => None
    else
      match RelNamed(k)
      case Some(rel) => Some(KeyRef(Add, rel))
      case None => None
  }

  /** Every relation key is recognised as itself, so the fourteen keys are distinct. */
  lemma KeyRoundTrip(op: Op, rel: Rel)
    ensures ParseKey(Key(op, rel)) == Some(KeyRef(op, rel))
  {
    var k := Key(op, rel);
    NameRoundTrip(rel);
    if op == Remove {
      assert k[..|RemovePrefix|] == RemovePrefix;
      assert k[|RemovePrefix|..] == Name(rel);
    } else {
      assert Name(rel)[0] != 'r';
    }
  }

  /** Two relation keys are equal only when they denote the same operation on the same relation. */
  lemma KeyInjective(op1: Op, rel1: Rel, op2: Op, rel2: Rel)
    requires Key(op1, rel1) == Key(op2, rel2)
    ensures op1 == op2 && rel1 == rel2
  {
    KeyRoundTrip(op1, rel1);
    KeyRoundTrip(op2, rel2);
  }

  /**
   * The owner's current document as the handler loads it. Stored ids are kept
   * as the values a request would name them by.
   */
  datatype Owner = Owner(
    friends: seq<Value>,
    interests: seq<Value>,
    following: seq<Value>,
    bookmarks: seq<Value>,
    followers: seq<Value>,
    blogs: seq<Value>,
    liked: seq<Value>)

  function Members(owner: Owner, rel: Rel): seq<Value> {
    match rel
    case Friends => owner.friends
    case Interests => owner.interests
    case Following => owner.following
    case Bookmarks => owner.bookmarks
    case Followers => owner.followers
    case Blogs => owner.blogs
    case Liked => owner.liked
  }
}
