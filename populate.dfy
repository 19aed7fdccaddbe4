/**
 * GET /user: which relations the owner document is loaded with, from the
 * request's query flags (`?friends=1&liked=1`).
 */
module Populate {
  import opened JsValue
  import opened Relations

  /** How the handler loads the owner: plainly, or populating these relation paths. */
  datatype Fetch = ById | ByIdPopulated(paths: seq<Rel>)

  /** The position at which the handler tests a relation's query flag. */
  function FlagRank(rel: Rel): (i: nat)
    ensures i < RelCount
  {
    match rel
    case Interests => 0
    case Following => 1
    case Bookmarks => 2
    case Friends => 3
    case Liked => 4
    case Followers => 5
    case Blogs => 6
  }

  /** `req.query.<rel>` is truthy. */
  predicate Flag(query: map<string, Value>, rel: Rel) {
    Name(rel) in query && Truthy(query[Name(rel)])
  }

  /**
   * `paths` is `toPopulate` after the first `k` flag tests: exactly the
   * flagged relations among them, in the order they were tested.
   */
  ghost predicate PopulatedUpTo(query: map<string, Value>, paths: seq<Rel>, k: nat) {
    && (forall rel :: rel in paths <==> FlagRank(rel) < k && Flag(query, rel))
    && (forall i, j :: 0 <= i < j < |paths| ==> FlagRank(paths[i]) < FlagRank(paths[j]))
  }

  /** One line `if (req.query.<rel>) toPopulate.push("<rel>")`. */
  method PushFlagged(query: map<string, Value>, toPopulate: seq<Rel>, rel: Rel, ghost k: nat)
    returns (next: seq<Rel>)
    requires k == FlagRank(rel) && PopulatedUpTo(query, toPopulate, k)
    ensures PopulatedUpTo(query, next, k + 1)
  {
    next := toPopulate;
    if Flag(query, rel) {
      next := next + [rel];
    }
    forall r ensures r in next <==> FlagRank(r) < k + 1 && Flag(query, r) {
      if FlagRank(r) == k {
        FlagRankInjective(r, rel);
      }
    }
  }

  lemma FlagRankInjective(a: Rel, b: Rel)
    requires FlagRank(a) == FlagRank(b)
    ensures a == b
  {
  }

  /**
   * Builds `toPopulate` by one `push` per truthy flag, then loads the owner
   * populated with it, or plainly when it is empty.
   */
  method PopulatePaths(query: map<string, Value>) returns (fetch: Fetch)
    ensures fetch.ById? <==> forall rel :: !Flag(query, rel)
    ensures fetch.ByIdPopulated? ==> forall rel :: rel in fetch.paths <==> Flag(query, rel)
    ensures fetch.ByIdPopulated? ==>
      forall i, j :: 0 <= i < j < |fetch.paths| ==> FlagRank(fetch.paths[i]) < FlagRank(fetch.paths[j])
  {
    var toPopulate: seq<Rel> := [];
    ghost var k := 0;
    toPopulate := PushFlagged(query, toPopulate, Interests, k);
    k := k + 1;
    toPopulate := PushFlagged(query, toPopulate, Following, k);
    k := k + 1;
    toPopulate := PushFlagged(query, toPopulate, Bookmarks, k);
    k := k + 1;
    toPopulate := PushFlagged(query, toPopulate, Friends, k);
    k := k + 1;
    toPopulate := PushFlagged(query, toPopulate, Liked, k);
    k := k + 1;
    toPopulate := PushFlagged(query, toPopulate, Followers, k);
    k := k + 1;
    toPopulate := PushFlagged(query, toPopulate, Blogs, k);
    assert forall rel :: FlagRank(rel) < 7;
    fetch := if |toPopulate| > 0 then ByIdPopulated(toPopulate) else ById;
    if |toPopulate| > 0 {
      assert Flag(query, toPopulate[0]);
    }
  }
}
