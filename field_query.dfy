/**
 * GET /user/:field: which relation of the owner is sent back for which field
 * name, and how the `sort` query parameter (`<field>_<asc|desc>`) is read.
 * The sorting itself (`sortUsers`) is not part of this model: a sorted reply
 * names the relation and the (field, order) pair handed to it.
 */
module FieldQuery {
  import opened Relations

  // ---------------------------------------------------------------------------
  // `String.prototype.split` with a one-character separator
  // ---------------------------------------------------------------------------

  /** `s.split(sep)`: the pieces between separators; never empty. */
  function Split(s: string, sep: char): (parts: seq<string>)
    ensures |parts| >= 1
    ensures forall i :: 0 <= i < |parts| ==> sep !in parts[i]
  {
    if |s| == 0 then [""]
    else
      var rest := Split(s[1..], sep);
      if s[0] == sep then [""] + rest
      else [[s[0]] + rest[0]] + rest[1..]
  }

  /** `parts.join(sep)`. */
  function Join(parts: seq<string>, sep: char): string
    requires |parts| >= 1
  {
    if |parts| == 1 then parts[0] else parts[0] + [sep] + Join(parts[1..], sep)
  }

  /** Splitting loses nothing: joining the pieces gives the string back. */
  lemma {:induction false} JoinSplit(s: string, sep: char)
    ensures Join(Split(s, sep), sep) == s
    decreases |s|
  {
    if |s| > 0 {
      var rest := Split(s[1..], sep);
      JoinSplit(s[1..], sep);
      if s[0] != sep {
        if |rest| > 1 {
          assert Join(rest, sep) == rest[0] + [sep] + Join(rest[1..], sep);
          assert ([[s[0]] + rest[0]] + rest[1..])[1..] == rest[1..];
        }
      }
    }
  }

  /** A string without the separator is one piece. */
  lemma {:induction false} SplitNoSep(s: string, sep: char)
    requires sep !in s
    ensures Split(s, sep) == [s]
    decreases |s|
  {
    if |s| > 0 {
      assert s[0] != sep && sep !in s[1..];
      SplitNoSep(s[1..], sep);
      assert [s[0]] + s[1..] == s;
    }
  }

  /** A separator-free prefix followed by the separator is the first piece. */
  lemma {:induction false} SplitAt(a: string, sep: char, b: string)
    requires sep !in a
    ensures Split(a + [sep] + b, sep) == [a] + Split(b, sep)
    decreases |a|
  {
    if |a| == 0 {
      assert a + [sep] + b == [sep] + b;
      assert ([sep] + b)[1..] == b;
    } else {
      SplitAt(a[1..], sep, b);
      assert (a + [sep] + b)[1..] == a[1..] + [sep] + b;
      assert [a[0]] + a[1..] == a;
    }
  }

  /** Pieces without the separator are recovered by splitting their join. */
  lemma {:induction false} SplitJoin(parts: seq<string>, sep: char)
    requires |parts| >= 1
    requires forall i :: 0 <= i < |parts| ==> sep !in parts[i]
    ensures Split(Join(parts, sep), sep) == parts
    decreases |parts|
  {
    if |parts| == 1 {
      SplitNoSep(parts[0], sep);
    } else {
      SplitJoin(parts[1..], sep);
      SplitAt(parts[0], sep, Join(parts[1..], sep));
    }
  }

  // ---------------------------------------------------------------------------
  // The sort token
  // ---------------------------------------------------------------------------

  /** A parsed `sort` parameter: a field and an order for `sortUsers`, or the "Invalid order" reply. */
  datatype SortSpec = SortBy(field: string, order: int) | BadOrder(orderStr: Option<string>)

  /**
   * `const [field, orderStr] = sort.split("_")`: the first two pieces; an
   * order other than exactly "asc" (1) or "desc" (-1), or none at all, is
   * refused.
   */
  function ParseSort(token: string): (r: SortSpec)
    ensures r.SortBy? ==> (r.order == 1 || r.order == -1) && '_' !in r.field
    ensures r.BadOrder? ==> r.orderStr != Some("asc") && r.orderStr != Some("desc")
    ensures r.BadOrder? && r.orderStr.Some? ==> '_' !in r.orderStr.value
  {
    var parts := Split(token, '_');
    var orderStr := if |parts| > 1 then Some(parts[1]) else None;
    if orderStr == Some("asc") then SortBy(parts[0], 1)
    else if orderStr == Some("desc") then SortBy(parts[0], -1)
    else BadOrder(orderStr)
  }

  /** The token a client writes for a field and an order. */
  function SortToken(field: string, order: int): string {
    field + "_" + (if order == 1 then "asc" else "desc")
  }

  /** The first two pieces and the separator between them open the joined string. */
  lemma JoinHead(parts: seq<string>, sep: char)
    requires |parts| >= 2
    ensures parts[0] + [sep] + parts[1] <= Join(parts, sep)
  {
    if |parts| > 2 {
      var tail := Join(parts[2..], sep);
      assert Join(parts[1..], sep) == parts[1] + [sep] + tail;
      assert Join(parts, sep) == (parts[0] + [sep] + parts[1]) + ([sep] + tail);
    }
  }

  /** An accepted token gives order 1 or -1 and a field without `_`, and it opens with their token. */
  lemma ParseSortAccepted(token: string)
    requires ParseSort(token).SortBy?
    ensures var r := ParseSort(token);
      && (r.order == 1 || r.order == -1)
      && '_' !in r.field
      && SortToken(r.field, r.order) <= token
  {
    var parts := Split(token, '_');
    JoinSplit(token, '_');
    JoinHead(parts, '_');
  }

  /** Parsing a written token gives back its field and order. */
  lemma SortTokenRoundTrip(field: string, order: int)
    requires '_' !in field && (order == 1 || order == -1)
    ensures ParseSort(SortToken(field, order)) == SortBy(field, order)
  {
    var dir := if order == 1 then "asc" else "desc";
    SortTokenPieces(field, dir);
  }

  /** `<field>_<dir>` with neither part holding `_`: the order is `dir` read as asc or desc. */
  lemma SortTokenPieces(field: string, dir: string)
    requires '_' !in field && '_' !in dir
    ensures ParseSort(field + "_" + dir)
         == if dir == "asc" then SortBy(field, 1)
            else if dir == "desc" then SortBy(field, -1)
            else BadOrder(Some(dir))
  {
    SplitAt(field, '_', dir);
    SplitNoSep(dir, '_');
    assert field + "_" + dir == field + ['_'] + dir;
  }

  /** A token without `_` has no order at all and is refused. */
  lemma ParseSortNoSeparator(token: string)
    requires '_' !in token
    ensures ParseSort(token) == BadOrder(None)
  {
    SplitNoSep(token, '_');
  }

  /**
   * Only the first two pieces are read: `name_asc_x` sorts by `name`, and a
   * field holding `_` (`created_at_asc`) reads its second word as the order.
   */
  lemma ParseSortIgnoresRest(field: string, dir: string, rest: string)
    requires '_' !in field && '_' !in dir
    ensures ParseSort(field + "_" + dir + "_" + rest) == ParseSort(field + "_" + dir)
  {
    SortTokenPieces(field, dir);
    SplitAt(field, '_', dir + "_" + rest);
    SplitAt(dir, '_', rest);
    assert field + "_" + dir + "_" + rest == field + ['_'] + (dir + ['_'] + rest);
  }

  // ---------------------------------------------------------------------------
  // The switch on the field name
  // ---------------------------------------------------------------------------

  /** What GET /user/:field answers. */
  datatype FieldReply =
    | UserNotFound
    | NotPopulatable(field: string)
    | InvalidOrder(orderStr: Option<string>)
    | Relation(rel: Rel, populated: bool)
    | SortedRelation(rel: Rel, sortField: string, order: int)

  /**
   * A case with a sort branch, on the owner with the `sorted` relation
   * populated: with a (truthy) `sort` that relation is handed to `sortUsers`,
   * without one the `unsorted` relation is sent (populated only when it is
   * the same relation).
   */
  function Sortable(sorted: Rel, unsorted: Rel, sort: string): (r: FieldReply)
    ensures r.Relation? <==> sort == ""
    ensures r.Relation? ==> r.rel == unsorted && (r.populated <==> unsorted == sorted)
    ensures r.SortedRelation? ==> r.rel == sorted && ParseSort(sort) == SortBy(r.sortField, r.order)
    ensures r.InvalidOrder? ==> sort != "" && ParseSort(sort) == BadOrder(r.orderStr)
    ensures !r.UserNotFound? && !r.NotPopulatable?
  {
    if sort == "" then Relation(unsorted, unsorted == sorted)
    else match ParseSort(sort)
      case BadOrder(orderStr) => InvalidOrder(orderStr)
      case SortBy(field, order) => SortedRelation(sorted, field, order)
  }

  /**
   * The handler: `found` says whether the owner exists, `sort` is the query
   * parameter ("" when absent). The `following` case sends `friends` when
   * unsorted, as the stored ids, since only `following` was populated;
   * `bookmarks` and `blogs` ignore `sort`; `interests` has no case.
   */
  function GetField(found: bool, field: string, sort: string): (r: FieldReply)
    ensures r.UserNotFound? <==> !found
    ensures r.NotPopulatable? ==> r.field == field
    ensures r.SortedRelation? || r.InvalidOrder? ==> sort != ""
  {
    if !found then UserNotFound
    else if field == "friends" then Sortable(Friends, Friends, sort)
    else if field == "following" then Sortable(Following, Friends, sort)
    else if field == "followers" then Sortable(Followers, Followers, sort)
    else if field == "liked" then Sortable(Liked, Liked, sort)
    else if field == "bookmarks" then Relation(Bookmarks, true)
    else if field == "blogs" then Relation(Blogs, true)
    else NotPopulatable(field)
  }

  /** Exactly six names are populatable; any other, `interests` included, is refused. */
  lemma PopulatableNames(field: string, sort: string)
    ensures GetField(true, field, sort).NotPopulatable?
        <==> field !in {"friends", "following", "followers", "liked", "bookmarks", "blogs"}
    ensures GetField(true, "interests", sort) == NotPopulatable("interests")
  {
  }

  /**
   * The relation sent is the one named, populated, with one exception:
   * `following` without `sort` sends the owner's friends as stored ids.
   */
  lemma SendsNamedRelation(field: string, sort: string)
    ensures var r := GetField(true, field, sort);
      && ((r.Relation? || r.SortedRelation?) ==>
            if field == "following" && sort == "" then r.rel == Friends else Name(r.rel) == field)
      && (r.Relation? ==> (r.populated <==> Name(r.rel) == field))
  {
  }

  lemma FollowingUnsortedSendsFriends()
    ensures GetField(true, "following", "") == Relation(Friends, false)
  {
  }

  /**
   * A sorted reply comes only from friends, following, followers or liked,
   * with a `sort` whose order piece is exactly asc or desc, mapped to 1 or -1.
   */
  lemma SortedReplies(field: string, sort: string)
    ensures var r := GetField(true, field, sort);
      r.SortedRelation? ==>
        && r.rel in {Friends, Following, Followers, Liked}
        && ParseSort(sort) == SortBy(r.sortField, r.order)
        && (r.order == 1 || r.order == -1)
  {
  }

  /** The "Invalid order" reply comes only from a sortable case given a token it refuses. */
  lemma InvalidOrderReplies(field: string, sort: string)
    ensures var r := GetField(true, field, sort);
      && (r.InvalidOrder? <==>
            field in {"friends", "following", "followers", "liked"} && sort != "" && ParseSort(sort).BadOrder?)
      && (r.InvalidOrder? ==> ParseSort(sort) == BadOrder(r.orderStr))
  {
  }

  /** `bookmarks` and `blogs` send their relation whatever `sort` says, even a refused token. */
  lemma BookmarksBlogsIgnoreSort(sort: string)
    ensures GetField(true, "bookmarks", sort) == Relation(Bookmarks, true)
    ensures GetField(true, "blogs", sort) == Relation(Blogs, true)
  {
  }
}
