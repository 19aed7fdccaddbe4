/**
 * The PUT /user handler: it copies the request body into an update object,
 * rewrites the relation keys into `$push` and `$pullAll` operators, and hands
 * the result to `findByIdAndUpdate`. The handler's fourteen blocks are
 * modelled as `PushStep` (one add block) and `PullStep` (one remove block),
 * run in the handler's order by `BuildUpdate`; `Phase` says declaratively
 * what the update object is after any prefix of the add or remove blocks.
 */
module UpdateBuilder {
  import opened JsValue
  import opened Relations

  const PushKey: string := "$push"
  const PullKey: string := "$pullAll"

  /** What the handler does: reject the body, or call the store with an update object. */
  datatype PutResult = ValueError | Dispatched(update: map<string, Value>)

  lemma KeysAreNotOperators(op: Op, rel: Rel)
    ensures Key(op, rel) != PushKey && Key(op, rel) != PullKey
  {
    KeyRoundTrip(op, rel);
    assert ParseKey(PushKey) == None;
    assert ParseKey(PullKey) == None;
  }

  // ---------------------------------------------------------------------------
  // The filter of an add block
  // ---------------------------------------------------------------------------

  /**
   * The add block's filter callback: `x` is not yet a member, and for the
   * self-referential relations `!user_._id == x`. That test parses as
   * `(!user_._id) == x`; the owner's `_id` is an ObjectId, which is truthy,
   * so it is `false == x`.
   */
  predicate Admits(owner: Owner, rel: Rel, x: Value)
    ensures Admits(owner, rel, x) ==> x !in Members(owner, rel)
    ensures !SelfExcluded(rel) ==> (Admits(owner, rel, x) <==> x !in Members(owner, rel))
    ensures SelfExcluded(rel) && Admits(owner, rel, x) ==> !Truthy(x) || x.Str? || x.Arr?
  {
    x !in Members(owner, rel) && (SelfExcluded(rel) ==> LooselyFalse(x))
  }

  /** `xs.filter(keep)`: the items `keep` accepts, in order. */
  function Filter(keep: Value -> bool, xs: seq<Value>): (r: seq<Value>)
    ensures |r| <= |xs|
    ensures forall x :: x in r <==> x in xs && keep(x)
  {
    if xs == [] then [] else (if keep(xs[0]) then [xs[0]] else []) + Filter(keep, xs[1..])
  }

  /** Filtering keeps order: the filter of a concatenation is the concatenation of the filters. */
  lemma {:induction false} FilterAppend(keep: Value -> bool, a: seq<Value>, b: seq<Value>)
    ensures Filter(keep, a + b) == Filter(keep, a) + Filter(keep, b)
  {
    if a != [] {
      assert (a + b)[0] == a[0] && (a + b)[1..] == a[1..] + b;
      FilterAppend(keep, a[1..], b);
    } else {
      assert a + b == b;
    }
  }

  /** An accepted item is kept as often as it occurs, any other item not at all. */
  lemma {:induction false} FilterMultiplicity(keep: Value -> bool, xs: seq<Value>, x: Value)
    ensures multiset(Filter(keep, xs))[x] == if keep(x) then multiset(xs)[x] else 0
  {
    if xs != [] {
      FilterMultiplicity(keep, xs[1..], x);
      assert xs == [xs[0]] + xs[1..];
    }
  }

  /** The add block's filter callback for one owner and relation. */
  function Admitter(owner: Owner, rel: Rel): Value -> bool {
    x => Admits(owner, rel, x)
  }

  /** `requested.filter(...)`: the requested items the add block keeps, in request order. */
  function Kept(owner: Owner, rel: Rel, requested: seq<Value>): (r: seq<Value>)
    ensures |r| <= |requested|
    ensures forall x :: x in r <==> x in requested && Admits(owner, rel, x)
  {
    Filter(Admitter(owner, rel), requested)
  }

  /** The add block's filter keeps request order across a concatenation. */
  lemma KeptAppend(owner: Owner, rel: Rel, a: seq<Value>, b: seq<Value>)
    ensures Kept(owner, rel, a + b) == Kept(owner, rel, a) + Kept(owner, rel, b)
  {
    FilterAppend(Admitter(owner, rel), a, b);
  }

  /**
   * An admitted item is kept as often as it is requested (duplicates inside
   * the request survive), and any other item not at all.
   */
  lemma KeptMultiplicity(owner: Owner, rel: Rel, requested: seq<Value>, x: Value)
    ensures multiset(Kept(owner, rel, requested))[x]
         == if Admits(owner, rel, x) then multiset(requested)[x] else 0
  {
    FilterMultiplicity(Admitter(owner, rel), requested, x);
  }

  /** For interests, bookmarks, blogs and liked, exactly the requested non-members are kept. */
  lemma KeptPlainRelation(owner: Owner, rel: Rel, requested: seq<Value>, x: Value)
    requires !SelfExcluded(rel)
    ensures x in Kept(owner, rel, requested) <==> x in requested && x !in Members(owner, rel)
  {
  }

  /**
   * For friends, following and followers, ids that do not loosely equal
   * `false` are never kept, so a request naming only ordinary ids (the owner's
   * own id included) adds nothing.
   */
  lemma {:induction false} KeptSelfExcludedOrdinary(owner: Owner, rel: Rel, requested: seq<Value>)
    requires SelfExcluded(rel)
    requires forall i :: 0 <= i < |requested| ==> !LooselyFalse(requested[i])
    ensures Kept(owner, rel, requested) == []
  {
    if requested != [] {
      KeptSelfExcludedOrdinary(owner, rel, requested[1..]);
    }
  }

  /** A hexadecimal id holding one of the letters a, c, d or f is never kept for a self-referential relation. */
  lemma HexIdNotKept(owner: Owner, rel: Rel, id: string, i: nat)
    requires SelfExcluded(rel)
    requires i < |id| && id[i] in {'a', 'c', 'd', 'f'}
    ensures Kept(owner, rel, [Str(id)]) == []
  {
    ForeignCharNotLooselyFalse(id, i);
  }

  // ---------------------------------------------------------------------------
  // The update object after a prefix of the add blocks or the remove blocks
  // ---------------------------------------------------------------------------

  /** `{ rel: { $each: xs } }`, the value an add block stores under `$push`. */
  function PushDesc(rel: Rel, xs: seq<Value>): Value {
    Obj(map[Name(rel) := Obj(map["$each" := Arr(xs)])])
  }

  /** `{ rel: xs }`, the value a remove block stores under `$pullAll`. */
  function PullDesc(rel: Rel, xs: seq<Value>): Value {
    Obj(map[Name(rel) := Arr(xs)])
  }

  /** The block for key `k` runs: `if (update.k)`. */
  predicate Present(m: map<string, Value>, k: string) {
    k in m && Truthy(m[k])
  }

  /** The block for key `k` returns "should be an array". */
  predicate KeyOffends(m: map<string, Value>, k: string) {
    k in m && Truthy(m[k]) && !m[k].Arr?
  }

  /** The last of the first `n` relations (in the handler's order) whose `op` key is present. */
  function LastPresent(m: map<string, Value>, op: Op, n: nat): (r: Option<Rel>)
    requires n <= RelCount
    ensures r.Some? ==> Rank(r.value) < n && Present(m, Key(op, r.value))
  {
    if n == 0 then None
    else if Present(m, Key(op, RelAt(n - 1))) then Some(RelAt(n - 1))
    else LastPresent(m, op, n - 1)
  }

  /** `LastPresent` is the present relation after which no present relation follows. */
  lemma {:induction false} LastPresentIsLast(m: map<string, Value>, op: Op, n: nat, rel: Rel)
    requires n <= RelCount
    ensures LastPresent(m, op, n) == Some(rel)
        <==> Rank(rel) < n && Present(m, Key(op, rel))
             && forall r :: Rank(rel) < Rank(r) < n ==> !Present(m, Key(op, r))
  {
    if n > 0 {
      LastPresentIsLast(m, op, n - 1, rel);
      assert Rank(RelAt(n - 1)) == n - 1;
    }
  }

  /** `LastPresent` finds nothing exactly when none of the first `n` keys is present. */
  lemma {:induction false} LastPresentNone(m: map<string, Value>, op: Op, n: nat)
    requires n <= RelCount
    ensures LastPresent(m, op, n) == None <==> forall r :: Rank(r) < n ==> !Present(m, Key(op, r))
  {
    if n > 0 {
      LastPresentNone(m, op, n - 1);
      forall r | Rank(r) == n - 1 ensures r == RelAt(n - 1) { }
    }
  }

  /** Key `k` was deleted by one of the first `n` blocks of kind `op`. */
  predicate Consumed(m: map<string, Value>, k: string, op: Op, n: nat) {
    Present(m, k) &&
    match ParseKey(k)
    case None => false
    case Some(kr) => kr.op == op && Rank(kr.rel) < n
  }

  /** The keys of `m` still present after the first `n` blocks of kind `op`. */
  function Remaining(m: map<string, Value>, op: Op, n: nat): map<string, Value> {
    map k | k in m && !Consumed(m, k, op, n) :: m[k]
  }

  /** The update operator the blocks of kind `op` overwrite. */
  function OperatorKey(op: Op): string {
    if op == Add then PushKey else PullKey
  }

  /** What the block of kind `op` for `rel` stores under its operator, given the update `m` it reads. */
  function OperatorValue(m: map<string, Value>, owner: Owner, op: Op, rel: Rel): Value
    requires Key(op, rel) in m
  {
    if op == Add then PushDesc(rel, Kept(owner, rel, Items(m[Key(Add, rel)])))
    else PullDesc(rel, Items(m[Key(Remove, rel)]))
  }

  /**
   * The update object after the first `n` blocks of kind `op` have run on
   * `m` without rejecting: the keys of `m` they did not delete, and the
   * operator as the last of them that ran wrote it.
   */
  function Phase(m: map<string, Value>, owner: Owner, op: Op, n: nat): (r: map<string, Value>)
    requires n <= RelCount
    ensures OperatorKey(op) in r <==> OperatorKey(op) in m || LastPresent(m, op, n).Some?
  {
    var base := Remaining(m, op, n);
    match LastPresent(m, op, n)
    case None => base
    case Some(rel) => base[OperatorKey(op) := OperatorValue(m, owner, op, rel)]
  }

  /** The update object after all seven add blocks. */
  function AfterAdds(body: map<string, Value>, owner: Owner): map<string, Value> {
    Phase(body, owner, Add, RelCount)
  }

  /** The update object the handler passes to `findByIdAndUpdate` when no block rejects. */
  function Descriptor(body: map<string, Value>, owner: Owner): (r: map<string, Value>)
    ensures forall k :: k in r && k != PushKey && k != PullKey ==> k in body && r[k] == body[k]
  {
    Phase(AfterAdds(body, owner), owner, Remove, RelCount)
  }

  /** Some relation key holds a truthy value that is not an array. */
  ghost predicate Rejects(body: map<string, Value>) {
    exists op, rel :: KeyOffends(body, Key(op, rel))
  }

  /** What the handler does with a body. */
  ghost function Outcome(body: map<string, Value>, owner: Owner): (r: PutResult)
    ensures r.ValueError? <==> Rejects(body)
    ensures r.Dispatched? ==> forall op, rel :: !Present(r.update, Key(op, rel))
  {
    DescriptorDropsRelationKeys(body, owner);
    if Rejects(body) then ValueError else Dispatched(Descriptor(body, owner))
  }

  lemma PhaseStart(m: map<string, Value>, owner: Owner, op: Op)
    ensures Phase(m, owner, op, 0) == m
  {
    assert Remaining(m, op, 0) == m;
  }

  /** Running one more block of kind `op` deletes its key if the block runs, and nothing else. */
  lemma RemainingStep(m: map<string, Value>, op: Op, rel: Rel)
    ensures Remaining(m, op, Rank(rel) + 1)
         == if Present(m, Key(op, rel)) then Remaining(m, op, Rank(rel)) - {Key(op, rel)}
            else Remaining(m, op, Rank(rel))
  {
    var key := Key(op, rel);
    KeyRoundTrip(op, rel);
    forall k | k in m
      ensures Consumed(m, k, op, Rank(rel) + 1) <==> Consumed(m, k, op, Rank(rel)) || (k == key && Present(m, key))
    {
      match ParseKey(k)
      case None =>
      case Some(kr) =>
        if kr.op == op && Rank(kr.rel) == Rank(rel) {
          assert RelAt(Rank(kr.rel)) == kr.rel;
        }
    }
  }

  /** The blocks of one kind never touch the keys of the other kind. */
  lemma PhaseKeepsKey(m: map<string, Value>, owner: Owner, op: Op, n: nat, op': Op, rel: Rel)
    requires n <= RelCount && (op' != op || n <= Rank(rel))
    ensures var k := Key(op', rel);
      && (k in Phase(m, owner, op, n) <==> k in m)
      && (k in m ==> Phase(m, owner, op, n)[k] == m[k])
  {
    KeyRoundTrip(op', rel);
    KeysAreNotOperators(op', rel);
  }

  /** One more block of kind `op` makes its relation the last one that ran, if it runs. */
  lemma LastPresentStep(m: map<string, Value>, op: Op, rel: Rel)
    ensures LastPresent(m, op, Rank(rel) + 1)
         == if Present(m, Key(op, rel)) then Some(rel) else LastPresent(m, op, Rank(rel))
  {
    assert RelAt(Rank(rel)) == rel;
  }

  /** One block's effect on the update object: delete its key, overwrite its operator. */
  lemma PhaseStep(m: map<string, Value>, owner: Owner, op: Op, rel: Rel)
    requires Present(m, Key(op, rel)) && !KeyOffends(m, Key(op, rel))
    ensures Phase(m, owner, op, Rank(rel) + 1)
         == (Phase(m, owner, op, Rank(rel)) - {Key(op, rel)})[OperatorKey(op) := OperatorValue(m, owner, op, rel)]
  {
    var key, r := Key(op, rel), Rank(rel);
    RemainingStep(m, op, rel);
    KeysAreNotOperators(op, rel);
    LastPresentStep(m, op, rel);
    var base := Remaining(m, op, r);
    var v := OperatorValue(m, owner, op, rel);
    assert Phase(m, owner, op, r + 1) == (base - {key})[OperatorKey(op) := v];
    match LastPresent(m, op, r)
    case None =>
    case Some(p) =>
      var opKey := OperatorKey(op);
      assert (base[opKey := OperatorValue(m, owner, op, p)] - {key})[opKey := v] == (base - {key})[opKey := v];
  }

  /** A block whose key is absent or falsy leaves the update object as it was. */
  lemma PhaseSkip(m: map<string, Value>, owner: Owner, op: Op, rel: Rel)
    requires !Present(m, Key(op, rel))
    ensures Phase(m, owner, op, Rank(rel) + 1) == Phase(m, owner, op, Rank(rel))
  {
    RemainingStep(m, op, rel);
    LastPresentStep(m, op, rel);
  }

  // ---------------------------------------------------------------------------
  // The handler
  // ---------------------------------------------------------------------------

  /**
   * One add block: if `update[rel]` is truthy it must be an array; its
   * filtered items replace it, `$push` is overwritten with them, and the key
   * is deleted.
   */
  method PushStep(ghost body: map<string, Value>, owner: Owner, update: map<string, Value>, rel: Rel, ghost n: nat)
    returns (ok: bool, next: map<string, Value>)
    requires n == Rank(rel) && update == Phase(body, owner, Add, n)
    ensures ok <==> !KeyOffends(body, Key(Add, rel))
    ensures ok ==> next == Phase(body, owner, Add, n + 1)
  {
    var key := Key(Add, rel);
    PhaseKeepsKey(body, owner, Add, Rank(rel), Add, rel);
    ok, next := true, update;
    if key in next && Truthy(next[key]) {
      if !next[key].Arr? {
        return false, next;
      }
      PhaseStep(body, owner, Add, rel);
      next := next[key := Arr(Kept(owner, rel, next[key].items))];
      next := next[PushKey := PushDesc(rel, next[key].items)];
      next := next - {key};
    } else {
      PhaseSkip(body, owner, Add, rel);
    }
  }

  /**
   * One remove block: if `update.remove_<rel>` is truthy it must be an array;
   * `$pullAll` is overwritten with it as given, and the key is deleted.
   */
  method PullStep(ghost m: map<string, Value>, owner: Owner, update: map<string, Value>, rel: Rel, ghost n: nat)
    returns (ok: bool, next: map<string, Value>)
    requires n == Rank(rel) && update == Phase(m, owner, Remove, n)
    ensures ok <==> !KeyOffends(m, Key(Remove, rel))
    ensures ok ==> next == Phase(m, owner, Remove, n + 1)
  {
    var key := Key(Remove, rel);
    PhaseKeepsKey(m, owner, Remove, Rank(rel), Remove, rel);
    ok, next := true, update;
    if key in next && Truthy(next[key]) {
      if !next[key].Arr? {
        return false, next;
      }
      PhaseStep(m, owner, Remove, rel);
      next := next[PullKey := PullDesc(rel, next[key].items)];
      next := next - {key};
    } else {
      PhaseSkip(m, owner, Remove, rel);
    }
  }

  /** The seven add blocks of the handler, in order; `ok` is false when one of them rejects. */
  method ApplyAdds(body: map<string, Value>, owner: Owner) returns (ok: bool, next: map<string, Value>)
    ensures ok <==> forall rel :: !KeyOffends(body, Key(Add, rel))
    ensures ok ==> next == AfterAdds(body, owner)
  {
    next := body;
    ghost var n := 0;
    PhaseStart(body, owner, Add);
    ok, next := PushStep(body, owner, next, Friends, n);
    if !ok { return; }
    n := n + 1;
    ok, next := PushStep(body, owner, next, Interests, n);
    if !ok { return; }
    n := n + 1;
    ok, next := PushStep(body, owner, next, Following, n);
    if !ok { return; }
    n := n + 1;
    ok, next := PushStep(body, owner, next, Bookmarks, n);
    if !ok { return; }
    n := n + 1;
    ok, next := PushStep(body, owner, next, Followers, n);
    if !ok { return; }
    n := n + 1;
    ok, next := PushStep(body, owner, next, Blogs, n);
    if !ok { return; }
    n := n + 1;
    ok, next := PushStep(body, owner, next, Liked, n);
    if !ok { return; }
    n := n + 1;
    forall rel ensures !KeyOffends(body, Key(Add, rel)) {
      match rel
      case Friends =>
      case Interests =>
      case Following =>
      case Bookmarks =>
      case Followers =>
      case Blogs =>
      case Liked =>
    }
  }

  /** The seven remove blocks of the handler, in order; `ok` is false when one of them rejects. */
  method ApplyRemoves(update: map<string, Value>, owner: Owner) returns (ok: bool, next: map<string, Value>)
    ensures ok <==> forall rel :: !KeyOffends(update, Key(Remove, rel))
    ensures ok ==> next == Phase(update, owner, Remove, RelCount)
  {
    next := update;
    ghost var n := 0;
    PhaseStart(update, owner, Remove);
    ok, next := PullStep(update, owner, next, Friends, n);
    if !ok { return; }
    n := n + 1;
    ok, next := PullStep(update, owner, next, Interests, n);
    if !ok { return; }
    n := n + 1;
    ok, next := PullStep(update, owner, next, Following, n);
    if !ok { return; }
    n := n + 1;
    ok, next := PullStep(update, owner, next, Bookmarks, n);
    if !ok { return; }
    n := n + 1;
    ok, next := PullStep(update, owner, next, Followers, n);
    if !ok { return; }
    n := n + 1;
    ok, next := PullStep(update, owner, next, Blogs, n);
    if !ok { return; }
    n := n + 1;
    ok, next := PullStep(update, owner, next, Liked, n);
    if !ok { return; }
    n := n + 1;
    forall rel ensures !KeyOffends(update, Key(Remove, rel)) {
      match rel
      case Friends =>
      case Interests =>
      case Following =>
      case Bookmarks =>
      case Followers =>
      case Blogs =>
      case Liked =>
    }
  }

  /**
   * The PUT /user handler from the copy of the body (`{ ...req.body }`) to the
   * store call: the add blocks, then the remove blocks; a rejecting block
   * returns "should be an array" before `findByIdAndUpdate` is reached.
   */
  method BuildUpdate(body: map<string, Value>, owner: Owner) returns (out: PutResult)
    ensures out == Outcome(body, owner)
  {
    var ok, update := ApplyAdds(body, owner);
    if !ok { return ValueError; }
    ok, update := ApplyRemoves(update, owner);
    forall rel ensures KeyOffends(AfterAdds(body, owner), Key(Remove, rel)) == KeyOffends(body, Key(Remove, rel)) {
      PhaseKeepsKey(body, owner, Add, RelCount, Remove, rel);
    }
    if !ok { return ValueError; }
    return Dispatched(update);
  }

  // ---------------------------------------------------------------------------
  // What the store receives
  // ---------------------------------------------------------------------------

  /** Outside its operator, a phase keeps exactly the keys it did not consume, unchanged. */
  lemma PhaseOtherKey(m: map<string, Value>, owner: Owner, op: Op, n: nat, k: string)
    requires n <= RelCount && k != OperatorKey(op)
    ensures k in Phase(m, owner, op, n) <==> k in m && !Consumed(m, k, op, n)
    ensures k in Phase(m, owner, op, n) ==> Phase(m, owner, op, n)[k] == m[k]
  {
  }

  /** A phase in which no block ran leaves its own operator as `m` had it. */
  lemma PhaseIdleOperator(m: map<string, Value>, owner: Owner, op: Op, n: nat)
    requires n <= RelCount && LastPresent(m, op, n) == None
    ensures OperatorKey(op) in Phase(m, owner, op, n) <==> OperatorKey(op) in m
    ensures OperatorKey(op) in m ==> Phase(m, owner, op, n)[OperatorKey(op)] == m[OperatorKey(op)]
  {
    assert ParseKey(PushKey) == None && ParseKey(PullKey) == None;
  }

  /**
   * Every body key other than `$push` and `$pullAll` reaches the store as a
   * plain field set, with its value unchanged, unless it is one of the
   * fourteen relation keys holding a truthy value, which are deleted.
   * Relation keys holding `null`, `0`, `""` or `false` therefore stay.
   */
  lemma DescriptorKeys(body: map<string, Value>, owner: Owner, k: string)
    requires k != PushKey && k != PullKey
    ensures k in Descriptor(body, owner) <==> k in body && !(Present(body, k) && ParseKey(k).Some?)
    ensures k in Descriptor(body, owner) ==> Descriptor(body, owner)[k] == body[k]
  {
    var a := AfterAdds(body, owner);
    PhaseOtherKey(body, owner, Add, RelCount, k);
    PhaseOtherKey(a, owner, Remove, RelCount, k);
    match ParseKey(k)
    case None =>
    case Some(kr) =>
      assert Rank(kr.rel) < RelCount;
  }

  /** The add blocks leave `$pullAll` as the body had it. */
  lemma AddsKeepPull(body: map<string, Value>, owner: Owner)
    ensures PullKey in AfterAdds(body, owner) <==> PullKey in body
    ensures PullKey in body ==> AfterAdds(body, owner)[PullKey] == body[PullKey]
  {
    assert ParseKey(PullKey) == None;
    PhaseOtherKey(body, owner, Add, RelCount, PullKey);
  }

  /** The add blocks leave every remove key as the body had it. */
  lemma AddsKeepRemoveKeys(body: map<string, Value>, owner: Owner)
    ensures forall rel :: Present(AfterAdds(body, owner), Key(Remove, rel)) == Present(body, Key(Remove, rel))
    ensures forall rel :: Key(Remove, rel) in body ==>
      Key(Remove, rel) in AfterAdds(body, owner) && AfterAdds(body, owner)[Key(Remove, rel)] == body[Key(Remove, rel)]
  {
    forall rel ensures
      && (Key(Remove, rel) in AfterAdds(body, owner) <==> Key(Remove, rel) in body)
      && (Key(Remove, rel) in body ==> AfterAdds(body, owner)[Key(Remove, rel)] == body[Key(Remove, rel)])
    {
      PhaseKeepsKey(body, owner, Add, RelCount, Remove, rel);
    }
  }

  /**
   * When the last add key present (in the order friends, interests,
   * following, bookmarks, followers, blogs, liked) is `rel`'s, `$push` holds
   * only `rel`'s filtered request; every earlier add block's delta is lost.
   */
  lemma PushNamesLastAdd(body: map<string, Value>, owner: Owner, rel: Rel)
    requires Present(body, Key(Add, rel))
    requires forall r :: Rank(rel) < Rank(r) ==> !Present(body, Key(Add, r))
    ensures PushKey in Descriptor(body, owner)
    ensures Descriptor(body, owner)[PushKey] == PushDesc(rel, Kept(owner, rel, Items(body[Key(Add, rel)])))
  {
    LastPresentIsLast(body, Add, RelCount, rel);
    var a := AfterAdds(body, owner);
    assert PushKey in a && a[PushKey] == PushDesc(rel, Kept(owner, rel, Items(body[Key(Add, rel)])));
    assert ParseKey(PushKey) == None;
    PhaseOtherKey(a, owner, Remove, RelCount, PushKey);
  }

  /** With no add key present, `$push` reaches the store only if the body itself held it, unchanged. */
  lemma NoAddKeepsBodyPush(body: map<string, Value>, owner: Owner)
    requires forall r :: !Present(body, Key(Add, r))
    ensures PushKey in Descriptor(body, owner) <==> PushKey in body
    ensures PushKey in body ==> Descriptor(body, owner)[PushKey] == body[PushKey]
  {
    LastPresentNone(body, Add, RelCount);
    var a := AfterAdds(body, owner);
    assert ParseKey(PushKey) == None;
    PhaseIdleOperator(body, owner, Add, RelCount);
    PhaseOtherKey(a, owner, Remove, RelCount, PushKey);
  }

  /** Of two add keys present, the earlier relation is never named in `$push`. */
  lemma EarlierAddDiscarded(body: map<string, Value>, owner: Owner, early: Rel, late: Rel)
    requires Rank(early) < Rank(late)
    requires Present(body, Key(Add, early)) && Present(body, Key(Add, late))
    ensures PushKey in Descriptor(body, owner)
    ensures Descriptor(body, owner)[PushKey].Obj?
    ensures Name(early) !in Descriptor(body, owner)[PushKey].fields
  {
    match LastPresent(body, Add, RelCount)
    case None =>
      LastPresentNone(body, Add, RelCount);
    case Some(last) =>
      LastPresentIsLast(body, Add, RelCount, last);
      assert Rank(late) <= Rank(last);
      PushNamesLastAdd(body, owner, last);
      NameRoundTrip(early);
      NameRoundTrip(last);
  }

  /**
   * When the last remove key present is `remove_<rel>`, `$pullAll` holds
   * `rel`'s request exactly as sent, unfiltered.
   */
  lemma PullNamesLastRemove(body: map<string, Value>, owner: Owner, rel: Rel)
    requires Present(body, Key(Remove, rel))
    requires forall r :: Rank(rel) < Rank(r) ==> !Present(body, Key(Remove, r))
    ensures PullKey in Descriptor(body, owner)
    ensures Descriptor(body, owner)[PullKey] == PullDesc(rel, Items(body[Key(Remove, rel)]))
  {
    var a := AfterAdds(body, owner);
    AddsKeepRemoveKeys(body, owner);
    LastPresentIsLast(a, Remove, RelCount, rel);
  }

  /** With no remove key present, `$pullAll` reaches the store only if the body itself held it, unchanged. */
  lemma NoRemoveKeepsBodyPull(body: map<string, Value>, owner: Owner)
    requires forall r :: !Present(body, Key(Remove, r))
    ensures PullKey in Descriptor(body, owner) <==> PullKey in body
    ensures PullKey in body ==> Descriptor(body, owner)[PullKey] == body[PullKey]
  {
    var a := AfterAdds(body, owner);
    AddsKeepRemoveKeys(body, owner);
    LastPresentNone(a, Remove, RelCount);
    AddsKeepPull(body, owner);
    PhaseIdleOperator(a, owner, Remove, RelCount);
  }

  /** No relation key holding a truthy value reaches the store. */
  lemma DescriptorDropsRelationKeys(body: map<string, Value>, owner: Owner)
    ensures forall op, rel :: !Present(Descriptor(body, owner), Key(op, rel))
  {
    forall op, rel ensures !Present(Descriptor(body, owner), Key(op, rel)) {
      KeysAreNotOperators(op, rel);
      KeyRoundTrip(op, rel);
      DescriptorKeys(body, owner, Key(op, rel));
    }
  }
}
