# Blog API router: a Dafny model

This project models the core of the blog backend's Express router
(`backend/routes/blog.js`). It covers four handlers:

- **PUT /user**: how the request body becomes the update descriptor handed to
  `User.findByIdAndUpdate`.
  - Seven add blocks (`friends`, `interests`, `following`, `bookmarks`,
    `followers`, `blogs`, `liked`) each filter their array and overwrite
    `$push` with `{ <rel>: { $each: [...] } }`.
  - Seven remove blocks (`remove_<rel>`) each overwrite `$pullAll` with
    `{ <rel>: [...] }`.
  - Each block deletes its own key.
  - A truthy non-array value under any of the fourteen keys ends the request
    with "should be an array".
- **GET /user**: which relations the owner is loaded with. The `toPopulate`
  list is built from the truthy query flags.
- **GET /user/:field**: the switch on the field name, and how the `sort`
  parameter `<field>_<asc|desc>` is split and mapped to the order 1 or -1.
- **GET /searchUsers/**: how `page` and `perPage` are validated against
  `^[1-9]\d*$`, defaulted to 1 and 10, and turned into `skip`. The
  `.skip().limit()` window over the matches is modelled too.

Request bodies and query strings are JSON values (`JsValue.Value`), with
integer numbers. The handler's branches depend on JavaScript's truthiness and
on loose equality with `false`, so the model gives both their ECMAScript
definitions. For strings this is the StringToNumber conversion: white space is
trimmed, then a signed decimal literal (with `.` and exponent) or a `0x`, `0b`
or `0o` literal is read. A decimal literal counts as zero when its value
rounds to zero as a double: it is at most 2^-1075, half the smallest positive
double, because that tie rounds to the even neighbour, zero. So `"1e-400"` and
`"2e-324"` loosely equal `false`.

The model follows the code as written:

- **Self-exclusion filter.** The filter for `friends`, `following` and
  `followers` tests `!user_._id == x`, which JavaScript reads as
  `false == x`. So it keeps only items that loosely equal `false`
  (`false`, `0`, `""`, `"0"`, `[]`, …) and drops every ordinary id.
  - `UpdateBuilder.KeptSelfExcludedOrdinary` and `UpdateBuilder.HexIdNotKept`
    state this.
- **Last block wins.** Every add block overwrites `$push`, and every remove
  block overwrites `$pullAll`. So only the last relation present in each
  group reaches the store.
  - `UpdateBuilder.PushNamesLastAdd` and `UpdateBuilder.EarlierAddDiscarded`
    state this.
- **Unsorted `following`.** Without `sort`, the `following` case sends the
  owner's `friends`, unpopulated.
- **No `interests` case.** `/user/interests` is answered "not populatable".
- **Underscores in the sort field.** A sort field that contains `_` reads its
  second word as the order.

Three further points follow from the code:

- **Add keys are bare names.** The add keys are the bare relation names
  (`friends`, not `add_friends`).
- **No conflict error.** Adding and removing the same item in one request is
  not refused; both operators are handed to the store.
- **No idempotence.** The handler promises none, and the model states none:
  each request builds its descriptor afresh from its own body.

The project has six modules:

- `JsValue`: values, truthiness, and loose equality with `false`.
- `Relations`: relation names and the fourteen body keys.
- `UpdateBuilder`: PUT /user.
- `Populate`: GET /user.
- `FieldQuery`: GET /user/:field.
- `SearchPaging`: GET /searchUsers/.

The PUT handler and the `toPopulate` list are imperative in the source. They
are modelled as methods that make one call per block in the source's order.
Each method is proved against a declarative description:

- `UpdateBuilder.Phase`: the update object after the first n blocks of one
  kind.
- `Populate.PopulatedUpTo`: the list after the first k flag tests.

## Model

| member | source | states |
|---|---|---|
| `JsValue.Truthy` | backend/routes/blog.js:182 | a value is falsy exactly when it is `null`, `false`, `0` or `""`; arrays and objects are truthy even when empty |
| `JsValue.TrimStart` | backend/routes/blog.js:186 | the trimmed string is a suffix of the input that does not start with white space, and every character removed before it is white space |
| `JsValue.TrimEnd` | backend/routes/blog.js:186 | the trimmed string is a prefix of the input that does not end with white space, and every character removed after it is white space |
| `JsValue.DecimalValue` | backend/routes/blog.js:90-91 | the value of a digit string (what `+s` gives) is zero exactly when every digit is `0` |
| `JsValue.DigitChar` | backend/routes/blog.js:90-91 | a helper for `Numeral`, the inverse of `DecimalValue`: the digit character for d is a decimal digit worth d |
| `JsValue.NumeralDigits` | backend/routes/blog.js:90-91 | the numeral of n is a non-empty digit string worth n, starting with `0` only for 0 |
| `JsValue.LooselyFalse` | backend/routes/blog.js:186 | `false == v` never holds for `null` or an object; for a boolean or a number it holds exactly when the value is falsy; a truthy value it holds for is a string or an array |
| `JsValue.DigitStringLooselyFalse` | backend/routes/blog.js:186 | a decimal digit string loosely equals `false` exactly when its value is zero |
| `JsValue.DigitStringDecimalZero` | backend/routes/blog.js:186 | a decimal digit string is a literal rounding to zero exactly when its value is zero |
| `JsValue.NumeralLooselyFalse` | backend/routes/blog.js:186 | the numeral of n loosely equals `false` exactly when n is 0 |
| `JsValue.ExponentLiteralZero` | backend/routes/blog.js:186 | a mantissa and an exponent part whose combined value is at most 2^-1075 form a literal that converts to zero |
| `JsValue.UnderflowLiteral` | backend/routes/blog.js:186 | `1e-<d>` with d worth at least 359 is a literal that converts to zero |
| `JsValue.OneTimesTinyPowerZero` | backend/routes/blog.js:186 | `1` followed by an exponent part worth -v, for v at least 359, is a literal that converts to zero |
| `JsValue.UnderflowLooselyFalse` | backend/routes/blog.js:186 | `"1e-<d>"` with d worth at least 359 loosely equals `false`, although its digit is not zero |
| `JsValue.TinyLiteralLooselyFalse` | backend/routes/blog.js:186 | `false == "1e-400"` holds |
| `JsValue.ForeignCharNotLooselyFalse` | backend/routes/blog.js:186 | a string holding a character that is neither white space nor part of a numeric literal never satisfies `false == x` |
| `JsValue.ZeroLiteralChars` | backend/routes/blog.js:186 | every numeric literal that converts to zero, once white space is trimmed, is made only of digits, signs, `.`, exponent and radix letters |
| `Relations.Rank` | backend/routes/blog.js:182-291 | every relation has one position below seven in the handler's block order, and that position denotes it |
| `Relations.RelNamed` | backend/routes/blog.js:182-291 | a recognised field name is the name of the relation it yields |
| `Relations.NameRoundTrip` | backend/routes/blog.js:182-291 | every relation's name is recognised as that relation, so the seven names are distinct |
| `Relations.ParseKey` | backend/routes/blog.js:182-291 | a recognised body key is the add key `<rel>` or remove key `remove_<rel>` it yields |
| `Relations.KeyRoundTrip` | backend/routes/blog.js:182-291 | each of the fourteen relation keys is recognised as its own operation and relation |
| `Relations.KeyInjective` | backend/routes/blog.js:182-291 | two relation keys are equal only for the same operation on the same relation |
| `UpdateBuilder.KeysAreNotOperators` | backend/routes/blog.js:188-289 | no relation key is `$push` or `$pullAll` |
| `UpdateBuilder.Admits` | backend/routes/blog.js:185-187 | an admitted item is never already in the owner's array; for interests, bookmarks, blogs and liked that is the whole test; for friends, following and followers an admitted item is falsy, a string or an array |
| `UpdateBuilder.Filter` | backend/routes/blog.js:185-187 | `Array.prototype.filter`: at most the given items, and an item is kept exactly when it is given and accepted |
| `UpdateBuilder.FilterAppend` | backend/routes/blog.js:185-187 | filtering a concatenation concatenates the filtered parts |
| `UpdateBuilder.FilterMultiplicity` | backend/routes/blog.js:185-187 | an accepted item is kept as many times as it occurs; any other item is dropped |
| `UpdateBuilder.Kept` | backend/routes/blog.js:185-187 | the filter keeps at most the requested items, and an item is kept exactly when it was requested and is admitted |
| `UpdateBuilder.KeptAppend` | backend/routes/blog.js:185-187 | the filter keeps request order: filtering a concatenation concatenates the filtered parts |
| `UpdateBuilder.KeptMultiplicity` | backend/routes/blog.js:185-187 | an admitted item is kept as many times as it is requested, duplicates included; any other item is dropped |
| `UpdateBuilder.KeptPlainRelation` | backend/routes/blog.js:195-197 | for interests, bookmarks, blogs and liked, exactly the requested items not yet in the owner's array are kept |
| `UpdateBuilder.KeptSelfExcludedOrdinary` | backend/routes/blog.js:185-187 | for friends, following and followers, a request whose items never loosely equal `false` keeps nothing |
| `UpdateBuilder.HexIdNotKept` | backend/routes/blog.js:204-207 | a hexadecimal id with a letter a, c, d or f is never kept for a self-referential relation |
| `UpdateBuilder.LastPresent` | backend/routes/blog.js:182-247 | the relation found is among the blocks considered and its key is present |
| `UpdateBuilder.LastPresentIsLast` | backend/routes/blog.js:188-245 | the last block that ran is the present one after which no present key follows, in both directions |
| `UpdateBuilder.LastPresentNone` | backend/routes/blog.js:182-247 | no block ran exactly when none of the keys considered is truthy |
| `UpdateBuilder.Phase` | backend/routes/blog.js:179-291 | after n blocks of one kind the operator key (`$push` or `$pullAll`) is present exactly when the body had it or one of those blocks ran |
| `UpdateBuilder.Descriptor` | backend/routes/blog.js:179-295 | every key of the descriptor other than `$push` and `$pullAll` comes from the body with its value unchanged |
| `UpdateBuilder.Outcome` | backend/routes/blog.js:177-295 | the handler answers "should be an array" exactly when some relation key holds a truthy non-array; a dispatched descriptor holds no relation key with a truthy value |
| `UpdateBuilder.DescriptorDropsRelationKeys` | backend/routes/blog.js:182-291 | no relation key with a truthy value reaches the store |
| `UpdateBuilder.PhaseStart` | backend/routes/blog.js:179 | before any block runs the update object is the copy of the body |
| `UpdateBuilder.RemainingStep` | backend/routes/blog.js:189 | one more block deletes its own key if it runs, and no other key |
| `UpdateBuilder.PhaseKeepsKey` | backend/routes/blog.js:182-291 | the blocks of one kind leave the keys of the other kind, and their own later keys, as they were |
| `UpdateBuilder.LastPresentStep` | backend/routes/blog.js:188 | one more block becomes the last one that ran exactly when its key is present |
| `UpdateBuilder.PhaseStep` | backend/routes/blog.js:182-190 | a running block deletes its key and overwrites its operator with its own delta, the rest unchanged |
| `UpdateBuilder.PhaseSkip` | backend/routes/blog.js:182 | a block whose key is absent or falsy changes nothing |
| `UpdateBuilder.PushStep` | backend/routes/blog.js:182-190 | an add block rejects exactly when its key holds a truthy non-array, and otherwise advances the update object by one block |
| `UpdateBuilder.PullStep` | backend/routes/blog.js:250-255 | a remove block rejects exactly when its key holds a truthy non-array, and otherwise advances the update object by one block |
| `UpdateBuilder.ApplyAdds` | backend/routes/blog.js:182-247 | the add blocks reject exactly when some add key holds a truthy non-array, and otherwise yield the update object after all seven |
| `UpdateBuilder.ApplyRemoves` | backend/routes/blog.js:250-291 | the remove blocks reject exactly when some remove key holds a truthy non-array, and otherwise yield the update object after all seven |
| `UpdateBuilder.BuildUpdate` | backend/routes/blog.js:177-295 | the handler answers "should be an array" exactly when one of the fourteen keys holds a truthy non-array, and otherwise passes the descriptor to the store |
| `UpdateBuilder.PhaseOtherKey` | backend/routes/blog.js:179-291 | outside its operator a phase keeps exactly the keys its blocks did not delete, with their values |
| `UpdateBuilder.PhaseIdleOperator` | backend/routes/blog.js:179-291 | when no block of a kind runs, its operator is left as the body had it |
| `UpdateBuilder.DescriptorKeys` | backend/routes/blog.js:179-291 | every other body key reaches the store unchanged unless it is a relation key with a truthy value, which is deleted |
| `UpdateBuilder.AddsKeepPull` | backend/routes/blog.js:182-247 | the add blocks leave `$pullAll` as the body had it |
| `UpdateBuilder.AddsKeepRemoveKeys` | backend/routes/blog.js:182-247 | the add blocks leave every `remove_<rel>` key as the body had it |
| `UpdateBuilder.PushNamesLastAdd` | backend/routes/blog.js:188-245 | `$push` holds only the filtered request of the last add key present |
| `UpdateBuilder.NoAddKeepsBodyPush` | backend/routes/blog.js:179-247 | with no add key present, `$push` reaches the store only as the body sent it |
| `UpdateBuilder.EarlierAddDiscarded` | backend/routes/blog.js:188-245 | of two add keys present, the earlier relation is never named in `$push` |
| `UpdateBuilder.PullNamesLastRemove` | backend/routes/blog.js:253-289 | `$pullAll` holds the unfiltered request of the last remove key present |
| `UpdateBuilder.NoRemoveKeepsBodyPull` | backend/routes/blog.js:179-291 | with no remove key present, `$pullAll` reaches the store only as the body sent it |
| `Populate.FlagRank` | backend/routes/blog.js:150-156 | each relation's flag test has a position below seven |
| `Populate.PushFlagged` | backend/routes/blog.js:150-156 | one flag test keeps `toPopulate` equal to the flagged relations tested so far, in test order |
| `Populate.FlagRankInjective` | backend/routes/blog.js:150-156 | no two relations share a flag test |
| `Populate.PopulatePaths` | backend/routes/blog.js:147-160 | the owner is loaded plainly exactly when no flag is truthy; otherwise it is populated with exactly the flagged relations, in the handler's order |
| `FieldQuery.Split` | backend/routes/blog.js:320 | splitting gives at least one piece, and no piece holds the separator |
| `FieldQuery.JoinSplit` | backend/routes/blog.js:320 | joining the pieces of a split gives the string back |
| `FieldQuery.SplitNoSep` | backend/routes/blog.js:320 | a string without the separator splits into itself |
| `FieldQuery.SplitAt` | backend/routes/blog.js:320 | a separator-free prefix before the separator is the first piece |
| `FieldQuery.SplitJoin` | backend/routes/blog.js:320 | separator-free pieces are recovered by splitting their join |
| `FieldQuery.JoinHead` | backend/routes/blog.js:320 | the first two pieces and the separator open the joined string |
| `FieldQuery.ParseSort` | backend/routes/blog.js:320-325 | an accepted token gives order 1 or -1 and a field without `_`; a refused one names an order other than asc and desc, or none |
| `FieldQuery.ParseSortAccepted` | backend/routes/blog.js:320-325 | an accepted sort token gives order 1 or -1 and a field without `_`, and begins with `<field>_asc` or `<field>_desc` |
| `FieldQuery.SortTokenRoundTrip` | backend/routes/blog.js:320-325 | `<field>_asc` and `<field>_desc` parse back to the field with order 1 and -1 |
| `FieldQuery.SortTokenPieces` | backend/routes/blog.js:320-325 | `<field>_<dir>` is accepted exactly for `asc` and `desc`, and otherwise refused naming `dir` |
| `FieldQuery.ParseSortNoSeparator` | backend/routes/blog.js:320-324 | a token without `_` has no order and is refused |
| `FieldQuery.ParseSortIgnoresRest` | backend/routes/blog.js:320 | pieces after the second are ignored |
| `FieldQuery.Sortable` | backend/routes/blog.js:316-368 | without `sort` the unsorted relation is sent, populated only when it is the sorted one; with `sort` the reply is the sorted relation with the token's field and order, or "Invalid order" naming the refused order |
| `FieldQuery.GetField` | backend/routes/blog.js:305-452 | "user not found" is answered exactly when the owner is missing; a refused field is named back; a sorted or "Invalid order" reply needs a non-empty `sort` |
| `FieldQuery.PopulatableNames` | backend/routes/blog.js:313-452 | exactly friends, following, followers, liked, bookmarks and blogs are answered; every other field, interests included, is not populatable |
| `FieldQuery.SendsNamedRelation` | backend/routes/blog.js:314-447 | the relation sent is the one named, populated, except unsorted `following`, which sends `friends` |
| `FieldQuery.FollowingUnsortedSendsFriends` | backend/routes/blog.js:366-368 | `following` without `sort` sends the owner's unpopulated friends |
| `FieldQuery.SortedReplies` | backend/routes/blog.js:318-332 | a sorted reply comes only from friends, following, followers or liked, with the field and order the token parses to |
| `FieldQuery.InvalidOrderReplies` | backend/routes/blog.js:318-324 | "Invalid order" is answered exactly for a sortable field with a non-empty token whose order is neither asc nor desc, naming that order |
| `FieldQuery.BookmarksBlogsIgnoreSort` | backend/routes/blog.js:431-447 | bookmarks and blogs send their relation whatever `sort` holds |
| `SearchPaging.IsPositiveNumeral` | backend/routes/blog.js:85 | a string matching `^[1-9]\d*$` is a non-empty digit string not starting with `0` |
| `SearchPaging.NumeralValuePositive` | backend/routes/blog.js:86-91 | a string matching `^[1-9]\d*$` is all digits and its value is at least 1 |
| `SearchPaging.NumeralRoundTrip` | backend/routes/blog.js:86-91 | the numeral of a positive number matches the pattern and reads back as that number |
| `SearchPaging.ValueRoundTrip` | backend/routes/blog.js:86-91 | a string matching the pattern is the numeral of its value |
| `SearchPaging.ParamOr` | backend/routes/blog.js:87-91 | a parameter matching the pattern gives its positive value; any other parameter, or none, gives the default |
| `SearchPaging.Paginate` | backend/routes/blog.js:86-92 | page and perPage are always at least 1 |
| `SearchPaging.InvalidParamsDefault` | backend/routes/blog.js:87-92 | parameters the pattern refuses give page 1, perPage 10 and skip 0 |
| `SearchPaging.PaginateNumerals` | backend/routes/blog.js:86-92 | numerals for a positive page and size are read back exactly, with skip (page-1)*perPage |
| `SearchPaging.NextPageFollows` | backend/routes/blog.js:92 | the next page starts exactly where this page ends |
| `SearchPaging.PageOf` | backend/routes/blog.js:92-105 | a page holds at most perPage matches: those from position skip on, or none when skip is past the end |
| `SearchPaging.PagesCover` | backend/routes/blog.js:92-105 | pages 1 to n, in order, are the first n*perPage matches (or all of them), with no gap or overlap |

## Left out

- Authentication (`verifyToken`, JWT), login and sign-up routes, blog CRUD and the other routes of the router are not part of this model.
- The store itself is not modelled: `findById`, `populate`, `findByIdAndUpdate`, `$push`/`$pullAll` semantics (including MongoDB refusing a `$push` and `$pullAll` on the same path), `countDocuments`, and the regular-expression user search are left out. The model stops at the arguments handed to the store.
- `sortUsers` is opaque: a sorted reply names the relation, field and order handed to it, not the sorted list.
- HTTP status codes, response bodies' wording, `async` control flow and every `catch` path that answers 500 or 400 on an exception are not modelled.
- A missing owner document in PUT /user (`user_` null) throws a TypeError, which the 500 path catches, when an add key holds a non-empty array, because the filter reads `user_`. With only remove keys, only plain keys, or empty add arrays, the source still calls `findByIdAndUpdate`. The model assumes the owner exists.
- `UpdateBuilder.Kept`: membership in the owner's array is value equality. Mongoose's `includes` on an id array also matches an id given as a string, and the model does not capture that.
- Numbers are integers: JSON floating-point values and the precision lost by `+s` on numerals beyond 2^53 are not modelled.
- `JsValue.LooselyFalse`: for a decimal literal with more than 20 significant digits, ECMAScript lets an implementation replace the digits after the 20th before rounding. The model rounds the literal's exact value, so it may differ from an engine only for such a literal lying right at 2^-1075.
- Query parameters given more than once (arrays from the query-string parser) are not modelled. In the sort branch they make `split` throw. Query parameters are strings, and an absent one is the empty string.
- `SearchPaging.PageOf`: the order in which the store returns matches is taken as given.
