# doog engine — a Dafny model

doog is a Node.js framework that turns model definitions into a REST API. A model
definition holds a schema, hidden fields, hooks, instance methods and custom endpoints.
Each `BaseModel` is built against a storage adapter: the in-memory adapter or the Mongoose
adapter. Building a model installs one hooked function per storage operation. Each function
runs the *before* hooks, calls the adapter, runs the *after* hooks and attaches the
instance methods. The REST layer routes requests to these functions behind an
access-token check.

This project models that engine in Dafny and proves properties of the model:

- `hooks.dfy` (module `OperationHooks`): the hook pipeline `runNext`, as a specification
  function and a loop proved against it.
- `base_model.dfy` (module `Models`), the Model–Adapter–Hook core:
  - the operation table;
  - the hook queues and the query/data context of each operation;
  - the hooked invocation;
  - instance methods;
  - hidden-field filtering;
  - endpoint registration, validation, argument gathering and the id pattern in paths;
  - the `BaseModel` object itself, as the class `Models.Model`.
- `memory_adapter.dfy` (module `Memory`):
  - the in-memory adapter as a class whose database field its operations update;
  - query matching with the `$gt/$gte/$lt/$lte/$in/$nin/$ne` operators;
  - defaults and required fields;
  - the uniqueness check;
  - id handling.
- `mongoose_adapter.dfy` (module `Mongoose`): the parts of the Mongoose adapter that do not
  talk to the driver. These are the connection string, the id test, the schema mapping,
  `idReplace`, the bulk-query guards and the count extraction.
- `regularize.dfy` (module `Regularize`): the schema-driven cast of incoming data.
- `errors.dfy` (module `Errors`): the error constructors and the error responder.
- `access_token.dfy` and `token_auth.dfy` (modules `AccessTokens`, `TokenAuth`): token
  lifetime and the token middleware.
- `rest.dfy` (module `Rest`): the routes the router receives, the input clean-up, the 404
  messages and each standard handler's branches.
- Support modules:
  - `wrappers.dfy`: `Option`/`Result`;
  - `strings.dfy`: lower-casing, split/join, `indexOf`, first replacement, digits;
  - `values.dfy`: the JavaScript value model.

JavaScript values are a datatype: `undefined`, `null`, booleans, integers, strings,
dates, arrays, objects and named functions. Truthiness and `===` follow the language.
Objects, arrays, dates and functions are never `===` to a freshly built value.

Some parts of the runtime need floating point, time zones or a regular-expression engine:
`Number(string)`, `String(date)`, a function's text, the ISO-date test and `new Date(s)`.
These are fields of a `Host` value that the caller passes in. The clock (`now`) and the
ObjectId test are parameters too.

Asynchronous results (promises) are modelled as `Result` values. A rejection or a throw
becomes `Err(failure)`, where a failure is an `Error(message, status, code)` or a bare
rejection reason.

## Model

| member | source | states |
|---|---|---|
| Strings.Lower | lib/models/BaseModel.js:269 | `toLowerCase` keeps the length and maps each character through the ASCII lower-case table |
| Strings.JoinSplit | lib/models/BaseModel.js:35 | splitting on a separator and joining again gives back the original string |
| Strings.SplitPiecesHaveNoSeparator | lib/models/BaseModel.js:35 | no piece of a split contains the separator |
| Strings.IndexFrom | lib/models/BaseModel.js:263 | the first occurrence at or after a position, or none at all |
| Strings.IndexOf | lib/models/BaseModel.js:263 | the first occurrence of a pattern: it occurs there, nowhere earlier, or nowhere at all |
| Strings.ReplaceFirst | lib/models/BaseModel.js:263 | `replace` with a string pattern rewrites only the first occurrence and leaves a string without one unchanged |
| Strings.DecimalText | lib/adapters/memory-adapter.js:37 | the decimal text of any integer contains a digit |
| Values.TypeTag | test/utils/utils.js:6-26 | `getType` gives a capitalised tag |
| Values.TypeTagIdentifiesKind | test/utils/utils.js:6-26 | the tag is one of Undefined, Null, Boolean, Number, String, Date, Array, Object, Function, and two values share a tag exactly when they are of the same kind |
| Values.NumberTextHasDigit | lib/adapters/memory-adapter.js:37 | a number's text always passes the `/\d+/` test |
| Errors.ClientErrorHandler | lib/utils/error.js:8-16 | the response status is the error's status when truthy and 500 otherwise; the body always carries the raw `status` and `message` |
| Errors.ErrorLogger | lib/utils/error.js:2-6 | the error passes on unchanged; it is logged exactly when the environment is not production |
| Errors.BadRequestError | lib/utils/error.js:20-26 | status 400, no code; the message is the given one, or "Bad request" when it is absent or empty |
| Errors.UnauthorizedError | lib/utils/error.js:28-34 | status 401; the message defaults to "Unauthorized" |
| Errors.NotFoundError | lib/utils/error.js:36-42 | status 404; the message defaults to "Not found" |
| Errors.PlainError | lib/utils/error.js:8-16 | a thrown `new Error(message)` has no status, so it falls to 500 |
| Errors.ConstructedErrorsKeepTheirStatus | lib/utils/error.js:8-42 | each constructed error is answered with its own status and message |
| Errors.StatuslessErrorIs500 | lib/utils/error.js:8-16 | a rejection reason, or an error without a status or with status 0, is answered with 500 |
| Regularize.CastToType | lib/utils/regularize-data.js:28-46 | `string` gives the text and `boolean` gives truthiness, except that the string "false" is false; a number cast fails (-1) exactly when `Number` gives NaN or -1 and otherwise gives that number; a date cast fails exactly when the ISO pattern does not match and otherwise gives the parsed date; any other type always fails; a successful cast has the requested type |
| Regularize.Regularized | lib/utils/regularize-data.js:3-26 | the result holds only keys both in the data and in the schema; a non-strict pass keeps every such key; a strict pass keeps exactly those whose value has the declared type or casts successfully; every kept value is the raw value or its cast |
| Regularize.RegularizeData | lib/utils/regularize-data.js:3-26 | the key loop computes exactly the regularised record |
| Regularize.MatchingTypeIsCopied | lib/utils/regularize-data.js:11-13 | a value already of the declared type is copied unchanged |
| Regularize.FailedCastHandling | lib/utils/regularize-data.js:14-22 | a failed cast drops the key in strict mode and keeps the raw value otherwise |
| Regularize.SuccessfulCastIsStored | lib/utils/regularize-data.js:14-22 | a value of another type whose cast succeeds is stored as the cast value, in both modes |
| Regularize.MinusOneIsTreatedAsFailure | lib/utils/regularize-data.js:17 | the string "-1" cast to number is taken for the failure sentinel: dropped when strict, kept as a string otherwise |
| Regularize.KeptValueIsFixed | lib/utils/regularize-data.js:7-22 | a value the regulariser keeps for a field is kept unchanged by a second pass |
| Regularize.RegularizeIdempotent | lib/utils/regularize-data.js:3-26 | regularising a regularised record changes nothing |
| OperationHooks.Pipeline | lib/hooks/operation-hooks.js:1-14 | no hooks resolve at once with the context; a first hook that passes an error rejects after one hook; a resolved run ran every hook, a rejected one between one and all |
| OperationHooks.RunFrom | lib/hooks/operation-hooks.js:6-12 | from hook `count` on, the run ends after at least `count` hooks, and resolves only after all of them |
| OperationHooks.RunHooks | lib/hooks/operation-hooks.js:1-14 | the loop over the hooks computes the specified pipeline outcome |
| OperationHooks.RunFromContextAt | lib/hooks/operation-hooks.js:6-12 | resuming at any reached hook with the context it receives gives the whole pipeline's outcome |
| OperationHooks.ContextAtPrefix | lib/hooks/operation-hooks.js:6-12 | a hook is reached only if every earlier hook was reached |
| OperationHooks.RunFromFromContext | lib/hooks/operation-hooks.js:6-12 | a resolved run ends with the context after the last hook; a rejected run stops at the hook that passed the error |
| OperationHooks.PipelineOutcome | lib/hooks/operation-hooks.js:1-14 | the pipeline resolves iff every hook continues; it then returns the final context, otherwise the first error; with no hooks it resolves with the context at once |
| OperationHooks.RunFromAppend | lib/hooks/operation-hooks.js:6-12 | running `a + b` runs `a`, then `b` on the context `a` resolved with |
| OperationHooks.RunFromShift | lib/hooks/operation-hooks.js:6-12 | running the tail of `a + b` is running `b` with the hook count offset by the length of `a` |
| OperationHooks.PipelineAppend | lib/hooks/operation-hooks.js:1-14 | the pipeline over concatenated hook lists is the two pipelines in sequence, stopping at the first rejection |
| Memory.CompareStrings | lib/adapters/memory-adapter.js:296-318 | string comparison answers -1, 0 or 1, and 0 exactly for equal strings |
| Memory.CompareStringsAntisymmetric | lib/adapters/memory-adapter.js:300-307 | comparing two strings the other way round negates the answer |
| Memory.Order | lib/adapters/memory-adapter.js:300-307 | the relational order answers -1, 0 or 1; two strings compare by characters and two numbers numerically |
| Memory.OrderAntisymmetric | lib/adapters/memory-adapter.js:300-307 | swapping the operands negates the order, so `$gt` one way is `$lt` the other and `$gte` is `$lte` |
| Memory.InList | lib/adapters/memory-adapter.js:308-311 | an array operand finds only a primitive equal to an element, never an object or array; an operand that is neither array nor string finds nothing |
| Memory.Compare | lib/adapters/memory-adapter.js:296-318 | an unknown operator or `$eq` holds exactly for equal primitive values, since objects compare by reference |
| Memory.CompareComplements | lib/adapters/memory-adapter.js:296-318 | `$nin` and `$ne` are the complements of `$in` and `$eq`; `$gte` and `$lte` are `$gt` and `$lt` or equal order |
| Memory.MatchItem | lib/adapters/memory-adapter.js:234-248 | the empty query matches any record; a matching record holds every plain query value at its key |
| Memory.SearchAll | lib/adapters/memory-adapter.js:225-232 | the filter returns no more records than it was given |
| Memory.RejectAll | lib/adapters/memory-adapter.js:191-194 | the kept records are stored records |
| Memory.FirstMatch | lib/adapters/memory-adapter.js:225-232 | `find` returns the first matching record, or none when nothing matches |
| Memory.SearchAllMembers | lib/adapters/memory-adapter.js:225-248 | a record is in the search result iff it is stored and matches the query |
| Memory.SearchAllAppend | lib/adapters/memory-adapter.js:225-232 | searching a concatenation is concatenating the searches, in storage order |
| Memory.FirstMatchIsFirstFound | lib/adapters/memory-adapter.js:225-232 | `find` finds nothing iff `filter` finds nothing, and otherwise finds the head of the filter's result |
| Memory.SearchRejectPartition | lib/adapters/memory-adapter.js:180-201 | matching and non-matching records split the collection exactly, so the delete count is the match count |
| Memory.EmptyQueryFindsAll | lib/adapters/memory-adapter.js:234-248 | the empty query matches every record |
| Memory.MatchSingle | lib/adapters/memory-adapter.js:234-248 | a one-key query matches iff that key matches |
| Memory.SingleOperator | lib/adapters/memory-adapter.js:239-243 | `{f: {op: v}}` matches iff the field compares to `v` under `op` |
| Memory.InOperator | lib/adapters/memory-adapter.js:296-318 | with an array operand, `$in` matches iff the field is `===` to a list element, and `$nin` iff it is not |
| Memory.InStringOperand | lib/adapters/memory-adapter.js:308-309 | with a string operand, `$in` is a substring search for the field's text |
| Memory.NumberFoundInString | lib/adapters/memory-adapter.js:308-309 | the age 12 matches `{$in: "123"}` |
| Memory.OperatorsConjoin | lib/adapters/memory-adapter.js:239-243 | every operator of an operator object must hold; an unknown operator means `===` |
| Memory.RemoveId | lib/adapters/memory-adapter.js:158-178 | deletion by id keeps only stored records whose id is not `===` to the given one |
| Memory.RemoveIdIsRejectById | lib/adapters/memory-adapter.js:158-178 | delete-by-id is delete-many with `{id}`, and the count is the number of records with that id |
| Memory.RemoveAbsentId | lib/adapters/memory-adapter.js:158-178 | deleting an id no record has leaves the collection unchanged |
| Memory.WithDefaults | lib/adapters/memory-adapter.js:252-262 | present fields are untouched; each added field is a schema field with a default |
| Memory.DefaultsAmongStep | lib/adapters/memory-adapter.js:256-261 | visiting one schema key adds its default exactly when the key has one and the data lacks it |
| Memory.DefaultsAmongAll | lib/adapters/memory-adapter.js:256-261 | after all schema keys are visited, the defaults gathered are all the defaults |
| Memory.VisitKey | lib/adapters/memory-adapter.js:256-266 | one key of the walk: the default goes in exactly when the key is a descriptor with a default and the data lacks it; the key is a missing required field exactly when it is required, has no default and is absent |
| Memory.ProcessPost | lib/adapters/memory-adapter.js:252-269 | succeeds iff no required field without a default is missing; then returns the data with the defaults filled in, otherwise fails naming a missing required field |
| Memory.CheckUniqueness | lib/adapters/memory-adapter.js:271-286 | fails iff some present field flagged `unqiue` has a stored record matching `{key: value}`, naming one such field |
| Memory.UniquenessIgnoresProperFlag | lib/adapters/memory-adapter.js:277-281 | while no record stores a field named `key`, the uniqueness check never fails for plain values |
| Memory.ConformingRecordsLackKey | lib/adapters/memory-adapter.js:277-281 | records that keep to a schema without `key` have no `key` field |
| Memory.WellFormedIsCastable | lib/utils/regularize-data.js:9 | a schema whose every entry names a type can regularise any data |
| Memory.StoreConforms | lib/adapters/memory-adapter.js:85-101 | replacing one collection with conforming records keeps the database conforming |
| Memory.AppendConforms | lib/adapters/memory-adapter.js:85-101 | appending a conforming record keeps the collection conforming |
| Memory.MergeConforms | lib/adapters/memory-adapter.js:132-156 | merging a conforming update into every match keeps the collection conforming |
| Memory.UpdateAtConforms | lib/adapters/memory-adapter.js:103-130 | merging a conforming update into one record keeps the collection conforming |
| Memory.StampedConforms | lib/adapters/memory-adapter.js:85-101 | a strictly regularised record plus a time stamp conforms to its schema |
| Memory.Stamped | lib/adapters/memory-adapter.js:85-101 | the stored record carries the new numeric id and the creation date, and has no other fields than the data's |
| Memory.UpdateNotFound | lib/adapters/memory-adapter.js:115-120 | the update not-found error carries code 404 but no `status`, so the responder answers 500 |
| Memory.HasValidId | lib/adapters/memory-adapter.js:35-39 | a query without an id, or with a numeric id, passes the id test |
| Memory.MergeMatching | lib/adapters/memory-adapter.js:145-150 | each matching record gets the update merged over it, and every other record is unchanged |
| Memory.CreateRecord | lib/adapters/memory-adapter.js:85-101 | data that strict regularisation empties is rejected untouched; otherwise the id counter advances, `id` and `created` are stamped, defaults are filled, and the required and uniqueness checks decide; a missing required key fails with that key's `RequiredError`, and otherwise a clash fails with a clashing key's `UniqueError`; only success appends, and exactly the returned record; the collection stays conforming |
| Memory.MemoryAdapter.constructor | lib/adapters/memory-adapter.js:7-14 | id type "number", id pattern `\d+`, no database yet |
| Memory.MemoryAdapter.AddConnection | lib/adapters/memory-adapter.js:17-21 | creates an empty database only when there is none |
| Memory.MemoryAdapter.DropDatabase | lib/adapters/memory-adapter.js:29-33 | the database becomes empty and the definitions stay |
| Memory.MemoryAdapter.AddModel | lib/adapters/memory-adapter.js:41-49 | the definition is recorded with `id` of the id type; the collection starts empty, and the call fails when no database exists |
| Memory.MemoryAdapter.Find | lib/adapters/memory-adapter.js:51-64 | an unknown collection fails; otherwise every record matching the regularised query, in order |
| Memory.MemoryAdapter.FindOne | lib/adapters/memory-adapter.js:66-72 | the first record matching the regularised query, or none |
| Memory.MemoryAdapter.FindById | lib/adapters/memory-adapter.js:74-83 | the first record whose regularised id matches |
| Memory.MemoryAdapter.Create | lib/adapters/memory-adapter.js:85-101 | an unknown collection fails; otherwise the named collection changes as `CreateOutcome` states (including which `RequiredError` or `UniqueError` a failure carries) and no other collection changes |
| Memory.MemoryAdapter.Update | lib/adapters/memory-adapter.js:103-130 | not found fails with the 404 error and a clash fails with a clashing key's `UniqueError`, both before any write; otherwise the first match is merged with the stamped strict regularisation and returned |
| Memory.MemoryAdapter.UpdateMany | lib/adapters/memory-adapter.js:132-156 | an empty query fails with the usage error; a clash fails with a clashing key's `UniqueError` and changes nothing; otherwise every match is merged and the count is the number of matches |
| Memory.MemoryAdapter.MergeAll | lib/adapters/memory-adapter.js:145-155 | the loop merges every match and counts them |
| Memory.MemoryAdapter.Delete | lib/adapters/memory-adapter.js:158-178 | removes every record with the regularised id and returns how many went |
| Memory.MemoryAdapter.DeleteMany | lib/adapters/memory-adapter.js:180-201 | an empty query fails; otherwise removes every match and returns their number |
| Mongoose.ConnectionString | lib/adapters/mongoose-adapter.js:22-24 | `mongodb://host[:port]/database`, with the port only when truthy |
| Mongoose.ConnectionStringShape | lib/adapters/mongoose-adapter.js:22-24 | the string starts with `mongodb://` and ends with `/` and the database name |
| Mongoose.HasValidId | lib/adapters/mongoose-adapter.js:49-54 | `_id` is tested when present, else `id`, else the query passes |
| Mongoose.TypeDictionary | lib/adapters/mongoose-adapter.js:184-191 | only the six lower-case type names have a constructor |
| Mongoose.OrFalse | lib/adapters/mongoose-adapter.js:204-210 | `x \|\| false` |
| Mongoose.MapField | lib/adapters/mongoose-adapter.js:195-213 | a known type name maps to its constructor; a name known only once lower-cased (`"String"`) maps to `undefined`; an unknown name maps to an untyped optional field; a descriptor keeps its type, `required`/`unique` default to false and a default is copied |
| Mongoose.LowerOfKey | lib/adapters/mongoose-adapter.js:198-200 | a dictionary key is already lower case |
| Mongoose.CapitalisedShorthandIsUndefined | lib/adapters/mongoose-adapter.js:198-200 | "String" passes the lower-cased test but looks up the exact key, so it maps to `undefined`; "string" maps to the constructor |
| Mongoose.MappedProperties | lib/adapters/mongoose-adapter.js:182-215 | every property is mapped and no other |
| Mongoose.MapPropertiesToMongoose | lib/adapters/mongoose-adapter.js:182-215 | the loop computes the mapped properties |
| Mongoose.CleanDocument | lib/adapters/mongoose-adapter.js:226-230 | `_id` and `__v` are gone and every other field but `id` is kept |
| Mongoose.IdReplace | lib/adapters/mongoose-adapter.js:217-232 | falsy input is returned as is; arrays are mapped element by element; documents are cleaned |
| Mongoose.IdReplaceCleans | lib/adapters/mongoose-adapter.js:217-232 | no `_id` or `__v` survives anywhere in the result |
| Mongoose.IdFallsBackToObjectId | lib/adapters/mongoose-adapter.js:228 | a truthy `id` is kept, otherwise a truthy `_id` becomes the `id` |
| Mongoose.IdReplaceIdempotent | lib/adapters/mongoose-adapter.js:217-232 | replacing ids twice is replacing them once |
| Mongoose.BulkQueryGuard | lib/adapters/mongoose-adapter.js:119-121 | bulk operations reject exactly a query that is not an object or has no keys, with the usage message |
| Mongoose.UpdateCount | lib/adapters/mongoose-adapter.js:128-131 | the count is `nModified` when the result and it are truthy, else 0 |
| Mongoose.DeleteCount | lib/adapters/mongoose-adapter.js:142-149 | a null or undefined result fails; otherwise the count is `result.n` when truthy, else 0 |
| Mongoose.MongooseAdapter.constructor | lib/adapters/mongoose-adapter.js:11-17 | id type "string" and the 24-hex-digit id pattern |
| Mongoose.MongooseAdapter.AddConnection | lib/adapters/mongoose-adapter.js:20-36 | stores the connection string and connects |
| Mongoose.MongooseAdapter.CloseConnection | lib/adapters/mongoose-adapter.js:38-42 | disconnects, keeping everything else |
| Mongoose.MongooseAdapter.AddModel | lib/adapters/mongoose-adapter.js:56-61 | fails without a connection; skips an already registered model; otherwise registers the mapped schema with `id` of the id type |
| AccessTokens.Seconds | lib/models/AccessToken.js:5-6 | `Math.floor(ms / 1000)` |
| AccessTokens.IsAlive | lib/models/AccessToken.js:3-8 | a live token is never past its creation instant plus its ttl in seconds (truncation only shortens the life) |
| AccessTokens.ExpiresAtMs | lib/models/AccessToken.js:5-7 | expiry falls on a whole second |
| AccessTokens.AliveUntilExpiry | lib/models/AccessToken.js:3-8 | a token is alive exactly before its expiry instant |
| AccessTokens.AliveIsMonotone | lib/models/AccessToken.js:3-8 | a token alive now was alive at every earlier instant |
| AccessTokens.NoLifetimeIsDead | lib/models/AccessToken.js:7 | a token with a ttl of zero or less is dead from its creation on |
| AccessTokens.TruncationShortensLife | lib/models/AccessToken.js:5-7 | truncating to seconds shortens a lifetime: a 1-second token made at 1.999 s is dead at 2 s |
| TokenAuth.IsValidTokenFormat | lib/utils/token-auth.js:26-32 | the adapter's id test on `{id: token}`, or true without one |
| TokenAuth.FindToken | lib/utils/token-auth.js:20 | a found token is never `null` or `undefined` (binding `isAlive` would throw); without find hooks it is the adapter's lookup with `isAlive` bound, or its error |
| TokenAuth.IsValidToken | lib/utils/token-auth.js:17-24 | a falsy or malformed token is invalid without a lookup; otherwise the hooked `findById` (which binds `isAlive`) must give a truthy record that is alive, and a failed lookup propagates |
| TokenAuth.TokenMiddleware | lib/utils/token-auth.js:3-15 | an exposed endpoint passes through; otherwise a valid token passes, with `access_token` removed from the query, and anything else is denied as unauthorized |
| TokenAuth.ProceedsOnlyWithLiveToken | lib/utils/token-auth.js:3-24 | a protected request passes iff its token is well formed and the lookup gives a truthy, live record, and it passes only with the token removed and the rest of the query unchanged |
| TokenAuth.MalformedTokenNeverReachesStore | lib/utils/token-auth.js:19 | a missing or malformed token is refused whatever the token store holds |
| TokenAuth.DenialIsUnauthorizedOrLookupFailure | lib/utils/token-auth.js:3-15 | only protected endpoints deny, and only with 401 or the lookup's own error |
| TokenAuth.UnknownTokenIsLookupError | lib/utils/token-auth.js:3-24 | a token the adapter does not find is denied with the TypeError of binding `isAlive` onto nothing, answered 500, never 401 |
| Models.OpNamed | lib/models/BaseModel.js:95-98 | looking up an operation by name finds the one with that name, or none exists |
| Models.OperationTable | lib/models/BaseModel.js:327-405 | each of the eight operations is found again by its name; its hook events (`find`, `save`, `delete`, or none for updateMany); it returns instances iff it is a read, create or update; it is in the operation list |
| Models.ConcatOperationHooks | lib/models/BaseModel.js:286-293 | no events give no hooks; one event gives that event's queue |
| Models.ConcatOperationHooksAppend | lib/models/BaseModel.js:286-293 | the hooks of concatenated event lists are the hooks of each list in order |
| Models.AppendedHookRunsLast | lib/models/BaseModel.js:42-44 | a newly hooked function runs after those already queued for the event |
| Models.DeleteManySharesDeleteHooks | lib/models/BaseModel.js:327-405 | `deleteMany` runs the `delete` hooks, and `updateMany` runs none |
| Models.QueryContext | lib/models/BaseModel.js:296-307 | id-keyed operations get a fresh truthy `{id: args[0]}`; the others get `args[0]` itself, shared when it is an object or array |
| Models.DataContext | lib/models/BaseModel.js:309-315 | create gets `args[0]`, update `args[1]`, the rest a fresh `{}`; only an object or array is shared |
| Models.ArgsAfterHooks | lib/models/BaseModel.js:317-324 | only the first two arguments can change; for id-keyed operations a truthy query's `id` becomes `args[0]`, and a falsy one leaves it |
| Models.SetArg | lib/models/BaseModel.js:321 | writing one argument changes that position and no other |
| Models.OnlyQueryIdIsWrittenBack | lib/models/BaseModel.js:317-324 | for id-keyed operations only the hooked query's `id` reaches the adapter |
| Models.UntouchedContextKeepsArgs | lib/models/BaseModel.js:296-324 | hooks that change nothing leave the adapter's arguments unchanged |
| Models.Bind | lib/models/BaseModel.js:277-283 | binding adds exactly the instance-method names to an object; on null or undefined it fails unless there are no methods |
| Models.BindAll | lib/models/BaseModel.js:272-284 | every element is bound, or some element could not be |
| Models.ApplyInstanceMethods | lib/models/BaseModel.js:272-284 | an array binds iff every element binds, keeping its length; an object gains exactly the method names; with methods, a result is never `null` or `undefined` |
| Models.NullishCannotTakeMethods | lib/models/BaseModel.js:277-282 | with methods to bind, `null` and `undefined` results are TypeErrors |
| Models.NoMethodsBindNothing | lib/models/BaseModel.js:272-284 | with no instance methods the result is returned unchanged |
| Models.UpdateManyBypassesHooks | lib/models/BaseModel.js:120-121 | an operation without events calls the adapter directly |
| Models.Invoke | lib/models/BaseModel.js:109-152 | an operation without events is the adapter call; a before-hook error is the result; for an operation with events and instance methods, a resolved call is never `null` or `undefined` |
| Models.AdapterErrorIsCallError | lib/models/BaseModel.js:137-150 | an adapter error is the call's error, and neither the after-hooks nor the instance methods affect it |
| Models.AfterHookErrorIsCallError | lib/models/BaseModel.js:141-150 | an after-hook error is the call's error |
| Models.ResolvedCallBindsAfterData | lib/models/BaseModel.js:141-150 | when every hook continues, the value is the instance methods bound onto the after-hooks' `ctx.data`, which starts as the adapter result |
| Models.NoAfterHooksReturnsBound | lib/models/BaseModel.js:133-150 | without after-hooks the value is the adapter result with the instance methods bound |
| Models.BeforeErrorSkipsAdapter | lib/models/BaseModel.js:137-140 | a before-hook error is the result, and the adapter is never consulted |
| Models.NoHooksIsAdapterCall | lib/models/BaseModel.js:109-152 | with empty queues and no instance methods a hooked call is the adapter call |
| Models.HiddenFields | lib/models/BaseModel.js:27-30 | exactly the defined keys whose entry has `hidden === true` |
| Models.AuthorDecidesHidden | lib/models/BaseModel.js:23-30 | a property the model defines is hidden iff its own definition says so |
| Models.FilterHidden | lib/models/BaseModel.js:73-90 | non-containers pass; each array element is filtered in place of itself; an object keeps every non-hidden key with its value, and a hidden key exactly when its value is falsy |
| Models.FilterHiddenSound | lib/models/BaseModel.js:73-90 | no truthy hidden field survives; every object at every array depth loses exactly its truthy hidden fields and keeps the rest unchanged; filtering twice is filtering once |
| Models.PrunedIsFiltered | lib/models/BaseModel.js:73-90 | the filtered value is the only value related to the input that way, so that relation is an exact characterisation |
| Models.RestHidesHiddenFields | lib/models/BaseModel.js:92-107 | a successful `rest` call of an instance-returning operation exposes no hidden field with a truthy value |
| Models.CheckTypeByTag | lib/models/BaseModel.js:267-270 | `checkType(v, t)` iff the lower-case spelling of `v`'s tag equals `t` lower-cased |
| Models.LowerOfLowerTag | lib/models/BaseModel.js:267-270 | the lower-cased type tag is already lower case |
| Models.TagLowersToLowerTag | lib/models/BaseModel.js:267-270 | lower-casing the type tag gives the lower-case tag |
| Models.CheckTypeStringObject | lib/models/BaseModel.js:267-270 | `checkType(v, 'string')` iff `v` is a string, `'object'` iff a plain object |
| Models.NonEmptyStringCheck | lib/models/BaseModel.js:202-208 | the option test is a truthy value whose type is string |
| Models.ValidateArgs | lib/models/BaseModel.js:211-218 | argument descriptors pass iff each names its argument and its type with non-empty strings |
| Models.ValidateEndpointOptions | lib/models/BaseModel.js:200-219 | the options pass iff name, http, verb and path are present with the right types and the arguments are valid; an array or date has no own `name`, and a function has a `name` but no `http` |
| Models.AddIdRegexToPath | lib/models/BaseModel.js:260-265 | the adapter's id pattern is inserted after the first `:id`, and a path without one is unchanged |
| Models.IdRegexFollowsFirstId | lib/models/BaseModel.js:260-265 | the path grows by the pattern's length; everything up to the first `:id` and everything after it is kept |
| Models.BuildEndpoint | lib/models/BaseModel.js:181-195 | the path is the lower-cased model name plus the path with the id pattern; the verb is lower-cased; `exposed` is copied |
| Models.GatherArgs | lib/models/BaseModel.js:243-255 | succeeds iff every argument is present when required and of its declared type, then yields each value read from the path or body; otherwise throws the required or type error of the first rejected argument |
| Models.AbsentOptionalArgIsRejected | lib/models/BaseModel.js:251-252 | a missing optional argument is still rejected by the type check unless its type is "undefined" |
| Models.WrapEndpoint | lib/models/BaseModel.js:224-237 | the first rejected argument's error goes to the error responder; a reply is 200 and only after every argument is accepted, and then carries the function's result, whose error is forwarded otherwise |
| Models.BuiltSlots | lib/models/BaseModel.js:61-70 | every installed slot is named after an operation |
| Models.BuiltSlotsSnoc | lib/models/BaseModel.js:61-70 | building one more operation installs its slot last |
| Models.UnsupportedMessage | lib/models/BaseModel.js:407-413 | the message starts with the operation's name and ends with the adapter's name |
| Models.SlotsStep | lib/models/BaseModel.js:61-70 | each loop step installs one operation's slot over the current ones |
| Models.BuildBindsEveryOperation | lib/models/BaseModel.js:61-70 | after building, every operation is bound: to its hooked adapter function when the adapter provides it, else to the unsupported-operation error |
| Models.Model.constructor | lib/models/BaseModel.js:6-31 | the properties are the base schema overridden by the model's; hidden fields are computed from them; queues and methods start empty |
| Models.Model.Hook | lib/models/BaseModel.js:33-45 | `"before op"`/`"after op"` appends to that queue; a descriptor missing either word is ignored; an unknown phase is an error |
| Models.Model.AddInstanceMethod | lib/models/BaseModel.js:47-50 | the name joins the instance methods |
| Models.Model.Build | lib/models/BaseModel.js:52-71 | the operation slots are set as building specifies; hooks, methods and endpoints are untouched |
| Models.Model.FilterHiddenProps | lib/models/BaseModel.js:73-90 | the recursive filter computes the specified filtering |
| Models.Model.Call | lib/models/BaseModel.js:52-178 | an unbuilt operation fails; a built one is the hooked invocation; an unsupported one throws "X is not supported by adapter Y"; a custom endpoint registered under the name runs its function |
| Models.Model.Rest | lib/models/BaseModel.js:92-107 | the call's own result: errors pass through, instance results lose exactly their truthy hidden fields and nothing else, other results are unchanged |
| Models.Model.RegisterEndpoint | lib/models/BaseModel.js:170-178 | without a function it fails; a primitive `options` fails with the TypeError of setting `modelName` on it; other options fail exactly as validation does; every failure changes nothing; otherwise a public endpoint is recorded unless private, and the name is bound to the function |
| Rest.RestRoute | lib/setup/rest.js:104-200 | each standard route is protected (`exposed: false`) and runs its own handler |
| Rest.PathText | lib/setup/rest.js:41 | every route is registered below the base URL `/api/` |
| Rest.StandardPaths | lib/setup/rest.js:106-185 | the collection path is `/api/` plus the lower-cased name; the record path adds `/:id` and the fixed 24-hex-digit pattern |
| Rest.ModelRoutes | lib/setup/rest.js:60-64 | five routes per model, in the order get, get-by-id, post, patch, delete |
| Rest.RestRoutesAppend | lib/setup/rest.js:50-65 | the routes of two lists of models are the routes of each, in order |
| Rest.RestRoutesSnoc | lib/setup/rest.js:50-65 | each further model adds its own standard routes at the end |
| Rest.RestRoutes | lib/setup/rest.js:47-65 | every standard route is protected, runs a standard handler, and belongs to a built model |
| Rest.ServedCount | lib/setup/rest.js:52-53 | no more served models than configured ones |
| Rest.RestRouteCount | lib/setup/rest.js:47-65 | exactly five standard routes per public, built model |
| Rest.RestRoutesAreProtected | lib/setup/rest.js:47-65 | every standard route is protected and belongs to a configured model that is public and built |
| Rest.StandardRoutesOfOneModel | lib/setup/rest.js:104-200 | the verbs, paths and handlers of the five routes, all protected; a private or unbuilt model gets none |
| Rest.EndpointRoutes | lib/setup/rest.js:31-34 | one route per public endpoint, in order |
| Rest.CustomRoutesAppend | lib/setup/rest.js:22-36 | custom routes of two lists of models are the routes of each, in order |
| Rest.CustomRoutesSnoc | lib/setup/rest.js:24-35 | each further model adds its own custom routes at the end |
| Rest.CustomRoutes | lib/setup/rest.js:22-36 | every custom route runs a custom endpoint's handler |
| Rest.CustomRoutesIgnorePublicFlag | lib/setup/rest.js:22-36 | custom endpoints are routed whether or not the model is public |
| Rest.Router.constructor | lib/setup/rest.js:11 | a new router has no routes |
| Rest.Router.AttachModelRoutes | lib/setup/rest.js:60-64 | the verb loop appends one model's five routes, in order |
| Rest.Router.AttachEndpoints | lib/setup/rest.js:31-34 | the endpoint loop appends one route per public endpoint, in order |
| Rest.Router.BuildRestEndpoints | lib/setup/rest.js:47-65 | the loops append exactly the standard routes |
| Rest.Router.BuildCustomEndpoints | lib/setup/rest.js:22-42 | the loops append exactly the custom routes |
| Rest.BuildRouter | lib/setup/rest.js:9-17 | the standard routes come before the custom ones |
| Rest.StripInviolables | lib/setup/rest.js:84-92 | the loop deletes exactly a truthy `id` and a truthy `_id` |
| Rest.StrippedKeepsTheRest | lib/setup/rest.js:84-92 | other keys and falsy ids survive, truthy ids do not; this is hidden-field filtering with `id` and `_id` hidden |
| Rest.Error404Message | lib/setup/rest.js:96-101 | the id is named only when truthy |
| Rest.AdapterNotFoundMatchesRoute | lib/adapters/memory-adapter.js:115-120 | the in-memory update error words its message like the REST layer's 404 |
| Rest.NotFoundResponds404 | lib/setup/rest.js:96-101 | a REST 404 is answered with 404 and its message |
| Rest.IsValidId | lib/setup/rest.js:78-82 | without an adapter test every id is valid |
| Rest.GetAllHandler | lib/setup/rest.js:109-126 | an invalid id gives 200 `[]`; an unbuilt model a 404; otherwise the found data, with `[]` for a falsy result, or the error |
| Rest.IdRouteGuard | lib/setup/rest.js:134-135 | an unbuilt model is a 404 without the id; an invalid id a 404 naming it; otherwise no error |
| Rest.GetByIdHandler | lib/setup/rest.js:127-147 | after the guards, a falsy result is a 404 and anything else is sent as returned |
| Rest.GetByIdSendsHiddenFields | lib/setup/rest.js:127-147 | get-by-id sends a record's truthy hidden field, which the collection route filters out |
| Rest.PostHandler | lib/setup/rest.js:148-161 | the created record or the error; an unbuilt model fails |
| Rest.PatchHandler | lib/setup/rest.js:162-180 | after the guards, only a `null` result is a 404 |
| Rest.DeleteHandler | lib/setup/rest.js:181-198 | after the guards, the result or the error is sent |
| Rest.InvalidIdSkipsQuery | lib/setup/rest.js:116 | an invalid id answers `[]` whatever the model would have found |
| Rest.PatchAnswers404OnlyForNull | lib/setup/rest.js:127-180 | `undefined` from an update is sent as success, where get-by-id turns it into a 404 |
| Rest.MemoryIdWithoutDigitIs404 | lib/setup/rest.js:135 | with the in-memory adapter, an id without a digit is a 404 naming it |
| Rest.UnauthenticatedStandardRouteIs401 | lib/utils/token-auth.js:3-15 | any standard route without a token is answered 401 with `{error: {status: 401, message: "Unauthorized"}}` |

## Left out

- Asynchrony. Promises become `Result` values, so a hook that never calls `next` is not
  modelled. Neither is the difference between a synchronous throw and a rejected promise.
- Numbers are integers only. Floating point, `NaN` and number formatting come from the
  `Host` parameter: `Number(string)`, `String(date)`, the ISO-date regular expression and
  `new Date(string)`.
- Aliasing. Records are values. A record the in-memory adapter returns is not the stored
  object, so mutating a returned record does not change the store. In the program it is
  the stored object, and two consequences are lost: a REST read through `rest()` runs
  `filterHiddenProps`, which deletes every truthy hidden field (a user's `password`) from
  the store itself; and `applyInstanceMethods` writes the bound instance methods onto the
  stored records. `Slot.isArgument` marks where a hook context shares the caller's
  argument object. Only the `id` written back by `deQueryContext` reaches the adapter.
- The JSON clone of the arguments in `addMethod` (lib/models/BaseModel.js:114-118) is a
  value copy, which differs from the program in three ways. A top-level argument that is
  `undefined` or a function makes `JSON.parse` throw a SyntaxError before any hook or
  adapter runs; the model passes it on. Nested `undefined` values and functions are
  dropped by the program and kept by the model. Dates become ISO strings in the program
  and stay dates in the model.
- Key order. JavaScript visits schema keys in insertion order. Maps have no order, so when
  several required fields are missing, or several fields clash, `Memory.CreateOutcome`,
  `Memory.MemoryAdapter.Update` and `Memory.MemoryAdapter.UpdateMany` state that the error
  is the `RequiredError` of some missing key or the `UniqueError` of some clashing key,
  not which of them comes first in insertion order.
- `$in`/`$nin` with an operand that is neither an array nor a string (a number, an
  object, `null`) throw a TypeError in JavaScript. The model treats such an operand as an
  empty list. A string operand is modelled: it is a substring search.
- Memory.MemoryAdapter.Create: the clock is the parameter `now`; the id comes from the
  collection counter, and creation is stated through `Memory.CreateOutcome`.
- The base schema of every model lives in `BaseModel.json`, which is not part of this
  model; it is a parameter of `Models.Model.constructor`.
- The model's `logic` function and user code are not modelled, and neither are hook
  bodies beyond their `Continue`/`Abort` result. `User.js`, the setup, bootstrap and
  database scripts are not part of this model either.
- Express, `mongo-sanitize`, the Mongoose driver calls, Mongoose's `dropDatabase` and
  its pre-save hook, and `mongoose.Types.ObjectId.isValid` are not modelled. The last is
  a parameter.
- Mongoose.MapPropertiesToMongoose: the throw for a descriptor without `type` is not
  modelled. Every mapped descriptor is given a `type` key first, so that throw cannot
  happen.
- Models.Model.Build: the adapter's `addModel` call happens in the adapter classes.
  `provided` is the set of operations the adapter implements.
- Models.ApplyInstanceMethods: binding onto array elements in place is modelled as
  rebuilding the array.
- Custom endpoint function bodies are parameters (`AdapterFn`).
- Rest.GetByIdHandler, Rest.PatchHandler, Rest.DeleteHandler, Rest.PostHandler and
  Rest.GetAllHandler take the model's operations as function parameters. The model class
  itself is not threaded through the handlers.
- Memory.MemoryAdapter.AddModel: requires every schema entry to name its type with a
  string. The program accepts any schema; a later find, create or update that touches an
  untyped field then throws a TypeError from `type.toLowerCase()`, which the model does not
  capture.
- Strings.Lower: lower-cases ASCII letters only. JavaScript's `toLowerCase` follows
  Unicode and can change a string's length.
- Hook bodies: `Abort` stands for `next` called with a truthy error. A hook calling
  `next(null)`, `next(0)` or `next("")` continues the pipeline, and is a `Continue` in the
  model.
- Models.Model.Call: a custom endpoint's function is a parameter (`custom`), looked up by
  the name it was registered with.
- TokenAuth.TokenStore: how a stored token record reads as a creation instant and a ttl
  (`new Date(this.created)`, `this.ttl`) is a parameter (`tokenOf`).
- Models.Model.Hook: a phase naming a property every object inherits (`constructor`,
  `toString`) does not throw in JavaScript; the hook is stored on that inherited value.
  The model reports an error for every phase other than `before` and `after`.
