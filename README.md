# Time-API request logic in Dafny

Time-API is a hapi HTTP server in front of the `time-core` time-tracking
package. The server owns very little state of its own. What it does own is a
set of decisions that it makes once per request:

- **Ownership walk.** A user may touch an entry or a category only through an
  account that lists them. The walk goes user → account (`userIDs`) →
  category → entry. An import request belongs to the user who created it.
- **Error translation.** Every error the store throws is turned into one HTTP
  outcome: 400, 401, 404, 409 or 500. The order of the checks decides which
  error wins.
- **Handlers.** Entries (log an event, start or stop a range, search, partial
  update), categories (create, list, move, delete), accounts, users, and the
  OAuth token endpoint together with the Bearer-token scheme.
- **Route table.** It is built from the handler modules. Each exported method
  configuration is tagged `api` in place and loses its `path`.
- **Response formatters.** They rename time-core's camel-case fields into
  snake-case JSON.

The model treats `time-core` as an abstract store, `TimeCore.Store`. The store
has one table per entity. Each key either holds a row or fails with an error
value: `NOT_FOUND`, or any other error. Every call into time-core that has an
effect is a parameter of the operation that makes it. The model covers these
calls: `logFor`, `startFor`, `stopFor`, `save`, `delete`, `verify`,
`setPassword`, `findForUser`, `findFor`, `findForAccount` and `Token.verify`.

A hapi response is an `Http.Outcome`: `Ok(value)`, `BadRequest(message)`,
`Unauthorized(message)`, `NotFound`, `Conflict` or `ServerError`. An error
that is not a boom error and escapes a handler is answered by hapi with 500,
so the model shows it as `ServerError`.

JavaScript truthiness is modelled explicitly in `Js.Truthy`. It matters,
because the id `0` and the string `""` are falsy, and the handlers test their
payload fields with `if (x)`. joi validation rules are predicates over the
payload datatypes. Each handler requires the rule its route declares.

Module layout: one module per source file (`Loader`, `Formatter`, `Routes`,
`Auth`, `Entries`, `EntriesId`, `Categories`, `CategoriesId`, `AccountsId`,
`Users`), plus four shared modules:

- `Js`: JavaScript values and truthiness;
- `Http`: the outcomes;
- `Seqs`: `filter` and the `concat` fold;
- `TimeCore`: entities, errors and the store.

Where the source changes state in place, the model does so too:

- `EntriesId.EntryDraft`, `CategoriesId.CategoryDraft` and `Users.User` are
  classes whose setters the handlers call.
- `Routes.HandlerModule.Register` rewrites a handler's configuration map.
- `Entries.DropFalsy` is the `forEach`/`delete` loop.

Each of these is proved against a function that specifies it.

## Model

| member | source | states |
|---|---|---|
| Loader.FetchCategory | lib/loader.js:4-26 | The category is returned iff it and its account can be read and the user is in the account's `userIDs`. 401 iff both exist but the user is not listed. 400 iff the category, or its account, is missing. 500 for every other store error. Never 404 or 409. |
| Loader.Translate | lib/loader.js:16-24 | A store error becomes 400 exactly when it is `NOT_FOUND`, and 500 otherwise. |
| Loader.FetchEntry | lib/loader.js:28-44 | Returns the entry itself, not its category, iff the entry exists and its category passes the walk. 400 iff the entry is missing, or it exists and its category or account is missing. 401 iff the entry exists and its category belongs to an account without the user. Any other error fetching the entry is rethrown, so the answer is 500. Once the entry exists, every error of the category check passes through unchanged. |
| Loader.FetchImport | lib/loader.js:46-65 | Succeeds iff the import exists and `userID` owns it. 401 iff it exists and belongs to someone else. 400 iff it is missing. |
| Loader.OutsiderIsUnauthorized | lib/loader.js:12-13 | A user outside an existing account gets status 401. |
| Loader.MissingCategoryIsBadRequest | lib/loader.js:7-21 | Membership is checked only after both fetches, so a missing category is a 400 for anyone. |
| Loader.ForeignEntryIsUnauthorized | lib/loader.js:33-41 | An entry in a category of another account yields the category check's 401. |
| Loader.JoiningTheAccountGrantsAccess | lib/loader.js:12-15 | Adding the user to the account's `userIDs` turns the 401 into the category. |
| Formatter.FormatEntry | lib/formatter.js:1-7 | The output has exactly the keys `id`, `type`, `category_id`, `started_at`, `ended_at`, holding the entry's fields. |
| Formatter.FormatCategory | lib/formatter.js:9-14 | The output has exactly the keys `id`, `parent_id`, `account_id`, `name`, holding the category's fields. A root category's `parent_id` is present and `null`, as time-core stores it. |
| Formatter.EntryRoundTrip | lib/formatter.js:1-7 | Reading the formatted entry back gives the original entry: the renaming loses nothing. |
| Formatter.CategoryRoundTrip | lib/formatter.js:9-14 | Reading the formatted category back gives the original category. |
| Formatter.FormatEntryInjective | lib/formatter.js:1-7 | Two entries with the same formatted object are equal. |
| Entries.TimezonePatternIsValidTimezone | handlers/entries.js:159 | The anchored timezone pattern, matched character by character, accepts exactly the non-empty strings of letters, digits, `/`, `_`, `-` and `+`. |
| Entries.ChooseCall | handlers/entries.js:129-135 | `logFor` iff the type is `event`. `startFor` iff the type is not `event` and the action is `start`. `stopFor` in every other case. |
| Entries.RangeFollowsAction | handlers/entries.js:129-158 | Under the payload rules, a range starts on `start` and stops otherwise. |
| Entries.UntypedPostStops | handlers/entries.js:133-158 | A valid payload without a type has no action and stops the open range. |
| Entries.PostError | handlers/entries.js:138-145 | `INVALID_ACTION` becomes 400 with "Unable to perform the desired action at this time". Every other error is 500. |
| Entries.Post | handlers/entries.js:118-146 | The category check comes first and its error wins. Only an authorized category reaches the entry store. The result is then the formatted entry of the chosen call, or that call's translated error. |
| Entries.ForeignCategoryPostIsUnauthorized | handlers/entries.js:121 | Whatever the entry store would answer, a POST to another account's category is a 401. |
| Entries.PermittedAccountIDs | handlers/entries.js:80-85 | Keeps exactly the user's account ids that the `account_id` list names, when one is given. The result is a subsequence, so the user's order is kept. |
| Entries.RawFilters | handlers/entries.js:87-95 | The filter object has exactly the seven search keys. |
| Entries.Compact | handlers/entries.js:96-98 | Exactly the truthy properties are kept, with their values. |
| Entries.DropFalsy | handlers/entries.js:96-98 | The in-place `forEach`/`delete` loop leaves exactly `Compact` of the object. |
| Entries.SearchFilterShape | handlers/entries.js:87-100 | `account_ids` is always kept, because an array is truthy even when empty. `deleted` survives iff it is `true`, and so does `showDeleted`. `category_ids` and `type` survive iff they were given. |
| Entries.Get | handlers/entries.js:78-106 | If `Account.findForUser` or `Entry.findFor` fails, the answer is 500. Otherwise it is the formatted entries that `findFor` gives for the compacted filter over the permitted accounts, one per entry and in order. |
| EntriesId.EntryDraft.SetCategory | handlers/entries-id.js:66 | Only the entry's category changes. |
| EntriesId.EntryDraft.SetType | handlers/entries-id.js:70 | Only the entry's type changes. |
| EntriesId.EntryDraft.SetStartedAt | handlers/entries-id.js:74 | Only the start time changes. |
| EntriesId.EntryDraft.SetEndedAt | handlers/entries-id.js:77-85 | The end time changes unless time-core's setter throws. The error is reported back. |
| EntriesId.UpdatedChangesOnlyGivenFields | handlers/entries-id.js:62-85 | The update overwrites exactly the fields the payload gives (the category only after authorization). Every other field and the id are unchanged. |
| EntriesId.Get | handlers/entries-id.js:49-55 | Succeeds iff the entry passes the walk, with the entry's formatted fields. Otherwise it gives `fetchEntry`'s error. |
| EntriesId.Put | handlers/entries-id.js:57-90 | `fetchEntry`'s error wins first, then the new category's `fetchCategory` error. Success only when both authorize. An `INVALID_STATE` from the end-time setter is 400 and any other error 500. A failed save is 500. Otherwise the response is the updated entry. |
| EntriesId.Delete | handlers/entries-id.js:103-109 | `{success: true}` iff the entry passes the walk and the delete succeeds. Otherwise `fetchEntry`'s error comes first. A delete that fails on an authorized entry escapes the handler, so the answer is 500. |
| CategoriesId.ValidateAccount | handlers/categories-id.js:45-49 | Succeeds iff the account lists the user. 401 iff it exists without them. An unreadable account is 500, because its error is not converted. |
| CategoriesId.Authorize | handlers/categories-id.js:52-56 | Any failure fetching the category is 404. Otherwise the outcome is `VALIDATE_ACCOUNT` on the category's account. |
| CategoriesId.AuthorizeStatuses | handlers/categories-id.js:54-56 | 404 for an unreadable category. For a readable one, 401 iff the user is outside its account. |
| CategoriesId.ValidatePut | handlers/categories-id.js:71-86 | Succeeds iff the user belongs to the target account (when `account_id` is given) and to the parent's account (when `parent_id` is given). The account check's error wins. Once it passes, a parent that cannot be read is 500, and a parent in a foreign account gives that account check's 401 or 500. The result carries the request payload unchanged plus the fetched parent. |
| CategoriesId.ForeignParentIsUnauthorized | handlers/categories-id.js:77-80 | A parent in an account the user is not in gives 401. |
| CategoriesId.CategoryDraft.SetName | handlers/categories-id.js:89 | Only the name changes. |
| CategoriesId.CategoryDraft.SetAccount | handlers/categories-id.js:90 | Only the account changes. |
| CategoriesId.CategoryDraft.SetParent | handlers/categories-id.js:91 | Only the parent changes. |
| CategoriesId.CategoryDraft.Save | handlers/categories-id.js:93-102 | On success the draft becomes the category time-core returns. On failure it is unchanged and the error is passed back. |
| CategoriesId.MovedChangesOnlyGivenFields | handlers/categories-id.js:88-91 | `HANDLE_PUT` changes the name, the account and the parent only when each is supplied. The id is kept. |
| CategoriesId.HandlePut | handlers/categories-id.js:88-105 | The in-place update hands exactly `Moved` to `save`. The response is the category as `save` leaves it, formatted (time-core may re-parent it), or the save error translated by `Categories.SaveError`. |
| CategoriesId.DeleteChildren | handlers/categories-id.js:108 | `delete_children` is true only when the payload is given and says `true`. A null payload or a missing key gives false. |
| CategoriesId.HandleDelete | handlers/categories-id.js:107-111 | `{success: true}` iff the delete, with that flag, succeeds. Otherwise 500. |
| CategoriesId.Handle | handlers/categories-id.js:51-69 | Authorization comes before method dispatch. GET returns the formatted category. PUT validates, then answers with the category as saved or the translated save error. DELETE deletes. Any other method is 500. |
| Categories.ListsAccount | handlers/categories.js:70-73 | The `reduce` is true iff some account of the user has the target id. |
| Categories.ValidatePost | handlers/categories.js:65-84 | 500 iff `Account.findForUser` fails. 401 iff the user holds no account with the target id. 400 iff they hold it but a given parent cannot be read. Otherwise it succeeds. |
| Categories.SaveError | handlers/categories.js:99-110 | The `catch` of `POST /categories`, and of `PUT /categories/{id}` (handlers/categories-id.js:95-102) as well. Only `INCONSISTENT_PARENT_AND_ACCOUNT` is 400 with the mismatch message. `NOT_FOUND`, `INSUFFICIENT_PARENT_OR_ACCOUNT` and everything else are 500. |
| Categories.Post | handlers/categories.js:86-111 | The pre-check's error wins. After it, `save` receives exactly the requested name, account and parent. The response is the category as `save` returns it, formatted (its new id, and the parent time-core chose when none was given), or the translated save error. |
| Categories.ForeignAccountBeforeParent | handlers/categories.js:70-83 | An account the user does not hold is 401, even when the parent is bad. |
| Categories.ForeignParentIsMismatch | handlers/categories.js:79-102 | A readable parent in another account passes the pre-check. The store's consistency error then gives 400 "Mismatched Parent and Account IDs". |
| Categories.PermittedAccounts | handlers/categories.js:48-50 | Keeps exactly the user's accounts that the `account_id` list names, when one is given, in the user's order. |
| Categories.CategoriesFor | handlers/categories.js:52-56 | When every `findForAccount` succeeds, the flattened list holds exactly the categories of the given accounts. Its length is the sum of the per-account counts. |
| Categories.CategoriesForSnoc | handlers/categories.js:52-56 | One more account appends its own categories at the end. Together with the empty case, this fixes the list as the accounts' categories, account after account. |
| Categories.Get | handlers/categories.js:44-59 | 500 iff `Account.findForUser` fails or `findForAccount` fails for a permitted account, since `Promise.all` then rejects. Otherwise the response is the formatted categories of the permitted accounts, account after account. |
| Categories.GetListsExactlyPermittedCategories | handlers/categories.js:44-59 | When the queries succeed, the response is a success, and a category is listed iff it belongs to a user account that the filter admits. |
| AccountsId.Get | handlers/accounts-id.js:24-43 | 404 iff the account is missing. 500 for other fetch errors. 401 iff it exists without the user. Otherwise exactly `id` and `user_ids`, unchanged. |
| AccountsId.MissingAccountIsNotFoundForAnyone | handlers/accounts-id.js:26-37 | Existence is checked before membership: a missing account is 404 for every user. |
| Auth.FirstLine | lib/auth.js:116 | `(.*)` captures the longest prefix without a line terminator. |
| Auth.BearerToken | lib/auth.js:116-120 | A token exists only after a case-insensitive `bearer ` prefix. It is non-empty, lies in the rest of the header up to the first line terminator, and is always found when that text is non-empty. |
| Auth.BearerRoundTrip | lib/auth.js:116 | `<Bearer in any case> <token>` gives back exactly the token. |
| Auth.NoPrefixNoToken | lib/auth.js:116-120 | A missing header, or one without the prefix, yields no token. |
| Auth.Authenticate | lib/auth.js:114-141 | Always success or 401. No token is 401 "No valid Authorization header found". Success iff verification succeeds, with the token's user id. "Token expired" iff verification fails with `TOKEN_EXPIRED`. Any other verification failure is a plain 401. |
| Auth.TokenPayloadShapes | lib/auth.js:50-68 | The token payload rules admit exactly two shapes: a password grant with `username` and `password`, or a refresh grant with `refresh_token` alone. |
| Auth.GrantCallFor | lib/auth.js:88-91 | Credentials are verified iff the grant is `password`. Every other accepted grant refreshes the token. |
| Auth.GrantError | lib/auth.js:92-111 | 401 iff the error is `TOKEN_EXPIRED`, `TOKEN_INVALID` or `INVALID_PASSWORD`, with "Refresh expired" only for `TOKEN_EXPIRED` under the refresh grant. 400 iff it is `INVALID_TYPE`, `UNIQUE_TOKEN_NOT_FOUND` or `NOT_FOUND`. 500 otherwise. |
| Auth.TokenHandler | lib/auth.js:81-112 | A mime type other than form-urlencoded is 400 before any credential check. Otherwise the result is the chosen grant's token or its translated error. |
| Auth.WrongPasswordIsUnauthorized | lib/auth.js:88-103 | A wrong password under the password grant is a plain 401. |
| Users.NewPasswordFollowsVerify | handlers/users.js:57-60 | In the planned calls of an update, the new password comes immediately after `verify(old_password)`. |
| Users.ErrorResponse | handlers/users.js:65-76 | 400 iff the error is `INCORRECT_FORMAT` or `INVALID_PASSWORD`. Otherwise 409 iff its message contains `ER_DUP_ENTRY`, and 500 if not. |
| Users.DuplicateEntryIsConflict | handlers/users.js:71-73 | Any error message that contains `ER_DUP_ENTRY` is a 409. |
| Users.User.SetEmail | handlers/users.js:51-52 | Only the e-mail changes. |
| Users.User.SetPassword | handlers/users.js:54-59 | The password changes unless time-core refuses it. The refusal is reported back. |
| Users.Handle | handlers/users.js:37-77 | A truthy `params.id` other than the caller's is 401 with no time-core call. Otherwise the calls made are a prefix of the plan (fetch or create, set password, verify then set new password, save), and all calls but the last succeed. Success iff the whole plan ran. The response then holds exactly `id` and `email`. A failure is `ErrorResponse` of the failing call's error. A new password is set only right after a successful `verify(old_password)`. |
| Routes.Tagged | lib/routes.js:12 | The tags end with `api`. Existing array tags are kept as a prefix. Falsy tags become `['api']`. A string has `api` appended. |
| Routes.NormalisedConfig | lib/routes.js:12-17 | The config loses `path` and gains the tagged `tags`. Every other key is unchanged. |
| Routes.RoutesOfMembers | lib/routes.js:8-24 | A handler has a route exactly for each HTTP method key it exports: upper-cased method, handler path plus extension, normalised config. |
| Routes.RoutesOfCount | lib/routes.js:8-24 | One route per exported method, no more. |
| Routes.HandlerRouteCount | lib/routes.js:5-24 | A handler without a `path` contributes nothing. One with a path contributes one route per exported HTTP method. |
| Routes.AllRoutesLength | lib/routes.js:27 | The flattened table's length is the sum of the per-handler method counts. |
| Routes.AllRoutesAppend | lib/routes.js:27 | Flattening is concatenation in handler order. |
| Routes.HandlerRouteShape | lib/routes.js:5-24 | Every route of a handler lies under the handler's path. Its config ends with the `api` tag and has no `path`. Its method is the upper case of an exported method. |
| Routes.EveryRouteIsTaggedApi | lib/routes.js:5-27 | Every route in the table is tagged `api`, has no `path` key, uses an HTTP verb, and lies under some handler's path. |
| Routes.UpperMethods | lib/routes.js:2-20 | Upper-casing the six method names gives GET, POST, PUT, PATCH, DELETE and OPTIONS. |
| Routes.OneRoutePerVerb | lib/routes.js:2-24 | No handler gets two routes with the same verb. |
| Routes.HandlerModule.Register | lib/routes.js:8-24 | Registering one module returns exactly its routes and normalises each exported method's config in place. |
| Routes.BuildRoutes | lib/routes.js:4-27 | The route table equals the flattened routes of the handlers as they were. Afterwards every handler's configs are normalised. |

## Left out

- **Import endpoints.** handlers/import.js and handlers/import-id.js are not part of this model. The bulk-import pipeline lives in time-core; only the owner check `fetchImport` is modelled.
- **Other handlers.** handlers/accounts.js, handlers/account-id.js, handlers/user.js and handlers/root.js are not part of this model.
- **time-core internals.** These are oracle parameters or not modelled at all: re-parenting and consistency on `Category.save`, the open-range rule behind `startFor` and `stopFor`, token issuance and expiry, password hashing, and `Token.createForUser`.
- **joi details.** E-mail and ISO-date formats are not checked. Rejection of unknown keys and type coercion are also left out, since payloads are typed datatypes. Numbers are integers only.
- **I/O and wiring.** `console.log` in `authenticate` and the `'OAuth2'` scheme argument of `boom.unauthorized` are left out. So are the server and plugin wiring, the hapi-swagger documentation, and `require-dir`, which `Routes.BuildRoutes` replaces with a list of loaded modules.
- EntriesId.Get: `FORMAT_RETURN` reads `entry.category_id` (handlers/entries-id.js:44). The model assumes this property holds the entry's category id, as test/test-entries.js:288-302 expects, and formats the entry like `formatter.entry`.
- Categories.Get: `Promise.all` is modelled as a sequential map. The result order is the same.
- Categories.Post: how time-core's `save` fills in a new category (its id, and the root it is placed under when no parent is given) is not modelled. `save` is a parameter that returns the stored category.
- CategoriesId.HandlePut: likewise, the re-parenting that `save` performs when the account changes is left to the `save` parameter. The model states only what the handler hands to it and that the response shows what it returns.
- Users.ErrorResponse: the messages of time-core's named errors are assumed not to contain `ER_DUP_ENTRY`. Only `Other` errors carry free text.
- Users.Handle: `params.id` of `0` is falsy, so the guard lets it through and the handler fetches user 0. The model keeps this, because joi's integer rule admits 0.
- Routes.BuildRoutes: configuration objects are values. A configuration object shared by two method keys or two modules would be tagged twice in the source; the model does not capture that aliasing.
- Routes.Loadable: a `path` or `tags` value for which `+` or `concat` would coerce (a number, an object) is excluded by precondition. A handler `path` that is `null` is not modelled either, since handler paths are strings here.
- Routes: the concrete route `PUT /users/{id}` is not stated as its own lemma. `Routes.HandlerRouteShape` gives the general form: handler path plus the method's `path`.
- Clocks and timestamps are opaque strings. Concurrency is not modelled.
