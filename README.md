# Case records of the test-case backend, in Dafny

This project models the part of the backend that manages "test cases": saved HTTP request
definitions (a host, a URI, a method, a request body) that a user creates, lists, edits, deletes
and dispatches against the target, recording the status line and body that come back. It also
models the two decisions of the user endpoints: whether a registration conflicts with a stored
email, and whether a login succeeds and what claims its token carries.

The `cases` table is a map from id to row, held by the class `CaseHandlers.CaseStore`; each
handler is a method on it that reads, checks and writes the map as the handler's queries read and
write the table. The outbound HTTP call is a parameter: what the client reports for the request it
was handed (a transport failure, or a status line with a body text). The `users` table is a map
from stored email to row, and registration and login are functions over it, with the password
hasher's result and the password verifier passed in.

Files, by module:

- `wrappers.dfy` (`Wrappers`): `Option` (a NULL column, an omitted field) and `Result`.
- `errors.dfy` (`Errors`): the failures the handlers answer with and their HTTP status.
- `text.dfy` (`Text`): ASCII lower- and upper-casing.
- `order.dfy` (`Order`): the order `ORDER BY id` sorts ids in, and `SortedKeys`, the ids of a set
  in that order, with the facts the listing needs (uniqueness, rank).
- `cases.dfy` (`Cases`): the row, the request bodies, the two response projections, the row a
  create inserts, the field-by-field merge of an update, and the table invariant.
- `listing.dfy` (`Listing`): pagination: defaults, offset, owner filter, id order, the window.
- `dispatch.dfy` (`Dispatch`): the request built from a row and the row after a response.
- `handlers.dfy` (`CaseHandlers`): the class with the list, create, get, edit, delete and
  dispatch handlers, and a client method that runs one case through its life.
- `auth.dfy` (`Auth`): registration and login decisions and `filter_user_record`.

The table invariant `Cases.WellFormed`, kept by every handler, says that each row sits under its
own id, has every column `filter_db_record` unwraps, and that no two rows share a title. Under it
the response projections of list, get, create and edit never panic, and the projection of dispatch
never does either, because dispatch has just set both response columns.

Two defects of the handlers show up as preconditions:

- `page = 0` makes `page - 1` underflow its unsigned type (src/handler.rs:253), so `List`
  requires `Listing.PaginationDefined`, which also keeps the limit and the offset inside the range
  their `as i32` casts preserve.
- The update falls back to `unwrap()` on six nullable columns (src/handler.rs:430-459). A create
  never sets `response_code` or `response_body` (src/handler.rs:298), so an update of a case whose
  response columns are still NULL (fresh from create, neither dispatched nor updated with both)
  panics unless it supplies both; `Cases.MergeDefined` is the condition, `Edit` requires it, and
  `Cases.UpdateBeforeDispatchNeedsResponse` proves the consequence for freshly created cases.

Behaviour of the code that a reader of its documentation might not expect, and that the model follows:

- The dispatch method defaults to `GET` only when the stored method is NULL; an empty string is
  upper-cased to `""` and rejected with 405 (`Dispatch.EmptyMethodIsRejected`).
- An update that supplies nothing is not a no-op in general: it panics on a case whose response
  columns are still NULL (fresh from create, neither dispatched nor updated with both), and it
  rewrites a stored `used` other than 0 or 1 as 1. It is a no-op only on a row whose six `unwrap()`
  columns are all set and whose flag is 0 or 1 (`Cases.MergeEmptyIsIdentity`).
- An update may change `user_id`, and a change of title to one stored under another id is a
  failed UPDATE, answered as a storage error (500), not as Conflict.
- A create stores `used` as the column default, taken to be 0; the `used` of its body is ignored.
- Only list and create sit behind the auth guard and see the signed-in user (src/route.rs:36-41).
  Get, edit, delete and dispatch are routed without it (src/route.rs:42-48): they take no caller and
  act on any case whose id is given, whoever owns it, and the `CaseStore` methods for them have no
  caller parameter.

## Model

| member | source | states |
|---|---|---|
| `Errors.Failure.Status` | src/handler.rs:60-693 | every failure is answered with the status its handler sends, one of 404, 409, 405, 400 or 500: the email conflict at :60, the hashing failure at :72, the bad credentials at :150 and :165, the title conflict at :318, the missing case at :370, the unsupported method at :644 and the failed request at :693 |
| `Text.Lower` | src/handler.rs:43 | lower-casing keeps the length and maps each character by the ASCII rule |
| `Text.Upper` | src/handler.rs:634 | upper-casing keeps the length and maps each character by the ASCII rule |
| `Text.LowerIdempotent` | src/handler.rs:80-95 | a lower-cased email lower-cases to itself, so the insert and the later lookups use one key |
| `Text.UpperIsGet` | src/handler.rs:634-640 | a method upper-cases to GET exactly when it spells get in any mix of ASCII cases (ASCII upper-casing) |
| `Text.UpperIsPost` | src/handler.rs:634-641 | a method upper-cases to POST exactly when it spells post in any mix of ASCII cases (ASCII upper-casing) |
| `Order.SortedKeys` | src/handler.rs:260 | the ids of a set, strictly ascending, each exactly once |
| `Order.AscendingUnique` | src/handler.rs:260 | an ascending sequence is fixed by its elements, so the ordered listing is the only one possible |
| `Cases.FilterDbRecord` | src/handler.rs:525-542 | the short projection keeps the id, owner and title and shows `used` as its truth; `Cases.FilterDbRecordLosesOnlyResponse` states that it loses nothing else |
| `Cases.FilterDbAllRecord` | src/handler.rs:544-561 | the full projection is the short one plus both response columns, unwrapped |
| `Cases.FilterDbAllRecordExtends` | src/handler.rs:525-561 | the full projection is the short one plus the two response columns unwrapped |
| `Cases.FilterDbRecordLosesOnlyResponse` | src/handler.rs:525-542 | two rows with the same short projection differ at most in their response columns and the encoding of `used` |
| `Cases.NewCaseIgnoresBodyOwner` | src/handler.rs:296-307 | the stored owner is the caller whatever `user_id` and `used` the create body carries |
| `Cases.NewCaseShape` | src/handler.rs:298-307 | a created case can be shown, has no response columns, is unused, and has category "" unless one was given |
| `Cases.NewCase` | src/handler.rs:297-307 | a created row has the new id, belongs to the caller, is unused, can be shown and has no response yet |
| `Cases.MergeDefined` | src/handler.rs:430-459 | on a showable row, the update's `unwrap()` fallbacks are defined exactly when each response column is supplied or stored |
| `Cases.Merge` | src/handler.rs:411-461 | the updated row keeps its id and timestamps, has both response columns and stores `used` as 0 or 1; `Cases.MergeTakesSuppliedOrKeeps` states it field by field |
| `Cases.UsedFlag` | src/handler.rs:411-412 | the flag written back is 0 or 1 and is non-zero exactly when the boolean is true |
| `Cases.MergeTakesSuppliedOrKeeps` | src/handler.rs:411-461 | every column takes the body's value when supplied and keeps the stored one otherwise; id and timestamps never change; `used` falls back to the stored flag's truth |
| `Cases.MergeEmptyIsIdentity` | src/handler.rs:411-461 | an update with no fields leaves unchanged a row whose six `unwrap()` columns are all set (on a presentable row, the two response columns) and whose flag is 0 or 1 |
| `Cases.MergeLeavesNoNull` | src/handler.rs:430-459 | after one update every `unwrap()` column is present, so no later update can panic, and the row stays presentable |
| `Cases.MergeIdempotent` | src/handler.rs:411-461 | applying the same update twice is applying it once |
| `Cases.UpdateBeforeDispatchNeedsResponse` | src/handler.rs:450-459 | an update of a freshly created case is defined exactly when it supplies both response columns |
| `Cases.TitleUsedElsewhere` | src/handler.rs:312-318 | the duplicate-entry condition of create (:312-318) and of edit (:464-469): another row already holds the title; when it fails, every row with that title is the one being written |
| `Listing.Limit` | src/handler.rs:252 | the page size is 10 when none is given |
| `Listing.Offset` | src/handler.rs:253 | the first page, and any page of size 0, skips nothing; `Listing.ConsecutivePagesAbut` and `Listing.PageRank` state the rest |
| `Listing.PaginationDefined` | src/handler.rs:252-263 | the pagination arithmetic is defined: when it holds, the page is not 0 and both the limit and the offset fit the `i32` casts |
| `Listing.DefaultPagination` | src/handler.rs:252-253 | without a query string the offset is 0 and the limit 10 |
| `Listing.ConsecutivePagesAbut` | src/handler.rs:253 | page p + 1 starts exactly `limit` cases after page p |
| `Listing.Window` | src/handler.rs:260-263 | the window has min(limit, n - offset) elements (none past the end), the i-th being element offset + i |
| `Listing.OwnedIds` | src/handler.rs:260 | `WHERE user_id = ?`: stored ids only, each of a row owned by the caller; `Listing.OwnedInOrderIsTheOwnedCases` states that all of them are listed |
| `Listing.OwnedInOrder` | src/handler.rs:260 | `WHERE user_id = ? ORDER BY id`: as many rows as the caller owns, each owned by the caller; `Listing.OwnedInOrderIsTheOwnedCases` states order and completeness |
| `Listing.OwnedInOrderIsTheOwnedCases` | src/handler.rs:260 | the ordered listing holds every case of the caller once and no other, in strictly ascending id order |
| `Listing.PageRank` | src/handler.rs:253-263 | the j-th case of a page is preceded by exactly offset + j of the caller's cases |
| `Listing.PageOfOwnedCases` | src/handler.rs:255-266 | a page holds at most `limit` stored cases of the caller, ascending, each ranked offset + j |
| `Listing.SecondPageOfSeven` | src/handler.rs:252-263 | with seven cases, page 2 of size 5 is exactly the sixth and seventh |
| `Dispatch.BuildRequest` | src/handler.rs:633-648 | url is host ++ uri; GET when the upper-cased method (GET if NULL) is GET, with no body; POST with the stored body or ""; otherwise 405 naming the upper-cased method |
| `Dispatch.BuildRequestAccepts` | src/handler.rs:634-647 | under ASCII upper-casing, a request is built exactly when the method is NULL or spells get or post in any mix of ASCII cases |
| `Dispatch.EmptyMethodIsRejected` | src/handler.rs:634-647 | an empty stored method is rejected, not replaced by GET |
| `Dispatch.RecordResponse` | src/handler.rs:653-660 | after a response the row has both response columns, the received status, and the same id, title and owner |
| `Dispatch.EffectiveMethod` | src/handler.rs:634 | the method sent: GET when the column is NULL, otherwise the stored text upper-cased, of the same length |
| `Dispatch.RecordResponseFrame` | src/handler.rs:652-660 | recording a response changes only the two response columns, sets status and body text (or ""), and keeps `used` |
| `Dispatch.RecordResponseOverwrites` | src/handler.rs:653-654 | a second recorded response replaces the first |
| `Dispatch.RecordedRowIsShowable` | src/handler.rs:653-656 | after recording, the full projection cannot fail and shows the received status and body |
| `CaseHandlers.CaseStore.List` | src/handler.rs:245-288 | the page is the caller's cases in ascending id order, offset skipped, at most limit, shaped by `filter_db_record`, `results` their number, each ranked offset + j |
| `CaseHandlers.CaseStore.Create` | src/handler.rs:290-343 | a stored title gives Conflict and no change; otherwise exactly one row is added under the fresh id, owned by the caller, and returned |
| `CaseHandlers.CaseStore.Get` | src/handler.rs:345-379 | the stored row's projection, or NotFound (404) exactly when the id is absent |
| `CaseHandlers.CaseStore.Edit` | src/handler.rs:381-498 | NotFound when absent; otherwise the merged row replaces the stored one under the same id and every other row is unchanged, unless its title is stored under another id (storage error, no change) |
| `CaseHandlers.CaseStore.Delete` | src/handler.rs:500-523 | an existing id is removed and nothing else, answered NoContent; an absent one gives NotFound and no change |
| `CaseHandlers.CaseStore.Test` | src/handler.rs:616-713 | NotFound or 405 send nothing and change nothing; a transport error sends the built request and changes nothing; a response overwrites the two response columns only and is returned in full |
| `CaseHandlers.Lifecycle` | src/handler.rs:290-713 | for a method that upper-cases to GET or POST and a second dispatch that receives a response (the first may fail), a created case is what get returns, the second dispatch's response is the one shown, and the second delete finds nothing |
| `Auth.FilterUserRecord` | src/handler.rs:226-239 | the shown user keeps the id and email and shows `verified` as its truth; `Auth.FilterUserRecordHidesPassword` states that the hash is not shown |
| `Auth.FilterUserRecordHidesPassword` | src/handler.rs:226-239 | the shown user does not depend on the password hash, and `verified` is the stored flag's truth |
| `Auth.NewUser` | src/handler.rs:76-82 | the registration INSERT stores the given id, the lower-cased email (already its own lower case) and the hash, never the plain password |
| `Auth.RegisterUser` | src/handler.rs:37-126 | Conflict exactly when the lower-cased email is stored; hashing error exactly when it is not and hashing fails; success exactly when the email is fresh and hashing succeeds, and then the new row is stored under its lower-cased email and shown |
| `Auth.RegisterIgnoresEmailCase` | src/handler.rs:41-61 | after a registration, registering any case variant of its email conflicts |
| `Auth.LoginUser` | src/handler.rs:128-175 | success exactly when the lower-cased email is stored and the password verifies; every failure is the same 400; the token's subject is the user's id and it expires 3600 s after issue |
| `Auth.LoginFailuresIndistinguishable` | src/handler.rs:145-166 | an unknown email and a wrong password give the identical answer |
| `Auth.RegisterThenLogin` | src/handler.rs:76-175 | a registered user logs in with the same password and any case of the email, and the token names the new user |

## Left out

- SQL execution: the tables are maps. Database errors are not modelled, except a duplicate title
  on create (409) and on edit (500); nor is the re-read after a write failing.
- Concurrency between requests, including the "no row affected" answer of an update whose row
  vanished between its read and its write (src/handler.rs:471-477), and the "User not found"
  answer of registration when the just inserted user cannot be read back (src/handler.rs:118-124):
  both arise only when another request deletes the row in between.
- The HTTP client: its report is the `outcome` parameter of `Test`; there are no timeouts or
  retries. The status line is taken as the text the client reports.
- Unicode `to_uppercase`: modelled as ASCII upper-casing. Non-ASCII letters whose upper case is
  ASCII are therefore not covered: the program sends a stored method "poſt" (U+017F) or "poﬆ"
  (U+FB06) as a POST, where the model answers 405.
- Argon2 hashing, salting and verification, the random salt source and JWT encoding and signing:
  the hash is a parameter of registration, verification a predicate parameter of login, and login
  returns the token's claims rather than the encoded token.
- UUID generation for case ids: the fresh id is a parameter of `Create`, required not to be stored.
  Parsing and normalising the id in the request path is not modelled.
- Timestamps: `created_at`/`updated_at` are set to the `now` parameter by a create and by a
  registration (whose INSERT leaves them to the table's defaults). Whether the
  database refreshes `updated_at` on an UPDATE depends on a table definition that is not part of
  this model; edit and dispatch leave both timestamps as they were.
- The unique index on `title` is inferred from the duplicate-entry message of the create handler;
  the table definition is not part of this model.
- The columns registration leaves to the table (role, photo, verified, id) come from a parameter,
  and its timestamps from the `now` parameter.
- Ordering by id is by character code; the database collation is not modelled. Every text
  comparison the queries make is exact: email lookups (on the lower-cased text), the owner filter
  `WHERE user_id = ?` (`Listing.OwnedIds`) and the unique title index (`Cases.TitleUsedElsewhere`).
  Under a case-insensitive collation "Foo" and "foo" would collide; in the model they do not.
- The 8-bit range of the `used` and `verified` flags is not modelled.
- A malformed list query string, which falls back to the defaults, is not modelled: the options
  are given as `Listing.FilterOptions`.
- Cookie construction, header formatting, the JSON envelopes and the message texts of error bodies, `println!`, logout, the profile
  endpoint (which only applies `filter_user_record`), the health check, and the router wiring.
- CaseHandlers.CaseStore.List: page 0, and a limit or offset beyond the `i32` range, are excluded
  by its precondition instead of modelling the unsigned underflow and truncating casts.
- CaseHandlers.CaseStore.Edit: an update whose `unwrap()` fallbacks would panic is excluded by its
  precondition instead of being modelled as a crash.
