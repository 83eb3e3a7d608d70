# ProductPickUpper bearer-token authorization, in Dafny

This project models the authorization core of the ProductPickUpper REST API, an
actix-web and sqlx service over MySQL. The model covers:

- **Token lookup and permission resolution.** `authenticate` and `getPermissionLevel`
  hash a presented bearer secret and look it up among the Token rows that have not
  expired. The owner's current UserRole PermissionLevel is mapped onto the tiers
  `User < Supervisor < Admin`, and failures are classified as 401 or 500.
- **The session protocol.** `login` checks a username and password and appends one
  Token row with the client-chosen lifetime. `access` exchanges a live refresh token
  (Type 1) for a new access token (Type 0, 3600 seconds, same owner and DeviceInfo).
- **Error classification.** A database error is turned into a `PickUpError` with code
  0, 1, 2 or 3. For foreign-key violations, the column is extracted from the message
  with the regular expression `FOREIGN KEY \((.*)\) REFERENCES` and its backticks
  are removed. `errorHandling.rs` then maps errors onto HTTP statuses.
- **The per-route gates.** Admin-only routes reject anything `!= Admin`.
  Supervisor-or-above routes reject anything `< Supervisor`. The zip-code reads
  only require authentication.
- **The PATCH builders,** for users and zip codes and in both generations. A mutable
  query builder appends `Field=?` for each present field in a fixed order. An empty
  patch is refused with 400 "No fields provided", and ` WHERE Id=?` is appended
  otherwise.
- **The user and zip-code endpoints** of the handlers generation.

## Layout

| file | module | contents |
|---|---|---|
| wrappers.dfy | `Wrappers` | `Option` and `Result` |
| foreign_key.dfy | `ForeignKey` | the regex search (leftmost start, greedy `.*`, `.` excludes a line feed), backtick removal, the code-2 message |
| db_errors.dfy | `DbErrors` | `PickUpError`, the driver's error kinds, `From<&dyn DatabaseError>` |
| store.dfy | `Store` | table rows, `Tables` snapshots, the `Database` class, configuration and the opaque primitives |
| http.dfy | `Http` | responses and `errorHandling.rs` |
| auth.dfy | `Auth` | `auth.rs` and the route requirements |
| session.dfy | `Session` | `login` and `access` |
| query_builder.dfy | `QueryBuilding` | the `QueryBuilder` class and the two PATCH builders |
| user_controller.dfy | `UserController` | user `patchUser` (controllers) and the meaning of its UPDATE |
| zipcode_controller.dfy | `ZipCodeController` | zip-code `patchZipCode` (controllers) and the meaning of its UPDATE |
| user_handlers.dfy | `UserHandlers` | `getAllUsers`, `getUserById`, `postUser`, `patchUser` (handlers) |
| zipcode_handlers.dfy | `ZipCodeHandlers` | `postZipCode`, `deleteZipCode`, `patchZipCode` (handlers), `getAllZipCodes`, `getZipCodeById` |

The database is a `Store.Database` object with one `seq` field per table. The
handlers that write (`login`, `access`, `postUser`, `postZipCode`, `deleteZipCode`
and the PATCH endpoints) are methods that modify exactly the table they write. The
decisions that only read are functions of a `Tables` snapshot.

The environment becomes parameters:

- Each statement's possible failure is an `Option<SqlError>` parameter.
- The current time is an integer `now`, in seconds, standing for `NOW()`.
- Generated secrets, salts and database-assigned Ids are parameters too.
- SHA-256, Argon2id hashing and verification are function-typed fields of
  `Store.Config`. Nothing is assumed of them, not even that the digest is injective.

`fetch_one` is modelled as taking the first matching row in table order. The code
performs no uniqueness check on digests, so none is modelled.

Three behaviours of the code are worth stating outright:

- **Token type.** Neither lookup in `auth.rs` filters on `Type`, so refresh tokens
  pass authentication and tier resolution as well as access tokens do
  (`Auth.AnyTypePasses`, `Auth.LiveRoleResolution`).
- **Login inserts.** The INSERT in `login.rs` sets neither `Type` nor `DeviceInfo`, so
  both come from the schema's column defaults. These are the `Config` values
  `defaultTokenType` and `defaultDeviceInfo`.
- **Digest uniqueness.** The code does not enforce unique digests and takes the
  first matching row.

## Model

| member | source | states |
|---|---|---|
| ForeignKey.RunEnd | src/shared/structs/structsApp.rs:39 | the end of the line-feed-free run from a position: no line feed before it, and a line feed or the end of the message at it |
| ForeignKey.LastSuffix | src/shared/structs/structsApp.rs:39 | the greatest position in a range where `) REFERENCES` occurs, or none when it occurs nowhere in the range |
| ForeignKey.StripBackticks | src/shared/structs/structsApp.rs:52 | the result contains no backtick, is no longer than the input, and equals an input that had none |
| ForeignKey.StripBackticksAppend | src/shared/structs/structsApp.rs:52 | removing backticks distributes over concatenation, so exactly the backticks are deleted and order is kept |
| ForeignKey.StripBackticksIdempotent | src/shared/structs/structsApp.rs:52 | removing backticks twice equals removing them once |
| ForeignKey.NoNewlineIffWithinRun | src/shared/structs/structsApp.rs:39 | a capture from a start has no line feed iff its end lies within the run, in both directions |
| ForeignKey.CaptureEndAtCorrect | src/shared/structs/structsApp.rs:39 | for a fixed start: no capture end iff no match starts there; otherwise it is a match with no longer match from the same start |
| ForeignKey.SearchFromCorrect | src/shared/structs/structsApp.rs:39-40 | the search returns the leftmost match start at or after a position, with its greedy end; none iff no match starts there or later |
| ForeignKey.CaptureCorrect | src/shared/structs/structsApp.rs:39-40 | the capture is absent iff the pattern matches nowhere; otherwise it is the leftmost-greedy capture group |
| ForeignKey.NoMatchMessage | src/shared/structs/structsApp.rs:41-46 | with no match anywhere, the message is "Foreign key constraint fails at unknown column" |
| ForeignKey.SearchFindsLeftmostGreedy | src/shared/structs/structsApp.rs:40 | the search from the start of the message reports exactly the leftmost-greedy match |
| ForeignKey.MatchMessage | src/shared/structs/structsApp.rs:47-54 | with a leftmost-greedy match, the message names the backtick-free capture, which runs to the last reachable `) REFERENCES` |
| DbErrors.AsDatabaseError | src/shared/errorHandling.rs:7 | a database error is present iff the failure was raised by the database server |
| DbErrors.ErrorText | src/shared/auth.rs:23-30 | the "no rows" failure displays as the no-rows text; a database error displays as its driver text behind a prefix and so never equals the no-rows text; any other failure keeps its text |
| DbErrors.FromDatabaseError | src/shared/structs/structsApp.rs:31-68 | the code is 1 iff check violation, 2 iff foreign key and not check, 3 iff unique and neither, 0 iff none; the message is verbatim except for code 2 |
| DbErrors.ClassificationPriority | src/shared/structs.rs:22-50 | the flags are checked in the order check, foreign key, unique: with an earlier flag set, later flags do not change the result (the older copy of the same classification) |
| DbErrors.ForeignKeyColumn | src/shared/structs.rs:27-45 | a foreign-key violation with a match gives code 2 and "Foreign key constraint fails at X column", with X the backtick-free capture |
| DbErrors.ForeignKeyUnknownColumn | src/shared/structs/structsApp.rs:38-46 | a foreign-key violation whose message does not match gives code 2 and the unknown-column message |
| Http.FromErrorDatabase | src/shared/errorHandling.rs:6-20 | 500 iff the failure is not a database error, with the converted body; 400 iff it is, with exactly the classification as body |
| Http.FromErrorInternal | src/shared/errorHandling.rs:23-28 | always 500 with the converted error |
| Http.FromErrorIncorectCredentials | src/shared/errorHandling.rs:31-41 | always 400; a non-database failure gives IncorectCredentials, a database error gives its classification |
| Http.DatabaseBranchesAgree | src/shared/errorHandling.rs:15-38 | for a database error, the two classifying mappings give the same response |
| Auth.LevelFromInt | src/shared/auth.rs:82-86 | 1 maps to Supervisor, 2 to Admin, and every other integer to User, each as an iff |
| Auth.FirstLive | src/shared/auth.rs:14-18 | the row `fetch_one` reads: a live row with the digest, none iff no row has that digest and a DateEnd after `now` |
| Auth.FindUser | src/shared/auth.rs:63 | the user row joined on an Id, none iff no row has it |
| Auth.FindRole | src/shared/auth.rs:63 | the role row joined on FK_UserRole, none iff no row has it |
| Auth.RoleLevelOf | src/shared/auth.rs:60-64 | a level iff the owner joins to a user row and that row's FK_UserRole joins to a role; the level is that of a role row with the user's FK_UserRole |
| Auth.JoinedLevel | src/shared/auth.rs:60-64 | the level comes from a live token row whose owner joins through to a role; none iff no live row joins |
| Auth.LookupError | src/shared/auth.rs:20-32 | Unauthorized with the default message iff the failure's text is the "no rows" text; otherwise InternalServerError with that text |
| Auth.Authenticate | src/shared/auth.rs:13-38 | success iff the query answers and some row has the digest and `now < DateEnd`; zero rows is Unauthorized; a failure keeps its classification |
| Auth.ErrorResponse | src/shared/auth.rs:43-51 | 401 iff the code is Unauthorized, else 500, with the error as body |
| Auth.AuthenticateHttp | src/shared/auth.rs:41-56 | no response iff authenticated; otherwise the mapped error of `authenticate` |
| Auth.GetPermissionLevel | src/shared/auth.rs:59-89 | a failure gives its classification; with no failure, an error iff no live row joins to a role, and then Unauthorized; a tier is the mapped level of such a row's owner |
| Auth.GetPermissionLevelHttp | src/shared/auth.rs:92-107 | the tier unchanged, or the error mapped to 401 or 500 |
| Auth.Gate | src/handlers/User/userPatch.rs:34-43 | passes iff a tier was resolved and the route permits it; a resolver error is returned unchanged; a rejected tier gives 401 Unauthorized |
| Auth.RequirementTiers | src/handlers/ZipCode/zipcodePatch.rs:36-41 | Admin-only admits Admin alone, Supervisor-or-above admits Supervisor and Admin, and Admin-only implies Supervisor-or-above |
| Auth.ResolvedLevelGates | src/handlers/User/userPatch.rs:34-43 | for a token that resolves to a level, the Admin-only gate passes iff the level is 2 and the Supervisor-or-above gate iff it is 1 or 2 |
| Auth.ExpiryIsStrict | src/shared/auth.rs:14-17 | when every row with the digest has `DateEnd <= now`, both lookups give Unauthorized |
| Auth.ExpiryIsFinal | src/shared/auth.rs:17 | a row live at some time was live at every earlier time, so an expired row never becomes live again |
| Auth.LiveRoleResolution | src/shared/auth.rs:59-87 | with the live rows all owned by one user, the tier is the map of that user's current role level |
| Auth.RoleChangeTakesEffect | src/shared/auth.rs:63 | changing the owner's FK_UserRole changes the tier the same, already issued token resolves to |
| Auth.AnyTypePasses | src/shared/auth.rs:17 | any live row with the digest authenticates, whatever its Type |
| Session.FirstLiveRefresh | src/controllers/Token/access.rs:32-38 | the first row of Type 1 with the digest and `now < DateEnd`; none iff there is no such row |
| Session.AccessLookup | src/controllers/Token/access.rs:22-59 | a missing bearer gives 400 BadRequest before any query; a select failure gives 401 or 500 by its text; no failure gives a row iff a live refresh row exists, else 401 |
| Session.AccessRow | src/controllers/Token/access.rs:61-70 | the new row has Type 0, digest of the new secret, the refresh row's DeviceInfo and owner, and `DateEnd = now + 3600` |
| Session.AccessRowCannotRefresh | src/controllers/Token/access.rs:32-38 | an issued access row (Type 0) is never a live refresh row, so an access token cannot be exchanged for another |
| Session.Access | src/controllers/Token/access.rs:22-85 | a rejected exchange or insert failure leaves the Token table unchanged; on success exactly that row is appended and 201 returns the new secret |
| Session.FindUserByName | src/handlers/Token/login.rs:19-21 | the first user with the Username, none iff there is none |
| Session.LoginCheck | src/handlers/Token/login.rs:19-39 | a user iff found and the password verifies against the stored hash with the pepper; a verifier error gives 500; a wrong password or unknown name gives 400 IncorectCredentials |
| Session.LoginRow | src/handlers/Token/login.rs:42-51 | the row has the digest of the new secret, the user's Id as owner, `DateEnd = now + Active`, and schema-default Type and DeviceInfo |
| Session.Login | src/handlers/Token/login.rs:18-73 | a failed check or insert leaves the Token table unchanged; on success exactly that row is appended and 201 returns the new secret |
| Session.UnknownUserLooksLikeWrongPassword | src/handlers/Token/login.rs:23-38 | an unknown username, or a non-database failure, gets exactly the response of a wrong password |
| Session.IssuedRowIsFound | src/controllers/Token/access.rs:32-38 | a freshly appended live refresh row under a fresh digest is the row the exchange finds |
| Session.AccessSecretResolves | src/controllers/Token/access.rs:60-70 | the secret of a fresh access row resolves, within its 3600 seconds, to the refresh row owner's own tier |
| Session.LoginAccessGate | src/handlers/Token/login.rs:42-61 | login, then exchange, then a request resolves to the owner's own tier; the Admin gate passes iff the level is 2, the Supervisor gate iff it is 1 or 2 |
| QueryBuilding.QueryBuilder.SeparatedPush | src/controllers/User/userPatch.rs:36 | appends `", "` before the part unless it is the first entry of the section |
| QueryBuilding.QueryBuilder.PushBindUnseparated | src/controllers/User/userPatch.rs:37 | appends a placeholder and its bound value, with no separator |
| QueryBuilding.QueryBuilder.Push | src/controllers/User/userPatch.rs:80 | appends raw text |
| QueryBuilding.QueryBuilder.PushBind | src/controllers/User/userPatch.rs:81 | appends a placeholder and its bound value |
| QueryBuilding.Values | src/controllers/User/userPatch.rs:37 | the bound values are those of the entries, one per entry, in order |
| QueryBuilding.SetList | src/controllers/User/userPatch.rs:32-37 | the SET text is empty iff there are no entries, and each entry contributes at least its `=?` |
| QueryBuilding.AddIfPresent | src/controllers/User/userPatch.rs:35-39 | a present field extends the SET list by one entry and counts 1; an absent one changes nothing and counts 0 |
| QueryBuilding.Complete | src/controllers/User/userPatch.rs:73-81 | with no entry, 400 "No fields provided" and no statement; otherwise the statement is the SET list, ` WHERE Id=?` and the id bound last |
| QueryBuilding.AddNameFields | src/controllers/User/userPatch.rs:35-51 | the Username, Name and Surname blocks extend the SET list by the present ones, in that order, and count them |
| QueryBuilding.UserAssignmentsCount | src/controllers/User/userPatch.rs:33-71 | the user SET list has one entry per present field |
| QueryBuilding.UserAssignments | src/controllers/User/userPatch.rs:35-71 | a present Username is the first entry, and a present password is the last entry, bound as its hash under the pepper and salt |
| QueryBuilding.UserAssignmentsShape | src/handlers/User/userPatch.rs:74-84 | the SET list is empty iff every field is absent, and the Password entry binds the hash under the pepper and salt, never the plaintext |
| QueryBuilding.SetListSnoc | src/controllers/User/userPatch.rs:32-37 | appending an entry appends `column=?`, after `", "` unless it is the first |
| QueryBuilding.SetListSingle | src/controllers/User/userPatch.rs:35-37 | the first entry of the SET list is `column=?` with no separator |
| QueryBuilding.SetListSnocMore | src/controllers/User/userPatch.rs:41-43 | each later entry adds `", "` and `column=?` to the text so far |
| QueryBuilding.FullUserAssignments | src/controllers/User/userPatch.rs:35-71 | a full patch binds Username, Name, Surname, FK_UserRole, Password in this order, the password as its hash |
| QueryBuilding.FullUserSetList | src/handlers/User/userPatch.rs:47-85 | the full SET list reads `Username=?, Name=?, Surname=?, FK_UserRole=?, Password=?` |
| QueryBuilding.UserUpdate | src/controllers/User/userPatch.rs:31-81 | the count equals the number of present fields; 400 iff it is 0; otherwise `UPDATE User SET <SET list> WHERE Id=?` with the values then the id |
| QueryBuilding.ZipCodeAssignmentsShape | src/controllers/ZipCode/zipcodePatch.rs:31-43 | the zip-code SET list has one entry per present field, and is empty iff both are absent |
| QueryBuilding.ZipCodeAssignments | src/controllers/ZipCode/zipcodePatch.rs:31-43 | a present Number is the first entry and a present City the last |
| QueryBuilding.ZipCodeUpdate | src/controllers/ZipCode/zipcodePatch.rs:29-53 | the count equals the number of present fields; 400 iff it is 0; otherwise `UPDATE ZipCode SET <Number, City entries> WHERE Id=?` |
| QueryBuilding.CityOnlySetList | src/handlers/ZipCode/zipcodePatch.rs:54-58 | a city-only patch sets just `City=?` |
| UserController.UpdateUsers | src/controllers/User/userPatch.rs:80-83 | the UPDATE keeps the table's length and order, applies the SET list to every row with the Id, and leaves other rows alone |
| UserController.SetColumn | src/controllers/User/userPatch.rs:35-71 | an entry never changes the row's Id, and an integer value changes nothing in the User row |
| UserController.ApplyOpt | src/controllers/User/userPatch.rs:35-39 | an absent field leaves the row alone; a present one sets that column |
| UserController.PatchEffect | src/controllers/User/userPatch.rs:35-71 | the UPDATE sets exactly the supplied fields, the password to its hash, and keeps the Id and the absent fields |
| UserController.NameFieldsEffect | src/controllers/User/userPatch.rs:35-51 | the Username, Name and Surname entries set exactly the supplied ones of those three fields |
| UserController.SetColumnCases | src/controllers/User/userPatch.rs:35-71 | each of the five patchable columns sets its own field of the row and no other |
| UserController.ApplyAllKeepsId | src/controllers/User/userPatch.rs:80-81 | no SET list changes a row's Id |
| UserController.FindUpdated | src/controllers/User/userPatch.rs:80-83 | after the UPDATE, the first row with the Id is the first row before it, updated |
| UserController.PatchUser | src/controllers/User/userPatch.rs:26-94 | an empty patch or a failed UPDATE leaves the User table unchanged (400, or the database mapping); otherwise 200 and the table is the UPDATE's result |
| UserHandlers.RolesOf | src/handlers/User/userGet.rs:37 | the joined rows of one user are exactly the pairs with a role whose Id is its FK_UserRole |
| UserHandlers.JoinUsers | src/handlers/User/userGet.rs:36-39 | the inner join holds exactly the user and role pairs that agree on FK_UserRole |
| UserHandlers.JoinUsersWithId | src/handlers/User/userGet.rs:88-92 | exactly the joined rows whose user has the Id; empty when no user has it |
| UserHandlers.AdminCheck | src/handlers/User/userGet.rs:26-35 | a resolver error is mapped to its 401 or 500 response, and a User or Supervisor tier is refused with 401 Unauthorized |
| UserHandlers.AdminCheckMeansAdmin | src/handlers/User/userGet.rs:26-35 | the users' check passes iff the token resolves to Admin |
| UserHandlers.GetAllUsers | src/handlers/User/userGet.rs:23-53 | a rejected caller gets the gate's response; 200 iff the tier is Admin and the read succeeds, with the joined rows; a read failure gives 500 |
| UserHandlers.GetUserById | src/handlers/User/userGet.rs:69-106 | as the listing restricted to the Id; an unknown Id gives 200 with an empty list |
| UserHandlers.NewUserRow | src/handlers/User/userPost.rs:36-50 | the inserted row carries the given fields and the password's hash under the pepper and salt |
| UserHandlers.PostUser | src/handlers/User/userPost.rs:24-68 | a rejected caller or failed insert leaves the User table unchanged (the failure gives 400 with its classification); otherwise 201 and one row is appended |
| UserHandlers.PatchUser | src/handlers/User/userPatch.rs:26-115 | a non-Admin caller or empty patch changes nothing; otherwise the UPDATE's result, or the database mapping of its failure |
| UserHandlers.PatchedRoleResolves | src/handlers/User/userPatch.rs:68-72 | after a patch of FK_UserRole, an already issued token of that user resolves to the new role's tier |
| ZipCodeController.UpdateZipCodes | src/controllers/ZipCode/zipcodePatch.rs:52-55 | the UPDATE keeps the table's length and order, applies the SET list to rows with the Id, and leaves others alone |
| ZipCodeController.SetColumn | src/controllers/ZipCode/zipcodePatch.rs:31-43 | an entry never changes the row's Id, and an entry for a column other than Number and City changes nothing |
| ZipCodeController.ApplyAll | src/controllers/ZipCode/zipcodePatch.rs:31-55 | a SET list keeps the row's Id, and keeps its City unless it has a City entry |
| ZipCodeController.ApplyOpt | src/controllers/ZipCode/zipcodePatch.rs:33-37 | an absent field leaves the row alone; a present one sets that column |
| ZipCodeController.PatchEffect | src/controllers/ZipCode/zipcodePatch.rs:33-43 | the UPDATE sets exactly the supplied Number and City and keeps the Id |
| ZipCodeController.PatchZipCode | src/controllers/ZipCode/zipcodePatch.rs:24-66 | an empty patch or failed UPDATE leaves the ZipCode table unchanged; otherwise 200 and the table is the UPDATE's result |
| ZipCodeHandlers.SupervisorCheckTiers | src/handlers/ZipCode/zipcodePost.rs:30-39 | the zip-code write check passes iff the token resolves to Supervisor or Admin |
| ZipCodeHandlers.SupervisorCheck | src/handlers/ZipCode/zipcodePost.rs:30-39 | a resolver error is mapped to its 401 or 500 response, and a User tier is refused with 401 Unauthorized |
| ZipCodeHandlers.PostZipCode | src/handlers/ZipCode/zipcodePost.rs:23-58 | a rejected caller or failed insert leaves the ZipCode table unchanged; otherwise 201 and exactly the row (Number, City) is appended |
| ZipCodeHandlers.WithoutId | src/handlers/ZipCode/zipcodeDelete.rs:39 | a row remains iff it was present and has another Id; nothing changes when no row has the Id |
| ZipCodeHandlers.WithoutIdAppend | src/handlers/ZipCode/zipcodeDelete.rs:39 | deleting from a concatenation deletes from each part, so the remaining rows keep their order |
| ZipCodeHandlers.DeleteZipCode | src/handlers/ZipCode/zipcodeDelete.rs:22-53 | a rejected caller or failed delete changes nothing; otherwise 200, even when no row matched, and the rows with the Id are gone |
| ZipCodeHandlers.PatchZipCode | src/handlers/ZipCode/zipcodePatch.rs:24-88 | a User-tier caller or empty patch changes nothing; otherwise the UPDATE's result, or the database mapping of its failure |
| ZipCodeHandlers.WithId | src/handlers/ZipCode/zipcodeGet.rs:75 | exactly the rows with the Id; empty when there are none |
| ZipCodeHandlers.GetAllZipCodes | src/handlers/ZipCode/zipcodeGet.rs:22-45 | only authentication is required; an authentication failure passes through; 200 with all rows iff authenticated and the read succeeds; a read failure gives 500 |
| ZipCodeHandlers.GetZipCodeById | src/handlers/ZipCode/zipcodeGet.rs:61-90 | as the listing restricted to the Id; an unknown Id gives 200 with an empty list |
| ZipCodeHandlers.UserTierReadsButCannotWrite | src/handlers/ZipCode/zipcodeGet.rs:25-40 | a User-tier token reads the zip codes and is refused the writes with 401 |

## Left out

- Hashing: SHA-256 and Argon2id are uninterpreted `Config` functions. The model does not prove that a password verifies against its own hash.
- Randomness: `generateToken` and `getRandomStr(64)` are not modelled; the secret and the salt are parameters. The model takes the stored value of a new token to be the digest of the returned secret. The 64-character length of secrets and salts is not modelled.
- Time: `NOW()` and `DATE_ADD` are the integer `now` plus seconds. Clock formatting (`src/shared/chrono.rs`) is not modelled.
- The text of the default message of `PickUpError::new` and the `From<sqlx::Error>` conversion are not part of this model. Such bodies are kept symbolically as a missing message and `Http.Body.Converted`.
- The display text of a database error is the opaque field `DatabaseError.display`. The MySQL format behind it (error number, SQLSTATE, then the message) is not modelled. It reaches the 500 bodies built from `e.to_string()`.
- The `From<argon2::Error>` conversion is not part of this model. Its body is `Http.Body.HashingFailed` with the error text.
- `UserHandlers.PostUser`: requires the insert failure to be a database error. The source instead panics on `as_database_error().unwrap()`.
- The `.unwrap()` on `getHashedPassword` in `postUser` and in both `patchUser` functions is not modelled: hashing is total in the model.
- `Session.Login`: `active` is bounded as a `u32`, as the request body declares. The i32 width of a zip code's Number is not enforced, because deserialisation rejects out-of-range values before the handlers run.
- The route middleware `permissionLevelAdminMiddleware`, the tier check of the controllers generation, is not part of this model. `UserController.PatchUser` and `ZipCodeController.PatchZipCode` model the handler bodies behind it.
- The thin controllers are not modelled. These are `src/controllers/User/userGet.rs`, `src/controllers/User/userDelete.rs`, `src/controllers/ZipCode/zipcodePost.rs` and `src/controllers/ZipCode/zipcodeDelete.rs`. Each is one query plus the mapping already modelled by `Http`.
- Start-up is not modelled: `src/main.rs`, environment loading, the connection pool, TLS, CORS, route wiring and OpenAPI. The pepper is an opaque configuration value, which `main.rs` reads from the variable `IP_WITH_PORT`.
- `createRoot` in `src/shared/password.rs` is not modelled; it is database bootstrap.
- Concurrency between requests and the async scheduling of statements are not modelled. Each handler is one atomic step on the database object.
- JSON serialisation, content types, the DateCreated and DateStart columns and the UserRole Role and Description texts are not modelled.
- SQL text generation by sqlx is modelled only as far as the builder's own pushes.
- String comparison in SQL is modelled as exact equality of character sequences, as under a binary collation. This covers `WHERE Username=?`, `WHERE Id=?`, `WHERE Token=?` and the join `ur.Id=u.FK_UserRole`. The schema and its collations are not part of this model. Under MySQL's default case- and accent-insensitive collation, a login as "ROOT" would find the row "root" (`src/handlers/Token/login.rs:19-21`), whereas `Session.FindUserByName` finds no row there. The same applies to `Session.FindUserByName`, `Auth.FindUser`, `Auth.FindRole`, `UserHandlers.JoinUsersWithId`, `UserController.UpdateUsers`, `ZipCodeHandlers.WithId` and `ZipCodeHandlers.WithoutId`.
- Row order is not modelled as MySQL leaves it. `fetch_one` with several matching rows is modelled as taking the first row in table order. The `fetch_all` listings of `getAllUsers`, `getUserById`, `getAllZipCodes` and `getZipCodeById` have no ORDER BY, yet `UserHandlers.GetAllUsers`, `UserHandlers.GetUserById`, `ZipCodeHandlers.GetAllZipCodes` and `ZipCodeHandlers.GetZipCodeById` return their rows in table order. MySQL promises no order for either.
