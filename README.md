# User signup service: a Dafny model

This project models the core of a small Express/TypeScript service that
registers users in a SQLite `users` table. It covers:

- the table and its constraints (`src/db/database.ts`), with `id` as PRIMARY
  KEY, a UNIQUE `email` and a CHECK restricting `userType` to the four user
  types;
- the repository operations `findUserByEmail`, `findUserById` and
  `createUser` (`src/repositories/userRepository.ts`);
- the `express-validator` signup rules (`src/middleware/validators.ts`);
- the `removePassword` projection (`src/utils/utils.ts`);
- the `createNewUser` handler (`src/controllers/userController.ts`).

The table is a `Database` object whose `rows` field holds the stored rows.
Its `Valid()` invariant says that the table's constraints hold: ids are
unique, e-mail addresses are unique, and every `userType` is a `UserType`.
The insert appends a row only when no constraint is violated, and otherwise
reports the violated constraint. The repository queries return the unique
matching row.

Each validation chain returns the checks that failed, in the order they run.
The whole error list is empty exactly for a body whose four fields are all
acceptable.

The handler's responses are modelled as the sequence of
`res.status(..).json(..)` writes it makes. Beside them, the model records the
calls the handler makes: the e-mail lookup, the bcrypt hash and the insert.
What the handler does is given by `Expected`, a function of the inputs and
the table. `Expected` follows one of six paths:

- validation rejected the body;
- no table exists (the service creates the table at start-up,
  src/db/database.ts:37, so in the running service this path stands for any
  lookup query that throws);
- the address is already registered;
- hashing failed;
- the id is already taken;
- the user was registered.

The handler as written lacks a `return` after its 409 reply. That is logged
under "## Findings". A corrected handler is modelled beside it.

Inputs from outside the program are parameters:

- the bcrypt hash is `hash: string -> Option<string>`, where `None` means the
  call threw;
- the uuid of a new row is `newId`;
- the `new Date().toISOString()` reading is `now`;
- the `isEmail` validator is `isEmail: string -> bool`.

Files:

- `wrappers.dfy`: `Option` and `Result`.
- `user_model.dfy`: the `UserType` enum and the `User` record.
- `database.dfy`: the table, its constraints, `SELECT` and `INSERT`, and
  `initializeDatabase`.
- `user_repository.dfy`: the repository operations.
- `utils.dfy`: `removePassword`.
- `validators.dfy`: the signup rules.
- `user_controller.dfy`: `createNewUser`, as written and corrected.
- `scenarios.dfy`: concrete runs, including the double registration.

## Model

| member | source | states |
|---|---|---|
| UserModel.ParseUserType | src/models/User.ts:1-6 | a text is accepted exactly when it is one of the enum's four values, and then it maps back to that value |
| UserModel.UserTypeValuesLiteral | src/models/User.ts:1-6 | `Object.values(UserType)` is the list "student", "teacher", "parent", "private tutor", in declaration order |
| UserModel.AllUserTypesComplete | src/models/User.ts:1-6 | the enum has exactly four members and every `UserType` is one of them |
| UserModel.UserTypeValueInjective | src/models/User.ts:1-6 | distinct user types have distinct string values |
| UserModel.ParseUserTypeRoundTrip | src/models/User.ts:1-6 | parsing the value of a user type gives that user type back |
| UserModel.UserTypeValuesDistinct | src/models/User.ts:1-6 | the four enum values are pairwise different |
| Db.CheckValuesAreUserTypeValues | src/db/database.ts:22 | the CHECK constraint's list is exactly the enum's values, so every `UserType` passes it |
| Db.Lookup | src/repositories/userRepository.ts:12-13 | `SELECT ... WHERE col = ?` `.get`: a returned row is stored and holds the value; nothing is returned exactly when no stored row holds it |
| Db.LookupUnique | src/db/database.ts:18-20 | on a PRIMARY KEY or UNIQUE column, looking up a stored row's value returns that row |
| Db.LookupUniqueEvery | src/db/database.ts:18-20 | on a unique column, any stored row holding the value is the one the lookup returns |
| Db.InsertedRowIsFound | src/db/database.ts:18-20 | after an insert that keeps the constraints, the new row is found by its id and by its e-mail address |
| Db.InsertViolation | src/db/database.ts:18-22 | an INSERT violates no constraint exactly when the user type is in the CHECK list and neither the id nor the address is already stored; otherwise SQLite's report: the CHECK failure exactly for a user type outside the list, else the UNIQUE(email) failure exactly when the address is stored, else the PRIMARY KEY failure exactly when the id is stored |
| Db.DoubleKeyClashReportsEmail | src/db/database.ts:18-20 | a row repeating both the id and the address of a stored row is refused for its address |
| Db.InsertKeepsSchema | src/db/database.ts:17-24 | appending a row keeps the PRIMARY KEY, UNIQUE and CHECK constraints exactly when `InsertViolation` finds none |
| Db.Database.Open | src/db/database.ts:14 | opening a database file yields its table (if any) and its stored rows, with the constraints holding |
| Db.Database.InitializeDatabase | src/db/database.ts:12-35 | `CREATE TABLE IF NOT EXISTS`: afterwards the table exists; an existing table keeps its rows, and a new table is empty |
| Db.Database.Select | src/repositories/userRepository.ts:12-13 | the query fails exactly when there is no table; otherwise it returns a stored row holding the value, or nothing exactly when no row holds it |
| Db.Database.Insert | src/repositories/userRepository.ts:45-58 | no table gives an error; otherwise the statement fails with the violated constraint, leaving the table unchanged, or it appends exactly the given row; the constraints hold afterwards |
| UserRepository.FindUserByEmail | src/repositories/userRepository.ts:10-18 | an error exactly when there is no table; nothing exactly when no row has the address; otherwise the one row that has it |
| UserRepository.FindUserById | src/repositories/userRepository.ts:25-33 | an error exactly when there is no table; nothing exactly when no row has the id; otherwise the one row that has it |
| UserRepository.CreateUser | src/repositories/userRepository.ts:40-72 | succeeds exactly when the table exists and the insert violates no constraint; on success it returns the record with the fresh id, the given fields and the timestamp, and the table gains exactly that row; on failure the table is unchanged and the statement's own error is returned unchanged: `NoSuchTable` for a missing table, otherwise the constraint `InsertViolation` names |
| Utils.RemovePassword | src/utils/utils.ts:4-7 | the projection loses only the password: putting the password back gives the original user |
| Utils.RemovePasswordForgetsOnlyPassword | src/utils/utils.ts:4-7 | two users have the same projection exactly when they differ at most in their password |
| Utils.RemovePasswordWithPassword | src/utils/utils.ts:4-7 | putting a password on a projection and removing it again gives the projection back |
| Validators.FullNameErrors | src/middleware/validators.ts:5 | the chain reports only `fullName` errors, and reports "required" exactly for an empty name |
| Validators.EmailErrors | src/middleware/validators.ts:6-9 | only `email` errors; "required" exactly for an empty address and "must be valid" exactly when `isEmail` rejects it; no error exactly for a non-empty valid address |
| Validators.PasswordErrors | src/middleware/validators.ts:10-19 | only `password` errors; each of the five checks (non-empty, 8 to 64 characters, a digit, a lower-case letter, an upper-case letter) is reported exactly when it fails; no error exactly for an acceptable password |
| Validators.UserTypeErrors | src/middleware/validators.ts:20-22 | only `userType` errors; "required" exactly for an empty value and "must be one of" exactly for a value outside the enum; no error exactly for a user type the enum parses |
| Validators.SignupErrors | src/middleware/validators.ts:4-23 | the error list of `validationResult` is empty exactly when every field is present and passes its chain |
| Validators.SignupErrorsListEveryViolation | src/middleware/validators.ts:4-23 | a check appears in the error list exactly when it fails on the body |
| Validators.SignupErrorsByField | src/middleware/validators.ts:4-23 | a check appears in the whole list exactly when it appears in the list of its own field's chain |
| Validators.FailingAppend | src/middleware/validators.ts:4-23 | keeping the failing checks of two consecutive lists of checks keeps those of each list, in order |
| Validators.EmailChainInOrder | src/middleware/validators.ts:6-9 | the `email` chain's errors are its two checks, in declaration order, keeping those that fail |
| Validators.PasswordChainInOrder | src/middleware/validators.ts:10-19 | the `password` chain's errors are its five checks, in declaration order, keeping those that fail |
| Validators.UserTypeChainInOrder | src/middleware/validators.ts:20-22 | the `userType` chain's errors are its two checks, in declaration order, keeping those that fail |
| Validators.SignupErrorsInChainOrder | src/middleware/validators.ts:4-23 | the whole error list is the ten checks in the order the chains run them, keeping exactly those that fail, each once |
| UserController.ClientSeesTheSameReply | src/controllers/userController.ts:8-42 | both handlers write a reply on every path and agree on the first one, the one the client receives; the corrected handler writes exactly one |
| UserController.HandlersDifferOnlyOnDuplicate | src/controllers/userController.ts:21-23 | the as-written and corrected handlers behave differently exactly when the address is already registered, and only there does the as-written one write twice |
| UserController.RegistrationKeepsSchema | src/controllers/userController.ts:14-34 | a registration leaves the table's constraints holding |
| UserController.RegisteredUserIsStored | src/controllers/userController.ts:25-38 | after a successful registration, the new row is found by id and by address, holds the hash rather than the password, and the 201 reply is that row without its password |
| UserController.HashAndStore | src/controllers/userController.ts:25-34 | the hash is computed, then the row is inserted; a row is stored exactly when hashing succeeds and neither the address nor the id is taken, and the stored row carries the hash |
| UserController.TryRegister | src/controllers/userController.ts:14-41 | the `try` block as written, on a body the rules accept, writes and calls exactly what `Expected` gives, and the table becomes `RowsAfter` |
| UserController.TryRegisterCorrected | src/controllers/userController.ts:14-41 | the same `try` block with a `return` after the 409: what `Expected` gives for the corrected handler |
| UserController.CreateNewUser | src/controllers/userController.ts:8-42 | the handler as written: 400 with the error list when validation fails; otherwise 500 without a table, 409 then 500 for a known address, 500 when hashing or the insert fails, and 201 with the stored user without its password; the table changes only on the 201 path, by one row |
| UserController.CreateNewUserCorrected | src/controllers/userController.ts:8-42 | the same handler with the `return` after the 409: a known address gets the 409 alone, and neither the hash nor the insert runs |
| RegistrationScenarios.AdaIsValid | src/middleware/validators.ts:4-23 | a concrete signup body passes every rule |
| RegistrationScenarios.AdaRegistersTwice | src/controllers/userController.ts:20-40 | signing up, then signing up again with the same address: 201 first, then 409 followed by 500, with the hash and the insert both run and still a single row |
| RegistrationScenarios.AdaRegistersTwiceCorrected | src/controllers/userController.ts:20-23 | with the `return`, the second signup gets the 409 alone after only the lookup |
| RegistrationScenarios.WeakPasswordErrors | src/middleware/validators.ts:10-22 | a password without digit and upper-case letter, with an unknown user type, fails exactly those three checks, in that order |
| RegistrationScenarios.WeakPasswordIsRejected | src/controllers/userController.ts:9-12 | for that body the handler's answer is the 400 alone with those three errors, no call made and the table unchanged |
| RegistrationScenarios.RejectedSignup | src/controllers/userController.ts:9-12 | the weak-password body gets a single 400 listing its three errors, and no call is made and no row stored (the general fact is the `Rejected` case of `Expected` in `UserController.CreateNewUser`'s ensures) |
| RegistrationScenarios.InitializeTwice | src/db/database.ts:12-35 | running `initializeDatabase` twice leaves the table present and the stored rows as they were |

## Left out

- HTTP wiring is not modelled. That covers Express routing, `src/index.ts`, the
  route files (the mounted `routes/auth.ts` is a placeholder) and JSON
  parsing. The swagger documentation is also left out.
- `getUserById` in the controller is an empty stub with a TODO, so it has no
  behaviour to model. The repository's `findUserById` is modelled.
- `isDatabaseConnected` and the creation of the `data` directory are left
  out. They are file-system and connection checks with no state of the table.
- bcrypt is the `hash` parameter. Its salt and the cost factor 10 are not
  modelled. A `None` result stands for a thrown error.
- The uuid generator, the clock and the `isEmail` validator are parameters.
  Their own behaviour is outside the model.
- `isLength` in `express-validator` does not count U+FE0E and U+FE0F. The
  model counts every character.
- Only string-valued and absent body fields are modelled. Absent fields are
  treated as empty. Non-string JSON values are not.
- Validation errors are modelled as `Rule` values. Each rule's field name and
  message are given by `FieldName(FieldOf(r))` and `Message(r)`. The source
  pins no `express-validator` version: version 7 calls these fields `path`
  and `msg`, and version 6 (the one `src/config/swagger.ts` describes) calls
  the field name `param`. The other fields of the error objects are not
  modelled.
- The NOT NULL constraints hold by typing, since every field is a string.
- SQL errors other than a missing table and the three constraint failures are
  not modelled. Examples are I/O errors and a locked database.
- The model records every reply the handler writes. What Express does with
  the second write after a 409 is not modelled. The source pins no Express
  version. Under Express 4, which does not catch errors from async handlers,
  that write throws `ERR_HTTP_HEADERS_SENT` inside the `catch`, and the error
  escapes as an unhandled rejection.
- Console logging is left out. So is the asynchrony of `bcrypt.hash`; the
  model treats it as one step.
- Requests are modelled one at a time. The e-mail lookup and the insert are
  separated by `await bcrypt.hash`, so a second request for the same address
  can insert in between. The first request then misses in the lookup, fails
  on UNIQUE(email) at insert time, and gets a single 500 with no row stored.
  No path of the model has a lookup miss followed by that insert failure.

## Findings

| source | as written | input that shows it | evidently intended | confidence | as-written member | corrected member |
|---|---|---|---|---|---|---|
| src/controllers/userController.ts:21-23 | after `res.status(409)` for a known address the handler does not return. It hashes the password, the INSERT fails on the UNIQUE e-mail constraint, and the `catch` writes a 500 to a response already sent | registering the same valid body (for example "ada@example.com", "Passw0rd", "student") twice | `return` after the 409, since its body "User already exists" already answers the request: one 409 reply, no hash and no insert | not executed | UserController.CreateNewUser, RegistrationScenarios.AdaRegistersTwice | UserController.CreateNewUserCorrected, RegistrationScenarios.AdaRegistersTwiceCorrected |
