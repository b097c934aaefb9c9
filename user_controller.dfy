/**
 * src/controllers/userController.ts: the `createNewUser` registration
 * workflow. The response is modelled as the list of `res.status(..).json(..)`
 * writes the handler makes, in order; the client receives the first one.
 * bcrypt is the `hash` parameter (`None` when hashing throws), the uuid of
 * the new row is `newId`, the clock reading is `now`, and the e-mail check of
 * the validation rules is `isEmail`. Besides the writes, each run reports the
 * repository and bcrypt calls it made.
 */
module UserController {
  import opened Wrappers
  import opened UserModel
  import opened Db
  import opened UserRepository
  import opened Validators
  import opened Utils

  /** A JSON response body. */
  datatype Body =
    | ValidationErrors(errors: seq<Rule>)
    | ErrorMessage(error: string)
    | Created(user: PublicUser)

  /** One `res.status(status).json(body)`. */
  datatype Reply = Reply(status: int, body: Body)

  /** The calls the handler makes outside itself, in order. */
  datatype Step = LookUpEmail | HashPassword | InsertUser

  const Conflict := Reply(409, ErrorMessage("User already exists"))
  const InternalError := Reply(500, ErrorMessage("Internal server error"))

  /** Some row already holds this e-mail address. */
  ghost predicate EmailRegistered(rows: seq<User>, email: string)
  {
    Lookup(rows, EmailColumn, email).Some?
  }

  /** Some row already holds this id. */
  ghost predicate IdTaken(rows: seq<User>, id: string)
  {
    Lookup(rows, IdColumn, id).Some?
  }

  /**
   * The way a registration goes, decided by the input and the table before it.
   * The service creates the table when it starts (src/db/database.ts:37), so
   * `NoTable` stands for the e-mail lookup throwing for any reason.
   */
  datatype Path = Rejected | NoTable | Duplicate | HashFailed | IdClash | Registered

  ghost function PathOf(tableCreated: bool, rows: seq<User>, b: SignupBody, isEmail: string -> bool,
                        hash: string -> Option<string>, newId: string): Path
  {
    if !ValidSignup(b, isEmail) then Rejected
    else if !tableCreated then NoTable
    else if EmailRegistered(rows, b.email.value) then Duplicate
    else if hash(b.password.value).None? then HashFailed
    else if IdTaken(rows, newId) then IdClash
    else Registered
  }

  /** The user a successful registration of `b` stores. */
  function NewUser(b: SignupBody, isEmail: string -> bool, hash: string -> Option<string>,
                   newId: string, now: string): User
    requires ValidSignup(b, isEmail) && hash(b.password.value).Some?
  {
    User(newId, b.fullName.value, b.email.value, hash(b.password.value).value,
         ParseUserType(b.userType.value).value, now)
  }

  /** The replies a run writes, in order, and the calls it makes, in order. */
  datatype Run = Run(writes: seq<Reply>, steps: seq<Step>)

  /**
   * What a registration does on each path. `returnAfterConflict` tells the
   * handler as written (`false`: it carries on after the 409) from the handler
   * with the missing `return` put back (`true`).
   */
  ghost function Expected(tableCreated: bool, rows: seq<User>, b: SignupBody, isEmail: string -> bool,
                          hash: string -> Option<string>, newId: string, now: string,
                          returnAfterConflict: bool): Run
  {
    match PathOf(tableCreated, rows, b, isEmail, hash, newId)
    case Rejected => Run([Reply(400, ValidationErrors(SignupErrors(b, isEmail)))], [])
    case NoTable => Run([InternalError], [LookUpEmail])
    case Duplicate =>
      if returnAfterConflict then Run([Conflict], [LookUpEmail])
      else if hash(b.password.value).None? then Run([Conflict, InternalError], [LookUpEmail, HashPassword])
      else Run([Conflict, InternalError], [LookUpEmail, HashPassword, InsertUser])
    case HashFailed => Run([InternalError], [LookUpEmail, HashPassword])
    case IdClash => Run([InternalError], [LookUpEmail, HashPassword, InsertUser])
    case Registered =>
      Run([Reply(201, Created(RemovePassword(NewUser(b, isEmail, hash, newId, now))))],
          [LookUpEmail, HashPassword, InsertUser])
  }

  /** The table after a registration: one new row on success, untouched otherwise. */
  ghost function RowsAfter(tableCreated: bool, rows: seq<User>, b: SignupBody, isEmail: string -> bool,
                           hash: string -> Option<string>, newId: string, now: string): seq<User>
  {
    if PathOf(tableCreated, rows, b, isEmail, hash, newId) == Registered
    then rows + [NewUser(b, isEmail, hash, newId, now)]
    else rows
  }

  /**
   * The client receives the first write. Both handlers write a reply on every
   * path and agree on the first one; the corrected handler writes exactly one.
   */
  lemma ClientSeesTheSameReply(tableCreated: bool, rows: seq<User>, b: SignupBody, isEmail: string -> bool,
                               hash: string -> Option<string>, newId: string, now: string)
    ensures var asWritten := Expected(tableCreated, rows, b, isEmail, hash, newId, now, false).writes;
      && |asWritten| >= 1
      && Expected(tableCreated, rows, b, isEmail, hash, newId, now, true).writes == [asWritten[0]]
  {
  }

  /**
   * The handlers differ exactly when the address is already registered, and
   * there the as-written one writes a second reply.
   */
  lemma HandlersDifferOnlyOnDuplicate(tableCreated: bool, rows: seq<User>, b: SignupBody, isEmail: string -> bool,
                                      hash: string -> Option<string>, newId: string, now: string)
    ensures var path := PathOf(tableCreated, rows, b, isEmail, hash, newId);
      var asWritten := Expected(tableCreated, rows, b, isEmail, hash, newId, now, false);
      var corrected := Expected(tableCreated, rows, b, isEmail, hash, newId, now, true);
      && (asWritten != corrected <==> path == Duplicate)
      && (|asWritten.writes| == 2 <==> path == Duplicate)
  {
  }

  /** A registration on a table that meets its constraints leaves one that does. */
  lemma {:induction false} RegistrationKeepsSchema(tableCreated: bool, rows: seq<User>, b: SignupBody,
                                                   isEmail: string -> bool, hash: string -> Option<string>,
                                                   newId: string, now: string)
    requires SatisfiesSchema(rows)
    ensures SatisfiesSchema(RowsAfter(tableCreated, rows, b, isEmail, hash, newId, now))
  {
    if PathOf(tableCreated, rows, b, isEmail, hash, newId) == Registered {
      var u := NewUser(b, isEmail, hash, newId, now);
      ParseUserTypeRoundTrip(u.userType);
      CheckValuesAreUserTypeValues();
      InsertKeepsSchema(rows, u);
    }
  }

  /**
   * After a registration the new row is found by its id and by its address,
   * it holds the hash rather than the password, and the 201 reply is that
   * row without its password.
   */
  lemma {:induction false} RegisteredUserIsStored(tableCreated: bool, rows: seq<User>, b: SignupBody,
                                                  isEmail: string -> bool, hash: string -> Option<string>,
                                                  newId: string, now: string)
    requires SatisfiesSchema(rows)
    requires PathOf(tableCreated, rows, b, isEmail, hash, newId) == Registered
    ensures var after := RowsAfter(tableCreated, rows, b, isEmail, hash, newId, now);
      var u := after[|after| - 1];
      && |after| == |rows| + 1
      && Lookup(after, IdColumn, newId) == Some(u)
      && Lookup(after, EmailColumn, b.email.value) == Some(u)
      && u.password == hash(b.password.value).value
      && Expected(tableCreated, rows, b, isEmail, hash, newId, now, false).writes == [Reply(201, Created(RemovePassword(u)))]
  {
    var u := NewUser(b, isEmail, hash, newId, now);
    RegistrationKeepsSchema(tableCreated, rows, b, isEmail, hash, newId, now);
    InsertedRowIsFound(rows, u);
  }

  /**
   * The part of the `try` block after the e-mail lookup, shared by both
   * handlers: hash the password, then insert the row.
   */
  method HashAndStore(db: Database, b: SignupBody, isEmail: string -> bool,
                      hash: string -> Option<string>, newId: string, now: string)
    returns (stored: Option<User>, steps: seq<Step>)
    requires db.Valid() && db.tableCreated && ValidSignup(b, isEmail)
    modifies db
    ensures db.Valid() && db.tableCreated
    ensures hash(b.password.value).None? ==> stored.None? && steps == [HashPassword]
    ensures hash(b.password.value).Some? ==> steps == [HashPassword, InsertUser]
    ensures stored.Some? <==>
      hash(b.password.value).Some? && !EmailRegistered(old(db.rows), b.email.value) && !IdTaken(old(db.rows), newId)
    ensures stored.Some? ==> stored.value == NewUser(b, isEmail, hash, newId, now) && db.rows == old(db.rows) + [stored.value]
    ensures stored.None? ==> db.rows == old(db.rows)
  {
    var hashedPassword := hash(b.password.value);
    if hashedPassword.None? {
      return None, [HashPassword];
    }
    var newUser := CreateUser(db, UserData(b.fullName.value, b.email.value, hashedPassword.value, b.userType.value), newId, now);
    steps := [HashPassword, InsertUser];
    if newUser.Failure? {
      return None, steps;
    }
    ParseUserTypeRoundTrip(newUser.value.userType);
    stored := Some(newUser.value);
  }

  /**
   * The `try` block of `createNewUser` as written, reached once the validation
   * rules have passed: after the 409 for a known e-mail address it goes on to
   * hash and insert, the insert fails on the UNIQUE constraint, and the catch
   * writes a 500 as well.
   */
  method TryRegister(db: Database, body: SignupBody, isEmail: string -> bool,
                     hash: string -> Option<string>, newId: string, now: string)
    returns (writes: seq<Reply>, steps: seq<Step>)
    requires db.Valid() && ValidSignup(body, isEmail)
    modifies db
    ensures db.Valid() && db.tableCreated == old(db.tableCreated)
    ensures db.rows == RowsAfter(old(db.tableCreated), old(db.rows), body, isEmail, hash, newId, now)
    ensures Run(writes, steps) == Expected(old(db.tableCreated), old(db.rows), body, isEmail, hash, newId, now, false)
  {
    writes := [];
    var existingUser := FindUserByEmail(db, body.email.value);
    if existingUser.Failure? {
      return writes + [InternalError], [LookUpEmail];
    }
    if existingUser.value.Some? {
      writes := writes + [Conflict];
    }
    var newUser, more := HashAndStore(db, body, isEmail, hash, newId, now);
    steps := [LookUpEmail] + more;
    if newUser.None? {
      // the UNIQUE constraint rejects a second row for a known address
      return writes + [InternalError], steps;
    }
    writes := writes + [Reply(201, Created(RemovePassword(newUser.value)))];
  }

  /**
   * The `try` block with the `return` after the 409 that the as-written
   * handler lacks: a known e-mail address gets the 409 alone, and neither the
   * hash nor the insert runs.
   */
  method TryRegisterCorrected(db: Database, body: SignupBody, isEmail: string -> bool,
                              hash: string -> Option<string>, newId: string, now: string)
    returns (writes: seq<Reply>, steps: seq<Step>)
    requires db.Valid() && ValidSignup(body, isEmail)
    modifies db
    ensures db.Valid() && db.tableCreated == old(db.tableCreated)
    ensures db.rows == RowsAfter(old(db.tableCreated), old(db.rows), body, isEmail, hash, newId, now)
    ensures Run(writes, steps) == Expected(old(db.tableCreated), old(db.rows), body, isEmail, hash, newId, now, true)
  {
    var existingUser := FindUserByEmail(db, body.email.value);
    if existingUser.Failure? {
      return [InternalError], [LookUpEmail];
    }
    if existingUser.value.Some? {
      return [Conflict], [LookUpEmail];
    }
    var newUser, more := HashAndStore(db, body, isEmail, hash, newId, now);
    steps := [LookUpEmail] + more;
    if newUser.None? {
      return [InternalError], steps;
    }
    writes := [Reply(201, Created(RemovePassword(newUser.value)))];
  }

  /** `createNewUser` as written: the validation result, then the `try` block. */
  method CreateNewUser(db: Database, body: SignupBody, isEmail: string -> bool,
                       hash: string -> Option<string>, newId: string, now: string)
    returns (writes: seq<Reply>, steps: seq<Step>)
    requires db.Valid()
    modifies db
    ensures db.Valid() && db.tableCreated == old(db.tableCreated)
    ensures db.rows == RowsAfter(old(db.tableCreated), old(db.rows), body, isEmail, hash, newId, now)
    ensures Run(writes, steps) == Expected(old(db.tableCreated), old(db.rows), body, isEmail, hash, newId, now, false)
  {
    var errors := SignupErrors(body, isEmail);
    if errors != [] {
      return [Reply(400, ValidationErrors(errors))], [];
    }
    writes, steps := TryRegister(db, body, isEmail, hash, newId, now);
  }

  /** `createNewUser` with the missing `return` after the 409 put back. */
  method CreateNewUserCorrected(db: Database, body: SignupBody, isEmail: string -> bool,
                                hash: string -> Option<string>, newId: string, now: string)
    returns (writes: seq<Reply>, steps: seq<Step>)
    requires db.Valid()
    modifies db
    ensures db.Valid() && db.tableCreated == old(db.tableCreated)
    ensures db.rows == RowsAfter(old(db.tableCreated), old(db.rows), body, isEmail, hash, newId, now)
    ensures Run(writes, steps) == Expected(old(db.tableCreated), old(db.rows), body, isEmail, hash, newId, now, true)
  {
    var errors := SignupErrors(body, isEmail);
    if errors != [] {
      return [Reply(400, ValidationErrors(errors))], [];
    }
    writes, steps := TryRegisterCorrected(db, body, isEmail, hash, newId, now);
  }
}
