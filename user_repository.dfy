/**
 * src/repositories/userRepository.ts: the three operations on the user table.
 * The generated uuid and the creation timestamp are inputs (`newId`, `now`).
 * The `try`/`catch` blocks of the source only log and rethrow, so an error of
 * the database is passed on unchanged as a `Failure`.
 */
module UserRepository {
  import opened Wrappers
  import opened UserModel
  import opened Db

  /** What `createUser` is given: a user without `id` and `createdDate`. The
      user type is the text that will be bound to the column. */
  datatype UserData = UserData(fullName: string, email: string, password: string, userType: string)

  /** `findUserByEmail`: the row holding `email`, or nothing. */
  function FindUserByEmail(db: Database, email: string): (r: Result<Option<User>, DbError>)
    reads db
    requires db.Valid()
    ensures r.Failure? <==> !db.tableCreated
    ensures r.Success? ==> (r.value.None? <==> forall u :: u in db.rows ==> u.email != email)
    ensures forall u :: u in db.rows && u.email == email ==> r == Success(Some(u))
  {
    LookupUniqueEvery(db.rows, EmailColumn, email);
    db.Select(EmailColumn, email)
  }

  /** `findUserById`: the row holding `id`, or nothing. */
  function FindUserById(db: Database, id: string): (r: Result<Option<User>, DbError>)
    reads db
    requires db.Valid()
    ensures r.Failure? <==> !db.tableCreated
    ensures r.Success? ==> (r.value.None? <==> forall u :: u in db.rows ==> u.id != id)
    ensures forall u :: u in db.rows && u.id == id ==> r == Success(Some(u))
  {
    LookupUniqueEvery(db.rows, IdColumn, id);
    db.Select(IdColumn, id)
  }

  /**
   * `createUser`: inserts one row with the fresh `newId` and the timestamp
   * `now`, and returns the record it inserted. The password is stored as
   * given. A failing insert leaves the table as it was and is returned.
   */
  method CreateUser(db: Database, userData: UserData, newId: string, now: string)
    returns (r: Result<User, DbError>)
    requires db.Valid()
    modifies db
    ensures db.Valid() && db.tableCreated == old(db.tableCreated)
    ensures r.Success? <==>
      old(db.tableCreated) && InsertViolation(old(db.rows), newId, userData.email, userData.userType) == None
    ensures r.Failure? ==> db.rows == old(db.rows)
    ensures r.Failure? && !old(db.tableCreated) ==> r.error == NoSuchTable
    ensures r.Failure? && old(db.tableCreated) ==>
      r.error == ConstraintFailed(InsertViolation(old(db.rows), newId, userData.email, userData.userType).value)
    ensures r.Success? ==>
      && r.value.id == newId
      && r.value.fullName == userData.fullName
      && r.value.email == userData.email
      && r.value.password == userData.password
      && UserTypeValue(r.value.userType) == userData.userType
      && r.value.createdDate == now
    ensures r.Success? ==> db.rows == old(db.rows) + [r.value]
  {
    var err := db.Insert(newId, userData.fullName, userData.email, userData.password, userData.userType, now);
    if err.Some? {
      return Failure(err.value);
    }
    var userType := ParseUserType(userData.userType).value;
    r := Success(User(newId, userData.fullName, userData.email, userData.password, userType, now));
  }
}
