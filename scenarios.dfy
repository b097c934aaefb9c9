/**
 * Concrete runs of the registration workflow against a freshly initialised
 * table, with a stand-in hash and e-mail check: a first signup, the same
 * signup again (as written and corrected), and a body the rules reject.
 */
module RegistrationScenarios {
  import opened Wrappers
  import opened UserModel
  import opened Db
  import opened Validators
  import opened Utils
  import opened UserController

  const Now := "2024-01-01T00:00:00.000Z"

  const Ada := SignupBody(Some("Ada"), Some("ada@example.com"), Some("Passw0rd"), Some("student"))

  function StandInHash(password: string): Option<string>
  {
    Some("hash:" + password)
  }

  predicate StandInIsEmail(s: string)
  {
    '@' in s
  }

  lemma AdaIsValid()
    ensures ValidSignup(Ada, StandInIsEmail)
    ensures ParseUserType(Ada.userType.value) == Some(Student)
    ensures StandInHash(Ada.password.value) == Some("hash:Passw0rd")
  {
    assert "hash:" + "Passw0rd" == "hash:Passw0rd";
    var pw := "Passw0rd";
    assert pw[5] == '0' && pw[1] == 'a' && pw[0] == 'P';
    assert "ada@example.com"[3] == '@';
    UserTypeValuesLiteral();
  }

  /**
   * Ada signs up and gets 201 with her record minus the password; signing up
   * again with the same address writes 409 and then 500 and adds no row.
   */
  method AdaRegistersTwice() returns (first: seq<Reply>, second: seq<Reply>, secondSteps: seq<Step>, stored: seq<User>)
    ensures first == [Reply(201, Created(PublicUser("uuid-1", "Ada", "ada@example.com", Student, Now)))]
    ensures second == [Conflict, InternalError]
    ensures secondSteps == [LookUpEmail, HashPassword, InsertUser]
    ensures stored == [User("uuid-1", "Ada", "ada@example.com", "hash:Passw0rd", Student, Now)]
  {
    var db := new Database.Open(false, []);
    db.InitializeDatabase();
    AdaIsValid();
    var firstSteps;
    assert PathOf(true, [], Ada, StandInIsEmail, StandInHash, "uuid-1") == Registered;
    first, firstSteps := CreateNewUser(db, Ada, StandInIsEmail, StandInHash, "uuid-1", Now);
    assert db.rows[0].email == "ada@example.com";
    assert PathOf(true, db.rows, Ada, StandInIsEmail, StandInHash, "uuid-2") == Duplicate;
    second, secondSteps := CreateNewUser(db, Ada, StandInIsEmail, StandInHash, "uuid-2", Now);
    stored := db.rows;
  }

  /** With the `return` after the 409, the second signup writes the 409 alone. */
  method AdaRegistersTwiceCorrected() returns (second: seq<Reply>, secondSteps: seq<Step>, stored: seq<User>)
    ensures second == [Conflict]
    ensures secondSteps == [LookUpEmail]
    ensures stored == [User("uuid-1", "Ada", "ada@example.com", "hash:Passw0rd", Student, Now)]
  {
    var db := new Database.Open(false, []);
    db.InitializeDatabase();
    AdaIsValid();
    assert PathOf(true, [], Ada, StandInIsEmail, StandInHash, "uuid-1") == Registered;
    var first, firstSteps := CreateNewUserCorrected(db, Ada, StandInIsEmail, StandInHash, "uuid-1", Now);
    assert db.rows[0].email == "ada@example.com";
    assert PathOf(true, db.rows, Ada, StandInIsEmail, StandInHash, "uuid-2") == Duplicate;
    second, secondSteps := CreateNewUserCorrected(db, Ada, StandInIsEmail, StandInHash, "uuid-2", Now);
    stored := db.rows;
  }

  const WeakPassword := SignupBody(Some("Ada"), Some("ada@example.com"), Some("password"), Some("admin"))

  lemma WeakPasswordErrors()
    ensures SignupErrors(WeakPassword, StandInIsEmail) == [PasswordHasDigit, PasswordHasUppercase, UserTypeIsIn]
  {
    var pw := "password";
    assert pw == ['p', 'a', 's', 's', 'w', 'o', 'r', 'd'];
    assert 'a' <= pw[1] <= 'z';
    assert PasswordErrors(pw) == [PasswordHasDigit, PasswordHasUppercase];
    assert "ada@example.com"[3] == '@';
    assert EmailErrors("ada@example.com", StandInIsEmail) == [];
    UserTypeValuesLiteral();
    assert UserTypeErrors("admin") == [UserTypeIsIn];
  }

  /** The handler's answer to that body: the 400 alone, with the table as it was. */
  lemma WeakPasswordIsRejected()
    ensures Expected(true, [], WeakPassword, StandInIsEmail, StandInHash, "uuid-1", Now, false)
      == Run([Reply(400, ValidationErrors([PasswordHasDigit, PasswordHasUppercase, UserTypeIsIn]))], [])
    ensures RowsAfter(true, [], WeakPassword, StandInIsEmail, StandInHash, "uuid-1", Now) == []
  {
    WeakPasswordErrors();
    assert !ValidSignup(WeakPassword, StandInIsEmail);
    assert PathOf(true, [], WeakPassword, StandInIsEmail, StandInHash, "uuid-1") == Rejected;
  }

  /** A password with no digit and no upper-case letter and an unknown user type: 400 listing all three, no row. */
  method RejectedSignup() returns (writes: seq<Reply>, steps: seq<Step>, stored: seq<User>)
    ensures writes == [Reply(400, ValidationErrors([PasswordHasDigit, PasswordHasUppercase, UserTypeIsIn]))]
    ensures steps == [] && stored == []
  {
    var db := new Database.Open(true, []);
    WeakPasswordIsRejected();
    writes, steps := CreateNewUser(db, WeakPassword, StandInIsEmail, StandInHash, "uuid-1", Now);
    stored := db.rows;
  }

  /**
   * `initializeDatabase` run twice, as the database tests do, on a database
   * file that may already hold the table and rows: the table exists
   * afterwards and both runs leave the stored rows as they were.
   */
  method InitializeTwice(hasTable: bool, stored: seq<User>) returns (created: bool, afterFirst: seq<User>, afterSecond: seq<User>)
    requires !hasTable ==> stored == []
    requires SatisfiesSchema(stored)
    ensures created
    ensures afterFirst == stored && afterSecond == stored
  {
    var db := new Database.Open(hasTable, stored);
    db.InitializeDatabase();
    afterFirst := db.rows;
    db.InitializeDatabase();
    afterSecond := db.rows;
    created := db.tableCreated;
  }
}
