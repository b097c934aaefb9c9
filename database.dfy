/**
 * The `users` table of src/db/database.ts: its schema constraints as a class
 * invariant, the two SQL statements the repository issues against it
 * (`SELECT * FROM users WHERE <column> = ?` and the six-column `INSERT`), and
 * the idempotent `CREATE TABLE IF NOT EXISTS` of `initializeDatabase`.
 */
module Db {
  import opened Wrappers
  import opened UserModel

  /** The two columns the repository looks rows up by. */
  datatype Column = IdColumn | EmailColumn

  function ColumnValue(u: User, c: Column): string
  {
    match c
    case IdColumn => u.id
    case EmailColumn => u.email
  }

  /** The list of the `CHECK(userType IN (...))` constraint, as the schema spells it. */
  const CheckValues: seq<string> := ["student", "teacher", "parent", "private tutor"]

  /** The schema's CHECK list is exactly the enumeration's value list. */
  lemma CheckValuesAreUserTypeValues()
    ensures CheckValues == UserTypeValues()
    ensures forall t: UserType :: UserTypeValue(t) in CheckValues
  {
    UserTypeValuesLiteral();
    forall t: UserType ensures UserTypeValue(t) in CheckValues {
      AllUserTypesComplete(t);
    }
  }

  /** No two rows agree on column `c` (a PRIMARY KEY or UNIQUE constraint). */
  ghost predicate Unique(rows: seq<User>, c: Column)
  {
    forall i, j :: 0 <= i < j < |rows| ==> ColumnValue(rows[i], c) != ColumnValue(rows[j], c)
  }

  /**
   * The table's constraints: `id` is the PRIMARY KEY and `email` is UNIQUE.
   * The CHECK on `userType` holds because a row's `userType` is a `UserType`
   * (see `CheckValuesAreUserTypeValues`), and NOT NULL holds because a string is never null.
   */
  ghost predicate SatisfiesSchema(rows: seq<User>)
  {
    Unique(rows, IdColumn) && Unique(rows, EmailColumn)
  }

  /**
   * `query.get(v)` for `SELECT * FROM users WHERE c = ?`: a row whose column
   * `c` equals `v`, or nothing. The query has no ORDER BY, so which row comes
   * back is unspecified; the contract names none, and on a unique column there
   * is only one (`LookupUnique`).
   */
  function Lookup(rows: seq<User>, c: Column, v: string): (r: Option<User>)
    ensures r.Some? ==> r.value in rows && ColumnValue(r.value, c) == v
    ensures r.None? <==> forall u :: u in rows ==> ColumnValue(u, c) != v
  {
    if rows == [] then None
    else if ColumnValue(rows[0], c) == v then Some(rows[0])
    else Lookup(rows[1..], c, v)
  }

  /** Where the column is unique, the lookup finds THE row holding the value. */
  lemma {:induction false} LookupUnique(rows: seq<User>, c: Column, u: User)
    requires Unique(rows, c)
    requires u in rows
    ensures Lookup(rows, c, ColumnValue(u, c)) == Some(u)
  {
    if rows[0] != u {
      assert u in rows[1..];
      assert Unique(rows[1..], c) by {
        forall i, j | 0 <= i < j < |rows[1..]|
          ensures ColumnValue(rows[1..][i], c) != ColumnValue(rows[1..][j], c)
        {
          assert rows[1..][i] == rows[i + 1] && rows[1..][j] == rows[j + 1];
        }
      }
      LookupUnique(rows[1..], c, u);
    }
  }

  /** The same, for every row at once: a unique value identifies its row. */
  lemma LookupUniqueEvery(rows: seq<User>, c: Column, v: string)
    requires Unique(rows, c)
    ensures forall u :: u in rows && ColumnValue(u, c) == v ==> Lookup(rows, c, v) == Some(u)
  {
    forall u | u in rows && ColumnValue(u, c) == v
      ensures Lookup(rows, c, v) == Some(u)
    {
      LookupUnique(rows, c, u);
    }
  }

  /** A row the table accepted is what the lookups by its id and by its e-mail address return. */
  lemma InsertedRowIsFound(rows: seq<User>, u: User)
    requires SatisfiesSchema(rows + [u])
    ensures Lookup(rows + [u], IdColumn, u.id) == Some(u)
    ensures Lookup(rows + [u], EmailColumn, u.email) == Some(u)
  {
    assert u == (rows + [u])[|rows|];
    LookupUnique(rows + [u], IdColumn, u);
    LookupUnique(rows + [u], EmailColumn, u);
  }

  /** The constraint an INSERT violates. */
  datatype Constraint = CheckUserType | PrimaryKeyId | UniqueEmail

  /** What a statement against the table can fail with. */
  datatype DbError = NoSuchTable | ConstraintFailed(constraint: Constraint)

  /**
   * The constraint SQLite reports when inserting a row with this `id`,
   * `email` and `userType` text fails. For this table it checks the CHECK
   * constraint first, then UNIQUE(email), then the PRIMARY KEY, so a row
   * repeating both a stored id and a stored address fails on the address.
   */
  function InsertViolation(rows: seq<User>, id: string, email: string, userType: string): (r: Option<Constraint>)
    ensures r.None? <==>
      userType in CheckValues && forall u :: u in rows ==> u.id != id && u.email != email
    ensures r == Some(CheckUserType) <==> userType !in CheckValues
    ensures r == Some(UniqueEmail) <==>
      userType in CheckValues && exists u :: u in rows && u.email == email
    ensures r == Some(PrimaryKeyId) <==>
      && userType in CheckValues
      && (forall u :: u in rows ==> u.email != email)
      && (exists u :: u in rows && u.id == id)
  {
    if userType !in CheckValues then Some(CheckUserType)
    else if Lookup(rows, EmailColumn, email).Some? then Some(UniqueEmail)
    else if Lookup(rows, IdColumn, id).Some? then Some(PrimaryKeyId)
    else None
  }

  /** A row repeating both keys of a stored row is refused for its address. */
  lemma DoubleKeyClashReportsEmail(rows: seq<User>, u: User)
    requires u in rows
    ensures InsertViolation(rows, u.id, u.email, UserTypeValue(u.userType)) == Some(UniqueEmail)
  {
    CheckValuesAreUserTypeValues();
  }

  /**
   * Inserting a row keeps the schema exactly when no constraint is violated:
   * the database accepts every row that keeps the table consistent and no other.
   */
  lemma {:induction false} InsertKeepsSchema(rows: seq<User>, u: User)
    requires SatisfiesSchema(rows)
    ensures SatisfiesSchema(rows + [u]) <==>
      InsertViolation(rows, u.id, u.email, UserTypeValue(u.userType)) == None
  {
    CheckValuesAreUserTypeValues();
    var rows' := rows + [u];
    if InsertViolation(rows, u.id, u.email, UserTypeValue(u.userType)) == None {
      forall c: Column, i, j | 0 <= i < j < |rows'|
        ensures ColumnValue(rows'[i], c) != ColumnValue(rows'[j], c)
      {
        if j == |rows| {
          assert rows'[i] in rows;
        } else {
          assert rows'[i] == rows[i] && rows'[j] == rows[j];
        }
      }
    } else {
      var k: int;
      if exists x :: x in rows && x.id == u.id {
        var x :| x in rows && x.id == u.id;
        k :| 0 <= k < |rows| && rows[k] == x;
        assert ColumnValue(rows'[k], IdColumn) == ColumnValue(rows'[|rows|], IdColumn);
      } else {
        var x :| x in rows && x.email == u.email;
        k :| 0 <= k < |rows| && rows[k] == x;
        assert ColumnValue(rows'[k], EmailColumn) == ColumnValue(rows'[|rows|], EmailColumn);
      }
    }
  }

  /**
   * The database handle and its one table. `tableCreated` says whether the
   * `users` table exists in the database file; `rows` are its rows in
   * insertion order.
   */
  class Database {
    var tableCreated: bool
    var rows: seq<User>

    /** The table invariant: no table means no rows, and the constraints hold. */
    ghost predicate Valid()
      reads this
    {
      (!tableCreated ==> rows == []) && SatisfiesSchema(rows)
    }

    /**
     * `new Database(dbPath)`: opens a database file that may already hold
     * the table (and rows written by earlier runs) or not.
     */
    constructor Open(hasTable: bool, stored: seq<User>)
      requires !hasTable ==> stored == []
      requires SatisfiesSchema(stored)
      ensures Valid()
      ensures tableCreated == hasTable && rows == stored
    {
      tableCreated := hasTable;
      rows := stored;
    }

    /**
     * `initializeDatabase`: `CREATE TABLE IF NOT EXISTS users (...)`. Creates
     * an empty table when there is none and leaves an existing one, rows
     * included, untouched, so running it again changes nothing.
     */
    method InitializeDatabase()
      requires Valid()
      modifies this
      ensures Valid()
      ensures tableCreated
      ensures old(tableCreated) ==> rows == old(rows)
      ensures !old(tableCreated) ==> rows == []
    {
      if !tableCreated {
        tableCreated := true;
        rows := [];
      }
    }

    /** `db.prepare('SELECT * FROM users WHERE <c> = ?').get(v)`. */
    function Select(c: Column, v: string): (r: Result<Option<User>, DbError>)
      reads this
      requires Valid()
      ensures r.Failure? <==> !tableCreated
      ensures r.Failure? ==> r.error == NoSuchTable
      ensures r.Success? && r.value.Some? ==> r.value.value in rows && ColumnValue(r.value.value, c) == v
      ensures r.Success? ==> (r.value.None? <==> forall u :: u in rows ==> ColumnValue(u, c) != v)
    {
      if !tableCreated then Failure(NoSuchTable) else Success(Lookup(rows, c, v))
    }

    /**
     * `db.prepare('INSERT INTO users (...) VALUES (?,?,?,?,?,?)').run(...)`.
     * `userType` is the text bound to the column; the CHECK constraint is what
     * turns it into a `UserType`. On success the row is appended; on failure
     * the table is left as it was.
     */
    method Insert(id: string, fullName: string, email: string, password: string,
                  userType: string, createdDate: string) returns (err: Option<DbError>)
      requires Valid()
      modifies this
      ensures Valid() && tableCreated == old(tableCreated)
      ensures !old(tableCreated) ==> err == Some(NoSuchTable)
      ensures old(tableCreated) ==>
        match InsertViolation(old(rows), id, email, userType)
        case None => err == None
        case Some(c) => err == Some(ConstraintFailed(c))
      ensures err.Some? ==> rows == old(rows)
      ensures err.None? ==>
        ParseUserType(userType).Some? &&
        rows == old(rows) + [User(id, fullName, email, password, ParseUserType(userType).value, createdDate)]
    {
      if !tableCreated {
        return Some(NoSuchTable);
      }
      var violation := InsertViolation(rows, id, email, userType);
      if violation.Some? {
        return Some(ConstraintFailed(violation.value));
      }
      CheckValuesAreUserTypeValues();
      var t := ParseUserType(userType).value;
      var row := User(id, fullName, email, password, t, createdDate);
      InsertKeepsSchema(rows, row);
      rows := rows + [row];
      err := None;
    }
  }
}
