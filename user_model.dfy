/** The `UserType` enumeration and the `User` record of src/models/User.ts. */
module UserModel {
  import opened Wrappers

  /** The four kinds of user, in declaration order. */
  datatype UserType = Student | Teacher | Parent | PrivateTutor

  /** The string value each enum member carries. */
  function UserTypeValue(t: UserType): string
  {
    match t
    case Student => "student"
    case Teacher => "teacher"
    case Parent => "parent"
    case PrivateTutor => "private tutor"
  }

  /** All members, in declaration order. */
  const AllUserTypes: seq<UserType> := [Student, Teacher, Parent, PrivateTutor]

  /** `Object.values(UserType)`: the string values in declaration order. */
  function UserTypeValues(): seq<string>
  {
    seq(|AllUserTypes|, i requires 0 <= i < |AllUserTypes| => UserTypeValue(AllUserTypes[i]))
  }

  /** The value list spelled out. */
  lemma UserTypeValuesLiteral()
    ensures UserTypeValues() == ["student", "teacher", "parent", "private tutor"]
  {
    var vs := UserTypeValues();
    assert vs[0] == "student" && vs[1] == "teacher" && vs[2] == "parent" && vs[3] == "private tutor";
  }

  /** Reads a string as a member of the enumeration; `None` for any other string. */
  function ParseUserType(s: string): (r: Option<UserType>)
    ensures r.Some? <==> s in UserTypeValues()
    ensures r.Some? ==> UserTypeValue(r.value) == s
  {
    UserTypeValuesLiteral();
    if s == "student" then Some(Student)
    else if s == "teacher" then Some(Teacher)
    else if s == "parent" then Some(Parent)
    else if s == "private tutor" then Some(PrivateTutor)
    else None
  }

  /** Every member appears in the list of members: the enumeration has exactly these four. */
  lemma AllUserTypesComplete(t: UserType)
    ensures t in AllUserTypes
    ensures |AllUserTypes| == 4
  {
  }

  /** Distinct members carry distinct strings, so the four values are pairwise distinct. */
  lemma UserTypeValueInjective(a: UserType, b: UserType)
    ensures UserTypeValue(a) == UserTypeValue(b) ==> a == b
  {
    // the four values differ in their first character or in their length
    var va, vb := UserTypeValue(a), UserTypeValue(b);
    match a {
      case Student => assert va[0] == 's' && |va| == 7;
      case Teacher => assert va[0] == 't' && |va| == 7;
      case Parent => assert va[0] == 'p' && |va| == 6;
      case PrivateTutor => assert va[0] == 'p' && |va| == 13;
    }
    match b {
      case Student => assert vb[0] == 's' && |vb| == 7;
      case Teacher => assert vb[0] == 't' && |vb| == 7;
      case Parent => assert vb[0] == 'p' && |vb| == 6;
      case PrivateTutor => assert vb[0] == 'p' && |vb| == 13;
    }
  }

  /** Parsing the value of a member gives the member back. */
  lemma ParseUserTypeRoundTrip(t: UserType)
    ensures ParseUserType(UserTypeValue(t)) == Some(t)
  {
    UserTypeValueInjective(t, ParseUserType(UserTypeValue(t)).value);
  }

  /** The value set has exactly four elements. */
  lemma UserTypeValuesDistinct()
    ensures |set v | v in UserTypeValues()| == 4
  {
    UserTypeValuesLiteral();
    var vs := UserTypeValues();
    assert (set v | v in vs) == {"student", "teacher", "parent", "private tutor"};
  }

  /** A stored user: all six fields of the interface. */
  datatype User = User(
    id: string,
    fullName: string,
    email: string,
    password: string,
    userType: UserType,
    createdDate: string)
}
