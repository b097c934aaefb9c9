/**
 * src/middleware/validators.ts: `userSignupValidationRules`, the four rule
 * chains run on the signup body before the controller. Each failing check
 * contributes one error carrying the message attached to it; the chains do
 * not stop at their first failure, and the errors come in rule order. An
 * absent field is read as the empty string. Whether a string is an e-mail
 * address is decided by the `isEmail` parameter.
 */
module Validators {
  import opened Wrappers
  import opened UserModel

  /** The signup request body; a field the client did not send is `None`. */
  datatype SignupBody = SignupBody(
    fullName: Option<string>,
    email: Option<string>,
    password: Option<string>,
    userType: Option<string>)

  /** The checks of the four rule chains, in the order they run. */
  datatype Rule =
    | FullNameNotEmpty
    | EmailNotEmpty | EmailIsEmail
    | PasswordNotEmpty | PasswordLength | PasswordHasDigit | PasswordHasLowercase | PasswordHasUppercase
    | UserTypeNotEmpty | UserTypeIsIn

  /** The four fields of the signup body. */
  datatype SignupField = FullName | Email | Password | UserTypeField

  /** The name of a field: the `path` of its errors. */
  function FieldName(f: SignupField): string
  {
    match f
    case FullName => "fullName"
    case Email => "email"
    case Password => "password"
    case UserTypeField => "userType"
  }

  /** The field a check reads. */
  function FieldOf(r: Rule): SignupField
  {
    match r
    case FullNameNotEmpty => FullName
    case EmailNotEmpty | EmailIsEmail => Email
    case PasswordNotEmpty | PasswordLength | PasswordHasDigit | PasswordHasLowercase | PasswordHasUppercase => Password
    case UserTypeNotEmpty | UserTypeIsIn => UserTypeField
  }

  /** The `withMessage` text of a check: the `msg` of its error. */
  function Message(r: Rule): string
  {
    match r
    case FullNameNotEmpty => "Full name is required"
    case EmailNotEmpty => "Email is required"
    case EmailIsEmail => "Email must be valid"
    case PasswordNotEmpty => "Password is required"
    case PasswordLength => "Password must be between 8 and 64 characters"
    case PasswordHasDigit => "Password must contain at least one digit"
    case PasswordHasLowercase => "Password must contain at least one lowercase letter"
    case PasswordHasUppercase => "Password must contain at least one uppercase letter"
    case UserTypeNotEmpty => "User type is required"
    case UserTypeIsIn => "User type must be one of: student, teacher, parent, private tutor"
  }

  const MinPasswordLength := 8
  const MaxPasswordLength := 64

  /** The value a check sees: the field's text, or "" when it is absent. */
  function AsText(v: Option<string>): string
  {
    if v.Some? then v.value else ""
  }

  /** `matches(/[lo-hi]/)`: some character lies in the range. */
  predicate HasCharIn(s: string, lo: char, hi: char)
  {
    exists i :: 0 <= i < |s| && lo <= s[i] <= hi
  }

  /** One check: nothing when it passes, the check itself when it fails. */
  function Check(ok: bool, r: Rule): seq<Rule>
  {
    if ok then [] else [r]
  }

  /** The `fullName` chain: `notEmpty`. */
  function FullNameErrors(v: string): (errs: seq<Rule>)
    ensures forall r :: r in errs ==> FieldOf(r) == FullName
    ensures errs == [] <==> v != ""
    ensures FullNameNotEmpty in errs <==> v == ""
  {
    Check(v != "", FullNameNotEmpty)
  }

  /** The `email` chain: `notEmpty`, then `isEmail`. */
  function EmailErrors(v: string, isEmail: string -> bool): (errs: seq<Rule>)
    ensures forall r :: r in errs ==> FieldOf(r) == Email
    ensures errs == [] <==> v != "" && isEmail(v)
    ensures EmailNotEmpty in errs <==> v == ""
    ensures EmailIsEmail in errs <==> !isEmail(v)
  {
    Check(v != "", EmailNotEmpty) +
    Check(isEmail(v), EmailIsEmail)
  }

  /** The `password` chain: `notEmpty`, `isLength`, then the three `matches`. */
  function PasswordErrors(v: string): (errs: seq<Rule>)
    ensures forall r :: r in errs ==> FieldOf(r) == Password
    ensures errs == [] <==> PasswordAcceptable(v)
    ensures PasswordNotEmpty in errs <==> v == ""
    ensures PasswordLength in errs <==> !(MinPasswordLength <= |v| <= MaxPasswordLength)
    ensures PasswordHasDigit in errs <==> !HasCharIn(v, '0', '9')
    ensures PasswordHasLowercase in errs <==> !HasCharIn(v, 'a', 'z')
    ensures PasswordHasUppercase in errs <==> !HasCharIn(v, 'A', 'Z')
  {
    Check(v != "", PasswordNotEmpty) +
    Check(MinPasswordLength <= |v| <= MaxPasswordLength, PasswordLength) +
    Check(HasCharIn(v, '0', '9'), PasswordHasDigit) +
    Check(HasCharIn(v, 'a', 'z'), PasswordHasLowercase) +
    Check(HasCharIn(v, 'A', 'Z'), PasswordHasUppercase)
  }

  /** The `userType` chain: `notEmpty`, then `isIn(Object.values(UserType))`. */
  function UserTypeErrors(v: string): (errs: seq<Rule>)
    ensures forall r :: r in errs ==> FieldOf(r) == UserTypeField
    ensures errs == [] <==> ParseUserType(v).Some?
    ensures UserTypeNotEmpty in errs <==> v == ""
    ensures UserTypeIsIn in errs <==> v !in UserTypeValues()
  {
    Check(v != "", UserTypeNotEmpty) +
    Check(v in UserTypeValues(), UserTypeIsIn)
  }

  /** What the rules accept as a password, stated on its own. */
  predicate PasswordAcceptable(pw: string)
  {
    && MinPasswordLength <= |pw| <= MaxPasswordLength
    && (exists i :: 0 <= i < |pw| && '0' <= pw[i] <= '9')
    && (exists i :: 0 <= i < |pw| && 'a' <= pw[i] <= 'z')
    && (exists i :: 0 <= i < |pw| && 'A' <= pw[i] <= 'Z')
  }

  /** A body the rules accept: every field present, and each passes its rule. */
  predicate ValidSignup(b: SignupBody, isEmail: string -> bool)
  {
    && b.fullName.Some? && b.fullName.value != ""
    && b.email.Some? && b.email.value != "" && isEmail(b.email.value)
    && b.password.Some? && PasswordAcceptable(b.password.value)
    && b.userType.Some? && ParseUserType(b.userType.value).Some?
  }

  /**
   * `validationResult(req)` after the signup rules: every failed check, in
   * the order the checks run. Each entry stands for the error
   * `{ path: FieldName(FieldOf(r)), msg: Message(r) }`. The list is empty exactly for an
   * accepted body.
   */
  function SignupErrors(b: SignupBody, isEmail: string -> bool): (errs: seq<Rule>)
    ensures errs == [] <==> ValidSignup(b, isEmail)
  {
    FullNameErrors(AsText(b.fullName)) +
    EmailErrors(AsText(b.email), isEmail) +
    PasswordErrors(AsText(b.password)) +
    UserTypeErrors(AsText(b.userType))
  }

  /** Whether check `r` passes on body `b`, stated check by check. */
  predicate Passes(r: Rule, b: SignupBody, isEmail: string -> bool)
  {
    match r
    case FullNameNotEmpty => AsText(b.fullName) != ""
    case EmailNotEmpty => AsText(b.email) != ""
    case EmailIsEmail => isEmail(AsText(b.email))
    case PasswordNotEmpty => AsText(b.password) != ""
    case PasswordLength => MinPasswordLength <= |AsText(b.password)| <= MaxPasswordLength
    case PasswordHasDigit => HasCharIn(AsText(b.password), '0', '9')
    case PasswordHasLowercase => HasCharIn(AsText(b.password), 'a', 'z')
    case PasswordHasUppercase => HasCharIn(AsText(b.password), 'A', 'Z')
    case UserTypeNotEmpty => AsText(b.userType) != ""
    case UserTypeIsIn => AsText(b.userType) in UserTypeValues()
  }

  /** The error list names every failed check and no other. */
  lemma SignupErrorsListEveryViolation(b: SignupBody, isEmail: string -> bool, r: Rule)
    ensures r in SignupErrors(b, isEmail) <==> !Passes(r, b, isEmail)
  {
    SignupErrorsByField(b, isEmail, r);
  }

  /** The errors the chain of field `f` reports. */
  function ChainErrors(b: SignupBody, isEmail: string -> bool, f: SignupField): seq<Rule>
  {
    match f
    case FullName => FullNameErrors(AsText(b.fullName))
    case Email => EmailErrors(AsText(b.email), isEmail)
    case Password => PasswordErrors(AsText(b.password))
    case UserTypeField => UserTypeErrors(AsText(b.userType))
  }

  /** A check is in the whole list exactly when it is in the list of its own field's chain. */
  lemma SignupErrorsByField(b: SignupBody, isEmail: string -> bool, r: Rule)
    ensures r in SignupErrors(b, isEmail) <==> r in ChainErrors(b, isEmail, FieldOf(r))
  {
    var f := FullNameErrors(AsText(b.fullName));
    var e := EmailErrors(AsText(b.email), isEmail);
    var p := PasswordErrors(AsText(b.password));
    var u := UserTypeErrors(AsText(b.userType));
    assert SignupErrors(b, isEmail) == f + e + p + u;
    assert r in f + e + p + u <==> r in f || r in e || r in p || r in u;
  }

  /** All ten checks, in the order the chains declare and run them. */
  const RuleOrder: seq<Rule> := [
    FullNameNotEmpty,
    EmailNotEmpty, EmailIsEmail,
    PasswordNotEmpty, PasswordLength, PasswordHasDigit, PasswordHasLowercase, PasswordHasUppercase,
    UserTypeNotEmpty, UserTypeIsIn]

  /** The checks of `rules` that fail on `b`, keeping their order. */
  function Failing(rules: seq<Rule>, b: SignupBody, isEmail: string -> bool): seq<Rule>
  {
    if rules == [] then []
    else Check(Passes(rules[0], b, isEmail), rules[0]) + Failing(rules[1..], b, isEmail)
  }

  /** Filtering a concatenation filters each part. */
  lemma {:induction false} FailingAppend(x: seq<Rule>, y: seq<Rule>, b: SignupBody, isEmail: string -> bool)
    ensures Failing(x + y, b, isEmail) == Failing(x, b, isEmail) + Failing(y, b, isEmail)
  {
    if x == [] {
      assert x + y == y;
    } else {
      assert (x + y)[1..] == x[1..] + y;
      FailingAppend(x[1..], y, b, isEmail);
    }
  }

  /** Filtering a single check. */
  lemma FailingOne(r: Rule, b: SignupBody, isEmail: string -> bool)
    ensures Failing([r], b, isEmail) == Check(Passes(r, b, isEmail), r)
  {
    assert [r][1..] == [];
  }

  /** Filtering `[r] + rest` puts `r`'s error, if any, before the rest. */
  lemma FailingCons(r: Rule, rest: seq<Rule>, b: SignupBody, isEmail: string -> bool)
    ensures Failing([r] + rest, b, isEmail) == Check(Passes(r, b, isEmail), r) + Failing(rest, b, isEmail)
  {
    FailingAppend([r], rest, b, isEmail);
    FailingOne(r, b, isEmail);
  }

  /** The `email` chain reports its failing checks in order. */
  lemma EmailChainInOrder(b: SignupBody, isEmail: string -> bool)
    ensures Failing([EmailNotEmpty, EmailIsEmail], b, isEmail) == EmailErrors(AsText(b.email), isEmail)
  {
    assert [EmailNotEmpty, EmailIsEmail] == [EmailNotEmpty] + [EmailIsEmail];
    FailingCons(EmailNotEmpty, [EmailIsEmail], b, isEmail);
    FailingOne(EmailIsEmail, b, isEmail);
  }

  /** The `password` chain reports its failing checks in order. */
  lemma PasswordChainInOrder(b: SignupBody, isEmail: string -> bool)
    ensures Failing([PasswordNotEmpty, PasswordLength, PasswordHasDigit, PasswordHasLowercase, PasswordHasUppercase], b, isEmail)
      == PasswordErrors(AsText(b.password))
  {
    var v := AsText(b.password);
    var p4 := [PasswordHasUppercase];
    var p3 := [PasswordHasLowercase] + p4;
    var p2 := [PasswordHasDigit] + p3;
    var p1 := [PasswordLength] + p2;
    var p0 := [PasswordNotEmpty] + p1;
    FailingOne(PasswordHasUppercase, b, isEmail);
    FailingCons(PasswordHasLowercase, p4, b, isEmail);
    FailingCons(PasswordHasDigit, p3, b, isEmail);
    FailingCons(PasswordLength, p2, b, isEmail);
    FailingCons(PasswordNotEmpty, p1, b, isEmail);
    var c0, c1, c2, c3, c4 :=
      Check(v != "", PasswordNotEmpty),
      Check(MinPasswordLength <= |v| <= MaxPasswordLength, PasswordLength),
      Check(HasCharIn(v, '0', '9'), PasswordHasDigit),
      Check(HasCharIn(v, 'a', 'z'), PasswordHasLowercase),
      Check(HasCharIn(v, 'A', 'Z'), PasswordHasUppercase);
    assert Failing(p3, b, isEmail) == c3 + c4;
    assert Failing(p2, b, isEmail) == c2 + (c3 + c4);
    assert Failing(p1, b, isEmail) == c1 + (c2 + (c3 + c4));
    assert Failing(p0, b, isEmail) == c0 + (c1 + (c2 + (c3 + c4)));
    assert c0 + (c1 + (c2 + (c3 + c4))) == c0 + c1 + c2 + c3 + c4;
    assert p0 == [PasswordNotEmpty, PasswordLength, PasswordHasDigit, PasswordHasLowercase, PasswordHasUppercase];
  }

  /** The `userType` chain reports its failing checks in order. */
  lemma UserTypeChainInOrder(b: SignupBody, isEmail: string -> bool)
    ensures Failing([UserTypeNotEmpty, UserTypeIsIn], b, isEmail) == UserTypeErrors(AsText(b.userType))
  {
    assert [UserTypeNotEmpty, UserTypeIsIn] == [UserTypeNotEmpty] + [UserTypeIsIn];
    FailingCons(UserTypeNotEmpty, [UserTypeIsIn], b, isEmail);
    FailingOne(UserTypeIsIn, b, isEmail);
  }

  /**
   * The error list is exactly the failing checks, each once, in the order the
   * chains run them.
   */
  lemma SignupErrorsInChainOrder(b: SignupBody, isEmail: string -> bool)
    ensures SignupErrors(b, isEmail) == Failing(RuleOrder, b, isEmail)
  {
    var f := [FullNameNotEmpty];
    var e := [EmailNotEmpty, EmailIsEmail];
    var p := [PasswordNotEmpty, PasswordLength, PasswordHasDigit, PasswordHasLowercase, PasswordHasUppercase];
    var u := [UserTypeNotEmpty, UserTypeIsIn];
    assert RuleOrder == f + e + p + u;
    FailingAppend(f + e + p, u, b, isEmail);
    FailingAppend(f + e, p, b, isEmail);
    FailingAppend(f, e, b, isEmail);
    FailingOne(FullNameNotEmpty, b, isEmail);
    EmailChainInOrder(b, isEmail);
    PasswordChainInOrder(b, isEmail);
    UserTypeChainInOrder(b, isEmail);
  }
}
