/**
 * The User model (models/user.ts): field rules, the save hook that hashes a modified
 * password, `comparePassword`, and the public view the auth routes return. bcrypt is
 * foreign: hashing and comparison are parameters.
 */
module UserModel {
  import opened Wrappers
  import opened Ids
  import opened Validation

  datatype User = User(
    id: Id,
    name: string,
    email: string,
    password: string,
    role: string,
    company: Option<string>)

  const Roles: set<string> := {"candidate", "hr"}

  /** A string field holds a value (`required` refuses a missing or empty string). */
  predicate Given(s: Option<string>) {
    s.Some? && s.value != ""
  }

  /** The errors UserSchema reports, path by path in declaration order; `emailOk` is the email pattern. */
  function Violations(u: User, emailOk: string -> bool): seq<Violation> {
    PathErrors("name", [
      Check(u.name != "", Required("Please provide a name")),
      Check(|u.name| <= 50, MaxLength(50, "Name cannot be more than 50 characters"))])
    + PathErrors("email", [
      Check(u.email != "", Required("Please provide an email")),
      Check(emailOk(u.email), Pattern("Please provide a valid email"))])
    + PathErrors("password", [
      Check(u.password != "", Required("Please provide a password")),
      Check(|u.password| >= 6, MinLength(6, "Password must be at least 6 characters"))])
    + PathErrors("role", [
      Check(u.role != "", Required("Please specify user role")),
      Check(u.role in Roles, NotInEnum(Roles))])
    + PathErrors("company", [
      Check(u.role != "hr" || Given(u.company), Required(DefaultRequired("company")))])
  }

  predicate Valid(u: User, emailOk: string -> bool) {
    Violations(u, emailOk) == []
  }

  /** UserSchema's rules, field by field. */
  lemma ValidIff(u: User, emailOk: string -> bool)
    ensures Valid(u, emailOk) <==>
      && u.name != "" && |u.name| <= 50
      && u.email != "" && emailOk(u.email)
      && |u.password| >= 6
      && u.role in Roles
      && (u.role == "hr" ==> Given(u.company))
  {
    PathErrorsTwo("name",
      Check(u.name != "", Required("Please provide a name")),
      Check(|u.name| <= 50, MaxLength(50, "Name cannot be more than 50 characters")));
    PathErrorsTwo("email",
      Check(u.email != "", Required("Please provide an email")),
      Check(emailOk(u.email), Pattern("Please provide a valid email")));
    PathErrorsTwo("password",
      Check(u.password != "", Required("Please provide a password")),
      Check(|u.password| >= 6, MinLength(6, "Password must be at least 6 characters")));
    PathErrorsTwo("role",
      Check(u.role != "", Required("Please specify user role")),
      Check(u.role in Roles, NotInEnum(Roles)));
    PathErrorsOne("company",
      Check(u.role != "hr" || Given(u.company), Required(DefaultRequired("company"))));
  }

  /** A candidate needs no company; an HR account cannot be stored without one. */
  lemma CompanyRequiredOnlyForHr(u: User, emailOk: string -> bool)
    requires u.name != "" && |u.name| <= 50 && u.email != "" && emailOk(u.email)
    requires |u.password| >= 6
    ensures u.role == "candidate" ==> Valid(u, emailOk)
    ensures u.role == "hr" ==> (Valid(u, emailOk) <==> Given(u.company))
  {
    ValidIff(u, emailOk);
  }

  /**
   * The pre-save hook: the password is replaced by its hash exactly when it was modified;
   * nothing else about the document changes.
   */
  function PreSave(u: User, passwordModified: bool, hash: string -> string): (r: User)
    ensures passwordModified ==> r.password == hash(u.password)
    ensures !passwordModified ==> r == u
    ensures r == u.(password := r.password)
  {
    if passwordModified then u.(password := hash(u.password)) else u
  }

  /** `user.comparePassword(candidate)`: bcrypt's comparison of a plaintext with the stored hash. */
  function ComparePassword(u: User, candidate: string, compare: (string, string) -> bool): bool {
    compare(candidate, u.password)
  }

  /** A Mongoose user document: its fields and whether `password` was modified since it was loaded. */
  class UserDocument {
    var record: User
    var passwordModified: bool

    /** A new document (`User.create`): every path counts as modified. */
    constructor Created(u: User)
      ensures record == u && passwordModified
    {
      record := u;
      passwordModified := true;
    }

    /** A document read from the collection. */
    constructor Loaded(u: User)
      ensures record == u && !passwordModified
    {
      record := u;
      passwordModified := false;
    }

    method SetPassword(plain: string)
      modifies this
      ensures record == old(record).(password := plain) && passwordModified
    {
      record := record.(password := plain);
      passwordModified := true;
    }

    /** `save()`: the pre-save hook runs, then the document is clean again. */
    method Save(hash: string -> string)
      modifies this
      ensures record == PreSave(old(record), old(passwordModified), hash)
      ensures !passwordModified
    {
      if passwordModified {
        record := record.(password := hash(record.password));
      }
      passwordModified := false;
    }
  }

  /** Saving twice hashes once: the second save keeps the stored hash. */
  method SaveTwice(u: User, hash: string -> string) returns (doc: UserDocument)
    ensures doc.record == u.(password := hash(u.password))
  {
    doc := new UserDocument.Created(u);
    doc.Save(hash);
    doc.Save(hash);
  }

  /** The user object the auth routes return: no password, and `company` only when set. */
  datatype UserView = UserView(id: Id, name: string, email: string, role: string, company: Option<string>)

  function View(u: User): (v: UserView)
    ensures v.id == u.id && v.name == u.name && v.email == u.email && v.role == u.role
    ensures v.company.Some? <==> Given(u.company)
    ensures v.company.Some? ==> v.company == u.company
  {
    UserView(u.id, u.name, u.email, u.role, if Given(u.company) then u.company else None)
  }
}
