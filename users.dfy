/**
  Account registration (`POST /api/users`): validate the fields, refuse an
  email that is already stored, store the user with a hashed password and
  answer with a signed token that names the new user.
 */
module Users {
  import opened Externals
  import opened Documents
  import opened Store

  const NameRequired := "Name cannot be empty"
  const EmailInvalid := "Please enter a valid email."
  const PasswordTooShort := "Password length must be more than 6 characters"
  const EmailTaken := "Email already exists!"

  /** The `min` of the password's `isLength` check, in code points. */
  const MinPasswordLength := 6
  /** The cost factor passed to `bcrypt.genSalt`. */
  const SaltRounds := 10
  /** The `expiresIn` passed to `jwt.sign`, in seconds. */
  const TokenLifetime := 36000000

  datatype Registration = Registration(name: string, email: string, password: string)

  /** The token payload `{user: {id}}`. */
  datatype UserClaim = UserClaim(id: Id)
  datatype Claims = Claims(user: UserClaim)

  /**
    The messages of the three validation checks, in the order they are
    declared. `isEmail` is express-validator's email predicate.
   */
  function RegistrationErrors(req: Registration, isEmail: string -> bool): (errors: seq<string>)
    ensures errors == [] <==> req.name != "" && isEmail(req.email) && |req.password| >= MinPasswordLength
    ensures NameRequired in errors <==> req.name == ""
    ensures EmailInvalid in errors <==> !isEmail(req.email)
    ensures PasswordTooShort in errors <==> |req.password| < MinPasswordLength
    ensures |errors| == (if req.name == "" then 1 else 0) + (if isEmail(req.email) then 0 else 1)
                        + (if |req.password| < MinPasswordLength then 1 else 0)
    ensures req.name == "" ==> errors[0] == NameRequired
    ensures !isEmail(req.email) ==> errors[if req.name == "" then 1 else 0] == EmailInvalid
    ensures |req.password| < MinPasswordLength ==> errors[|errors| - 1] == PasswordTooShort
  {
    Check(req.name != "", NameRequired)
      + Check(isEmail(req.email), EmailInvalid)
      + Check(|req.password| >= MinPasswordLength, PasswordTooShort)
  }

  /** The filter `{email: email}`: an exact, case-sensitive match. */
  function HasEmail(email: string): Doc<User> -> bool
  {
    (d: Doc<User>) => d.body.email == email
  }

  predicate EmailInUse(users: seq<Doc<User>>, email: string)
  {
    exists i :: 0 <= i < |users| && users[i].body.email == email
  }

  /** No two stored users share an email. */
  predicate EmailsDistinct(users: seq<Doc<User>>)
  {
    forall i, j :: 0 <= i < j < |users| ==> users[i].body.email != users[j].body.email
  }

  /**
    `POST /api/users`. `entropy` is the randomness `genSalt` draws, `secret`
    the configured `jwtSecret` and `now` the signing time in seconds.
   */
  method Register(db: Database, req: Registration, isEmail: string -> bool, entropy: nat, secret: string, now: int)
    returns (r: Response<Token<Claims>>)
    requires db.Valid()
    modifies db
    ensures db.Valid()
    ensures db.posts == old(db.posts) && db.profiles == old(db.profiles)
    ensures RegistrationErrors(req, isEmail) != [] ==>
              r == Error(400, RegistrationErrors(req, isEmail)) && unchanged(db)
    ensures RegistrationErrors(req, isEmail) == [] && EmailInUse(old(db.users), req.email) ==>
              r == Error(400, [EmailTaken]) && unchanged(db)
    ensures r.Ok? <==> RegistrationErrors(req, isEmail) == [] && !EmailInUse(old(db.users), req.email)
    ensures r.Ok? ==>
              var id := old(db.nextId);
              var digest := Hash(req.password, GenSalt(SaltRounds, entropy));
              && db.users == old(db.users) + [Doc(id, User(req.name, req.email, Gravatar(req.email, "200", "pg", "mm"), Hashed(digest)))]
              && r.body == Sign(Claims(UserClaim(id)), secret, now, TokenLifetime)
    ensures r.Ok? ==>
              var stored := db.users[|db.users| - 1].body.password;
              stored != Plain(req.password) && stored.Hashed? && Compare(req.password, stored.digest)
    ensures EmailsDistinct(old(db.users)) ==> EmailsDistinct(db.users)
  {
    var errors := RegistrationErrors(req, isEmail);
    if errors != [] {
      return Error(400, errors);
    }
    var existing := FirstMatch(db.users, HasEmail(req.email));
    if existing.Some? {
      return Error(400, [EmailTaken]);
    }
    var avatar := Gravatar(req.email, "200", "pg", "mm");
    var user := User(req.name, req.email, avatar, Plain(req.password));
    var salt := GenSalt(SaltRounds, entropy);
    user := user.(password := Hashed(Hash(req.password, salt)));
    var doc := db.InsertUser(user);
    var payload := Claims(UserClaim(doc.id));
    r := Ok(Sign(payload, secret, now, TokenLifetime));
  }
}
