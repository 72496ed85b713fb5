// server/controllers/userController.js: sign-up, login and profile update.
// bcrypt's hash and compare and the JWT signer are parameters the model does
// not interpret; so is the outcome of the cloudinary upload.

module UserController {
  import opened Common
  import opened Records

  /** A successful sign-up or login: the user document and the token issued for it. */
  datatype Session = Session(user: User, token: string)

  /** The first check of signup (userController.js:12): all four fields are present. */
  predicate HasDetails(fullName: string, email: string, password: string, bio: string): (r: bool)
    ensures !r <==> "" in [fullName, email, password, bio]
  {
    fullName != "" && email != "" && password != "" && bio != ""
  }

  /**
   * signup (userController.js:7-40): "Missing Details" when a field is
   * missing, then "Account already exists" when the email is taken, both
   * creating nothing; otherwise one user is added, storing the hashed
   * password and the default picture, and the token is issued for the new id.
   */
  method Signup(db: Database, fullName: string, email: string, password: string, bio: string,
                hash: string -> string, token: UserId -> string, newId: UserId)
    returns (r: Result<Session>)
    modifies db`users
    ensures !HasDetails(fullName, email, password, bio) ==>
      r == Fail("Missing Details") && db.users == old(db.users)
    ensures HasDetails(fullName, email, password, bio) && FindUserByEmail(old(db.users), email).Some? ==>
      r == Fail("Account already exists") && db.users == old(db.users)
    ensures HasDetails(fullName, email, password, bio) && FindUserByEmail(old(db.users), email).None? ==>
      && r == Ok(Session(User(newId, email, fullName, hash(password), bio, ""), token(newId)))
      && db.users == old(db.users) + [r.value.user]
  {
    if !HasDetails(fullName, email, password, bio) {
      return Fail("Missing Details");
    }
    if FindUserByEmail(db.users, email).Some? {
      return Fail("Account already exists");
    }
    var u := User(newId, email, fullName, hash(password), bio, "");
    db.users := db.users + [u];
    r := Ok(Session(u, token(newId)));
  }

  /**
   * login (userController.js:43-70): "User not found" for an unknown email,
   * "Invalid credentials" when the password does not match the stored hash;
   * a token is issued exactly when both checks pass, and it is for the user
   * found by email.
   */
  function Login(users: seq<User>, email: string, password: string,
                 compare: (string, string) -> bool, token: UserId -> string)
    : (r: Result<Session>)
    ensures FindUserByEmail(users, email).None? ==> r == Fail("User not found")
    ensures r.Ok? <==>
      exists k :: 0 <= k < |users| && users[k].email == email &&
                  (forall j :: 0 <= j < k ==> users[j].email != email) && compare(password, users[k].password)
    ensures r.Fail? && FindUserByEmail(users, email).Some? ==> r.message == "Invalid credentials"
    ensures r.Ok? ==> r.value.user in users && r.value.user.email == email &&
                      r.value.token == token(r.value.user.id)
  {
    match FindUserByEmail(users, email)
    case None => Fail("User not found")
    case Some(k) =>
      if compare(password, users[k].password) then Ok(Session(users[k], token(users[k].id)))
      else Fail("Invalid credentials")
  }

  /**
   * With a password check that accepts what the hash produced, the account
   * signup creates can log in at once with the same password, and receives a
   * token for the new id.
   */
  lemma SignupThenLogin(users: seq<User>, fullName: string, email: string, password: string, bio: string,
                        hash: string -> string, compare: (string, string) -> bool,
                        token: UserId -> string, newId: UserId)
    requires FindUserByEmail(users, email).None?
    requires compare(password, hash(password))
    ensures var u := User(newId, email, fullName, hash(password), bio, "");
            Login(users + [u], email, password, compare, token) == Ok(Session(u, token(newId)))
  {
    var u := User(newId, email, fullName, hash(password), bio, "");
    assert (users + [u])[|users|].email == email;
    assert forall j :: 0 <= j < |users| ==> (users + [u])[j] == users[j];
  }

  /**
   * The user after `findByIdAndUpdate(me, {profilePic?, bio, fullName})`:
   * a field given as undefined is left out of the update; nothing but the
   * picture, bio and name changes.
   */
  function Patched(u: User, profilePic: Option<string>, bio: Option<string>, fullName: Option<string>): (r: User)
    ensures r.profilePic == (if profilePic.Some? then profilePic.value else u.profilePic)
    ensures r.bio == (if bio.Some? then bio.value else u.bio)
    ensures r.fullName == (if fullName.Some? then fullName.value else u.fullName)
    ensures r.(profilePic := u.profilePic, bio := u.bio, fullName := u.fullName) == u
  {
    u.(profilePic := if profilePic.Some? then profilePic.value else u.profilePic,
       bio := if bio.Some? then bio.value else u.bio,
       fullName := if fullName.Some? then fullName.value else u.fullName)
  }

  /**
   * updateProfile (userController.js:79-128): without a picture only bio and
   * name are updated; with one, a failed upload answers "Image upload failed"
   * and updates nothing, and a successful one also stores its URL. An
   * unknown requester yields success with no user.
   */
  method UpdateProfile(db: Database, me: UserId, profilePic: string, bio: Option<string>,
                       fullName: Option<string>, upload: Upload)
    returns (r: Result<Option<User>>)
    modifies db`users
    ensures profilePic != "" && upload.UploadFailed? ==>
      r == Fail("Image upload failed") && db.users == old(db.users)
    ensures !(profilePic != "" && upload.UploadFailed?) ==>
      var pic := if profilePic != "" then Some(upload.secureUrl) else None;
      match FindUserById(old(db.users), me)
      case None => r == Ok(None) && db.users == old(db.users)
      case Some(k) =>
        && r == Ok(Some(Patched(old(db.users)[k], pic, bio, fullName)))
        && db.users == old(db.users)[k := r.value.value]
  {
    var pic: Option<string> := None;
    if profilePic != "" {
      if upload.UploadFailed? {
        return Fail("Image upload failed");
      }
      pic := Some(upload.secureUrl);
    }
    var found := FindUserById(db.users, me);
    if found.None? {
      return Ok(None);
    }
    var k := found.value;
    var u := Patched(db.users[k], pic, bio, fullName);
    db.users := db.users[k := u];
    r := Ok(Some(u));
  }
}
