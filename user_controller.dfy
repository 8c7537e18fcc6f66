/** The user controller: registration, email verification, login, logout,
    profile update and the forgot-password flow. Each handler is a chain of
    guards that reply early, followed by one update of one user document.
    bcrypt's `hash` and `compare`, the salt, the OTP generator, the clock
    and whether `sendEmail` succeeds are inputs. A request field that is
    absent or empty is "". */
module UserController {
  import opened Results
  import opened ObjectIds
  import opened Store
  import opened IsoTime

  /** The document `registerUserController` saves; the other fields take the
      schema's defaults. */
  function NewUser(name: string, email: string, passwordHash: string): (u: UserRecord)
    ensures u.name == name && u.email == email && u.password == passwordHash
    ensures u.status == "Active" && !u.verifyEmail
  {
    UserRecord(name, email, passwordHash, "", "Active", false, "", "", "", "", [])
  }

  /** `UserModel.findOne({ email })`. */
  function Lookup(db: Database, email: string): (r: Option<UserId>)
    reads db
    ensures r.Some? ==> r.value in db.users && db.users[r.value].email == email
    ensures r.None? ==> forall i :: 0 <= i < |db.userOrder| && db.userOrder[i] in db.users ==>
      db.users[db.userOrder[i]].email != email
  {
    FindByEmail(db.users, db.userOrder, email)
  }

  /** In a valid store, an email that `findOne` does not find belongs to no user. */
  lemma LookupNoneMeansUnknown(db: Database, email: string)
    requires db.Valid()
    requires Lookup(db, email).None?
    ensures forall id :: id in db.users ==> db.users[id].email != email
  {
    forall id | id in db.users ensures db.users[id].email != email {
      var i :| 0 <= i < |db.userOrder| && db.userOrder[i] == id;
    }
  }

  /** `registerUserController`. An email that is already registered gets a
      success reply and adds nobody. The email is sent after the save, so a
      failed send still leaves the new user stored. */
  method RegisterUserController(db: Database, name: string, email: string, password: string,
                                salt: string, hash: (string, string) -> string, emailSent: bool)
    returns (reply: Reply)
    requires db.Valid()
    modifies db
    ensures db.Valid()
    ensures (name == "" || email == "" || password == "") ==> reply == BadRequest && unchanged(db)
    ensures (name != "" && email != "" && password != "" && old(Lookup(db, email)).Some?) ==>
      reply == Ok && unchanged(db)
    ensures (name != "" && email != "" && password != "" && old(Lookup(db, email)).None?) ==>
      var id := Hex(old(db.nextObjectId));
      && id !in old(db.users)
      && db.users == old(db.users)[id := NewUser(name, email, hash(password, salt))]
      && |db.users| == |old(db.users)| + 1
      && db.userOrder == old(db.userOrder) + [id]
      && db.nextObjectId == old(db.nextObjectId) + 1
      && db.orders == old(db.orders) && db.cartProducts == old(db.cartProducts)
      && reply == (if emailSent then Ok else ServerError)
  {
    if name == "" || email == "" || password == "" {
      return BadRequest;
    }
    var user := Lookup(db, email);
    if user.Some? {
      return Ok;
    }
    var hashPassword := hash(password, salt);
    var id := db.InsertUser(NewUser(name, email, hashPassword));
    reply := if emailSent then Ok else ServerError;
  }

  /** `verifyEmailController` as written: the code is refused exactly when a
      user with that id exists, and the update then targets an id that does
      not exist, so no user is ever marked verified. */
  method VerifyEmailController(db: Database, code: UserId) returns (reply: Reply)
    requires db.Valid()
    modifies db
    ensures db.Valid()
    ensures reply == if code in old(db.users) then BadRequest else Ok
    ensures unchanged(db)
  {
    if code in db.users {
      return BadRequest;
    }
    db.UpdateUser(code, NoChange.(verifyEmail := Some(true)));
    reply := Ok;
  }

  /** The verification the handler evidently intends: an existing user is
      marked verified, an unknown code is refused. */
  method VerifyEmailCorrected(db: Database, code: UserId) returns (reply: Reply)
    requires db.Valid()
    modifies db
    ensures db.Valid()
    ensures code !in old(db.users) ==> reply == BadRequest && unchanged(db)
    ensures code in old(db.users) ==>
      reply == Ok && db.users == old(db.users)[code := old(db.users)[code].(verifyEmail := true)]
    ensures db.userOrder == old(db.userOrder) && db.orders == old(db.orders)
    ensures db.cartProducts == old(db.cartProducts) && db.nextObjectId == old(db.nextObjectId)
  {
    if code !in db.users {
      return BadRequest;
    }
    db.UpdateUser(code, NoChange.(verifyEmail := Some(true)));
    reply := Ok;
  }

  /** A user registers and then follows the link with their own id: the
      handler as written refuses, and the user stays unverified. */
  method RegisteredUserStaysUnverified(db: Database, name: string, email: string, password: string,
                                       salt: string, hash: (string, string) -> string)
    returns (reply: Reply)
    requires db.Valid()
    requires name != "" && email != "" && password != ""
    requires Lookup(db, email).None?
    modifies db
    ensures reply == BadRequest
    ensures var id := Hex(old(db.nextObjectId)); id in db.users && !db.users[id].verifyEmail
  {
    var id := Hex(db.nextObjectId);
    var _ := RegisterUserController(db, name, email, password, salt, hash, true);
    reply := VerifyEmailController(db, id);
  }

  /** The same sequence with the corrected handler marks the new user verified. */
  method RegisteredUserGetsVerified(db: Database, name: string, email: string, password: string,
                                    salt: string, hash: (string, string) -> string)
    returns (reply: Reply)
    requires db.Valid()
    requires name != "" && email != "" && password != ""
    requires Lookup(db, email).None?
    modifies db
    ensures reply == Ok
    ensures var id := Hex(old(db.nextObjectId)); id in db.users && db.users[id].verifyEmail
  {
    var id := Hex(db.nextObjectId);
    var _ := RegisterUserController(db, name, email, password, salt, hash, true);
    reply := VerifyEmailCorrected(db, id);
  }

  /** `loginController`. An inactive user reaches `res(400)`, which is not a
      function, so the handler throws and answers 500. Only a successful
      login writes, and only the user's `last_login_date`. */
  method LoginController(db: Database, email: string, password: string,
                         compare: (string, string) -> bool, now: string)
    returns (reply: Reply)
    requires db.Valid()
    modifies db
    ensures db.Valid()
    ensures (email == "" || password == "") ==> reply == BadRequest && unchanged(db)
    ensures (email != "" && password != "" && old(Lookup(db, email)).None?) ==>
      reply == BadRequest && unchanged(db)
    ensures (email != "" && password != "" && old(Lookup(db, email)).Some?) ==>
      var id := old(Lookup(db, email)).value;
      var user := old(db.users)[id];
      && (user.status != "Active" ==> reply == ServerError && unchanged(db))
      && (user.status == "Active" && !compare(password, user.password) ==> reply == BadRequest && unchanged(db))
      && (user.status == "Active" && compare(password, user.password) ==>
            && reply == Ok
            && db.users == old(db.users)[id := user.(lastLoginDate := now)]
            && db.userOrder == old(db.userOrder) && db.orders == old(db.orders)
            && db.cartProducts == old(db.cartProducts) && db.nextObjectId == old(db.nextObjectId))
  {
    if email == "" || password == "" {
      return BadRequest;
    }
    var found := Lookup(db, email);
    if found.None? {
      return BadRequest;
    }
    var user := db.users[found.value];
    if user.status != "Active" {
      return ServerError;
    }
    var checkPassword := compare(password, user.password);
    if !checkPassword {
      return BadRequest;
    }
    db.UpdateUser(found.value, NoChange.(lastLoginDate := Some(now)));
    reply := Ok;
  }

  /** `logoutController`: the acting user's refresh token becomes "". */
  method LogoutController(db: Database, userId: UserId) returns (reply: Reply)
    requires db.Valid()
    modifies db
    ensures db.Valid()
    ensures reply == Ok
    ensures db.users == if userId in old(db.users)
                        then old(db.users)[userId := old(db.users)[userId].(refreshToken := "")]
                        else old(db.users)
    ensures db.userOrder == old(db.userOrder) && db.orders == old(db.orders)
    ensures db.cartProducts == old(db.cartProducts) && db.nextObjectId == old(db.nextObjectId)
  {
    db.UpdateUser(userId, NoChange.(refreshToken := Some("")));
    reply := Ok;
  }

  /** A field of the update document only when the request supplied it. */
  function IfSupplied(s: string): Option<string>
  {
    if s != "" then Some(s) else None
  }

  /** `updateUserDetails`: overwrites exactly the supplied fields among name,
      email, mobile and password; a password is stored hashed. */
  method UpdateUserDetails(db: Database, userId: UserId, name: string, email: string, mobile: string,
                           password: string, salt: string, hash: (string, string) -> string)
    returns (reply: Reply)
    requires db.Valid()
    modifies db
    ensures db.Valid()
    ensures reply == Ok
    ensures userId !in old(db.users) ==> db.users == old(db.users)
    ensures userId in old(db.users) ==>
      var u := old(db.users)[userId];
      db.users == old(db.users)[userId := u.(
        name := if name != "" then name else u.name,
        email := if email != "" then email else u.email,
        mobile := if mobile != "" then mobile else u.mobile,
        password := if password != "" then hash(password, salt) else u.password)]
    ensures db.userOrder == old(db.userOrder) && db.orders == old(db.orders)
    ensures db.cartProducts == old(db.cartProducts) && db.nextObjectId == old(db.nextObjectId)
  {
    var hashPassword := "";
    if password != "" {
      hashPassword := hash(password, salt);
    }
    var patch := NoChange.(
      name := IfSupplied(name),
      email := IfSupplied(email),
      mobile := IfSupplied(mobile),
      password := if password != "" then Some(hashPassword) else None);
    db.UpdateUser(userId, patch);
    reply := Ok;
  }

  /** `forgotPasswordController`: stores the generated OTP and the expiry
      text on the user found by email. An unknown email answers 400 with
      both `error` and `success` set. */
  method ForgotPasswordController(db: Database, email: string, otp: string, expiry: string, emailSent: bool)
    returns (reply: Reply)
    requires db.Valid()
    modifies db
    ensures db.Valid()
    ensures old(Lookup(db, email)).None? ==> reply == Reply(400, true, true) && unchanged(db)
    ensures old(Lookup(db, email)).Some? ==>
      var id := old(Lookup(db, email)).value;
      && db.users == old(db.users)[id := old(db.users)[id].(forgotPasswordOtp := otp, forgotPasswordExpiry := expiry)]
      && reply == (if emailSent then Ok else ServerError)
    ensures db.userOrder == old(db.userOrder) && db.orders == old(db.orders)
    ensures db.cartProducts == old(db.cartProducts) && db.nextObjectId == old(db.nextObjectId)
  {
    var found := Lookup(db, email);
    if found.None? {
      return Reply(400, true, true);
    }
    db.UpdateUser(found.value, NoChange.(forgotPasswordOtp := Some(otp), forgotPasswordExpiry := Some(expiry)));
    reply := if emailSent then Ok else ServerError;
  }

  /** `verifyForgotPasswordOtp`: the expiry is compared as text with the
      current time, before the OTP itself. Success clears both fields. */
  method VerifyForgotPasswordOtp(db: Database, email: string, otp: string, now: string)
    returns (reply: Reply)
    requires db.Valid()
    modifies db
    ensures db.Valid()
    ensures (email == "" || otp == "") ==> reply == BadRequest && unchanged(db)
    ensures (email != "" && otp != "" && old(Lookup(db, email)).None?) ==> reply == BadRequest && unchanged(db)
    ensures (email != "" && otp != "" && old(Lookup(db, email)).Some?) ==>
      var id := old(Lookup(db, email)).value;
      var user := old(db.users)[id];
      && (LexLess(user.forgotPasswordExpiry, now) ==> reply == BadRequest && unchanged(db))
      && (!LexLess(user.forgotPasswordExpiry, now) && otp != user.forgotPasswordOtp ==>
            reply == BadRequest && unchanged(db))
      && (!LexLess(user.forgotPasswordExpiry, now) && otp == user.forgotPasswordOtp ==>
            && reply == Ok
            && db.users == old(db.users)[id := user.(forgotPasswordOtp := "", forgotPasswordExpiry := "")])
    ensures db.userOrder == old(db.userOrder) && db.orders == old(db.orders)
    ensures db.cartProducts == old(db.cartProducts) && db.nextObjectId == old(db.nextObjectId)
  {
    if email == "" || otp == "" {
      return BadRequest;
    }
    var found := Lookup(db, email);
    if found.None? {
      return BadRequest;
    }
    var user := db.users[found.value];
    if LexLess(user.forgotPasswordExpiry, now) {
      return BadRequest;
    }
    if otp != user.forgotPasswordOtp {
      return BadRequest;
    }
    db.UpdateUser(found.value, NoChange.(forgotPasswordOtp := Some(""), forgotPasswordExpiry := Some("")));
    reply := Ok;
  }

  /** After one successful verification the same OTP is refused as expired
      at every later (non-empty) time. */
  method VerifyOtpTwice(db: Database, email: string, otp: string, now: string, later: string)
    returns (first: Reply, second: Reply)
    requires db.Valid()
    requires email != "" && otp != "" && later != ""
    modifies db
    ensures first == Ok ==> second == BadRequest
  {
    ghost var before := db.users;
    first := VerifyForgotPasswordOtp(db, email, otp, now);
    if first == Ok {
      FindByEmailStable(before, db.users, db.userOrder, email);
      ClearedExpiryIsPast(later);
    }
    second := VerifyForgotPasswordOtp(db, email, otp, later);
  }

  /** `resetpassword`: the missing-field reply carries no flags. Success
      changes only that user's password, to the hash of the new one. */
  method ResetPassword(db: Database, email: string, newPassword: string, confirmPassword: string,
                       salt: string, hash: (string, string) -> string)
    returns (reply: Reply)
    requires db.Valid()
    modifies db
    ensures db.Valid()
    ensures (email == "" || newPassword == "" || confirmPassword == "") ==>
      reply == Reply(400, false, false) && unchanged(db)
    ensures (email != "" && newPassword != "" && confirmPassword != "" && old(Lookup(db, email)).None?) ==>
      reply == BadRequest && unchanged(db)
    ensures (email != "" && newPassword != "" && confirmPassword != "" && old(Lookup(db, email)).Some?) ==>
      var id := old(Lookup(db, email)).value;
      && (newPassword != confirmPassword ==> reply == BadRequest && unchanged(db))
      && (newPassword == confirmPassword ==>
            && reply == Ok
            && db.users == old(db.users)[id := old(db.users)[id].(password := hash(newPassword, salt))])
    ensures db.userOrder == old(db.userOrder) && db.orders == old(db.orders)
    ensures db.cartProducts == old(db.cartProducts) && db.nextObjectId == old(db.nextObjectId)
  {
    if email == "" || newPassword == "" || confirmPassword == "" {
      return Reply(400, false, false);
    }
    var found := Lookup(db, email);
    if found.None? {
      return BadRequest;
    }
    if newPassword != confirmPassword {
      return BadRequest;
    }
    var hashPassword := hash(newPassword, salt);
    db.UpdateUser(found.value, NoChange.(password := Some(hashPassword)));
    reply := Ok;
  }
}
