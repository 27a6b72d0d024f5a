/**
 * Authentication: registration of staff and of clients, the two logins
 * and the password change.
 *
 * The password hasher is outside the model: `hash` and `compare` are
 * parameters, uninterpreted functions on strings.
 */
module Auth {
  import opened Outcomes
  import opened Persistence
  import EmailValue
  import PasswordValue
  import PasswordPolicy
  import UT = UserTypeEnum
  import UserEntity
  import ClientEntity
  import VE = ValidationErrors
  import Accounts

  /** `IPasswordHasher.compare(plain, stored)`. */
  type Comparer = (string, string) -> bool

  const StaffOnly := "Tipo de usuario inválido para este registro. Use el registro de cliente."
  const WeakPassword := "Contraseña débil"
  const SamePassword := "La nueva contraseña debe ser diferente a la actual"
  const WeakNewPassword := "La nueva contraseña no cumple con los requisitos de seguridad"

  /** `errors.map(error => ({ field, message: error }))`: one field error per message, in order. */
  function FieldErrors(field: string, messages: seq<string>): (r: seq<FieldError>)
    ensures |r| == |messages|
    ensures forall i :: 0 <= i < |r| ==> r[i].field == field && r[i].message == messages[i]
  {
    if messages == [] then [] else [FieldError(field, messages[0])] + FieldErrors(field, messages[1..])
  }

  /** Reading the messages back from the field errors gives the strength report's errors unchanged. */
  lemma FieldErrorsMessages(field: string, messages: seq<string>)
    ensures VE.AllMessages(FieldErrors(field, messages)) == messages
    ensures forall i :: 0 <= i < |messages| ==> VE.Fields(FieldErrors(field, messages))[i] == field
  {
  }

  /** The ValidationException for a weak password: the report's errors, each on `field`. */
  function WeakFailure(message: string, field: string, password: string): (f: Failure)
    ensures f.Validation? && f.message == message
    ensures VE.AllMessages(f.errors) == PasswordPolicy.ExpectedReport(password).errors
    ensures forall i :: 0 <= i < |f.errors| ==> f.errors[i].field == field
  {
    FieldErrorsMessages(field, PasswordPolicy.ExpectedReport(password).errors);
    Validation(message, FieldErrors(field, PasswordPolicy.ExpectedReport(password).errors))
  }

  // ---------------------------------------------------------------------
  // Registration

  /**
   * `RegisterUseCase.execute`: the raw email unused, an ADMIN or
   * RESTAURANT_OWNER type, a long enough name; then the account and its
   * Administrator or RestaurantOwner record.
   */
  function Register(db: Db, name: string, email: string, password: string, t: UT.UserType, hash: Accounts.Hasher)
    : (r: (Result<UserEntity.UserData>, Db))
    ensures FindUserByEmail(db, email).Some? ==> r == (Err(Conflict(DuplicateEmail)), db)
    ensures FindUserByEmail(db, email).None? && t == UT.Client ==> r == (Err(Validation(StaffOnly, [])), db)
    ensures FindUserByEmail(db, email).None? && t != UT.Client && Accounts.ShortName(name)
            ==> r == (Err(Accounts.ShortNameFailure), db)
    ensures r.0.Ok? <==> FindUserByEmail(db, email).None? && t != UT.Client && !Accounts.ShortName(name)
                         && Accounts.NewAccount(name, email, password, t, hash).Ok? && db.nextId > 0
    ensures r.0.Ok? ==> r.0.value == Accounts.NewAccount(name, email, password, t, hash).value.(id := db.nextId)
    ensures r.0.Ok? ==> r.1.users == db.users[db.nextId := r.0.value] && r.1.nextId == db.nextId + 1
                        && Accounts.HasRoleRecord(r.1, db.nextId, t) && r.1.clients == db.clients
  {
    if FindUserByEmail(db, email).Some? then (Err(Conflict(DuplicateEmail)), db)
    else if t == UT.Client then (Err(Validation(StaffOnly, [])), db)
    else if Accounts.ShortName(name) then (Err(Accounts.ShortNameFailure), db)
    else Accounts.Signup(db, name, email, password, t, None, hash)
  }

  class RegisterUseCase {
    const store: Store

    constructor (store: Store)
      ensures this.store == store
    {
      this.store := store;
    }

    method Execute(name: string, email: string, password: string, t: UT.UserType, hash: Accounts.Hasher)
      returns (r: Result<UserEntity.UserData>)
      modifies store
      ensures (r, store.Snap()) == Register(old(store.Snap()), name, email, password, t, hash)
    {
      var existing := FindUserByEmail(store.Snap(), email);
      if existing.Some? {
        return Err(Conflict(DuplicateEmail));
      }
      if t != UT.Admin && t != UT.RestaurantOwner {
        return Err(Validation(StaffOnly, []));
      }
      if Accounts.ShortName(name) {
        return Err(Accounts.ShortNameFailure);
      }
      r := Accounts.SaveAccount(store, name, email, password, t, None, hash);
    }
  }

  /** The phone check `ClientRegister` runs before anything is saved: a supplied phone must be ten digits. */
  predicate BadPhone(phone: Option<string>)
  {
    ClientEntity.Supplied(phone) && !ClientEntity.TenDigits(ClientEntity.Stripped(phone.value))
  }

  /**
   * `ClientRegisterUseCase.execute`: the raw email unused, a long enough
   * name, a password `validateStrength` accepts and a well-formed phone;
   * then a CLIENT account and its Client record.
   */
  function ClientRegister(db: Db, name: string, email: string, password: string, phone: Option<string>,
                          hash: Accounts.Hasher): (r: (Result<UserEntity.UserData>, Db))
    ensures FindUserByEmail(db, email).Some? ==> r == (Err(Conflict(DuplicateEmail)), db)
    ensures FindUserByEmail(db, email).None? && Accounts.ShortName(name) ==> r == (Err(Accounts.ShortNameFailure), db)
    ensures FindUserByEmail(db, email).None? && !Accounts.ShortName(name)
            && !PasswordPolicy.ExpectedReport(password).isValid
            ==> r == (Err(WeakFailure(WeakPassword, "password", password)), db)
    ensures FindUserByEmail(db, email).None? && !Accounts.ShortName(name)
            && PasswordPolicy.ExpectedReport(password).isValid && BadPhone(phone)
            ==> r == (Err(VE.FromSingleError("phone", ClientEntity.InvalidPhone)), db)
    ensures r.0.Ok? <==> FindUserByEmail(db, email).None? && !Accounts.ShortName(name)
                         && PasswordPolicy.ExpectedReport(password).isValid && !BadPhone(phone)
                         && Accounts.NewAccount(name, email, password, UT.Client, hash).Ok? && db.nextId > 0
    ensures r.0.Ok? ==> r.0.value.id == db.nextId && r.0.value.userType == UT.Client
    ensures r.0.Ok? ==> r.1.users == db.users[db.nextId := r.0.value]
                        && r.1.clients == db.clients[db.nextId := ClientEntity.ClientData(db.nextId, phone)]
  {
    if FindUserByEmail(db, email).Some? then (Err(Conflict(DuplicateEmail)), db)
    else if Accounts.ShortName(name) then (Err(Accounts.ShortNameFailure), db)
    else if !PasswordPolicy.ExpectedReport(password).isValid then (Err(WeakFailure(WeakPassword, "password", password)), db)
    else if BadPhone(phone) then (Err(VE.FromSingleError("phone", ClientEntity.InvalidPhone)), db)
    else Accounts.Signup(db, name, email, password, UT.Client, phone, hash)
  }

  class ClientRegisterUseCase {
    const store: Store

    constructor (store: Store)
      ensures this.store == store
    {
      this.store := store;
    }

    method Execute(name: string, email: string, password: string, phone: Option<string>, hash: Accounts.Hasher)
      returns (r: Result<UserEntity.UserData>)
      modifies store
      ensures (r, store.Snap()) == ClientRegister(old(store.Snap()), name, email, password, phone, hash)
    {
      var existing := FindUserByEmail(store.Snap(), email);
      if existing.Some? {
        return Err(Conflict(DuplicateEmail));
      }
      if Accounts.ShortName(name) {
        return Err(Accounts.ShortNameFailure);
      }
      var report := PasswordPolicy.ValidateStrength(password);
      if !report.isValid {
        return Err(Validation(WeakPassword, FieldErrors("password", report.errors)));
      }
      if phone.Some? && phone.value != "" {
        var cleaned := ClientEntity.Stripped(phone.value);
        if !ClientEntity.TenDigits(cleaned) {
          return Err(VE.FromSingleError("phone", ClientEntity.InvalidPhone));
        }
      }
      r := Accounts.SaveAccount(store, name, email, password, UT.Client, phone, hash);
    }
  }

  // ---------------------------------------------------------------------
  // Login

  /**
   * `LoginUseCase.execute`, for administrators and restaurant owners: an
   * unknown email and a wrong password give the same INVALID_CREDENTIALS;
   * a CLIENT is turned away before its password is compared.
   */
  function Login(db: Db, email: string, password: string, compare: Comparer): (r: Result<Accounts.UserView>)
    ensures FindUserByEmail(db, email).None? ==> r == Err(Unauthorized(InvalidCredentials))
    ensures FindUserByEmail(db, email).Some? && db.users[FindUserByEmail(db, email).value].userType == UT.Client
            ==> r == Err(Unauthorized(WrongUserType))
    ensures r == Err(Unauthorized(InvalidCredentials))
            <==> (FindUserByEmail(db, email).None?
                  || (db.users[FindUserByEmail(db, email).value].userType != UT.Client
                      && !compare(password, db.users[FindUserByEmail(db, email).value].password.value)))
    ensures r.Ok? <==> (FindUserByEmail(db, email).Some?
                       && db.users[FindUserByEmail(db, email).value].userType != UT.Client
                       && compare(password, db.users[FindUserByEmail(db, email).value].password.value))
    ensures r.Ok? ==> r.value == Accounts.ViewOf(db.users[FindUserByEmail(db, email).value])
                      && UT.Parse(r.value.userType) != Some(UT.Client)
  {
    match FindUserByEmail(db, email)
    case None => Err(Unauthorized(InvalidCredentials))
    case Some(id) =>
      var u := db.users[id];
      if u.userType == UT.Client then Err(Unauthorized(WrongUserType))
      else if !compare(password, u.password.value) then Err(Unauthorized(InvalidCredentials))
      else Ok(Accounts.ViewOf(u))
  }

  /**
   * `ClientLoginUseCase.execute`: the same steps for CLIENT users, with
   * WRONG_CREDENTIALS for an unknown email or a wrong password.
   */
  function ClientLogin(db: Db, email: string, password: string, compare: Comparer): (r: Result<Accounts.UserView>)
    ensures FindUserByEmail(db, email).None? ==> r == Err(Unauthorized(WrongCredentials))
    ensures FindUserByEmail(db, email).Some? && db.users[FindUserByEmail(db, email).value].userType != UT.Client
            ==> r == Err(Unauthorized(WrongUserType))
    ensures r == Err(Unauthorized(WrongCredentials))
            <==> (FindUserByEmail(db, email).None?
                  || (db.users[FindUserByEmail(db, email).value].userType == UT.Client
                      && !compare(password, db.users[FindUserByEmail(db, email).value].password.value)))
    ensures r.Ok? <==> (FindUserByEmail(db, email).Some?
                       && db.users[FindUserByEmail(db, email).value].userType == UT.Client
                       && compare(password, db.users[FindUserByEmail(db, email).value].password.value))
    ensures r.Ok? ==> r.value == Accounts.ViewOf(db.users[FindUserByEmail(db, email).value])
                      && UT.Parse(r.value.userType) == Some(UT.Client)
  {
    match FindUserByEmail(db, email)
    case None => Err(Unauthorized(WrongCredentials))
    case Some(id) =>
      var u := db.users[id];
      if u.userType != UT.Client then Err(Unauthorized(WrongUserType))
      else if !compare(password, u.password.value) then Err(Unauthorized(WrongCredentials))
      else Ok(Accounts.ViewOf(u))
  }

  /** For any email and password, at most one of the two logins succeeds. */
  lemma LoginsAreDisjoint(db: Db, email: string, password: string, compare: Comparer)
    ensures !(Login(db, email, password, compare).Ok? && ClientLogin(db, email, password, compare).Ok?)
    ensures Login(db, email, password, compare).Ok? ==> ClientLogin(db, email, password, compare) == Err(Unauthorized(WrongUserType))
    ensures ClientLogin(db, email, password, compare).Ok? ==> Login(db, email, password, compare) == Err(Unauthorized(WrongUserType))
  {
  }

  // ---------------------------------------------------------------------
  // Password change

  /** The stored user after `user.password = new Password(hash(newPassword), true)`. */
  function WithPassword(u: UserEntity.UserData, newPassword: string, hash: Accounts.Hasher): (v: UserEntity.UserData)
    ensures v.password == PasswordValue.Password(hash(newPassword), true)
    ensures v.(password := u.password) == u
  {
    u.(password := PasswordValue.Password(hash(newPassword), true))
  }

  /**
   * `ChangePasswordUseCase.execute`: the user must exist, the current
   * password match the stored hash, the new one not match it and pass
   * `validateStrength`; then its hash replaces the stored password.
   */
  function ChangePassword(db: Db, userId: int, currentPassword: string, newPassword: string,
                          hash: Accounts.Hasher, compare: Comparer): (r: (Result<()>, Db))
    ensures userId !in db.users ==> r == (Err(NotFound(UserResource)), db)
    ensures userId in db.users && !compare(currentPassword, db.users[userId].password.value)
            ==> r == (Err(Unauthorized(WrongCurrentPassword)), db)
    ensures userId in db.users && compare(currentPassword, db.users[userId].password.value)
            && compare(newPassword, db.users[userId].password.value)
            ==> r == (Err(Validation(SamePassword, [])), db)
    ensures userId in db.users && compare(currentPassword, db.users[userId].password.value)
            && !compare(newPassword, db.users[userId].password.value)
            && !PasswordPolicy.ExpectedReport(newPassword).isValid
            ==> r == (Err(WeakFailure(WeakNewPassword, "newPassword", newPassword)), db)
    ensures r.0.Err? ==> r.1 == db
    ensures r.0.Ok? <==> userId in db.users && compare(currentPassword, db.users[userId].password.value)
                         && !compare(newPassword, db.users[userId].password.value)
                         && PasswordPolicy.ExpectedReport(newPassword).isValid
    ensures r.0.Ok? ==> r.1 == ReplaceUser(db, WithPassword(db.users[userId], newPassword, hash))
  {
    if userId !in db.users then (Err(NotFound(UserResource)), db)
    else
      var stored := db.users[userId].password.value;
      if !compare(currentPassword, stored) then (Err(Unauthorized(WrongCurrentPassword)), db)
      else if compare(newPassword, stored) then (Err(Validation(SamePassword, [])), db)
      else if !PasswordPolicy.ExpectedReport(newPassword).isValid then
        (Err(WeakFailure(WeakNewPassword, "newPassword", newPassword)), db)
      else (Ok(()), ReplaceUser(db, WithPassword(db.users[userId], newPassword, hash)))
  }

  class ChangePasswordUseCase {
    const store: Store

    constructor (store: Store)
      ensures this.store == store
    {
      this.store := store;
    }

    method Execute(userId: int, currentPassword: string, newPassword: string,
                   hash: Accounts.Hasher, compare: Comparer) returns (r: Result<()>)
      modifies store
      ensures (r, store.Snap()) == ChangePassword(old(store.Snap()), userId, currentPassword, newPassword, hash, compare)
    {
      if userId !in store.users {
        return Err(NotFound(UserResource));
      }
      var user := new UserEntity.User(store.users[userId]);
      if !compare(currentPassword, user.password.value) {
        return Err(Unauthorized(WrongCurrentPassword));
      }
      if compare(newPassword, user.password.value) {
        return Err(Validation(SamePassword, []));
      }
      var report := PasswordPolicy.ValidateStrength(newPassword);
      if !report.isValid {
        return Err(Validation(WeakNewPassword, FieldErrors("newPassword", report.errors)));
      }
      var hashed := hash(newPassword);
      user.password := PasswordValue.Password(hashed, true);
      store.UpdateUser(user.Data());
      return Ok(());
    }
  }

  // ---------------------------------------------------------------------
  // Properties across use cases

  /**
   * A staff member registered with an already normalised email logs in
   * with it and the same password, whenever `compare` accepts a password
   * against its own hash.
   */
  lemma {:induction false} RegisterThenLogin(db: Db, name: string, email: string, password: string, t: UT.UserType,
                                             hash: Accounts.Hasher, compare: Comparer)
    requires IdsBelowNext(db)
    requires Register(db, name, email, password, t, hash).0.Ok?
    requires EmailValue.NewEmail(email).value.value == email
    requires compare(password, hash(password))
    ensures Login(Register(db, name, email, password, t, hash).1, email, password, compare)
            == Ok(Accounts.ViewOf(Register(db, name, email, password, t, hash).0.value))
  {
    var r := Register(db, name, email, password, t, hash);
    SavedUserIsFound(db, r.1, r.0.value, email);
  }

  /** The same round trip for a client, who is also refused by the staff login. */
  lemma {:induction false} ClientRegisterThenLogin(db: Db, name: string, email: string, password: string,
                                                   phone: Option<string>, hash: Accounts.Hasher, compare: Comparer)
    requires IdsBelowNext(db)
    requires ClientRegister(db, name, email, password, phone, hash).0.Ok?
    requires EmailValue.NewEmail(email).value.value == email
    requires compare(password, hash(password))
    ensures ClientLogin(ClientRegister(db, name, email, password, phone, hash).1, email, password, compare)
            == Ok(Accounts.ViewOf(ClientRegister(db, name, email, password, phone, hash).0.value))
    ensures Login(ClientRegister(db, name, email, password, phone, hash).1, email, password, compare)
            == Err(Unauthorized(WrongUserType))
  {
    var r := ClientRegister(db, name, email, password, phone, hash);
    SavedUserIsFound(db, r.1, r.0.value, email);
  }

  /**
   * After a user is saved under the next id with an email no stored user
   * held, looking that email up finds the new user and its stored password
   * is the hash of the one given.
   */
  lemma SavedUserIsFound(db: Db, after: Db, u: UserEntity.UserData, email: string)
    requires IdsBelowNext(db) && FindUserByEmail(db, email).None? && db.nextId > 0
    requires u.id == db.nextId && u.email.value == email
    requires after.users == db.users[db.nextId := u] && after.nextId == db.nextId + 1
    ensures FindUserByEmail(after, email) == Some(db.nextId)
  {
    assert UsersWithEmail(db, email) == {};
    assert UsersWithEmail(after, email) == {db.nextId};
    assert FindUserByEmail(after, email) == Lowest(UsersWithEmail(after, email), 0, after.nextId);
    assert 0 <= db.nextId < after.nextId && db.nextId in UsersWithEmail(after, email);
  }

  /**
   * A password that was just set cannot be set again: the change that
   * repeats it is refused as the same password, as long as `compare`
   * accepts a password against its own hash.
   */
  lemma {:induction false} ChangeIsNotRepeatable(db: Db, userId: int, currentPassword: string, newPassword: string,
                                                 hash: Accounts.Hasher, compare: Comparer)
    requires Identified(db)
    requires ChangePassword(db, userId, currentPassword, newPassword, hash, compare).0.Ok?
    requires compare(newPassword, hash(newPassword))
    ensures ChangePassword(ChangePassword(db, userId, currentPassword, newPassword, hash, compare).1,
                           userId, newPassword, newPassword, hash, compare)
            == (Err(Validation(SamePassword, [])), ChangePassword(db, userId, currentPassword, newPassword, hash, compare).1)
  {
    var after := ChangePassword(db, userId, currentPassword, newPassword, hash, compare).1;
    assert db.users[userId].id == userId;
    assert after.users[userId].password.value == hash(newPassword);
  }

  /** A successful change touches only that user's password. */
  lemma ChangeTouchesOnlyPassword(db: Db, userId: int, currentPassword: string, newPassword: string,
                                  hash: Accounts.Hasher, compare: Comparer)
    requires Identified(db)
    requires ChangePassword(db, userId, currentPassword, newPassword, hash, compare).0.Ok?
    ensures ChangePassword(db, userId, currentPassword, newPassword, hash, compare).1
            == db.(users := db.users[userId := db.users[userId].(password := PasswordValue.Password(hash(newPassword), true))])
  {
    assert db.users[userId].id == userId;
  }
}
