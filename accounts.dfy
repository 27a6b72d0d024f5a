/**
 * Accounts: creating, editing, deleting and promoting users, and the
 * role records (Administrator, RestaurantOwner, Client) kept beside them.
 *
 * The password hasher is outside the model: its `hash` is a parameter, an
 * uninterpreted function from the plain password to the stored text.
 */
module Accounts {
  import opened Outcomes
  import opened Persistence
  import Text
  import EmailValue
  import PasswordValue
  import Access
  import UT = UserTypeEnum
  import UserEntity
  import ClientEntity
  import VE = ValidationErrors

  /** `IPasswordHasher.hash`. */
  type Hasher = string -> string

  const InvalidUserType := "Tipo de usuario inválido"
  /** What `Administrator.create` and `RestaurantOwner.create` throw for an id that is not positive. */
  const InvalidRoleUserId := "El ID de usuario es inválido"
  const ClientToOwner := "No se puede promover a un cliente a restaurantero directamente"
  const ClientToAdmin := "No se puede promover a un cliente a administrador directamente"

  /** The name check the use cases run before `User.create`: `!name || name.trim().length < 3`. */
  predicate ShortName(name: string)
  {
    Text.Utf16Length(Text.Trim(name)) < 3
  }

  /** The ValidationException of a short name, on field 'name'. */
  const ShortNameFailure := VE.FromSingleError("name", UserEntity.NameTooShort)

  /** What a use case reports about a user: id, name, normalised email and type code, never the password. */
  datatype UserView = UserView(id: int, name: string, email: string, userType: string)

  function ViewOf(u: UserEntity.UserData): UserView
  {
    UserView(u.id, u.name, u.email.value, UT.Code(u.userType))
  }

  /** The type code in a view names the user's type back. */
  lemma ViewNamesUserType(u: UserEntity.UserData)
    ensures UT.Parse(ViewOf(u).userType) == Some(u.userType)
  {
    UT.ParseIsInverse(u.userType, UT.Code(u.userType));
  }

  /**
   * `User.create` given the hash as its password, after which the password
   * is replaced by the hash flagged as hashed. `create` checks the hash as
   * if it were a plain password, so a hash outside 6 to 100 code units fails.
   */
  function NewAccount(name: string, email: string, password: string, t: UT.UserType, hash: Hasher)
    : (r: Result<UserEntity.UserData>)
    ensures r.Ok? <==> EmailValue.NewEmail(email).Ok?
                       && PasswordValue.MinLength <= Text.Utf16Length(hash(password)) <= PasswordValue.MaxLength
    ensures r.Ok? ==> r.value == UserEntity.UserData(0, Text.Trim(name), EmailValue.NewEmail(email).value,
                                                     PasswordValue.Password(hash(password), true), t)
    ensures EmailValue.NewEmail(email).Err? ==> r == Err(Failed(EmailValue.InvalidEmail))
  {
    match UserEntity.Create(name, email, hash(password), t)
    case Err(f) => Err(f)
    case Ok(u) => Ok(u.(password := PasswordValue.Password(hash(password), true)))
  }

  /** Whether the role record of type `t` for user `id` is stored. */
  predicate HasRoleRecord(db: Db, id: int, t: UT.UserType)
  {
    match t
    case Admin => id in db.admins
    case RestaurantOwner => id in db.owners
    case Client => id in db.clients
  }

  /** Every user has the role record of their own type. */
  predicate RoleRecordsPresent(db: Db)
  {
    forall id :: id in db.users ==> HasRoleRecord(db, id, db.users[id].userType)
  }

  /**
   * Role records survive a change that keeps every other user's type, only
   * adds role records, and leaves user `changed` with the record of its
   * (possibly new) type.
   */
  lemma RolesGrow(db: Db, after: Db, changed: int)
    requires RoleRecordsPresent(db)
    requires forall id :: (id in after.users && id != changed)
                            ==> id in db.users && after.users[id].userType == db.users[id].userType
    requires db.admins <= after.admins && db.owners <= after.owners && db.clients.Keys <= after.clients.Keys
    requires changed in after.users ==> HasRoleRecord(after, changed, after.users[changed].userType)
    ensures RoleRecordsPresent(after)
  {
    forall id | id in after.users
      ensures HasRoleRecord(after, id, after.users[id].userType)
    {
      if id != changed {
        assert HasRoleRecord(db, id, db.users[id].userType);
      }
    }
  }

  /**
   * The role record for a saved user: `Administrator.create`,
   * `RestaurantOwner.create` or `Client.create` on the id, then that
   * repository's `save`. Each factory refuses an id that is not positive;
   * `Client.create` also checks the phone.
   */
  function AddRoleRecord(db: Db, id: int, t: UT.UserType, phone: Option<string>): (r: (Result<()>, Db))
    ensures r.0.Err? ==> r.1 == db
    ensures r.0.Ok? <==> id > 0 && (t == UT.Client ==> ClientEntity.Create(id, phone).Ok?)
    ensures id <= 0 ==> r.0 == Err(Failed(InvalidRoleUserId))
    ensures r.0.Ok? && t == UT.Admin ==> r.1 == db.(admins := db.admins + {id})
    ensures r.0.Ok? && t == UT.RestaurantOwner ==> r.1 == db.(owners := db.owners + {id})
    ensures r.0.Ok? && t == UT.Client ==> r.1 == ReplaceClient(db, ClientEntity.ClientData(id, phone))
  {
    match t
    case Admin =>
      if id <= 0 then (Err(Failed(InvalidRoleUserId)), db) else (Ok(()), db.(admins := db.admins + {id}))
    case RestaurantOwner =>
      if id <= 0 then (Err(Failed(InvalidRoleUserId)), db) else (Ok(()), db.(owners := db.owners + {id}))
    case Client =>
      match ClientEntity.Create(id, phone)
      case Err(f) => (Err(f), db)
      case Ok(c) => (Ok(()), ReplaceClient(db, c))
  }

  /**
   * The tail every creating use case shares: build the account, save the
   * user under the next id, then save its role record. A role record that
   * fails leaves the saved user behind.
   */
  function Signup(db: Db, name: string, email: string, password: string, t: UT.UserType,
                  phone: Option<string>, hash: Hasher): (r: (Result<UserEntity.UserData>, Db))
    ensures NewAccount(name, email, password, t, hash).Err?
            ==> r == (Err(NewAccount(name, email, password, t, hash).failure), db)
    ensures r.0.Ok? <==> NewAccount(name, email, password, t, hash).Ok? && db.nextId > 0
                         && (t == UT.Client ==> ClientEntity.Create(db.nextId, phone).Ok?)
    ensures r.0.Ok? ==> r.0.value == NewAccount(name, email, password, t, hash).value.(id := db.nextId)
    ensures r.0.Ok? ==> r.1 == AddRoleRecord(InsertUser(db, r.0.value), db.nextId, t, phone).1
    ensures r.0.Err? && NewAccount(name, email, password, t, hash).Ok?
            ==> r.1 == InsertUser(db, NewAccount(name, email, password, t, hash).value)
  {
    match NewAccount(name, email, password, t, hash)
    case Err(f) => (Err(f), db)
    case Ok(u) =>
      var saved := InsertUser(db, u);
      var (res, after) := AddRoleRecord(saved, db.nextId, t, phone);
      if res.Err? then (Err(res.failure), after) else (Ok(u.(id := db.nextId)), after)
  }

  /** The statement form of `Signup`, shared by the creating use cases' `execute`. */
  method SaveAccount(store: Store, name: string, email: string, password: string, t: UT.UserType,
                     phone: Option<string>, hash: Hasher) returns (r: Result<UserEntity.UserData>)
    modifies store
    ensures (r, store.Snap()) == Signup(old(store.Snap()), name, email, password, t, phone, hash)
  {
    var hashed := hash(password);
    var created := UserEntity.Create(name, email, hashed, t);
    if created.Err? {
      return Err(created.failure);
    }
    var user := created.value.(password := PasswordValue.Password(hashed, true));
    assert user == NewAccount(name, email, password, t, hash).value;
    var id := store.SaveUser(user);
    assert store.Snap() == InsertUser(old(store.Snap()), user);
    var res := SaveRoleRecord(store, id, t, phone);
    if res.Err? {
      return Err(res.failure);
    }
    return Ok(user.(id := id));
  }

  /** The statement form of `AddRoleRecord`: the factory for the type, then its repository's `save`. */
  method SaveRoleRecord(store: Store, id: int, t: UT.UserType, phone: Option<string>) returns (r: Result<()>)
    modifies store
    ensures (r, store.Snap()) == AddRoleRecord(old(store.Snap()), id, t, phone)
  {
    match t {
      case Admin =>
        if id <= 0 {
          return Err(Failed(InvalidRoleUserId));
        }
        store.SaveAdministrator(id);
      case RestaurantOwner =>
        if id <= 0 {
          return Err(Failed(InvalidRoleUserId));
        }
        store.SaveRestaurantOwner(id);
      case Client =>
        var client := ClientEntity.Create(id, phone);
        if client.Err? {
          return Err(client.failure);
        }
        store.SaveClient(client.value);
    }
    return Ok(());
  }

  /** Creating an account with its role record keeps every user's role record in place. */
  lemma SignupKeepsRoleRecords(db: Db, name: string, email: string, password: string, t: UT.UserType,
                               phone: Option<string>, hash: Hasher)
    requires IdsBelowNext(db) && RoleRecordsPresent(db)
    requires Signup(db, name, email, password, t, phone, hash).0.Ok?
    ensures RoleRecordsPresent(Signup(db, name, email, password, t, phone, hash).1)
    ensures HasRoleRecord(Signup(db, name, email, password, t, phone, hash).1, db.nextId, t)
  {
    var r := Signup(db, name, email, password, t, phone, hash);
    var u := r.0.value;
    assert db.nextId !in db.users;
    var after := r.1;
    assert after.users == db.users[db.nextId := u];
    forall id | id in after.users
      ensures HasRoleRecord(after, id, after.users[id].userType)
    {
      if id != db.nextId {
        assert HasRoleRecord(db, id, db.users[id].userType);
      }
    }
  }

  /**
   * `CreateUserUseCase.execute`: the raw email must be unused, the name
   * long enough and the type code one of the three; then the account and
   * its role record are created.
   */
  function CreateUser(db: Db, name: string, email: string, password: string, typeCode: string,
                      phone: Option<string>, hash: Hasher): (r: (Result<UserEntity.UserData>, Db))
    ensures FindUserByEmail(db, email).Some? ==> r == (Err(Conflict(DuplicateEmail)), db)
    ensures FindUserByEmail(db, email).None? && ShortName(name) ==> r == (Err(ShortNameFailure), db)
    ensures FindUserByEmail(db, email).None? && !ShortName(name) && UT.Parse(typeCode).None?
            ==> r == (Err(Validation(InvalidUserType, [])), db)
    ensures r.0.Ok? <==> FindUserByEmail(db, email).None? && !ShortName(name) && UT.Parse(typeCode).Some?
                         && Signup(db, name, email, password, UT.Parse(typeCode).value, phone, hash).0.Ok?
    ensures r.0.Ok? ==> r.0.value.id == db.nextId && r.0.value.userType == UT.Parse(typeCode).value
                        && r.0.value.password == PasswordValue.Password(hash(password), true)
                        && r.0.value.email == EmailValue.NewEmail(email).value
    ensures r.0.Ok? ==> r.1.users == db.users[db.nextId := r.0.value] && r.1.nextId == db.nextId + 1
                        && HasRoleRecord(r.1, db.nextId, r.0.value.userType)
  {
    if FindUserByEmail(db, email).Some? then (Err(Conflict(DuplicateEmail)), db)
    else if ShortName(name) then (Err(ShortNameFailure), db)
    else if UT.Parse(typeCode).None? then (Err(Validation(InvalidUserType, [])), db)
    else Signup(db, name, email, password, UT.Parse(typeCode).value, phone, hash)
  }

  class CreateUserUseCase {
    const store: Store

    constructor (store: Store)
      ensures this.store == store
    {
      this.store := store;
    }

    method Execute(name: string, email: string, password: string, typeCode: string,
                   phone: Option<string>, hash: Hasher) returns (r: Result<UserEntity.UserData>)
      modifies store
      ensures (r, store.Snap()) == CreateUser(old(store.Snap()), name, email, password, typeCode, phone, hash)
    {
      if FindUserByEmail(store.Snap(), email).Some? {
        return Err(Conflict(DuplicateEmail));
      }
      if Text.Utf16Length(Text.Trim(name)) < 3 {
        return Err(ShortNameFailure);
      }
      var t := UT.Parse(typeCode);
      if t.None? {
        return Err(Validation(InvalidUserType, []));
      }
      r := SaveAccount(store, name, email, password, t.value, phone, hash);
    }
  }

  /**
   * `CreateUser` saves the user before `Client.create` checks the phone, so
   * a CLIENT request with a bad phone fails yet leaves a user with no
   * Client record, and a retry then meets DUPLICATE_EMAIL.
   */
  lemma CreateUserBadPhoneLeavesOrphan(db: Db, name: string, email: string, password: string,
                                       phone: string, hash: Hasher)
    requires IdsBelowNext(db) && db.nextId > 0 && db.nextId !in db.clients
    requires FindUserByEmail(db, email).None? && !ShortName(name)
    requires NewAccount(name, email, password, UT.Client, hash).Ok?
    requires ClientEntity.Supplied(Some(phone)) && !ClientEntity.TenDigits(ClientEntity.Stripped(phone))
    ensures CreateUser(db, name, email, password, UT.Code(UT.Client), Some(phone), hash).0
            == Err(Failed(ClientEntity.InvalidPhone))
    ensures !RoleRecordsPresent(CreateUser(db, name, email, password, UT.Code(UT.Client), Some(phone), hash).1)
    ensures FindUserByEmail(CreateUser(db, name, email, password, UT.Code(UT.Client), Some(phone), hash).1,
                            EmailValue.NewEmail(email).value.value).Some?
  {
    UT.ParseIsInverse(UT.Client, UT.Code(UT.Client));
    var r := CreateUser(db, name, email, password, UT.Code(UT.Client), Some(phone), hash);
    var u := NewAccount(name, email, password, UT.Client, hash).value;
    assert r.1 == InsertUser(db, u);
    assert r.1.users[db.nextId].userType == UT.Client;
    assert !HasRoleRecord(r.1, db.nextId, UT.Client);
    assert db.nextId in UsersWithEmail(r.1, u.email.value);
  }

  /**
   * `CreateUser` as evidently intended: a CLIENT's phone is checked before
   * anything is saved, as `ClientRegister` does.
   */
  function CreateUserChecked(db: Db, name: string, email: string, password: string, typeCode: string,
                             phone: Option<string>, hash: Hasher): (r: (Result<UserEntity.UserData>, Db))
    ensures UT.Parse(typeCode) == Some(UT.Client) && ClientEntity.Supplied(phone)
            && !ClientEntity.TenDigits(ClientEntity.Stripped(phone.value))
            && FindUserByEmail(db, email).None? && !ShortName(name)
            ==> r == (Err(VE.FromSingleError("phone", ClientEntity.InvalidPhone)), db)
    ensures r.0.Ok? ==> r == CreateUser(db, name, email, password, typeCode, phone, hash)
  {
    if FindUserByEmail(db, email).Some? then (Err(Conflict(DuplicateEmail)), db)
    else if ShortName(name) then (Err(ShortNameFailure), db)
    else if UT.Parse(typeCode).None? then (Err(Validation(InvalidUserType, [])), db)
    else if UT.Parse(typeCode) == Some(UT.Client) && ClientEntity.Supplied(phone)
            && !ClientEntity.TenDigits(ClientEntity.Stripped(phone.value)) then
      (Err(VE.FromSingleError("phone", ClientEntity.InvalidPhone)), db)
    else Signup(db, name, email, password, UT.Parse(typeCode).value, phone, hash)
  }

  /** The corrected creation is all or nothing, and keeps every user's role record in place. */
  lemma CreateUserCheckedAllOrNothing(db: Db, name: string, email: string, password: string, typeCode: string,
                                      phone: Option<string>, hash: Hasher)
    requires IdsBelowNext(db) && RoleRecordsPresent(db) && db.nextId > 0
    ensures CreateUserChecked(db, name, email, password, typeCode, phone, hash).0.Err?
            ==> CreateUserChecked(db, name, email, password, typeCode, phone, hash).1 == db
    ensures RoleRecordsPresent(CreateUserChecked(db, name, email, password, typeCode, phone, hash).1)
  {
    var r := CreateUserChecked(db, name, email, password, typeCode, phone, hash);
    if FindUserByEmail(db, email).None? && !ShortName(name) && UT.Parse(typeCode).Some? {
      var t := UT.Parse(typeCode).value;
      if !(t == UT.Client && ClientEntity.Supplied(phone) && !ClientEntity.TenDigits(ClientEntity.Stripped(phone.value))) {
        assert r == Signup(db, name, email, password, t, phone, hash);
        if NewAccount(name, email, password, t, hash).Ok? {
          assert t == UT.Client ==> ClientEntity.Create(db.nextId, phone).Ok?;
          assert r.0.Ok?;
          SignupKeepsRoleRecords(db, name, email, password, t, phone, hash);
        }
      }
    }
  }

  /** `findByEmail(email)` found a user other than `userId`. */
  predicate EmailTaken(db: Db, email: string, userId: int)
  {
    var found := FindUserByEmail(db, email);
    found.Some? && db.users[found.value].id != userId
  }

  /** The user after `updateName` and `updateEmail` with the supplied fields, the email already known valid. */
  function EditedUser(u: UserEntity.UserData, name: Option<string>, email: Option<string>): (e: UserEntity.UserData)
    requires email.Some? ==> EmailValue.NewEmail(email.value).Ok?
    ensures e.id == u.id && e.password == u.password && e.userType == u.userType
    ensures name.None? ==> e.name == u.name
    ensures name.Some? ==> e.name == Text.Trim(name.value)
    ensures email.None? ==> e.email == u.email
    ensures email.Some? ==> e.email == EmailValue.NewEmail(email.value).value
  {
    u.(name := if name.Some? then Text.Trim(name.value) else u.name,
       email := if email.Some? then EmailValue.NewEmail(email.value).value else u.email)
  }

  /** `Client.updatePhone` as a value: the stripped phone, none for an empty one, or the phone error. */
  function PhoneUpdated(c: ClientEntity.ClientData, phone: Option<string>): (r: Result<ClientEntity.ClientData>)
    ensures r.Err? <==> ClientEntity.Supplied(phone) && !ClientEntity.TenDigits(ClientEntity.Stripped(phone.value))
    ensures r.Err? ==> r.failure == Failed(ClientEntity.InvalidPhone)
    ensures r.Ok? ==> r.value.userId == c.userId
    ensures r.Ok? ==> r.value.phone == (if ClientEntity.Supplied(phone) then Some(ClientEntity.Stripped(phone.value)) else None)
  {
    if ClientEntity.Supplied(phone) then
      if ClientEntity.TenDigits(ClientEntity.Stripped(phone.value)) then
        Ok(ClientEntity.ClientData(c.userId, Some(ClientEntity.Stripped(phone.value))))
      else Err(Failed(ClientEntity.InvalidPhone))
    else Ok(ClientEntity.ClientData(c.userId, None))
  }

  /** Whether `UpdateUser` touches the client record: a phone was supplied for a CLIENT that has one. */
  predicate PhoneApplies(db: Db, u: UserEntity.UserData, phone: Option<string>)
  {
    phone.Some? && u.userType == UT.Client && u.id in db.clients
  }

  /**
   * The client record `UpdateUser` stores: none when the phone does not
   * apply, otherwise the record after `updatePhone`, or its error.
   */
  function UserPhoneStep(db: Db, u: UserEntity.UserData, phone: Option<string>)
    : (r: Result<Option<ClientEntity.ClientData>>)
    ensures !PhoneApplies(db, u, phone) ==> r == Ok(None)
    ensures PhoneApplies(db, u, phone) ==> r.Err? == PhoneUpdated(db.clients[u.id], phone).Err?
    ensures PhoneApplies(db, u, phone) && r.Ok? ==> r.value == Some(PhoneUpdated(db.clients[u.id], phone).value)
    ensures r.Err? ==> r.failure == Failed(ClientEntity.InvalidPhone)
  {
    if PhoneApplies(db, u, phone) then
      match PhoneUpdated(db.clients[u.id], phone)
      case Err(f) => Err(f)
      case Ok(c) => Ok(Some(c))
    else Ok(None)
  }

  /** The store after a successful edit: the edited user and, when one is given, the client record. */
  function StoreEdit(db: Db, edited: UserEntity.UserData, client: Option<ClientEntity.ClientData>): (r: Db)
    ensures r.users == db.users[edited.id := edited]
    ensures r.clients == if client.Some? then db.clients[client.value.userId := client.value] else db.clients
    ensures r == db.(users := r.users, clients := r.clients)
  {
    if client.Some? then ReplaceUser(ReplaceClient(db, client.value), edited) else ReplaceUser(db, edited)
  }

  /** The email check of an edit: a supplied email held by another user conflicts, an invalid one fails. */
  function EmailFailure(db: Db, userId: int, email: Option<string>): (r: Option<Failure>)
    ensures email.Some? && EmailTaken(db, email.value, userId) ==> r == Some(Conflict(DuplicateEmail))
    ensures r.None? <==> (email.Some? ==> !EmailTaken(db, email.value, userId) && EmailValue.NewEmail(email.value).Ok?)
    ensures r.Some? && r != Some(Conflict(DuplicateEmail)) ==> r == Some(Failed(EmailValue.InvalidEmail))
  {
    if email.Some? && EmailTaken(db, email.value, userId) then Some(Conflict(DuplicateEmail))
    else if email.Some? && EmailValue.NewEmail(email.value).Err? then Some(Failed(EmailValue.InvalidEmail))
    else None
  }

  /** The checks `UpdateUser` and `UpdateClient` share: a supplied name long enough, then the email check. */
  function EditFailure(db: Db, userId: int, name: Option<string>, email: Option<string>): (r: Option<Failure>)
    ensures name.Some? && ShortName(name.value) ==> r == Some(ShortNameFailure)
    ensures (name.Some? ==> !ShortName(name.value)) ==> r == EmailFailure(db, userId, email)
  {
    if name.Some? && ShortName(name.value) then Some(ShortNameFailure) else EmailFailure(db, userId, email)
  }

  /** The name step of an edit on the loaded user object: the length check, then `updateName`. */
  method EditName(user: UserEntity.User, name: Option<string>) returns (f: Option<Failure>)
    modifies user
    ensures f == (if name.Some? && ShortName(name.value) then Some(ShortNameFailure) else None)
    ensures f.None? ==> user.Data() == EditedUser(old(user.Data()), name, None)
  {
    if name.Some? {
      if Text.Utf16Length(Text.Trim(name.value)) < 3 {
        return Some(ShortNameFailure);
      }
      var renamed := user.UpdateName(name.value);
    }
    return None;
  }

  /** The email step of an edit on the loaded user object: `findByEmail`, then `updateEmail`. */
  method EditEmail(store: Store, user: UserEntity.User, userId: int, email: Option<string>) returns (f: Option<Failure>)
    modifies user
    ensures f == EmailFailure(store.Snap(), userId, email)
    ensures f.None? ==> user.Data() == EditedUser(old(user.Data()), None, email)
  {
    if email.Some? {
      var existing := FindUserByEmail(store.Snap(), email.value);
      if existing.Some? && store.users[existing.value].id != userId {
        return Some(Conflict(DuplicateEmail));
      }
      var changed := user.UpdateEmail(email.value);
      if changed.Err? {
        return Some(changed.failure);
      }
    }
    return None;
  }

  /** Both steps of an edit, in the use cases' order. */
  method EditUser(store: Store, user: UserEntity.User, userId: int, name: Option<string>, email: Option<string>)
    returns (f: Option<Failure>)
    modifies user
    ensures f == EditFailure(store.Snap(), userId, name, email)
    ensures f.None? ==> user.Data() == EditedUser(old(user.Data()), name, email)
  {
    f := EditName(user, name);
    if f.Some? {
      return;
    }
    ghost var renamed := user.Data();
    f := EditEmail(store, user, userId, email);
    assert f.None? ==> user.Data() == EditedUser(renamed, None, email);
  }

  /**
   * What an edit does once the user is found and allowed: the shared name
   * and email checks, then the phone step's error, or both writes.
   */
  function EditTail(db: Db, userId: int, name: Option<string>, email: Option<string>,
                    step: Result<Option<ClientEntity.ClientData>>): (r: (Result<()>, Db))
    requires userId in db.users
    ensures EditFailure(db, userId, name, email).Some? ==> r == (Err(EditFailure(db, userId, name, email).value), db)
    ensures EditFailure(db, userId, name, email).None? && step.Err? ==> r == (Err(step.failure), db)
    ensures r.0.Ok? <==> EditFailure(db, userId, name, email).None? && step.Ok?
    ensures r.0.Ok? ==> r.1 == StoreEdit(db, EditedUser(db.users[userId], name, email), step.value)
  {
    match EditFailure(db, userId, name, email)
    case Some(f) => (Err(f), db)
    case None =>
      match step
      case Err(f) => (Err(f), db)
      case Ok(c) => (Ok(()), StoreEdit(db, EditedUser(db.users[userId], name, email), c))
  }

  /** The client record `UpdateClient` stores: the record after `updatePhone` when a phone is supplied. */
  function ClientPhoneStep(db: Db, userId: int, phone: Option<string>): (r: Result<Option<ClientEntity.ClientData>>)
    requires userId in db.clients
    ensures phone.None? ==> r == Ok(None)
    ensures phone.Some? ==> r.Err? == PhoneUpdated(db.clients[userId], phone).Err?
    ensures phone.Some? && r.Ok? ==> r.value == Some(PhoneUpdated(db.clients[userId], phone).value)
    ensures r.Err? ==> r.failure == Failed(ClientEntity.InvalidPhone)
  {
    if phone.Some? then
      match PhoneUpdated(db.clients[userId], phone)
      case Err(f) => Err(f)
      case Ok(c) => Ok(Some(c))
    else Ok(None)
  }

  /**
   * The phone step of `UpdateUserUseCase.execute` on the loaded client
   * object; it reads the store and changes nothing there.
   */
  method PhoneStep(store: Store, u: UserEntity.UserData, phone: Option<string>)
    returns (r: Result<Option<ClientEntity.ClientData>>)
    ensures r == UserPhoneStep(store.Snap(), u, phone)
  {
    if phone.Some? && u.userType == UT.Client && u.id in store.clients {
      var client := new ClientEntity.Client(store.clients[u.id]);
      var changed := client.UpdatePhone(phone);
      if changed.Err? {
        return Err(changed.failure);
      }
      return Ok(Some(client.Data()));
    }
    return Ok(None);
  }

  /** The writes of a successful edit: the client record when there is one, then the user. */
  method SaveEdit(store: Store, edited: UserEntity.UserData, client: Option<ClientEntity.ClientData>)
    modifies store
    ensures store.Snap() == StoreEdit(old(store.Snap()), edited, client)
  {
    if client.Some? {
      store.UpdateClient(client.value);
    }
    store.UpdateUser(edited);
  }

  /** The steps of `UpdateUserUseCase.execute` after the permission check, on the loaded user object. */
  method FinishUserEdit(store: Store, user: UserEntity.User, userId: int,
                        name: Option<string>, email: Option<string>, phone: Option<string>) returns (r: Result<()>)
    requires userId in store.users && user.Data() == store.users[userId]
    modifies store, user
    ensures (r, store.Snap()) == EditTail(old(store.Snap()), userId, name, email,
                                          UserPhoneStep(old(store.Snap()), old(store.users[userId]), phone))
  {
    var failed := EditUser(store, user, userId, name, email);
    if failed.Some? {
      return Err(failed.value);
    }
    var step := PhoneStep(store, store.users[userId], phone);
    if step.Err? {
      return Err(step.failure);
    }
    SaveEdit(store, user.Data(), step.value);
    return Ok(());
  }

  /** The steps of `UpdateClientUseCase.execute` after both records are loaded. */
  method FinishClientEdit(store: Store, user: UserEntity.User, client: ClientEntity.Client, userId: int,
                          name: Option<string>, email: Option<string>, phone: Option<string>) returns (r: Result<()>)
    requires userId in store.users && user.Data() == store.users[userId]
    requires userId in store.clients && client.Data() == store.clients[userId]
    modifies store, user, client
    ensures (r, store.Snap()) == EditTail(old(store.Snap()), userId, name, email,
                                          ClientPhoneStep(old(store.Snap()), userId, phone))
  {
    var failed := EditUser(store, user, userId, name, email);
    if failed.Some? {
      return Err(failed.value);
    }
    var step := ClientPhone(store, client, userId, phone);
    if step.Err? {
      return Err(step.failure);
    }
    SaveEdit(store, user.Data(), step.value);
    return Ok(());
  }

  /** The phone step of `UpdateClientUseCase.execute`: `updatePhone` on the loaded client when a phone is supplied. */
  method ClientPhone(store: Store, client: ClientEntity.Client, userId: int, phone: Option<string>)
    returns (r: Result<Option<ClientEntity.ClientData>>)
    requires userId in store.clients && client.Data() == store.clients[userId]
    modifies client
    ensures r == ClientPhoneStep(store.Snap(), userId, phone)
  {
    if phone.None? {
      return Ok(None);
    }
    var changed := client.UpdatePhone(phone);
    if changed.Err? {
      return Err(changed.failure);
    }
    return Ok(Some(client.Data()));
  }

  /**
   * `UpdateUserUseCase.execute`: the user must exist and be the requester
   * or the requester an admin; a supplied name must be long enough, a
   * supplied email free or already the user's and valid; a CLIENT's phone
   * goes through `updatePhone`. Nothing is stored unless every step passes.
   */
  function UpdateUser(db: Db, userId: int, requesterId: int, requesterType: UT.UserType,
                      name: Option<string>, email: Option<string>, phone: Option<string>): (r: (Result<()>, Db))
    ensures userId !in db.users ==> r == (Err(NotFound(UserResource)), db)
    ensures userId in db.users && !Access.CanActOn(requesterType, requesterId, userId)
            ==> r == (Err(Forbidden(NotOwner("usuario"))), db)
    ensures userId in db.users && Access.CanActOn(requesterType, requesterId, userId)
            && EditFailure(db, userId, name, email).Some?
            ==> r == (Err(EditFailure(db, userId, name, email).value), db)
    ensures r.0.Err? ==> r.1 == db
    ensures r.0.Ok? <==> userId in db.users && Access.CanActOn(requesterType, requesterId, userId)
                         && EditFailure(db, userId, name, email).None?
                         && UserPhoneStep(db, db.users[userId], phone).Ok?
    ensures r.0.Ok? ==> r.1 == StoreEdit(db, EditedUser(db.users[userId], name, email),
                                         UserPhoneStep(db, db.users[userId], phone).value)
  {
    if userId !in db.users then (Err(NotFound(UserResource)), db)
    else if !Access.CanActOn(requesterType, requesterId, userId) then (Err(Forbidden(NotOwner("usuario"))), db)
    else EditTail(db, userId, name, email, UserPhoneStep(db, db.users[userId], phone))
  }

  class UpdateUserUseCase {
    const store: Store

    constructor (store: Store)
      ensures this.store == store
    {
      this.store := store;
    }

    method Execute(userId: int, requesterId: int, requesterType: UT.UserType,
                   name: Option<string>, email: Option<string>, phone: Option<string>) returns (r: Result<()>)
      modifies store
      ensures (r, store.Snap()) == UpdateUser(old(store.Snap()), userId, requesterId, requesterType, name, email, phone)
    {
      if userId !in store.users {
        return Err(NotFound(UserResource));
      }
      var user := new UserEntity.User(store.users[userId]);
      if requesterId != userId && requesterType != UT.Admin {
        return Err(Forbidden(NotOwner("usuario")));
      }
      r := FinishUserEdit(store, user, userId, name, email, phone);
    }
  }

  /**
   * Keeping one's own email is allowed: when no other user holds the
   * address, the email check passes for the user who holds it.
   */
  lemma OwnEmailIsNotTaken(db: Db, userId: int, email: string)
    requires IdsBelowNext(db) && Identified(db)
    requires userId in db.users && db.users[userId].email.value == email
    requires forall id :: id in db.users && id != userId ==> db.users[id].email.value != email
    ensures !EmailTaken(db, email, userId)
  {
    assert userId in UsersWithEmail(db, email);
  }

  /** An edit never changes a user's type nor removes a client record, so role records stay in place. */
  lemma UpdateUserKeepsRoleRecords(db: Db, userId: int, requesterId: int, requesterType: UT.UserType,
                                   name: Option<string>, email: Option<string>, phone: Option<string>)
    requires Identified(db) && RoleRecordsPresent(db)
    ensures RoleRecordsPresent(UpdateUser(db, userId, requesterId, requesterType, name, email, phone).1)
  {
    var r := UpdateUser(db, userId, requesterId, requesterType, name, email, phone);
    if r.0.Ok? {
      var u := db.users[userId];
      var edited := EditedUser(u, name, email);
      assert edited.id == userId && edited.userType == u.userType;
      EditKeepsRoleRecords(db, edited, UserPhoneStep(db, u, phone).value);
    }
  }

  /** Storing an edit whose user keeps its id and type keeps every role record. */
  lemma EditKeepsRoleRecords(db: Db, edited: UserEntity.UserData, client: Option<ClientEntity.ClientData>)
    requires RoleRecordsPresent(db)
    requires edited.id in db.users && edited.userType == db.users[edited.id].userType
    ensures RoleRecordsPresent(StoreEdit(db, edited, client))
  {
    var after := StoreEdit(db, edited, client);
    assert HasRoleRecord(db, edited.id, edited.userType);
    RolesGrow(db, after, edited.id);
  }

  /** The store without the role record of user `id` of type `t`. */
  function RemoveRoleRecord(db: Db, id: int, t: UT.UserType): (r: Db)
    ensures !HasRoleRecord(r, id, t)
    ensures forall u, s :: (u != id || s != t) && HasRoleRecord(db, u, s) ==> HasRoleRecord(r, u, s)
    ensures r.users == db.users && r.nextId == db.nextId && r.restaurants == db.restaurants
  {
    match t
    case Admin => db.(admins := db.admins - {id})
    case RestaurantOwner => db.(owners := db.owners - {id})
    case Client => RemoveClient(db, id)
  }

  /**
   * `DeleteUserUseCase.execute`: only an admin, never on themself; the user
   * must exist and, as an owner, hold no restaurant; the role record of the
   * user's type goes, then the user.
   */
  function DeleteUser(db: Db, userId: int, requesterId: int, requesterType: UT.UserType): (r: (Result<()>, Db))
    ensures requesterType != UT.Admin ==> r == (Err(Forbidden(InsufficientRole)), db)
    ensures requesterType == UT.Admin && userId == requesterId ==> r == (Err(Forbidden(CannotDeleteSelf)), db)
    ensures requesterType == UT.Admin && userId != requesterId && userId !in db.users
            ==> r == (Err(NotFound(UserResource)), db)
    ensures requesterType == UT.Admin && userId != requesterId && userId in db.users
            && db.users[userId].userType == UT.RestaurantOwner && OwnsRestaurants(db, userId)
            ==> r == (Err(Conflict(ResourceInUse)), db)
    ensures r.0.Err? ==> r.1 == db
    ensures r.0.Ok? <==> requesterType == UT.Admin && userId != requesterId && userId in db.users
                         && !(db.users[userId].userType == UT.RestaurantOwner && OwnsRestaurants(db, userId))
    ensures r.0.Ok? ==> r.1 == RemoveUser(RemoveRoleRecord(db, userId, db.users[userId].userType), userId)
    ensures r.0.Ok? ==> userId !in r.1.users && !HasRoleRecord(r.1, userId, db.users[userId].userType)
  {
    if requesterType != UT.Admin then (Err(Forbidden(InsufficientRole)), db)
    else if userId == requesterId then (Err(Forbidden(CannotDeleteSelf)), db)
    else if userId !in db.users then (Err(NotFound(UserResource)), db)
    else if db.users[userId].userType == UT.RestaurantOwner && OwnsRestaurants(db, userId) then
      (Err(Conflict(ResourceInUse)), db)
    else (Ok(()), RemoveUser(RemoveRoleRecord(db, userId, db.users[userId].userType), userId))
  }

  class DeleteUserUseCase {
    const store: Store

    constructor (store: Store)
      ensures this.store == store
    {
      this.store := store;
    }

    method Execute(userId: int, requesterId: int, requesterType: UT.UserType) returns (r: Result<()>)
      modifies store
      ensures (r, store.Snap()) == DeleteUser(old(store.Snap()), userId, requesterId, requesterType)
    {
      if requesterType != UT.Admin {
        return Err(Forbidden(InsufficientRole));
      }
      if userId == requesterId {
        return Err(Forbidden(CannotDeleteSelf));
      }
      if userId !in store.users {
        return Err(NotFound(UserResource));
      }
      var user := store.users[userId];
      if user.userType == UT.RestaurantOwner && OwnsRestaurants(store.Snap(), userId) {
        return Err(Conflict(ResourceInUse));
      }
      match user.userType {
        case Admin => store.DeleteAdministrator(userId);
        case RestaurantOwner => store.DeleteRestaurantOwner(userId);
        case Client => store.DeleteClient(userId);
      }
      store.DeleteUser(userId);
      return Ok(());
    }
  }

  /** Deleting a user takes only that user's role record, so the others keep theirs. */
  lemma DeleteUserKeepsRoleRecords(db: Db, userId: int, requesterId: int, requesterType: UT.UserType)
    requires RoleRecordsPresent(db)
    ensures RoleRecordsPresent(DeleteUser(db, userId, requesterId, requesterType).1)
  {
    var r := DeleteUser(db, userId, requesterId, requesterType);
    if r.0.Ok? {
      RemovalKeepsRoleRecords(db, userId);
    }
  }

  /** Removing a user together with the role record of its type keeps every other user's record. */
  lemma RemovalKeepsRoleRecords(db: Db, userId: int)
    requires RoleRecordsPresent(db) && userId in db.users
    ensures RoleRecordsPresent(RemoveUser(RemoveRoleRecord(db, userId, db.users[userId].userType), userId))
  {
    var removed := RemoveRoleRecord(db, userId, db.users[userId].userType);
    var after := RemoveUser(removed, userId);
    forall id | id in after.users
      ensures HasRoleRecord(after, id, after.users[id].userType)
    {
      assert id != userId && after.users[id] == db.users[id];
      assert HasRoleRecord(db, id, db.users[id].userType);
      assert HasRoleRecord(removed, id, db.users[id].userType);
    }
  }

  /**
   * `UpdateClientUseCase.execute`: the user and its client record must
   * exist; name and email as in `UpdateUser`; a supplied phone goes
   * through `updatePhone` whatever the user's type.
   */
  function UpdateClient(db: Db, userId: int, name: Option<string>, email: Option<string>, phone: Option<string>)
    : (r: (Result<()>, Db))
    ensures userId !in db.users ==> r == (Err(NotFound(UserResource)), db)
    ensures userId in db.users && userId !in db.clients ==> r == (Err(NotFound(ClientResource)), db)
    ensures userId in db.users && userId in db.clients && EditFailure(db, userId, name, email).Some?
            ==> r == (Err(EditFailure(db, userId, name, email).value), db)
    ensures r.0.Err? ==> r.1 == db
    ensures r.0.Ok? <==> userId in db.users && userId in db.clients && EditFailure(db, userId, name, email).None?
                         && (phone.Some? ==> PhoneUpdated(db.clients[userId], phone).Ok?)
    ensures r.0.Ok? && phone.None? ==> r.1 == StoreEdit(db, EditedUser(db.users[userId], name, email), None)
    ensures r.0.Ok? && phone.Some?
            ==> r.1 == StoreEdit(db, EditedUser(db.users[userId], name, email),
                                 Some(PhoneUpdated(db.clients[userId], phone).value))
  {
    if userId !in db.users then (Err(NotFound(UserResource)), db)
    else if userId !in db.clients then (Err(NotFound(ClientResource)), db)
    else EditTail(db, userId, name, email, ClientPhoneStep(db, userId, phone))
  }

  class UpdateClientUseCase {
    const store: Store

    constructor (store: Store)
      ensures this.store == store
    {
      this.store := store;
    }

    method Execute(userId: int, name: Option<string>, email: Option<string>, phone: Option<string>)
      returns (r: Result<()>)
      modifies store
      ensures (r, store.Snap()) == UpdateClient(old(store.Snap()), userId, name, email, phone)
    {
      if userId !in store.users {
        return Err(NotFound(UserResource));
      }
      var user := new UserEntity.User(store.users[userId]);
      if userId !in store.clients {
        return Err(NotFound(ClientResource));
      }
      var client := new ClientEntity.Client(store.clients[userId]);
      r := FinishClientEdit(store, user, client, userId, name, email, phone);
    }
  }

  /** An empty phone clears the stored phone of an existing client. */
  lemma EmptyPhoneClears(db: Db, userId: int)
    requires Identified(db)
    requires userId in db.users && userId in db.clients
    ensures UpdateClient(db, userId, None, None, Some("")).0.Ok?
    ensures UpdateClient(db, userId, None, None, Some("")).1.clients[userId] == ClientEntity.ClientData(userId, None)
  {
    assert !ClientEntity.Supplied(Some(""));
  }

  /** What `CreateClient` reports: the saved user's id as both ids, its name and email, and the phone given. */
  datatype ClientCreated = ClientCreated(userId: int, clientId: int, name: string, email: string, phone: Option<string>)

  /**
   * `CreateClientUseCase.execute`: unused raw email and a long enough name,
   * then a CLIENT account and its Client record; the phone is only checked
   * by `Client.create`, after the user is saved.
   */
  function CreateClient(db: Db, name: string, email: string, password: string, phone: Option<string>, hash: Hasher)
    : (r: (Result<ClientCreated>, Db))
    ensures FindUserByEmail(db, email).Some? ==> r == (Err(Conflict(DuplicateEmail)), db)
    ensures FindUserByEmail(db, email).None? && ShortName(name) ==> r == (Err(ShortNameFailure), db)
    ensures r.0.Ok? <==> FindUserByEmail(db, email).None? && !ShortName(name)
                         && Signup(db, name, email, password, UT.Client, phone, hash).0.Ok?
    ensures r.0.Ok? ==> r.0.value.userId == db.nextId && r.0.value.clientId == db.nextId
                        && r.0.value.email == EmailValue.NewEmail(email).value.value
                        && r.0.value.name == Text.Trim(name) && r.0.value.phone == phone
    ensures r.0.Ok? ==> r.1 == Signup(db, name, email, password, UT.Client, phone, hash).1
                        && db.nextId in r.1.users && r.1.users[db.nextId].userType == UT.Client
                        && r.1.clients == db.clients[db.nextId := ClientEntity.ClientData(db.nextId, phone)]
  {
    if FindUserByEmail(db, email).Some? then (Err(Conflict(DuplicateEmail)), db)
    else if ShortName(name) then (Err(ShortNameFailure), db)
    else
      var (res, after) := Signup(db, name, email, password, UT.Client, phone, hash);
      if res.Err? then (Err(res.failure), after)
      else (Ok(ClientCreated(res.value.id, res.value.id, res.value.name, res.value.email.value, phone)), after)
  }

  class CreateClientUseCase {
    const store: Store

    constructor (store: Store)
      ensures this.store == store
    {
      this.store := store;
    }

    method Execute(name: string, email: string, password: string, phone: Option<string>, hash: Hasher)
      returns (r: Result<ClientCreated>)
      modifies store
      ensures (r, store.Snap()) == CreateClient(old(store.Snap()), name, email, password, phone, hash)
    {
      if FindUserByEmail(store.Snap(), email).Some? {
        return Err(Conflict(DuplicateEmail));
      }
      if Text.Utf16Length(Text.Trim(name)) < 3 {
        return Err(ShortNameFailure);
      }
      var saved := SaveAccount(store, name, email, password, UT.Client, phone, hash);
      if saved.Err? {
        return Err(saved.failure);
      }
      var user := saved.value;
      return Ok(ClientCreated(user.id, user.id, user.name, user.email.value, phone));
    }
  }

  /**
   * `CreateClient` has the same order as `CreateUser`: the user is saved
   * before `Client.create` checks the phone, so a bad phone fails the
   * request yet leaves a CLIENT user with no Client record.
   */
  lemma CreateClientBadPhoneLeavesOrphan(db: Db, name: string, email: string, password: string,
                                         phone: string, hash: Hasher)
    requires IdsBelowNext(db) && db.nextId > 0 && db.nextId !in db.clients
    requires FindUserByEmail(db, email).None? && !ShortName(name)
    requires NewAccount(name, email, password, UT.Client, hash).Ok?
    requires ClientEntity.Supplied(Some(phone)) && !ClientEntity.TenDigits(ClientEntity.Stripped(phone))
    ensures CreateClient(db, name, email, password, Some(phone), hash).0 == Err(Failed(ClientEntity.InvalidPhone))
    ensures !RoleRecordsPresent(CreateClient(db, name, email, password, Some(phone), hash).1)
    ensures FindUserByEmail(CreateClient(db, name, email, password, Some(phone), hash).1,
                            EmailValue.NewEmail(email).value.value).Some?
  {
    var r := CreateClient(db, name, email, password, Some(phone), hash);
    var u := NewAccount(name, email, password, UT.Client, hash).value;
    assert r.1 == InsertUser(db, u);
    assert r.1.users[db.nextId].userType == UT.Client;
    assert !HasRoleRecord(r.1, db.nextId, UT.Client);
    assert db.nextId in UsersWithEmail(r.1, u.email.value);
  }

  /**
   * `CreateClient` as evidently intended: the phone is checked before
   * anything is saved, as `ClientRegister` does.
   */
  function CreateClientChecked(db: Db, name: string, email: string, password: string, phone: Option<string>,
                               hash: Hasher): (r: (Result<ClientCreated>, Db))
    ensures ClientEntity.Supplied(phone) && !ClientEntity.TenDigits(ClientEntity.Stripped(phone.value))
            && FindUserByEmail(db, email).None? && !ShortName(name)
            ==> r == (Err(VE.FromSingleError("phone", ClientEntity.InvalidPhone)), db)
    ensures r.0.Ok? ==> r == CreateClient(db, name, email, password, phone, hash)
  {
    if FindUserByEmail(db, email).Some? then (Err(Conflict(DuplicateEmail)), db)
    else if ShortName(name) then (Err(ShortNameFailure), db)
    else if ClientEntity.Supplied(phone) && !ClientEntity.TenDigits(ClientEntity.Stripped(phone.value)) then
      (Err(VE.FromSingleError("phone", ClientEntity.InvalidPhone)), db)
    else CreateClient(db, name, email, password, phone, hash)
  }

  /** The corrected client creation is all or nothing, and keeps every user's role record in place. */
  lemma CreateClientCheckedAllOrNothing(db: Db, name: string, email: string, password: string,
                                        phone: Option<string>, hash: Hasher)
    requires IdsBelowNext(db) && RoleRecordsPresent(db) && db.nextId > 0
    ensures CreateClientChecked(db, name, email, password, phone, hash).0.Err?
            ==> CreateClientChecked(db, name, email, password, phone, hash).1 == db
    ensures RoleRecordsPresent(CreateClientChecked(db, name, email, password, phone, hash).1)
  {
    var r := CreateClientChecked(db, name, email, password, phone, hash);
    if FindUserByEmail(db, email).None? && !ShortName(name)
       && !(ClientEntity.Supplied(phone) && !ClientEntity.TenDigits(ClientEntity.Stripped(phone.value))) {
      assert r == CreateClient(db, name, email, password, phone, hash);
      if NewAccount(name, email, password, UT.Client, hash).Ok? {
        assert ClientEntity.Create(db.nextId, phone).Ok?;
        assert r.0.Ok?;
        SignupKeepsRoleRecords(db, name, email, password, UT.Client, phone, hash);
      }
    }
  }

  /**
   * `CreateRestaurantOwnerUseCase.execute` and `CreateAdministratorUseCase.execute`:
   * an unused raw email, then the account of type `t` and its role record;
   * neither checks the name's length.
   */
  function CreateStaff(db: Db, name: string, email: string, password: string, t: UT.UserType, hash: Hasher)
    : (r: (Result<UserView>, Db))
    requires t != UT.Client
    ensures FindUserByEmail(db, email).Some? ==> r == (Err(Conflict(DuplicateEmail)), db)
    ensures r.0.Ok? <==> FindUserByEmail(db, email).None? && NewAccount(name, email, password, t, hash).Ok?
                         && db.nextId > 0
    ensures r.0.Ok? ==> r.0.value == UserView(db.nextId, Text.Trim(name), EmailValue.NewEmail(email).value.value, UT.Code(t))
    ensures r.0.Ok? ==> r.1.users == db.users[db.nextId := NewAccount(name, email, password, t, hash).value.(id := db.nextId)]
                        && HasRoleRecord(r.1, db.nextId, t)
  {
    if FindUserByEmail(db, email).Some? then (Err(Conflict(DuplicateEmail)), db)
    else
      var (res, after) := Signup(db, name, email, password, t, None, hash);
      if res.Err? then (Err(res.failure), after) else (Ok(ViewOf(res.value)), after)
  }

  class CreateRestaurantOwnerUseCase {
    const store: Store

    constructor (store: Store)
      ensures this.store == store
    {
      this.store := store;
    }

    method Execute(name: string, email: string, password: string, hash: Hasher) returns (r: Result<UserView>)
      modifies store
      ensures (r, store.Snap()) == CreateStaff(old(store.Snap()), name, email, password, UT.RestaurantOwner, hash)
    {
      if FindUserByEmail(store.Snap(), email).Some? {
        return Err(Conflict(DuplicateEmail));
      }
      var saved := SaveAccount(store, name, email, password, UT.RestaurantOwner, None, hash);
      if saved.Err? {
        return Err(saved.failure);
      }
      return Ok(ViewOf(saved.value));
    }
  }

  class CreateAdministratorUseCase {
    const store: Store

    constructor (store: Store)
      ensures this.store == store
    {
      this.store := store;
    }

    method Execute(name: string, email: string, password: string, hash: Hasher) returns (r: Result<UserView>)
      modifies store
      ensures (r, store.Snap()) == CreateStaff(old(store.Snap()), name, email, password, UT.Admin, hash)
    {
      if FindUserByEmail(store.Snap(), email).Some? {
        return Err(Conflict(DuplicateEmail));
      }
      var saved := SaveAccount(store, name, email, password, UT.Admin, None, hash);
      if saved.Err? {
        return Err(saved.failure);
      }
      return Ok(ViewOf(saved.value));
    }
  }

  /**
   * `PromoteUserToOwnerUseCase.execute` (`target` RESTAURANT_OWNER) and
   * `PromoteUserToAdminUseCase.execute` (`target` ADMIN): the user must
   * exist, not already have the target type and not be a CLIENT; the
   * stored type becomes the target, then the target's role record is
   * saved, while the previous role record stays.
   */
  function Promote(db: Db, userId: int, target: UT.UserType): (r: (Result<()>, Db))
    requires target != UT.Client
    ensures userId !in db.users ==> r == (Err(NotFound(UserResource)), db)
    ensures userId in db.users && db.users[userId].userType == target
            ==> r == (Err(Conflict(if target == UT.Admin then AlreadyAdmin else AlreadyOwner)), db)
    ensures userId in db.users && db.users[userId].userType == UT.Client
            ==> r == (Err(Validation(if target == UT.Admin then ClientToAdmin else ClientToOwner, [])), db)
    ensures r.0.Ok? <==> userId in db.users && db.users[userId].userType != target
                         && db.users[userId].userType != UT.Client && userId > 0
    ensures r.0.Ok? ==> r.1 == ReplaceUser(db, db.users[userId].(userType := target))
                                 .(admins := if target == UT.Admin then db.admins + {userId} else db.admins,
                                   owners := if target == UT.RestaurantOwner then db.owners + {userId} else db.owners)
    ensures r.0.Ok? ==> forall u, s :: HasRoleRecord(db, u, s) ==> HasRoleRecord(r.1, u, s)
  {
    if userId !in db.users then (Err(NotFound(UserResource)), db)
    else
      var u := db.users[userId];
      if u.userType == target then (Err(Conflict(if target == UT.Admin then AlreadyAdmin else AlreadyOwner)), db)
      else if u.userType == UT.Client then
        (Err(Validation(if target == UT.Admin then ClientToAdmin else ClientToOwner, [])), db)
      else AddRoleRecord(ReplaceUser(db, u.(userType := target)), userId, target, None)
  }

  class PromoteUserToOwnerUseCase {
    const store: Store

    constructor (store: Store)
      ensures this.store == store
    {
      this.store := store;
    }

    method Execute(userId: int) returns (r: Result<()>)
      modifies store
      ensures (r, store.Snap()) == Promote(old(store.Snap()), userId, UT.RestaurantOwner)
    {
      if userId !in store.users {
        return Err(NotFound(UserResource));
      }
      var user := store.users[userId];
      if user.userType == UT.RestaurantOwner {
        return Err(Conflict(AlreadyOwner));
      }
      if user.userType == UT.Client {
        return Err(Validation(ClientToOwner, []));
      }
      store.UpdateUser(user.(userType := UT.RestaurantOwner));
      if userId <= 0 {
        return Err(Failed(InvalidRoleUserId));
      }
      store.SaveRestaurantOwner(userId);
      return Ok(());
    }
  }

  class PromoteUserToAdminUseCase {
    const store: Store

    constructor (store: Store)
      ensures this.store == store
    {
      this.store := store;
    }

    method Execute(userId: int) returns (r: Result<()>)
      modifies store
      ensures (r, store.Snap()) == Promote(old(store.Snap()), userId, UT.Admin)
    {
      if userId !in store.users {
        return Err(NotFound(UserResource));
      }
      var user := store.users[userId];
      if user.userType == UT.Admin {
        return Err(Conflict(AlreadyAdmin));
      }
      if user.userType == UT.Client {
        return Err(Validation(ClientToAdmin, []));
      }
      store.UpdateUser(user.(userType := UT.Admin));
      if userId <= 0 {
        return Err(Failed(InvalidRoleUserId));
      }
      store.SaveAdministrator(userId);
      return Ok(());
    }
  }

  /**
   * Promotion keeps every user's role record in place, and a promoted
   * owner holds both the Administrator and the RestaurantOwner record.
   */
  lemma PromoteKeepsRoleRecords(db: Db, userId: int, target: UT.UserType)
    requires target != UT.Client
    requires IdsBelowNext(db) && Identified(db) && RoleRecordsPresent(db)
    ensures RoleRecordsPresent(Promote(db, userId, target).1)
    ensures Promote(db, userId, UT.Admin).0.Ok? && userId in db.owners
            ==> userId in Promote(db, userId, UT.Admin).1.admins && userId in Promote(db, userId, UT.Admin).1.owners
  {
    var r := Promote(db, userId, target);
    if userId in db.users && r.0.Ok? {
      var u := db.users[userId];
      assert u.id == userId;
      assert r.1.users == db.users[userId := u.(userType := target)];
      RolesGrow(db, r.1, userId);
    }
  }
}
