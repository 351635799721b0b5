/** The user controller as operations on the user table. Every route reaches
    it only through `protect` and `authorize('admin')`, which the methods take
    as their precondition on the caller. */
module UserController {
  import opened Http
  import opened UserModel
  import Auth
  import Store

  const UserExistsMessage: string := "User already exists"
  const InvalidRoleMessage: string := "Invalid role. Role must be customer, staff, or admin"

  /** A user as `select('-password')` returns it. */
  datatype UserView = UserView(name: string, email: string, role: string, avatar: Option<string>)

  function View(u: User): UserView {
    UserView(u.name, u.email, u.role, u.avatar)
  }

  /** `getUsers` */
  function GetUsers(users: map<string, User>): (views: map<string, UserView>)
    ensures views.Keys == users.Keys
    ensures forall id :: id in users ==>
      views[id].name == users[id].name && views[id].email == users[id].email
      && views[id].role == users[id].role && views[id].avatar == users[id].avatar
  {
    map id | id in users :: View(users[id])
  }

  /** `getUser` */
  function GetUser(users: map<string, User>, id: string): (r: Result<UserView>)
    ensures r.Err? <==> id !in users
    ensures r.Err? ==> r == Err(HttpError(404, UserNotFoundMessage))
    ensures r.Ok? ==>
      r.value.name == users[id].name && r.value.email == users[id].email
      && r.value.role == users[id].role && r.value.avatar == users[id].avatar
  {
    if id !in users then Err(HttpError(404, UserNotFoundMessage)) else Ok(View(users[id]))
  }

  const UserNotFoundMessage: string := Auth.UserNotFoundMessage

  /** Neither read exposes a password: changing any stored password changes
      nothing either of them returns. */
  lemma ReadsHidePasswords(users: map<string, User>, who: string, password: string, id: string)
    requires who in users
    ensures GetUsers(users[who := users[who].(password := password)]) == GetUsers(users)
    ensures GetUser(users[who := users[who].(password := password)], id) == GetUser(users, id)
  {
  }

  // ---------------------------------------------------------------- createUser

  predicate EmailTaken(users: map<string, User>, email: string) {
    exists id :: id in users && users[id].email == email
  }

  predicate UniqueEmails(users: map<string, User>) {
    forall a, b :: a in users && b in users && a != b ==> users[a].email != users[b].email
  }

  /** `createUser`: refused for a known email; otherwise stored with the given
      role, or 'customer' when none is given. */
  function CreateUserOutcome(users: map<string, User>, name: string, email: string, password: string,
                             role: Option<string>): Result<User> {
    if EmailTaken(users, email) then Err(HttpError(400, UserExistsMessage))
    else Ok(User(name, email, password, if Truthy(role) then role.value else CustomerRole, None))
  }

  method CreateUser(db: Store.Database, caller: Auth.Principal, name: string, email: string, password: string,
                    role: Option<string>, newId: string) returns (r: Result<User>)
    requires caller.role == AdminRole
    requires newId !in db.users
    modifies db
    ensures r == CreateUserOutcome(old(db.users), name, email, password, role)
    ensures db.users == if r.Ok? then old(db.users)[newId := r.value] else old(db.users)
    ensures db.orders == old(db.orders) && db.menuItems == old(db.menuItems)
  {
    if EmailTaken(db.users, email) {
      return Err(HttpError(400, UserExistsMessage));
    }
    var user := User(name, email, password, if Truthy(role) then role.value else CustomerRole, None);
    db.users := db.users[newId := user];
    r := Ok(user);
  }

  /** A known email is refused; a new one is stored under its address with the
      role defaulting to 'customer'. */
  lemma CreateUserDecision(users: map<string, User>, name: string, email: string, password: string, role: Option<string>)
    ensures var r := CreateUserOutcome(users, name, email, password, role);
      && (r.Err? <==> EmailTaken(users, email))
      && (r.Err? ==> r == Err(HttpError(400, UserExistsMessage)))
      && (r.Ok? ==> r.value.email == email && r.value.name == name
                    && r.value.role == (if Truthy(role) then role.value else "customer"))
  {
  }

  /** Creation through this controller keeps emails unique. */
  lemma CreateUserKeepsEmailsUnique(users: map<string, User>, name: string, email: string, password: string,
                                     role: Option<string>, newId: string)
    requires UniqueEmails(users) && newId !in users
    requires CreateUserOutcome(users, name, email, password, role).Ok?
    ensures UniqueEmails(users[newId := CreateUserOutcome(users, name, email, password, role).value])
  {
  }

  // ---------------------------------------------------------------- updateUser

  /** A `findByIdAndUpdate` body for a user: any subset of the fields. */
  datatype UserPatch = UserPatch(name: Option<string>, email: Option<string>, password: Option<string>,
                                 role: Option<string>, avatar: Option<string>)

  function ApplyUserPatch(u: User, p: UserPatch): User {
    User(Pick(p.name, u.name), Pick(p.email, u.email), Pick(p.password, u.password), Pick(p.role, u.role),
         PickOption(p.avatar, u.avatar))
  }

  const UploadsPrefix: string := "/uploads/"

  /** The body after the controller's edits: the avatar from an upload, and the
      password removed when it is truthy. */
  function EditedBody(body: UserPatch, uploaded: Option<string>): (p: UserPatch)
    ensures uploaded.Some? ==> p.avatar == Some(UploadsPrefix + uploaded.value)
    ensures uploaded.None? ==> p.avatar == body.avatar
    ensures p.password == (if Truthy(body.password) then None else body.password)
    ensures p.name == body.name && p.email == body.email && p.role == body.role
  {
    var withAvatar := if uploaded.Some? then body.(avatar := Some(UploadsPrefix + uploaded.value)) else body;
    if Truthy(withAvatar.password) then withAvatar.(password := None) else withAvatar
  }

  function UpdateUserOutcome(users: map<string, User>, id: string, body: UserPatch, uploaded: Option<string>): Result<User> {
    if id !in users then Err(HttpError(404, UserNotFoundMessage))
    else Ok(ApplyUserPatch(users[id], EditedBody(body, uploaded)))
  }

  /** `updateUser`, editing the request body step by step before the update. */
  method UpdateUser(db: Store.Database, caller: Auth.Principal, id: string, body: UserPatch, uploaded: Option<string>)
    returns (r: Result<User>)
    requires caller.role == AdminRole
    modifies db
    ensures r == UpdateUserOutcome(old(db.users), id, body, uploaded)
    ensures db.users == if r.Ok? then old(db.users)[id := r.value] else old(db.users)
    ensures db.orders == old(db.orders) && db.menuItems == old(db.menuItems)
  {
    if id !in db.users {
      return Err(HttpError(404, UserNotFoundMessage));
    }
    var patch := body;
    if uploaded.Some? {
      patch := patch.(avatar := Some(UploadsPrefix + uploaded.value));
    }
    if Truthy(patch.password) {
      patch := patch.(password := None);
    }
    var user := ApplyUserPatch(db.users[id], patch);
    db.users := db.users[id := user];
    r := Ok(user);
  }

  /** 404 for an unknown user; otherwise no non-empty password ever reaches the
      update, so the stored password changes only for an explicit empty string. */
  lemma UpdateUserKeepsPassword(users: map<string, User>, id: string, body: UserPatch, uploaded: Option<string>)
    ensures var r := UpdateUserOutcome(users, id, body, uploaded);
      && (r.Err? <==> id !in users)
      && (r.Err? ==> r == Err(HttpError(404, UserNotFoundMessage)))
      && (r.Ok? && body.password != Some("") ==> r.value.password == users[id].password)
      && (r.Ok? && uploaded.Some? ==> r.value.avatar == Some("/uploads/" + uploaded.value))
  {
  }

  // ---------------------------------------------------------------- updateUserRole

  function UpdateUserRoleOutcome(users: map<string, User>, id: string, role: Option<string>): Result<User> {
    if !Truthy(role) || role.value !in Roles then Err(HttpError(400, InvalidRoleMessage))
    else if id !in users then Err(HttpError(404, UserNotFoundMessage))
    else Ok(users[id].(role := role.value))
  }

  method UpdateUserRole(db: Store.Database, caller: Auth.Principal, id: string, role: Option<string>) returns (r: Result<User>)
    requires caller.role == AdminRole
    modifies db
    ensures r == UpdateUserRoleOutcome(old(db.users), id, role)
    ensures db.users == if r.Ok? then old(db.users)[id := r.value] else old(db.users)
    ensures db.orders == old(db.orders) && db.menuItems == old(db.menuItems)
  {
    if !Truthy(role) || role.value !in Roles {
      return Err(HttpError(400, InvalidRoleMessage));
    }
    if id !in db.users {
      return Err(HttpError(404, UserNotFoundMessage));
    }
    var user := db.users[id];
    user := user.(role := role.value);
    db.users := db.users[id := user];
    r := Ok(user);
  }

  /** A role outside {customer, staff, admin} is refused before the lookup;
      an accepted change touches the role and nothing else. */
  lemma UpdateUserRoleDecision(users: map<string, User>, id: string, role: Option<string>)
    ensures var r := UpdateUserRoleOutcome(users, id, role);
      && (r == Err(HttpError(400, InvalidRoleMessage)) <==>
            !(role == Some("customer") || role == Some("staff") || role == Some("admin")))
      && (r == Err(HttpError(404, UserNotFoundMessage)) <==> Truthy(role) && role.value in Roles && id !in users)
      && (r.Ok? ==> r.value.role in Roles && r.value.(role := users[id].role) == users[id])
  {
  }

  // ---------------------------------------------------------------- deleteUser

  method DeleteUser(db: Store.Database, caller: Auth.Principal, id: string) returns (r: Result<()>)
    requires caller.role == AdminRole
    modifies db
    ensures r.Err? <==> id !in old(db.users)
    ensures r.Err? ==> r == Err(HttpError(404, UserNotFoundMessage)) && db.users == old(db.users)
    ensures r.Ok? ==> db.users == old(db.users) - {id}
    ensures db.orders == old(db.orders) && db.menuItems == old(db.menuItems)
  {
    if id !in db.users {
      return Err(HttpError(404, UserNotFoundMessage));
    }
    db.users := db.users - {id};
    r := Ok(());
  }
}
