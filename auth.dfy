/**
 * Authentication and session state (assets/js/core/Auth.js): the roster of
 * all users, the signed-in user, and the key-value store both are saved in.
 * The store stands for the browser's local storage; saving always succeeds.
 */
module Authentication {
  import opened Wrappers
  import opened Users

  /** The two store keys. */
  const UsersKey: string := "finanzas_users"
  const SessionKey: string := "finanzas_session"

  const DuplicateEmailMessage: string := "El correo ya está registrado."
  const RegisteredMessage: string := "Registro exitoso."
  const InvalidCredentialsMessage: string := "Credenciales inválidas."

  /** A stored value: the roster is a list of user records, the session one record. */
  datatype StoredValue = UserList(records: seq<UserRecord>) | UserObject(record: UserRecord)

  /** The store holds a list under the roster key and a record under the
      session key, as every write of this module leaves it. */
  predicate Shaped(store: map<string, StoredValue>) {
    && (UsersKey in store ==> store[UsersKey].UserList?)
    && (SessionKey in store ==> store[SessionKey].UserObject?)
  }

  /** The roster key and the session key name different entries. */
  lemma KeysDiffer()
    ensures UsersKey != SessionKey
  {
    assert UsersKey[9] != SessionKey[9];
  }

  /** Reading a key: absent when the key is missing. */
  function Get(store: map<string, StoredValue>, key: string): (r: Option<StoredValue>)
    ensures r.Some? <==> key in store
    ensures r.Some? ==> r.value == store[key]
  {
    if key in store then Some(store[key]) else None
  }

  /** The administrator seeded into an empty store. */
  const SeedAdmin: UserData := UserData(1, "Admin", "admin@finanzas.com", "admin123", Admin, 0.0, [])

  /** The records that saving the roster writes, one per user, in order. */
  function Records(us: seq<User>): (rs: seq<UserRecord>)
    reads us
    ensures |rs| == |us|
    ensures forall i :: 0 <= i < |us| ==> rs[i] == us[i].ToRecord()
  {
    if us == [] then [] else [us[0].ToRecord()] + Records(us[1..])
  }

  /** No user object occurs twice in the roster. */
  predicate Distinct(us: seq<User>) {
    forall i, j :: 0 <= i < j < |us| ==> us[i] != us[j]
  }

  /** `users.some(u => u.email === email)`. */
  predicate EmailTaken(us: seq<User>, email: string)
    reads us
  {
    exists i :: 0 <= i < |us| && us[i].email == email
  }

  /** `users.find(u => u.email === email && u.password === password)`, as the
      index of the first user whose email and password both match. */
  function FindCredentials(us: seq<User>, email: string, password: string): (r: Option<nat>)
    reads us
    ensures r.Some? ==> r.value < |us| && us[r.value].email == email && us[r.value].password == password
    ensures r.Some? ==> forall j :: 0 <= j < r.value ==> !(us[j].email == email && us[j].password == password)
    ensures r.None? ==> forall j :: 0 <= j < |us| ==> !(us[j].email == email && us[j].password == password)
  {
    if us == [] then None
    else if us[0].email == email && us[0].password == password then Some(0)
    else
      match FindCredentials(us[1..], email, password)
      case None => None
      case Some(k) => Some(k + 1)
  }

  /** `users.findIndex(u => u.id === id)`, with `None` for -1. */
  function FindId(us: seq<User>, id: int): (r: Option<nat>)
    reads us
    ensures r.Some? ==> r.value < |us| && us[r.value].id == id
    ensures r.Some? ==> forall j :: 0 <= j < r.value ==> us[j].id != id
    ensures r.None? ==> forall j :: 0 <= j < |us| ==> us[j].id != id
  {
    if us == [] then None
    else if us[0].id == id then Some(0)
    else
      match FindId(us[1..], id)
      case None => None
      case Some(k) => Some(k + 1)
  }

  /** What `register` returns. */
  datatype Reply = Reply(success: bool, message: string)

  /** What `login` returns: the signed-in user or a failure message. */
  datatype LoginReply = LoggedIn(user: User) | LoginFailed(message: string)

  class Auth {
    var users: seq<User>
    var currentUser: Option<User>
    var store: map<string, StoredValue>

    ghost predicate Valid()
      reads this
    {
      Shaped(store)
    }

    /** The session user object, if any. */
    function SessionFrame(): set<object>
      reads this
    {
      if currentUser.Some? then {currentUser.value} else {}
    }

    /** The session holds a user with this id. */
    predicate SessionHasId(id: int)
      reads this, SessionFrame()
    {
      currentUser.Some? && currentUser.value.id == id
    }

    /** The constructor: no session, then `initialize()`. */
    constructor (initial: map<string, StoredValue>)
      requires Shaped(initial)
      ensures Valid()
      ensures UsersKey !in initial ==>
        && |users| == 1 && fresh(users[0]) && users[0].Data() == SeedAdmin
        && store == initial[UsersKey := UserList([Serialize(SeedAdmin)])]
      ensures UsersKey in initial ==>
        && |users| == |initial[UsersKey].records|
        && (forall i :: 0 <= i < |users| ==> fresh(users[i]) && users[i].Data() == Rehydrate(initial[UsersKey].records[i]))
        && store == initial
      ensures SessionKey in initial ==>
        currentUser.Some? && fresh(currentUser.value) && currentUser.value.Data() == Rehydrate(initial[SessionKey].record)
      ensures SessionKey !in initial ==> currentUser == None
      ensures Distinct(users) && (currentUser.Some? ==> currentUser.value !in users)
    {
      users := [];
      currentUser := None;
      store := initial;
      new;
      Initialize();
    }

    /** `initialize()`: with no roster in the store, seed the administrator
        and save; otherwise rebuild every stored record, an empty list
        included, without seeding. Then, if a session record is stored,
        rebuild it as the session user, unchecked against the roster. */
    method Initialize()
      requires Valid()
      modifies this
      ensures Valid()
      ensures UsersKey !in old(store) ==>
        && |users| == 1 && fresh(users[0]) && users[0].Data() == SeedAdmin
        && store == old(store)[UsersKey := UserList([Serialize(SeedAdmin)])]
      ensures UsersKey in old(store) ==>
        && |users| == |old(store)[UsersKey].records|
        && (forall i :: 0 <= i < |users| ==> fresh(users[i]) && users[i].Data() == Rehydrate(old(store)[UsersKey].records[i]))
        && store == old(store)
      ensures SessionKey in old(store) ==>
        currentUser.Some? && fresh(currentUser.value) && currentUser.value.Data() == Rehydrate(old(store)[SessionKey].record)
      ensures SessionKey !in old(store) ==> currentUser == old(currentUser)
      ensures Distinct(users) && (currentUser.Some? ==> currentUser.value !in users)
    {
      var usersData := Get(store, UsersKey);
      if usersData.None? {
        var admin := new User(1, "Admin", "admin@finanzas.com", "admin123", Some(Admin), None, None);
        users := [admin];
        SaveUsers();
        assert Records(users) == [Serialize(SeedAdmin)];
      } else {
        users := LoadRoster(usersData.value.records);
      }
      var sessionUser := Get(store, SessionKey);
      if sessionUser.Some? {
        var u := User.FromData(sessionUser.value.record);
        currentUser := Some(u);
      }
    }

    /** `usersData.map(u => User.fromData(u))`. */
    static method LoadRoster(rs: seq<UserRecord>) returns (us: seq<User>)
      ensures |us| == |rs|
      ensures forall i :: 0 <= i < |us| ==> fresh(us[i]) && us[i].Data() == Rehydrate(rs[i])
      ensures Distinct(us)
    {
      us := [];
      var i := 0;
      while i < |rs|
        invariant 0 <= i <= |rs| && |us| == i
        invariant forall j :: 0 <= j < i ==> fresh(us[j]) && us[j].Data() == Rehydrate(rs[j])
        invariant Distinct(us)
      {
        var u := User.FromData(rs[i]);
        us := us + [u];
        i := i + 1;
      }
    }

    /** `saveUsers()`: writes the whole roster under the roster key. */
    method SaveUsers()
      requires Valid()
      modifies this`store
      ensures Valid()
      ensures store == old(store)[UsersKey := UserList(Records(users))]
    {
      store := store[UsersKey := UserList(Records(users))];
    }

    /** `currentUser = user; storage.save(this.sessionKey, user)`: the
        session becomes `u` and its record is written; nothing else changes. */
    method SaveSession(u: User)
      requires Valid()
      modifies this`currentUser, this`store
      ensures Valid()
      ensures currentUser == Some(u)
      ensures store == old(store)[SessionKey := UserObject(u.ToRecord())]
    {
      currentUser := Some(u);
      store := store[SessionKey := UserObject(u.ToRecord())];
    }

    /** `register(name, email, password)`, with `id` for the `Date.now()`
        identifier. A registered email fails and changes nothing; otherwise
        one new user is appended with role 'user', budget 0 and no
        transactions, and the roster is saved. The session never changes. */
    method Register(name: string, email: string, password: string, id: int) returns (r: Reply)
      requires Valid()
      modifies this
      ensures Valid()
      ensures currentUser == old(currentUser)
      ensures r.success <==> !old(EmailTaken(users, email))
      ensures !r.success ==>
        r.message == DuplicateEmailMessage && users == old(users) && store == old(store)
      ensures r.success ==>
        && r.message == RegisteredMessage
        && |users| == |old(users)| + 1 && users[..|old(users)|] == old(users)
        && fresh(users[|old(users)|])
        && users[|old(users)|].Data() == UserData(id, name, email, password, RegularUser, 0.0, [])
        && store == old(store)[UsersKey := UserList(Records(users))]
    {
      if EmailTaken(users, email) {
        return Reply(false, DuplicateEmailMessage);
      }
      var newUser := new User(id, name, email, password, None, None, None);
      users := users + [newUser];
      SaveUsers();
      assert users[..|old(users)|] == old(users);
      r := Reply(true, RegisteredMessage);
    }

    /** `login(email, password)`: succeeds exactly when some user matches
        both; the first such user becomes the session and is saved under the
        session key. A failure changes nothing. */
    method Login(email: string, password: string) returns (r: LoginReply)
      requires Valid()
      modifies this
      ensures Valid()
      ensures users == old(users)
      ensures r.LoggedIn? <==> exists j :: 0 <= j < |users| && users[j].email == email && users[j].password == password
      ensures r.LoggedIn? ==>
        var i := FindCredentials(users, email, password).value;
        && r.user == users[i]
        && currentUser == Some(users[i])
        && store == old(store)[SessionKey := UserObject(users[i].ToRecord())]
      ensures r.LoggedIn? ==> IsAuthenticated()
      ensures r.LoginFailed? ==>
        r.message == InvalidCredentialsMessage && currentUser == old(currentUser) && store == old(store)
    {
      var found := FindCredentials(users, email, password);
      if found.Some? {
        var user := users[found.value];
        SaveSession(user);
        return LoggedIn(user);
      }
      return LoginFailed(InvalidCredentialsMessage);
    }

    /** `logout()`: clears the session and removes its key. A second call
        changes nothing. */
    method Logout()
      requires Valid()
      modifies this
      ensures Valid()
      ensures users == old(users)
      ensures currentUser == None && store == old(store) - {SessionKey}
      ensures !IsAuthenticated() && !IsAdmin()
      ensures old(currentUser).None? && SessionKey !in old(store) ==> store == old(store)
    {
      currentUser := None;
      store := store - {SessionKey};
    }

    /** `this.users[index] = user; this.saveUsers()`: entry `k` becomes `u`
        and the roster is saved; the session is untouched. */
    method ReplaceEntry(k: nat, u: User)
      requires Valid() && k < |users|
      modifies this`users, this`store
      ensures Valid()
      ensures users == old(users)[k := u]
      ensures store == old(store)[UsersKey := UserList(Records(users))]
      ensures users[k] == u && store[UsersKey].records[k] == u.ToRecord()
    {
      users := users[k := u];
      SaveUsers();
    }

    /** `updateUser(u)`: replaces the first roster entry with `u`'s id by `u`
        and saves the roster; if the session user has that id too, the
        session becomes `u` and is saved. With no such entry nothing changes. */
    method UpdateUser(u: User)
      requires Valid()
      modifies this
      ensures Valid()
      ensures old(FindId(users, u.id)).None? ==>
        users == old(users) && currentUser == old(currentUser) && store == old(store)
      ensures old(FindId(users, u.id)).Some? ==>
        var k := old(FindId(users, u.id)).value;
        var hit := old(SessionHasId(u.id));
        && users == old(users)[k := u]
        && currentUser == (if hit then Some(u) else old(currentUser))
        && store == (if hit then old(store)[UsersKey := UserList(Records(users))][SessionKey := UserObject(u.ToRecord())]
                     else old(store)[UsersKey := UserList(Records(users))])
      ensures old(FindId(users, u.id)).Some? ==>
        var k := old(FindId(users, u.id)).value;
        && users[k] == u && store[UsersKey].records[k] == u.ToRecord()
        && (old(SessionHasId(u.id)) ==> currentUser == Some(u) && store[SessionKey] == UserObject(u.ToRecord()))
    {
      KeysDiffer();
      var index := FindId(users, u.id);
      if index.Some? {
        ReplaceEntry(index.value, u);
        if currentUser.Some? && currentUser.value.id == u.id {
          SaveSession(u);
        }
      }
    }

    /** `isAuthenticated()`: some user object holds the session. */
    predicate IsAuthenticated(): (r: bool)
      reads this
      ensures r <==> SessionFrame() != {}
    {
      currentUser.Some?
    }

    /** `isAdmin()`: a session exists and its role is 'admin'. */
    predicate IsAdmin(): (r: bool)
      reads this, SessionFrame()
      ensures r ==> IsAuthenticated()
    {
      currentUser.Some? && currentUser.value.role == Admin
    }
  }
}
