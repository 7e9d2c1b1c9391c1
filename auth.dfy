/** Authentication (src/context/AuthContext.tsx): the reducer over the auth
    state, the mock user store with its login and register, and the provider's
    login and register flows, each run as one sequence of dispatches. */
module Auth {
  import opened Types
  import Text

  datatype AuthState = AuthState(user: Option<AuthUser>, isAuthenticated: bool, isLoading: bool, error: Option<string>)

  datatype AuthAction =
    | LoginStart
    | LoginSuccess(user: AuthUser)
    | LoginFailure(error: string)
    | RegisterStart
    | RegisterSuccess(user: AuthUser)
    | RegisterFailure(error: string)
    | Logout
    | ClearError

  const InitialAuth := AuthState(None, false, false, None)

  /** `authReducer`. */
  function AuthReduce(s: AuthState, a: AuthAction): AuthState {
    match a
    case LoginStart | RegisterStart => s.(isLoading := true, error := None)
    case LoginSuccess(_) | RegisterSuccess(_) =>
      s.(user := Some(a.user), isAuthenticated := true, isLoading := false, error := None)
    case LoginFailure(_) | RegisterFailure(_) =>
      s.(user := None, isAuthenticated := false, isLoading := false, error := Some(a.error))
    case Logout => s.(user := None, isAuthenticated := false, isLoading := false, error := None)
    case ClearError => s.(error := None)
  }

  /** The state is authenticated exactly when it holds a user. */
  predicate AuthInvariant(s: AuthState) {
    s.isAuthenticated <==> s.user.Some?
  }

  function RunAuth(s: AuthState, actions: seq<AuthAction>): AuthState
    decreases |actions|
  {
    if actions == [] then s else RunAuth(AuthReduce(s, actions[0]), actions[1..])
  }

  /** What each kind of action does to the four fields. */
  lemma AuthReduceSpec(s: AuthState, a: AuthAction)
    ensures (a.LoginStart? || a.RegisterStart?) ==>
      var r := AuthReduce(s, a);
      r.isLoading && r.error.None? && r.user == s.user && r.isAuthenticated == s.isAuthenticated
    ensures (a.LoginSuccess? || a.RegisterSuccess?) ==>
      var r := AuthReduce(s, a);
      r.user == Some(a.user) && r.isAuthenticated && !r.isLoading && r.error.None?
    ensures (a.LoginFailure? || a.RegisterFailure?) ==>
      var r := AuthReduce(s, a);
      r.user.None? && !r.isAuthenticated && !r.isLoading && r.error == Some(a.error)
    ensures a.Logout? ==> AuthReduce(s, a) == AuthState(None, false, false, None)
    ensures a.ClearError? ==>
      var r := AuthReduce(s, a);
      r.error.None? && r.user == s.user && r.isAuthenticated == s.isAuthenticated && r.isLoading == s.isLoading
  {
  }

  /** Every action keeps the invariant. */
  lemma AuthReducePreserves(s: AuthState, a: AuthAction)
    requires AuthInvariant(s)
    ensures AuthInvariant(AuthReduce(s, a))
  {
  }

  lemma {:induction false} RunAuthPreserves(s: AuthState, actions: seq<AuthAction>)
    requires AuthInvariant(s)
    ensures AuthInvariant(RunAuth(s, actions))
    decreases |actions|
  {
    if actions != [] {
      AuthReducePreserves(s, actions[0]);
      RunAuthPreserves(AuthReduce(s, actions[0]), actions[1..]);
    }
  }

  /** From the initial state, every reachable state is authenticated exactly
      when it holds a user. */
  lemma ReachableAuthInvariant(actions: seq<AuthAction>)
    ensures AuthInvariant(RunAuth(InitialAuth, actions))
  {
    RunAuthPreserves(InitialAuth, actions);
  }

  datatype LoginCredentials = LoginCredentials(email: string, password: string)

  datatype RegisterCredentials = RegisterCredentials(
    name: string, email: string, password: string, confirmPassword: string, phone: string)

  /** The one password the mock store accepts. */
  const MockPassword := "password123"

  /** The avatar every registered user gets. */
  const DefaultAvatar := "https://images.pexels.com/photos/220453/pexels-photo-220453.jpeg?auto=compress&cs=tinysrgb&w=150"

  const InitialUsers := [
    AuthUser("1", "John Doe", "john@example.com", DefaultAvatar, "+1 (555) 123-4567"),
    AuthUser("2", "Jane Smith", "jane@example.com",
             "https://images.pexels.com/photos/774909/pexels-photo-774909.jpeg?auto=compress&cs=tinysrgb&w=150",
             "+1 (555) 987-6543")
  ]

  predicate EmailKnown(users: seq<AuthUser>, email: string) {
    exists i :: 0 <= i < |users| && users[i].email == email
  }

  /** `users.find(u => u.email === email)`: the first user with that email. */
  function FindUser(users: seq<AuthUser>, email: string): (r: Option<AuthUser>)
    ensures r.Some? <==> EmailKnown(users, email)
    ensures r.Some? ==> r.value in users && r.value.email == email
    ensures r.Some? ==>
      exists i :: 0 <= i < |users| && users[i] == r.value && forall j :: 0 <= j < i ==> users[j].email != email
  {
    if users == [] then None
    else if users[0].email == email then Some(users[0])
    else
      var r := FindUser(users[1..], email);
      assert r.Some? ==>
        exists i :: 0 <= i < |users| && users[i] == r.value && forall j :: 0 <= j < i ==> users[j].email != email by {
        if r.Some? {
          var rest := users[1..];
          var i :| 0 <= i < |rest| && rest[i] == r.value && forall j :: 0 <= j < i ==> rest[j].email != email;
          assert users[i + 1] == r.value;
          forall j | 0 <= j < i + 1 ensures users[j].email != email {
            if j > 0 {
              assert users[j] == rest[j - 1];
            }
          }
        }
      }
      assert EmailKnown(users, email) ==> EmailKnown(users[1..], email) by {
        if EmailKnown(users, email) {
          var i :| 0 <= i < |users| && users[i].email == email;
          assert users[1..][i - 1] == users[i];
        }
      }
      assert EmailKnown(users[1..], email) ==> EmailKnown(users, email) by {
        if EmailKnown(users[1..], email) {
          var i :| 0 <= i < |users[1..]| && users[1..][i].email == email;
          assert users[i + 1] == users[1..][i];
        }
      }
      r
  }

  /** The shape of the user store: the i-th user has id i+1, and no email is
      registered twice. */
  predicate UsersValid(users: seq<AuthUser>) {
    && (forall i :: 0 <= i < |users| ==> users[i].id == Text.NatToString(i + 1))
    && (forall i, j :: 0 <= i < j < |users| ==> users[i].email != users[j].email)
  }

  /** In a well-formed store, ids are unique too. */
  lemma UsersValidIdsUnique(users: seq<AuthUser>, i: int, j: int)
    requires UsersValid(users)
    requires 0 <= i < j < |users|
    ensures users[i].id != users[j].id
  {
    if users[i].id == users[j].id {
      Text.NatToStringInjective(i + 1, j + 1);
    }
  }

  /** The user record that register builds for the n-th slot. */
  function NewUser(n: nat, c: RegisterCredentials): AuthUser {
    AuthUser(Text.NatToString(n + 1), c.name, c.email, DefaultAvatar, c.phone)
  }

  /** `mockAuthService`, whose `mockUsers` array grows by `push`. */
  class MockAuthService {
    var users: seq<AuthUser>

    ghost predicate Valid()
      reads this
    {
      UsersValid(users)
    }

    constructor()
      ensures users == InitialUsers && Valid()
    {
      users := InitialUsers;
      assert Text.NatToString(1) == "1" && Text.NatToString(2) == "2";
    }

    /** The linear search of `find`. */
    method Find(email: string) returns (r: Option<AuthUser>)
      ensures r == FindUser(users, email)
    {
      var i := 0;
      while i < |users|
        invariant 0 <= i <= |users|
        invariant FindUser(users, email) == FindUser(users[i..], email)
      {
        assert users[i..][0] == users[i] && users[i..][1..] == users[i + 1..];
        if users[i].email == email {
          return Some(users[i]);
        }
        i := i + 1;
      }
      r := None;
    }

    /** `login`: the user with that email, if there is one and the password
        is the mock password. */
    method Login(c: LoginCredentials) returns (r: Option<AuthUser>)
      ensures r.Some? <==> EmailKnown(users, c.email) && c.password == MockPassword
      ensures r.Some? ==> r == FindUser(users, c.email) && r.value in users && r.value.email == c.email
    {
      var u := Find(c.email);
      if u.Some? && c.password == MockPassword {
        r := u;
      } else {
        r := None;
      }
    }

    /** `register`: refuses a known email; otherwise appends a user whose id
        is the new count. */
    method Register(c: RegisterCredentials) returns (r: Option<AuthUser>)
      requires Valid()
      modifies this
      ensures Valid()
      ensures EmailKnown(old(users), c.email) ==> r.None? && users == old(users)
      ensures !EmailKnown(old(users), c.email) ==>
        r == Some(NewUser(|old(users)|, c)) && users == old(users) + [NewUser(|old(users)|, c)]
    {
      var existing := Find(c.email);
      if existing.Some? {
        return None;
      }
      var u := NewUser(|users|, c);
      users := users + [u];
      r := Some(u);
    }
  }

  /** The provider: the reducer-held state and the store it calls. */
  class AuthProvider {
    var state: AuthState
    const service: MockAuthService

    ghost predicate Valid()
      reads this, service
    {
      AuthInvariant(state) && service.Valid()
    }

    constructor(service: MockAuthService)
      requires service.Valid()
      ensures this.service == service && state == InitialAuth && Valid()
    {
      this.service := service;
      state := InitialAuth;
    }

    /** `login`: START, then SUCCESS with the user or FAILURE with
        "Invalid email or password". */
    method Login(c: LoginCredentials) returns (ok: bool)
      requires Valid()
      modifies this
      ensures Valid()
      ensures ok <==> EmailKnown(service.users, c.email) && c.password == MockPassword
      ensures ok ==> state == AuthState(FindUser(service.users, c.email), true, false, None)
      ensures !ok ==> state == AuthState(None, false, false, Some("Invalid email or password"))
    {
      state := AuthReduce(state, LoginStart);
      var user := service.Login(c);
      if user.Some? {
        state := AuthReduce(state, LoginSuccess(user.value));
        ok := true;
      } else {
        state := AuthReduce(state, LoginFailure("Invalid email or password"));
        ok := false;
      }
    }

    /** `register`: the confirmation check, then the length check, both before
        START; then the store decides. */
    method Register(c: RegisterCredentials) returns (ok: bool)
      requires Valid()
      modifies this, service
      ensures Valid()
      ensures c.password != c.confirmPassword ==>
        !ok && state == old(state).(user := None, isAuthenticated := false, isLoading := false,
                                    error := Some("Passwords do not match"))
        && service.users == old(service.users)
      ensures c.password == c.confirmPassword && Text.Utf16Length(c.password) < 6 ==>
        !ok && state == old(state).(user := None, isAuthenticated := false, isLoading := false,
                                    error := Some("Password must be at least 6 characters long"))
        && service.users == old(service.users)
      ensures c.password == c.confirmPassword && Text.Utf16Length(c.password) >= 6 ==>
        (ok <==> !EmailKnown(old(service.users), c.email))
      ensures c.password == c.confirmPassword && Text.Utf16Length(c.password) >= 6 && EmailKnown(old(service.users), c.email) ==>
        state == AuthState(None, false, false, Some("Email already exists"))
        && service.users == old(service.users)
      ensures ok ==>
        var u := NewUser(|old(service.users)|, c);
        state == AuthState(Some(u), true, false, None) && service.users == old(service.users) + [u]
    {
      if c.password != c.confirmPassword {
        state := AuthReduce(state, RegisterFailure("Passwords do not match"));
        return false;
      }
      if Text.Utf16Length(c.password) < 6 {
        state := AuthReduce(state, RegisterFailure("Password must be at least 6 characters long"));
        return false;
      }
      state := AuthReduce(state, RegisterStart);
      var user := service.Register(c);
      if user.Some? {
        state := AuthReduce(state, RegisterSuccess(user.value));
        ok := true;
      } else {
        state := AuthReduce(state, RegisterFailure("Email already exists"));
        ok := false;
      }
    }

    method Logout()
      requires Valid()
      modifies this
      ensures Valid() && state == InitialAuth
    {
      state := AuthReduce(state, AuthAction.Logout);
    }

    method ClearError()
      requires Valid()
      modifies this
      ensures Valid() && state == old(state).(error := None)
    {
      state := AuthReduce(state, AuthAction.ClearError);
    }
  }
}
