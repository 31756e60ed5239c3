/** src/store/userStore.ts: the front end's user store. It maps an identity-provider account
    to an application user, answers role questions about the current user, and moves between
    signed-out and signed-in states. Session ids and the identity provider's answers are
    parameters. */
module UserStore {
  import opened Common

  /** The three application roles `'admin' | 'user' | 'viewer'`. */
  datatype AppRole = Admin | Member | Viewer {
    function Name(): string {
      match this
      case Admin => "admin"
      case Member => "user"
      case Viewer => "viewer"
    }
  }

  /** An account as the identity provider reports it. */
  datatype KeycloakUser = KeycloakUser(
    id: string,
    username: string,
    email: string,
    firstName: string,
    lastName: string,
    roles: seq<string>,
    department: string,
    municipality: string)

  datatype User = User(
    id: string,
    name: string,
    email: string,
    role: AppRole,
    organization: string,
    department: Option<string>,
    municipality: Option<string>,
    roles: Option<seq<string>>)

  /** The application role of a list of provider roles: admin first, then user or coordinator. */
  function MapRole(roles: seq<string>): (r: AppRole)
    ensures r == Admin <==> "admin" in roles
    ensures r == Member <==> "admin" !in roles && ("user" in roles || "woo-coordinator" in roles)
    ensures r == Viewer <==> "admin" !in roles && "user" !in roles && "woo-coordinator" !in roles
  {
    if "admin" in roles then Admin
    else if "user" in roles || "woo-coordinator" in roles then Member
    else Viewer
  }

  /** `mapKeycloakUserToUser`: the display name is first and last name with one space between,
      the organization is the municipality, and the provider's role list is kept as it is. */
  function MapKeycloakUserToUser(kc: KeycloakUser): (u: User)
    ensures u.id == kc.id && u.email == kc.email
    ensures u.name == kc.firstName + " " + kc.lastName
    ensures u.role == MapRole(kc.roles) && u.roles == Some(kc.roles)
    ensures u.organization == kc.municipality && u.municipality == Some(kc.municipality)
    ensures u.department == Some(kc.department)
  {
    User(kc.id, kc.firstName + " " + kc.lastName, kc.email, MapRole(kc.roles), kc.municipality,
         Some(kc.department), Some(kc.municipality), Some(kc.roles))
  }

  /** The four demo accounts a user can switch between. */
  const DemoUsers: seq<User> := [
    User("admin-1", "Admin Gebruiker", "admin@gemeente.nl", Admin, "Gemeente Amsterdam",
         Some("ICT & Informatievoorziening"), Some("Gemeente Amsterdam"), Some(["admin", "user", "woo-coordinator"])),
    User("user-1", "M. van der Berg", "m.vandenberg@gemeente.nl", Member, "Gemeente Amsterdam",
         Some("Juridische Zaken"), Some("Gemeente Amsterdam"), Some(["user", "woo-coordinator"])),
    User("user-2", "S. Janssen", "s.janssen@gemeente.nl", Member, "Gemeente Amsterdam",
         Some("Burgerzaken"), Some("Gemeente Amsterdam"), Some(["user"])),
    User("viewer-1", "L. de Vries", "l.devries@gemeente.nl", Viewer, "Gemeente Amsterdam",
         Some("Bestuur & Ondersteuning"), Some("Gemeente Amsterdam"), Some(["viewer"]))]

  /** `users.find(u => u.id === id)`: a user with that id, if any. */
  function Find(users: seq<User>, id: string): (r: Option<User>)
    ensures r.Some? ==> r.value in users && r.value.id == id
    ensures r.None? <==> forall i :: 0 <= i < |users| ==> users[i].id != id
  {
    if users == [] then None
    else if users[0].id == id then Some(users[0])
    else Find(users[1..], id)
  }

  /** The user found is the first one with that id. */
  lemma {:induction false} FindIsFirst(users: seq<User>, id: string, i: int)
    requires 0 <= i < |users| && users[i].id == id
    ensures Find(users, id).Some?
    ensures exists k :: 0 <= k <= i && users[k] == Find(users, id).value &&
                        forall j :: 0 <= j < k ==> users[j].id != id
  {
    if users[0].id == id {
      assert users[0] == Find(users, id).value;
    } else {
      FindIsFirst(users[1..], id, i - 1);
      var k :| 0 <= k <= i - 1 && users[1..][k] == Find(users[1..], id).value &&
               forall j :: 0 <= j < k ==> users[1..][j].id != id;
      assert users[k + 1] == Find(users, id).value;
      assert forall j :: 0 <= j < k + 1 ==> users[j].id != id by {
        forall j | 0 <= j < k + 1 ensures users[j].id != id {
          if j > 0 {
            assert users[j] == users[1..][j - 1];
          }
        }
      }
    }
  }

  /** `roles.some(role => owned.includes(role))`. */
  function SomeIn(roles: seq<string>, owned: seq<string>): (b: bool)
    ensures b <==> exists i :: 0 <= i < |roles| && roles[i] in owned
  {
    if roles == [] then false
    else if roles[0] in owned then true
    else
      assert forall i :: 1 <= i < |roles| ==> roles[i] == roles[1..][i - 1];
      SomeIn(roles[1..], owned)
  }

  /** What the identity provider's `init` gives: a failure, or whether a session is active and
      the account it reports. */
  datatype InitOutcome = InitFailed | InitDone(authenticated: bool, account: Option<KeycloakUser>)

  /** What the identity provider's `login` gives: a failure, or the account it then reports. */
  datatype LoginOutcome = LoginFailed | LoggedIn(account: Option<KeycloakUser>)

  class UserState {
    var currentUser: Option<User>
    var sessionId: string
    var isAuthenticated: bool
    var isInitialized: bool
    const availableUsers: seq<User>

    /** The initial state: nobody signed in, a fresh session id. */
    constructor (sessionId: string)
      ensures currentUser == None && !isAuthenticated && !isInitialized
      ensures this.sessionId == sessionId && availableUsers == DemoUsers
    {
      currentUser := None;
      this.sessionId := sessionId;
      isAuthenticated := false;
      isInitialized := false;
      availableUsers := DemoUsers;
    }

    /** `hasRole(role)`: false without a current user or without a role list. */
    function HasRole(role: string): (b: bool)
      reads this
      ensures b <==> currentUser.Some? && currentUser.value.roles.Some? && role in currentUser.value.roles.value
    {
      match currentUser
      case None => false
      case Some(u) => match u.roles case None => false case Some(rs) => role in rs
    }

    /** `hasAnyRole(roles)`: some of the given roles is one the current user holds. */
    function HasAnyRole(roles: seq<string>): (b: bool)
      reads this
      ensures b <==> exists i :: 0 <= i < |roles| && HasRole(roles[i])
    {
      match currentUser
      case None => false
      case Some(u) => match u.roles case None => false case Some(rs) => SomeIn(roles, rs)
    }

    /** A user change starts a new session. */
    method SetCurrentUser(user: User, newSessionId: string)
      modifies this
      ensures currentUser == Some(user) && isAuthenticated && sessionId == newSessionId
      ensures isInitialized == old(isInitialized)
    {
      currentUser := Some(user);
      isAuthenticated := true;
      sessionId := newSessionId;
    }

    /** `switchUser(userId)`: a demo account becomes the current user; an unknown id changes nothing. */
    method SwitchUser(userId: string, newSessionId: string)
      modifies this
      ensures Find(DemoUsers, userId).Some? ==>
                currentUser == Find(DemoUsers, userId) && isAuthenticated && sessionId == newSessionId
      ensures Find(DemoUsers, userId).None? ==>
                currentUser == old(currentUser) && isAuthenticated == old(isAuthenticated) && sessionId == old(sessionId)
      ensures isInitialized == old(isInitialized)
    {
      var user := Find(DemoUsers, userId);
      if user.Some? {
        SetCurrentUser(user.value, newSessionId);
      }
    }

    /** `logout()`: whatever the identity provider answers, nobody is signed in afterwards. */
    method Logout(newSessionId: string)
      modifies this
      ensures currentUser == None && !isAuthenticated && sessionId == newSessionId
      ensures isInitialized == old(isInitialized)
    {
      currentUser := None;
      isAuthenticated := false;
      sessionId := newSessionId;
    }

    method GenerateSessionId(newSessionId: string) returns (id: string)
      modifies this
      ensures id == newSessionId && sessionId == id
      ensures currentUser == old(currentUser) && isAuthenticated == old(isAuthenticated)
      ensures isInitialized == old(isInitialized)
    {
      sessionId := newSessionId;
      id := newSessionId;
    }

    /** `initKeycloak()`: the store is initialized in every case; an active session with an
        account signs that account in with a new session id. */
    method InitKeycloak(outcome: InitOutcome, newSessionId: string)
      modifies this
      ensures isInitialized
      ensures outcome.InitDone? && outcome.authenticated && outcome.account.Some? ==>
                && currentUser == Some(MapKeycloakUserToUser(outcome.account.value))
                && isAuthenticated && sessionId == newSessionId
      ensures !(outcome.InitDone? && outcome.authenticated && outcome.account.Some?) ==>
                currentUser == old(currentUser) && isAuthenticated == old(isAuthenticated) && sessionId == old(sessionId)
    {
      if outcome.InitDone? && outcome.authenticated && outcome.account.Some? {
        currentUser := Some(MapKeycloakUserToUser(outcome.account.value));
        isAuthenticated := true;
        isInitialized := true;
        sessionId := newSessionId;
        return;
      }
      isInitialized := true;
    }

    /** `loginWithKeycloak()`: a failed login is passed on to the caller (`ok` is false) with the
        state unchanged; a login that reports an account signs it in. */
    method LoginWithKeycloak(outcome: LoginOutcome, newSessionId: string) returns (ok: bool)
      modifies this
      ensures ok <==> outcome.LoggedIn?
      ensures outcome.LoggedIn? && outcome.account.Some? ==>
                && currentUser == Some(MapKeycloakUserToUser(outcome.account.value))
                && isAuthenticated && sessionId == newSessionId
      ensures !(outcome.LoggedIn? && outcome.account.Some?) ==>
                currentUser == old(currentUser) && isAuthenticated == old(isAuthenticated) && sessionId == old(sessionId)
      ensures isInitialized == old(isInitialized)
    {
      if outcome.LoginFailed? {
        return false;
      }
      if outcome.account.Some? {
        currentUser := Some(MapKeycloakUserToUser(outcome.account.value));
        isAuthenticated := true;
        sessionId := newSessionId;
      }
      return true;
    }
  }

  /** A signed-in provider account holds exactly its provider roles, and any role list asks
      about some of them exactly when it names one; an empty list never holds. */
  lemma MappedRoles(kc: KeycloakUser, role: string, asked: seq<string>)
    ensures var u := MapKeycloakUserToUser(kc);
            && (u.roles.Some? && role in u.roles.value <==> role in kc.roles)
            && (SomeIn(asked, u.roles.value) <==> exists i :: 0 <= i < |asked| && asked[i] in kc.roles)
            && !SomeIn([], kc.roles)
  {
  }

  /** The demo accounts' declared roles are those the provider mapping gives their role lists,
      and `admin-1` is the only administrator. */
  lemma DemoRolesAgreeWithMapping()
    ensures forall i :: 0 <= i < |DemoUsers| ==>
              DemoUsers[i].roles.Some? && DemoUsers[i].role == MapRole(DemoUsers[i].roles.value)
    ensures forall i :: 0 <= i < |DemoUsers| ==> (DemoUsers[i].role == Admin <==> DemoUsers[i].id == "admin-1")
  {
    assert MapRole(DemoUsers[0].roles.value) == Admin;
    assert MapRole(DemoUsers[1].roles.value) == Member;
    assert MapRole(DemoUsers[2].roles.value) == Member;
    assert "admin" !in DemoUsers[3].roles.value && "user" !in DemoUsers[3].roles.value;
    assert MapRole(DemoUsers[3].roles.value) == Viewer;
  }

  /** Every demo id can be switched to, and finds that demo account. */
  lemma DemoIdsAreFound(i: int)
    requires 0 <= i < |DemoUsers|
    ensures Find(DemoUsers, DemoUsers[i].id) == Some(DemoUsers[i])
  {
    FindIsFirst(DemoUsers, DemoUsers[i].id, i);
    assert DemoUsers[0].id == "admin-1" && DemoUsers[1].id == "user-1";
    assert DemoUsers[2].id == "user-2" && DemoUsers[3].id == "viewer-1";
  }
}
