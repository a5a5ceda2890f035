// The user table and the authorisation decisions: the users configured in
// AUTHORIZED_USERS, the gate in front of the API, and the login check.
// Hashing and comparing passwords are the parameters `hash` and `verify`.
module Auth {
  import opened Js

  /** A stored user. */
  datatype User = User(passwordHash: string, name: string, role: string)

  /** What the session and the login answer hold about the user. */
  datatype SessionUser = SessionUser(username: string, name: string, role: string)

  // ---------------------------------------------------------------------------
  // The user table
  // ---------------------------------------------------------------------------

  /** The i-th field of `entry.trim().split(':')`; a missing field is
      undefined, which reads like "" in every test below. */
  function Field(fields: seq<string>, i: nat): string
  {
    if i < |fields| then fields[i] else ""
  }

  function EntryFields(entry: string): seq<string>
  {
    Split(Trim(entry), ':')
  }

  /** The registration one `USERNAME:PASSWORD:NAME:ROLE` entry makes: under
      the lowercased username, with the name defaulting to the username and
      the role to "user"; nothing without both username and password. */
  function ParseEntry(entry: string, hash: string -> string): (r: Option<(string, User)>)
    ensures var f := EntryFields(entry);
            r.Some? <==> Field(f, 0) != "" && Field(f, 1) != ""
    ensures var f := EntryFields(entry);
            r.Some? ==> r.value == (ToLower(Field(f, 0)),
                                    User(hash(Field(f, 1)),
                                         if Field(f, 2) != "" then Field(f, 2) else Field(f, 0),
                                         if Field(f, 3) != "" then Field(f, 3) else "user"))
  {
    var f := EntryFields(entry);
    var username, password, name, role := Field(f, 0), Field(f, 1), Field(f, 2), Field(f, 3);
    if username != "" && password != "" then
      Some((ToLower(username), User(hash(password), if name != "" then name else username, if role != "" then role else "user")))
    else None
  }

  /** What each entry registers, in order. */
  function Registrations(entries: seq<string>, hash: string -> string): (regs: seq<Option<(string, User)>>)
    ensures |regs| == |entries|
    ensures forall i :: 0 <= i < |entries| ==> regs[i] == ParseEntry(entries[i], hash)
  {
    seq(|entries|, i requires 0 <= i < |entries| => ParseEntry(entries[i], hash))
  }

  /** `users.set(...)` for each registration in turn. */
  function Register(users: map<string, User>, regs: seq<Option<(string, User)>>): map<string, User>
    decreases |regs|
  {
    if regs == [] then users
    else Register(if regs[0].Some? then users[regs[0].value.0 := regs[0].value.1] else users, regs[1..])
  }

  /** The registration at index i is under key k. */
  predicate RegistersAt(regs: seq<Option<(string, User)>>, i: nat, k: string)
    requires i < |regs|
  {
    regs[i].Some? && regs[i].value.0 == k
  }

  /** A key is in the table exactly when it was there or some entry registers it. */
  lemma {:induction false} RegisterKeys(users: map<string, User>, regs: seq<Option<(string, User)>>, k: string)
    ensures k in Register(users, regs) <==> k in users || exists i :: 0 <= i < |regs| && RegistersAt(regs, i, k)
    decreases |regs|
  {
    if regs != [] {
      var next := if regs[0].Some? then users[regs[0].value.0 := regs[0].value.1] else users;
      RegisterKeys(next, regs[1..], k);
      assert Register(users, regs) == Register(next, regs[1..]);
      if regs[0].Some? && regs[0].value.0 == k {
        assert RegistersAt(regs, 0, k);
      }
      if exists i :: 0 <= i < |regs[1..]| && RegistersAt(regs[1..], i, k) {
        var i :| 0 <= i < |regs[1..]| && RegistersAt(regs[1..], i, k);
        assert RegistersAt(regs, i + 1, k);
      }
      if exists i :: 0 <= i < |regs| && RegistersAt(regs, i, k) {
        var i :| 0 <= i < |regs| && RegistersAt(regs, i, k);
        if i > 0 {
          assert RegistersAt(regs[1..], i - 1, k);
        }
      }
    }
  }

  /** The last registration of a key decides its user. */
  lemma {:induction false} RegisterLastWins(users: map<string, User>, regs: seq<Option<(string, User)>>, i: nat)
    requires i < |regs| && regs[i].Some?
    requires forall j :: i < j < |regs| ==> !RegistersAt(regs, j, regs[i].value.0)
    ensures regs[i].value.0 in Register(users, regs) && Register(users, regs)[regs[i].value.0] == regs[i].value.1
    decreases |regs|
  {
    var kv := regs[i].value;
    var next := if regs[0].Some? then users[regs[0].value.0 := regs[0].value.1] else users;
    if i > 0 {
      forall j | i - 1 < j < |regs[1..]| ensures !RegistersAt(regs[1..], j, kv.0) {
        assert !RegistersAt(regs, j + 1, kv.0);
      }
      RegisterLastWins(next, regs[1..], i - 1);
    } else {
      forall j | 0 <= j < |regs[1..]| ensures !RegistersAt(regs[1..], j, kv.0) {
        assert !RegistersAt(regs, j + 1, kv.0);
      }
      RegisterUntouched(next, regs[1..], kv.0);
    }
  }

  /** Registrations under other keys leave a user alone. */
  lemma {:induction false} RegisterUntouched(users: map<string, User>, regs: seq<Option<(string, User)>>, k: string)
    requires k in users
    requires forall j :: 0 <= j < |regs| ==> !RegistersAt(regs, j, k)
    ensures k in Register(users, regs) && Register(users, regs)[k] == users[k]
    decreases |regs|
  {
    if regs != [] {
      assert !RegistersAt(regs, 0, k);
      var next := if regs[0].Some? then users[regs[0].value.0 := regs[0].value.1] else users;
      forall j | 0 <= j < |regs[1..]| ensures !RegistersAt(regs[1..], j, k) {
        assert !RegistersAt(regs, j + 1, k);
      }
      RegisterUntouched(next, regs[1..], k);
    }
  }

  /** `initializeUsers` on the empty table: nothing without a configuration. */
  function InitialUsers(config: Option<string>, hash: string -> string): (r: map<string, User>)
    ensures config.None? || config.value == "" ==> r == map[]
  {
    if config.None? || config.value == "" then map[] else Register(map[], Registrations(Split(config.value, ','), hash))
  }

  /** Every key of the table is a lowercased name. */
  lemma {:induction false} KeysAreLowercase(config: Option<string>, hash: string -> string, k: string)
    requires k in InitialUsers(config, hash)
    ensures ToLower(k) == k
  {
    var entries := Split(config.value, ',');
    var regs := Registrations(entries, hash);
    RegisterKeys(map[], regs, k);
    var i :| 0 <= i < |regs| && RegistersAt(regs, i, k);
    var u := Field(EntryFields(entries[i]), 0);
    ToLowerTwice(u);
  }

  lemma {:induction false} ToLowerTwice(s: string)
    ensures ToLower(ToLower(s)) == ToLower(s)
  {
    var t := ToLower(s);
    assert forall i :: 0 <= i < |t| ==> LowerChar(t[i]) == t[i];
  }

  /** The module-level `users` Map. */
  class UserStore {
    var users: map<string, User>

    constructor ()
      ensures users == map[]
    {
      users := map[];
    }

    /** `initializeUsers()`: each configured entry in turn. */
    method InitializeUsers(config: Option<string>, hash: string -> string)
      modifies this
      ensures config.None? || config.value == "" ==> users == old(users)
      ensures config.Some? && config.value != "" ==> users == Register(old(users), Registrations(Split(config.value, ','), hash))
    {
      if config.None? || config.value == "" {
        return;
      }
      var entries := Split(config.value, ',');
      ghost var regs := Registrations(entries, hash);
      var i := 0;
      while i < |entries|
        invariant 0 <= i <= |entries|
        invariant Register(old(users), regs) == Register(users, regs[i..])
      {
        assert regs[i..][1..] == regs[i + 1..];
        var kv := ParseEntry(entries[i], hash);
        if kv.Some? {
          users := users[kv.value.0 := kv.value.1];
        }
        i := i + 1;
      }
    }
  }

  // ---------------------------------------------------------------------------
  // The gate and the login
  // ---------------------------------------------------------------------------

  /** An answer with a status code, an error and a message. */
  datatype Answer = Answer(status: int, error: string, message: string)

  const AuthRequired := Answer(401, "Authentication required", "Please log in to access this resource")
  const MissingCredentials := Answer(400, "Missing credentials", "Username and password are required")
  const InvalidCredentials := Answer(401, "Invalid credentials", "Invalid username or password")

  /** `requireAuth`: passes (None) or answers. */
  function RequireAuth(users: map<string, User>, session: Option<SessionUser>): (r: Option<Answer>)
    ensures r.None? <==> |users| == 0 || session.Some?
    ensures r.Some? ==> r.value == AuthRequired
  {
    if |users| == 0 then None
    else if session.Some? then None
    else Some(AuthRequired)
  }

  /** Without AUTHORIZED_USERS every request passes. */
  lemma NoUsersNoGate(hash: string -> string, session: Option<SessionUser>)
    ensures RequireAuth(InitialUsers(None, hash), session).None?
  {
  }

  /** How a login ends: an answer, a session user, or a thrown error. */
  datatype LoginResult = Refused(answer: Answer) | LoggedIn(user: SessionUser) | Crashed(message: string)

  /** `typeof v` for a defined value. */
  function TypeOf(j: Json): string
  {
    match j
    case JNull => "object"
    case JBool(_) => "boolean"
    case JNum(_) => "number"
    case JStr(_) => "string"
    case JArr(_) => "object"
    case JObj(_) => "object"
  }

  /** `login`: 400 without both credentials; 401 with one message for an
      unknown user and for a wrong password; otherwise the lowercased name
      with the stored name and role. */
  function Login(users: map<string, User>, username: Val, password: Val, verify: (string, string) -> bool): (r: LoginResult)
    ensures !Truthy(username) || !Truthy(password) ==> r == Refused(MissingCredentials)
    ensures r.LoggedIn? ==>
              username.value.JStr? && password.value.JStr?
              && ToLower(username.value.s) in users
              && verify(password.value.s, users[ToLower(username.value.s)].passwordHash)
              && r.user == SessionUser(ToLower(username.value.s), users[ToLower(username.value.s)].name,
                                       users[ToLower(username.value.s)].role)
    ensures Truthy(username) && Truthy(password) && username.value.JStr? && password.value.JStr? ==>
              (r == Refused(InvalidCredentials) <==>
                 ToLower(username.value.s) !in users
                 || !verify(password.value.s, users[ToLower(username.value.s)].passwordHash))
  {
    if !Truthy(username) || !Truthy(password) then Refused(MissingCredentials)
    else if !username.value.JStr? then Crashed("username.toLowerCase is not a function")
    else
      var key := ToLower(username.value.s);
      if key !in users then Refused(InvalidCredentials)
      else if !password.value.JStr? then Crashed("Illegal arguments: " + TypeOf(password.value) + ", string")
      else if !verify(password.value.s, users[key].passwordHash) then Refused(InvalidCredentials)
      else LoggedIn(SessionUser(key, users[key].name, users[key].role))
  }

  /** The lookup ignores the case of the username. */
  lemma LoginIgnoresCase(users: map<string, User>, a: string, b: string, password: Val, verify: (string, string) -> bool)
    requires ToLower(a) == ToLower(b)
    ensures Login(users, Some(JStr(a)), password, verify) == Login(users, Some(JStr(b)), password, verify)
  {
    assert |a| == |ToLower(a)| == |b|;
  }

  /** A configured user, logging in with the configured password under any
      spelling of the name, gets the configured name and role, provided
      `verify` accepts what `hash` produced and no later entry re-registers
      the name. */
  lemma {:induction false} ConfiguredUserLogsIn(config: string, hash: string -> string, verify: (string, string) -> bool,
                                               i: nat, spelling: string)
    requires forall p :: verify(p, hash(p))
    requires config != "" && i < |Split(config, ',')|
    requires ParseEntry(Split(config, ',')[i], hash).Some?
    requires forall j :: i < j < |Split(config, ',')| ==>
               !RegistersAt(Registrations(Split(config, ','), hash), j, ParseEntry(Split(config, ',')[i], hash).value.0)
    requires ToLower(spelling) == ToLower(Field(EntryFields(Split(config, ',')[i]), 0))
    ensures var f := EntryFields(Split(config, ',')[i]);
            Login(InitialUsers(Some(config), hash), Some(JStr(spelling)), Some(JStr(Field(f, 1))), verify)
            == LoggedIn(SessionUser(ToLower(Field(f, 0)),
                                    if Field(f, 2) != "" then Field(f, 2) else Field(f, 0),
                                    if Field(f, 3) != "" then Field(f, 3) else "user"))
  {
    var entries := Split(config, ',');
    var f := EntryFields(entries[i]);
    var kv := ParseEntry(entries[i], hash).value;
    var users := InitialUsers(Some(config), hash);
    RegisterLastWins(map[], Registrations(entries, hash), i);
    assert kv.0 in users && users[kv.0] == kv.1;
    assert |spelling| == |ToLower(spelling)| == |ToLower(Field(f, 0))| == |Field(f, 0)|;
    FoundUserLogsIn(users, spelling, Field(f, 1), verify, kv.0);
  }

  /** Under a matching spelling, the right password logs a stored user in. */
  lemma FoundUserLogsIn(users: map<string, User>, spelling: string, password: string,
                        verify: (string, string) -> bool, key: string)
    requires key in users && ToLower(spelling) == key
    requires spelling != "" && password != "" && verify(password, users[key].passwordHash)
    ensures Login(users, Some(JStr(spelling)), Some(JStr(password)), verify)
            == LoggedIn(SessionUser(key, users[key].name, users[key].role))
  {
  }

  /** A request's session. */
  class Session {
    var user: Option<SessionUser>

    constructor ()
      ensures user.None?
    {
      user := None;
    }
  }

  /** The login handler: decides, and on success stores the user in the session. */
  method LoginHandler(store: UserStore, session: Session, body: Fields, verify: (string, string) -> bool)
    returns (r: LoginResult)
    modifies session
    ensures r == Login(store.users, Get(body, "username"), Get(body, "password"), verify)
    ensures session.user == if r.LoggedIn? then Some(r.user) else old(session.user)
  {
    r := Login(store.users, Get(body, "username"), Get(body, "password"), verify);
    if r.LoggedIn? {
      session.user := Some(r.user);
    }
  }
}
