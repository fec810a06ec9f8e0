/** The mock accounts of services/authService.ts: a users table and a session slot in `localStorage`.
    The 800 ms artificial delay is left out; ids come from the clock, which is a parameter. */
module AuthService {
  import opened Wrappers
  import opened Text
  import opened Storage

  /** What the session holds and the callers see: never the password. */
  datatype User = User(id: string, email: string, name: string, avatar: string)

  /** A row of the users table. */
  datatype StoredUser = StoredUser(id: string, email: string, password: string, name: string, avatar: string)

  /** `Error('Invalid email or password')`, `Error('User already exists')`, and the `SyntaxError`
      that `JSON.parse` throws, uncaught, on a users table that does not parse. */
  datatype AuthError = InvalidCredentials | UserExists | Unparsable

  const AvatarPrefix := "https://api.dicebear.com/7.x/avataaars/svg?seed="

  function Public(u: StoredUser): (p: User)
    ensures p.id == u.id && p.email == u.email && p.name == u.name && p.avatar == u.avatar
  {
    User(u.id, u.email, u.name, u.avatar)
  }

  predicate Matches(u: StoredUser, email: string, password: string) {
    u.email == email && u.password == password
  }

  /** `users.find(u => u.email === email && u.password === password)`, as an index. */
  function FirstMatch(users: seq<StoredUser>, email: string, password: string): (r: Option<nat>)
    ensures r.Some? <==> exists i :: 0 <= i < |users| && Matches(users[i], email, password)
    ensures r.Some? ==> r.value < |users| && Matches(users[r.value], email, password)
    ensures r.Some? ==> forall j :: 0 <= j < r.value ==> !Matches(users[j], email, password)
  {
    if users == [] then None
    else if Matches(users[0], email, password) then Some(0)
    else
      var rest := FirstMatch(users[1..], email, password);
      if rest.Some? then Some(rest.value + 1) else None
  }

  /** `users.some(u => u.email === email)` */
  predicate EmailTaken(users: seq<StoredUser>, email: string) {
    exists i :: 0 <= i < |users| && users[i].email == email
  }

  predicate UniqueEmails(users: seq<StoredUser>) {
    forall i, j :: 0 <= i < j < |users| ==> users[i].email != users[j].email
  }

  /** Registration only adds an email not yet taken, so emails stay unique. */
  lemma AppendKeepsUniqueEmails(users: seq<StoredUser>, u: StoredUser)
    requires UniqueEmails(users) && !EmailTaken(users, u.email)
    ensures UniqueEmails(users + [u])
  {
    var us := users + [u];
    forall i, j | 0 <= i < j < |us| ensures us[i].email != us[j].email {
      if j == |users| {
        assert us[i] == users[i];
      } else {
        assert us[i] == users[i] && us[j] == users[j];
      }
    }
  }

  /** With unique emails, a successful login finds the one account with that email. */
  lemma LoginFindsTheAccount(users: seq<StoredUser>, email: string, password: string, k: nat)
    requires UniqueEmails(users) && k < |users| && users[k].email == email
    ensures FirstMatch(users, email, password).Some? <==> users[k].password == password
    ensures FirstMatch(users, email, password).Some? ==> FirstMatch(users, email, password).value == k
  {
  }

  class Store {
    var users: Slot<seq<StoredUser>>
    var session: Slot<User>

    constructor (users0: Slot<seq<StoredUser>>, session0: Slot<User>)
      ensures users == users0 && session == session0
    {
      users, session := users0, session0;
    }

    /** `loginUser`: the first account matching both email and password becomes the session;
        a failed login leaves the session as it was. */
    method LoginUser(email: string, password: string) returns (r: Result<User, AuthError>)
      modifies this`session
      ensures users.Garbage? ==> r == Failure(Unparsable) && session == old(session)
      ensures !users.Garbage? ==>
        var table := LoadOr(users, []);
        var found := FirstMatch(table, email, password);
        && (r.Success? <==> found.Some?)
        && (r.Success? ==> r.value == Public(table[found.value]) && session == Holds(r.value))
        && (r.Failure? ==> r.error == InvalidCredentials && session == old(session))
    {
      if users.Garbage? {
        return Failure(Unparsable);
      }
      var table := LoadOr(users, []);
      var i := 0;
      while i < |table| && !Matches(table[i], email, password)
        invariant 0 <= i <= |table|
        invariant forall j :: 0 <= j < i ==> !Matches(table[j], email, password)
      {
        i := i + 1;
      }
      if i == |table| {
        return Failure(InvalidCredentials);
      }
      FirstMatchIsFirst(table, email, password, i);
      var u := Public(table[i]);
      session := Holds(u);
      r := Success(u);
    }

    /** `registerUser`: refuses a taken email without touching the table; otherwise appends one
        account and opens a session for it. `encodedName` is `encodeURIComponent(name)`. */
    method RegisterUser(email: string, password: string, name: string, encodedName: string, now: nat)
      returns (r: Result<User, AuthError>)
      modifies this
      ensures users.Garbage? ==> r == Failure(Unparsable)
      ensures old(users).Garbage? || EmailTaken(LoadOr(old(users), []), email) ==>
        users == old(users) && session == old(session)
      ensures !old(users).Garbage? && EmailTaken(LoadOr(old(users), []), email) ==> r == Failure(UserExists)
      ensures !old(users).Garbage? && !EmailTaken(LoadOr(old(users), []), email) ==>
        var added := StoredUser(NatToString(now), email, password, name, AvatarPrefix + encodedName);
        && users == Holds(LoadOr(old(users), []) + [added])
        && r == Success(Public(added))
        && session == Holds(Public(added))
    {
      if users.Garbage? {
        return Failure(Unparsable);
      }
      var table := LoadOr(users, []);
      if EmailTaken(table, email) {
        return Failure(UserExists);
      }
      var added := StoredUser(NatToString(now), email, password, name, AvatarPrefix + encodedName);
      users := Holds(table + [added]);
      var u := Public(added);
      session := Holds(u);
      r := Success(u);
    }

    /** `logoutUser` */
    method LogoutUser()
      modifies this`session
      ensures session == Absent && Session() == None
    {
      session := Absent;
    }

    /** `getSession`: the stored user, or null when there is none or it does not parse. */
    function Session(): (s: Option<User>)
      reads this
      ensures s.Some? <==> session.Holds?
      ensures s.Some? ==> s.value == session.value
    {
      if session.Holds? then Some(session.value) else None
    }
  }

  lemma FirstMatchIsFirst(users: seq<StoredUser>, email: string, password: string, i: nat)
    requires i < |users| && Matches(users[i], email, password)
    requires forall j :: 0 <= j < i ==> !Matches(users[j], email, password)
    ensures FirstMatch(users, email, password) == Some(i)
  {
  }
}
