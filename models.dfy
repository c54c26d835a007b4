/**
 * The account record of backend/accounts/models.py: the closed role set, the `User`
 * record with its password helpers, and the table of users that the ORM keeps
 * (unique email, unique username).
 */
module Models {
  import opened Wrappers
  import opened PyStr

  /** `ROLE_CHOICES`: stored value and human-readable label. */
  const RoleChoices: seq<(string, string)> := [("ADMIN", "Admin"), ("USER", "User"), ("VIEWER", "Viewer")]

  /** The role a record gets when none is given. */
  const DefaultRole: string := "VIEWER"

  /** A stored value that `ROLE_CHOICES` offers. */
  predicate IsRole(r: string) {
    exists i :: 0 <= i < |RoleChoices| && RoleChoices[i].0 == r
  }

  /** The role set is exactly ADMIN, USER and VIEWER, and it holds the default. */
  lemma RoleSetIsClosed(r: string)
    ensures IsRole(r) <==> r == "ADMIN" || r == "USER" || r == "VIEWER"
    ensures IsRole(DefaultRole)
  {
    assert RoleChoices[0].0 == "ADMIN" && RoleChoices[1].0 == "USER" && RoleChoices[2].0 == "VIEWER";
  }

  /**
   * The one-way password hasher the record delegates to (`make_password` and
   * `check_password` of the framework). Only its interface is modelled; `Sound`
   * is the one promise the record relies on: a hash verifies against the secret it was made from.
   */
  datatype Hasher = Hasher(make: string -> string, check: (string, string) -> bool) {
    ghost predicate Sound() {
      forall raw :: check(raw, make(raw))
    }
  }

  /** Which unique field a login is keyed by. */
  datatype LoginKey = Email | Username {
    /** The field's name in a request payload. */
    function Field(): string {
      if Email? then "email" else "username"
    }
  }

  class User {
    const userId: int
    var email: string
    var username: string
    var name: string
    var password: string
    var role: string

    /** A new record: `role` falls back to VIEWER, the password field starts empty. */
    constructor (userId: int, email: string, username: string, name: string, role: Option<string>)
      ensures this.userId == userId && this.email == email && this.username == username && this.name == name
      ensures this.role == (if role.Some? then role.value else DefaultRole)
      ensures this.password == ""
    {
      this.userId := userId;
      this.email := email;
      this.username := username;
      this.name := name;
      this.password := "";
      this.role := if role.Some? then role.value else DefaultRole;
    }

    /** The value of the unique field a login is keyed by. */
    function Key(k: LoginKey): string
      reads this
    {
      if k.Email? then email else username
    }

    /** `set_password`: store `make(raw)`; nothing else changes, and the
        record then accepts `raw` whenever the hasher verifies its own output. */
    method SetPassword(h: Hasher, raw: string)
      modifies this`password
      ensures password == h.make(raw)
      ensures h.Sound() ==> CheckPassword(h, raw)
    {
      password := h.make(raw);
    }

    /** `check_password`: ask the hasher whether `raw` matches the stored hash; reads the record only. */
    function CheckPassword(h: Hasher, raw: string): (ok: bool)
      reads this`password
      ensures h.Sound() && password == h.make(raw) ==> ok
    {
      h.check(raw, password)
    }

    /** `__str__`: "username | email (role)". */
    function ToString(): (s: string)
      reads this
      ensures |s| == |username| + |email| + |role| + 6
      ensures s[..|username|] == username && s[|username|..|username| + 3] == " | "
      ensures s[|username| + 3..|username| + 3 + |email|] == email
      ensures s[|username| + 3 + |email|..|username| + 5 + |email|] == " ("
      ensures s[|s| - |role| - 1..] == role + ")"
    {
      username + " | " + email + " (" + role + ")"
    }
  }

  /** The first user in `us` whose key `k` equals `key`. */
  function Find(us: seq<User>, k: LoginKey, key: string): (r: Option<User>)
    reads us
    ensures r.Some? ==> r.value in us && r.value.Key(k) == key
    ensures r.None? <==> forall u :: u in us ==> u.Key(k) != key
  {
    if us == [] then None
    else if us[0].Key(k) == key then Some(us[0])
    else Find(us[1..], k, key)
  }

  datatype DbError = IntegrityError(field: string)

  /** The user table. The database keeps email and username unique; `Valid` states that. */
  class UserStore {
    var users: seq<User>
    var nextId: int

    ghost predicate Valid()
      reads this, users
    {
      && (forall i, j :: 0 <= i < j < |users| ==>
            users[i] != users[j] && users[i].email != users[j].email &&
            users[i].username != users[j].username && users[i].userId != users[j].userId)
      && (forall i :: 0 <= i < |users| ==> users[i].userId < nextId)
    }

    constructor ()
      ensures Valid() && users == []
    {
      users := [];
      nextId := 1;
    }

    /** `User.objects.get(email=...)` / `get(username=...)`: the record with that key, if any. */
    function Lookup(k: LoginKey, key: string): (r: Option<User>)
      reads this, users
      ensures r.Some? ==> r.value in users && r.value.Key(k) == key
      ensures r.None? <==> forall u :: u in users ==> u.Key(k) != key
    {
      Find(users, k, key)
    }

    /** Some stored user already has this email or this username. */
    predicate Taken(email: string, username: string)
      reads this, users
    {
      exists i :: 0 <= i < |users| && (users[i].email == email || users[i].username == username)
    }

    /** `User.objects.create(...)`: insert a fresh record, or fail as the unique constraints do. */
    method Create(email: string, username: string, name: string, role: Option<string>) returns (r: Result<User, DbError>)
      requires Valid()
      modifies this
      ensures Valid()
      ensures r.Failure? <==> old(Taken(email, username))
      ensures r.Failure? ==> users == old(users)
      ensures r.Success? ==> fresh(r.value) && users == old(users) + [r.value]
      ensures r.Success? ==> r.value.email == email && r.value.username == username && r.value.name == name
      ensures r.Success? ==> r.value.role == (if role.Some? then role.value else DefaultRole) && r.value.password == ""
    {
      if Taken(email, username) {
        var field := if exists i :: 0 <= i < |users| && users[i].email == email then "email" else "username";
        return Failure(IntegrityError(field));
      }
      var u := new User(nextId, email, username, name, role);
      ghost var before := users;
      assert forall i :: 0 <= i < |before| ==> before[i].email != email && before[i].username != username;
      users := users + [u];
      assert forall i :: 0 <= i < |before| ==> users[i] == before[i];
      nextId := nextId + 1;
      return Success(u);
    }
  }

  /** With unique keys, `get` finds exactly the one record that carries the key. */
  lemma LookupFindsTheRecord(store: UserStore, k: LoginKey, u: User)
    requires store.Valid() && u in store.users
    ensures store.Lookup(k, u.Key(k)) == Some(u)
  {
    var r := store.Lookup(k, u.Key(k));
    var v := r.value;
    var i :| 0 <= i < |store.users| && store.users[i] == u;
    var j :| 0 <= j < |store.users| && store.users[j] == v;
    assert store.users[i].Key(k) == store.users[j].Key(k);
    assert i == j;
  }
}
