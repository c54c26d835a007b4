/**
 * What the two serializer modules share: the case normalisation of a payload
 * (`data_serializer`, keyed by email in one module and by username in the other)
 * and the three-step login check of `LoginSerializer.validate`.
 */
module Credentials {
  import opened Wrappers
  import opened PyStr
  import opened Models
  import opened PyData

  /** `.upper()` applied where the value is a string; any other value stays. */
  function UpperValue(v: Value): Value {
    if v.StrV? then StrV(Upper(v.s)) else v
  }

  /** `.lower()` applied where the value is a string; any other value stays. */
  function LowerValue(v: Value): Value {
    if v.StrV? then StrV(Lower(v.s)) else v
  }

  /** One `if key in data and isinstance(data[key], str)` step of the normaliser. */
  function RecaseField(d: map<string, Value>, key: string, toUpper: bool): map<string, Value> {
    if key in d && d[key].StrV? then d[key := if toUpper then UpperValue(d[key]) else LowerValue(d[key])] else d
  }

  /**
   * The payload after `data_serializer`: `role` upper-cased, the login key and `name`
   * lower-cased, each only when present and a string; every other field untouched.
   */
  function Normalized(d: map<string, Value>, k: LoginKey): (r: map<string, Value>)
    ensures r.Keys == d.Keys
    ensures forall f :: f in d && f != "role" && f != k.Field() && f != "name" ==> r[f] == d[f]
    ensures "role" in d ==> r["role"] == UpperValue(d["role"])
    ensures k.Field() in d ==> r[k.Field()] == LowerValue(d[k.Field()])
    ensures "name" in d ==> r["name"] == LowerValue(d["name"])
  {
    RecaseField(RecaseField(RecaseField(d, "role", true), k.Field(), false), "name", false)
  }

  /** Normalising an already normalised payload changes nothing. */
  lemma {:induction false} NormalizedIdempotent(d: map<string, Value>, k: LoginKey)
    ensures Normalized(Normalized(d, k), k) == Normalized(d, k)
  {
    var n := Normalized(d, k);
    var nn := Normalized(n, k);
    forall f | f in n
      ensures nn[f] == n[f]
    {
      if n[f].StrV? {
        UpperIdempotent(d[f].s);
        LowerIdempotent(d[f].s);
      }
    }
  }

  /**
   * A payload the normaliser leaves alone: a string `role` is already upper case, a string
   * login key and a string `name` already lower case.
   */
  predicate InNormalForm(d: map<string, Value>, k: LoginKey) {
    && ("role" in d ==> UpperValue(d["role"]) == d["role"])
    && (k.Field() in d ==> LowerValue(d[k.Field()]) == d[k.Field()])
    && ("name" in d ==> LowerValue(d["name"]) == d["name"])
  }

  /** The normaliser's output is in normal form, and the payloads it leaves unchanged are
      exactly those already in normal form. */
  lemma {:induction false} NormalFormIsFixedPoint(d: map<string, Value>, k: LoginKey)
    ensures InNormalForm(Normalized(d, k), k)
    ensures Normalized(d, k) == d <==> InNormalForm(d, k)
  {
    forall f | f in d && d[f].StrV?
      ensures Upper(Upper(d[f].s)) == Upper(d[f].s) && Lower(Lower(d[f].s)) == Lower(d[f].s)
    {
      UpperIdempotent(d[f].s);
      LowerIdempotent(d[f].s);
    }
    if InNormalForm(d, k) {
      var n := Normalized(d, k);
      assert forall f :: f in d ==> n[f] == d[f];
    }
  }

  /** The role a signup asks for, if it names one. */
  function RequestedRole(d: map<string, Value>): (r: Option<string>)
    requires "role" in d ==> d["role"].StrV?
    ensures r.Some? <==> "role" in d
    ensures r.Some? ==> r.value == d["role"].s
  {
    if "role" in d then Some(d["role"].s) else None
  }

  /**
   * The tail of both `UserSerializer.create`s: `User.objects.create(...)`, then
   * `user.set_password(password)` on the new record.
   */
  method CreateWithPassword(store: UserStore, h: Hasher, email: string, username: string, name: string,
                            role: Option<string>, password: string) returns (r: Result<User, DbError>)
    requires store.Valid()
    modifies store
    ensures store.Valid()
    ensures r.Failure? <==> old(store.Taken(email, username))
    ensures r.Failure? ==> store.users == old(store.users)
    ensures r.Success? ==> fresh(r.value) && store.users == old(store.users) + [r.value]
    ensures r.Success? ==>
      && r.value.email == email && r.value.username == username && r.value.name == name
      && r.value.role == (if role.Some? then role.value else DefaultRole)
      && r.value.password == h.make(password)
      && (h.Sound() ==> r.value.CheckPassword(h, password))
  {
    r := store.Create(email, username, name, role);
    if r.Success? {
      r.value.SetPassword(h, password);
    }
  }

  /** The detail of a field-level ValidationError: field name to messages. */
  type FieldErrors = map<string, seq<string>>

  /** The login fields a serializer's `validate` reads, already checked by the declared fields to be strings. */
  predicate HasLoginFields(data: map<string, Value>, k: LoginKey) {
    && k.Field() in data && data[k.Field()].StrV?
    && "password" in data && data["password"].StrV?
    && "role" in data && data["role"].StrV?
  }

  /** The outcome of the login check on a payload's own login key, password and role. */
  function CheckPayload(store: UserStore, h: Hasher, k: LoginKey, data: map<string, Value>): LoginOutcome
    requires store.Valid() && HasLoginFields(data, k)
    reads store, store.users
  {
    CheckLogin(store, h, k, data[k.Field()].s, data["password"].s, data["role"].s)
  }

  /** How the three-step login check of `LoginSerializer.validate` ends. */
  datatype LoginOutcome = UnknownKey | WrongPassword | RoleMismatch | Authenticated(user: User)

  /**
   * Look the user up by its login key; then verify the password; then compare roles
   * with both sides upper-cased. The first failing step decides the outcome, so a
   * password is only checked for a known user and a role only after a good password.
   */
  function CheckLogin(store: UserStore, h: Hasher, k: LoginKey, key: string, password: string, role: string): (r: LoginOutcome)
    requires store.Valid()
    reads store, store.users
    ensures r == UnknownKey <==> forall u :: u in store.users ==> u.Key(k) != key
    ensures r == WrongPassword <==>
      exists u :: u in store.users && u.Key(k) == key && !u.CheckPassword(h, password)
    ensures r == RoleMismatch <==>
      exists u :: u in store.users && u.Key(k) == key && u.CheckPassword(h, password) && Upper(u.role) != Upper(role)
    ensures r.Authenticated? <==>
      exists u :: u in store.users && u.Key(k) == key && u.CheckPassword(h, password) && Upper(u.role) == Upper(role)
    ensures r.Authenticated? ==>
      r.user in store.users && r.user.Key(k) == key && r.user.CheckPassword(h, password) && Upper(r.user.role) == Upper(role)
  {
    match store.Lookup(k, key)
    case None => UnknownKey
    case Some(user) =>
      LookupUnique(store, k, key, user);
      if !user.CheckPassword(h, password) then WrongPassword
      else if Upper(user.role) != Upper(role) then RoleMismatch
      else Authenticated(user)
  }

  lemma LookupUnique(store: UserStore, k: LoginKey, key: string, user: User)
    requires store.Valid() && user in store.users && user.Key(k) == key
    ensures forall u :: u in store.users && u.Key(k) == key ==> u == user
  {
    forall u | u in store.users && u.Key(k) == key
      ensures u == user
    {
      LookupFindsTheRecord(store, k, u);
      LookupFindsTheRecord(store, k, user);
    }
  }
}
