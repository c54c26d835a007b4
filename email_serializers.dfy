/**
 * accounts/serializers.py: the email-keyed variant. `data_serializer` upper-cases
 * `role` and lower-cases `email` and `name`; `UserSerializer` creates a record and
 * stores only the password's hash; `LoginSerializer.validate` checks email, password
 * and role in that order.
 */
module EmailSerializers {
  import opened Wrappers
  import opened PyStr
  import opened Models
  import opened PyData
  import opened Credentials

  /** `data_serializer(data)`: normalise the dict in place and hand the same dict back. */
  method DataSerializer(data: Dict) returns (r: Dict)
    modifies data
    ensures r == data
    ensures data.entries == Normalized(old(data.entries), Email)
  {
    if "role" in data.entries && data.entries["role"].StrV? {
      data.entries := data.entries["role" := StrV(Upper(data.entries["role"].s))];
    }
    if "email" in data.entries && data.entries["email"].StrV? {
      data.entries := data.entries["email" := StrV(Lower(data.entries["email"].s))];
    }
    if "name" in data.entries && data.entries["name"].StrV? {
      data.entries := data.entries["name" := StrV(Lower(data.entries["name"].s))];
    }
    r := data;
  }

  /**
   * `to_internal_value` of both serializers: normalise the incoming dict in place,
   * then run the declared fields' own validation (given as `fieldValidation`) on it.
   */
  method ToInternalValue(data: Dict, fieldValidation: map<string, Value> -> Result<map<string, Value>, Value>)
    returns (r: Result<map<string, Value>, Value>)
    modifies data
    ensures data.entries == Normalized(old(data.entries), Email)
    ensures r == fieldValidation(Normalized(old(data.entries), Email))
  {
    var normalized := DataSerializer(data);
    r := fieldValidation(normalized.entries);
  }

  /** What `UserSerializer` validates for creation: email, name and password as strings, role optional. */
  predicate SignupFields(d: map<string, Value>) {
    && d.Keys <= {"email", "name", "password", "role"}
    && "email" in d && d["email"].StrV?
    && "name" in d && d["name"].StrV?
    && "password" in d && d["password"].StrV?
    && ("role" in d ==> d["role"].StrV?)
  }

  /**
   * `UserSerializer.create`: pop the raw password out of the validated data, create the
   * record from the remaining fields, then store only the hash of the password.
   * The record carries no username in this variant, so it gets the field's default, the empty string.
   */
  method Create(store: UserStore, h: Hasher, validatedData: Dict) returns (r: Result<User, DbError>)
    requires store.Valid() && SignupFields(validatedData.entries)
    modifies store, validatedData
    ensures store.Valid()
    ensures validatedData.entries == old(validatedData.entries) - {"password"}
    ensures r.Failure? <==> old(store.Taken(validatedData.entries["email"].s, ""))
    ensures r.Failure? ==> store.users == old(store.users)
    ensures r.Success? ==> fresh(r.value) && store.users == old(store.users) + [r.value]
    ensures r.Success? ==>
      && r.value.email == old(validatedData.entries["email"].s)
      && r.value.name == old(validatedData.entries["name"].s)
      && r.value.role == (if "role" in old(validatedData.entries) then old(validatedData.entries["role"].s) else DefaultRole)
      && r.value.password == h.make(old(validatedData.entries["password"].s))
      && (h.Sound() ==> r.value.CheckPassword(h, old(validatedData.entries["password"].s)))
  {
    var password := validatedData.Pop("password");
    var fields := validatedData.entries;
    r := CreateWithPassword(store, h, fields["email"].s, "", fields["name"].s, RequestedRole(fields), password.s);
  }

  /**
   * `LoginSerializer.validate`: an unknown email, a wrong password and a role that
   * differs other than by case each fail with their own field error; on success the
   * data comes back with the found record under "user".
   */
  function Validate(store: UserStore, h: Hasher, data: map<string, Value>): (r: Result<map<string, Value>, FieldErrors>)
    requires store.Valid() && HasLoginFields(data, Email)
    reads store, store.users
    ensures CheckPayload(store, h, Email, data) == UnknownKey <==> r == Failure(map["email" := ["Invalid email"]])
    ensures CheckPayload(store, h, Email, data) == WrongPassword <==> r == Failure(map["password" := ["Invalid password"]])
    ensures CheckPayload(store, h, Email, data) == RoleMismatch <==> r == Failure(map["role" := ["Role mismatch"]])
    ensures r.Success? <==> CheckPayload(store, h, Email, data).Authenticated?
    ensures r.Success? ==> r.value == data["user" := UserV(CheckPayload(store, h, Email, data).user)]
  {
    assert "email" !in map["password" := ["Invalid password"]] && "email" !in map["role" := ["Role mismatch"]];
    assert "password" !in map["role" := ["Role mismatch"]];
    match CheckPayload(store, h, Email, data)
    case UnknownKey => Failure(map["email" := ["Invalid email"]])
    case WrongPassword => Failure(map["password" := ["Invalid password"]])
    case RoleMismatch => Failure(map["role" := ["Role mismatch"]])
    case Authenticated(user) => Success(data["user" := UserV(user)])
  }

  /** An unknown email fails on the email field whatever the password, the hasher or the role: the password is never looked at. */
  lemma UnknownEmailSkipsPassword(store: UserStore, h1: Hasher, h2: Hasher, d1: map<string, Value>, d2: map<string, Value>)
    requires store.Valid() && HasLoginFields(d1, Email) && HasLoginFields(d2, Email)
    requires d1["email"] == d2["email"]
    requires forall u :: u in store.users ==> u.email != d1["email"].s
    ensures Validate(store, h1, d1) == Validate(store, h2, d2) == Failure(map["email" := ["Invalid email"]])
  {
    assert CheckPayload(store, h1, Email, d1) == UnknownKey;
    assert CheckPayload(store, h2, Email, d2) == UnknownKey;
  }

  /** A known email with a wrong password fails on the password field whatever role is claimed. */
  lemma WrongPasswordSkipsRole(store: UserStore, h: Hasher, d1: map<string, Value>, d2: map<string, Value>, u: User)
    requires store.Valid() && HasLoginFields(d1, Email) && HasLoginFields(d2, Email)
    requires d1["email"] == d2["email"] && d1["password"] == d2["password"]
    requires u in store.users && u.email == d1["email"].s && !u.CheckPassword(h, d1["password"].s)
    ensures Validate(store, h, d1) == Validate(store, h, d2) == Failure(map["password" := ["Invalid password"]])
  {
    assert u.Key(Email) == d1["email"].s;
    assert CheckPayload(store, h, Email, d1) == WrongPassword;
    assert CheckPayload(store, h, Email, d2) == WrongPassword;
  }

  /** The claimed role is compared after upper-casing: claims equal up to case get the same answer. */
  lemma RoleComparedIgnoringCase(store: UserStore, h: Hasher, d1: map<string, Value>, d2: map<string, Value>)
    requires store.Valid() && HasLoginFields(d1, Email) && HasLoginFields(d2, Email)
    requires d1["email"] == d2["email"] && d1["password"] == d2["password"]
    requires Upper(d1["role"].s) == Upper(d2["role"].s)
    ensures Validate(store, h, d1).Success? == Validate(store, h, d2).Success?
    ensures Validate(store, h, d1).Failure? ==> Validate(store, h, d1) == Validate(store, h, d2)
  {
    var o1, o2 := CheckPayload(store, h, Email, d1), CheckPayload(store, h, Email, d2);
    if o1.Authenticated? {
      assert o2.Authenticated? by { assert o1.user.Key(Email) == d2["email"].s; }
    }
  }

  /** A successful login returns the input data plus "user": a stored record with that email, whose
      password verifies and whose role equals the claimed one up to case. */
  lemma LoginSuccessAttachesUser(store: UserStore, h: Hasher, data: map<string, Value>)
    requires store.Valid() && HasLoginFields(data, Email)
    requires Validate(store, h, data).Success?
    ensures var out := Validate(store, h, data).value;
      && out.Keys == data.Keys + {"user"}
      && (forall f :: f in data && f != "user" ==> out[f] == data[f])
      && out["user"].UserV?
      && out["user"].user in store.users
      && out["user"].user.email == data["email"].s
      && out["user"].user.CheckPassword(h, data["password"].s)
      && Upper(out["user"].user.role) == Upper(data["role"].s)
  {
  }
}
