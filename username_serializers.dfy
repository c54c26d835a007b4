/**
 * backend/accounts/serializers.py: the username-keyed variant. `data_serializer`
 * upper-cases `role` and lower-cases `username` and `name` (an `email` passes through
 * as given); `UserSerializer.create` normalises once more before creating the record;
 * `LoginSerializer.validate` checks username, password and role in that order.
 */
module UsernameSerializers {
  import opened Wrappers
  import opened PyStr
  import opened Models
  import opened PyData
  import opened Credentials

  /** `data_serializer(data)`: normalise the dict in place and hand the same dict back. */
  method DataSerializer(data: Dict) returns (r: Dict)
    modifies data
    ensures r == data
    ensures data.entries == Normalized(old(data.entries), Username)
  {
    if "role" in data.entries && data.entries["role"].StrV? {
      data.entries := data.entries["role" := StrV(Upper(data.entries["role"].s))];
    }
    if "username" in data.entries && data.entries["username"].StrV? {
      data.entries := data.entries["username" := StrV(Lower(data.entries["username"].s))];
    }
    if "name" in data.entries && data.entries["name"].StrV? {
      data.entries := data.entries["name" := StrV(Lower(data.entries["name"].s))];
    }
    r := data;
  }

  /**
   * `to_internal_value` of both serializers: normalise the incoming dict in place,
   * then run the declared fields' own validation (given as `fieldValidation`) on it.
   */
  method ToInternalValue(data: Dict, fieldValidation: map<string, Value> -> Result<map<string, Value>, Value>)
    returns (r: Result<map<string, Value>, Value>)
    modifies data
    ensures data.entries == Normalized(old(data.entries), Username)
    ensures r == fieldValidation(Normalized(old(data.entries), Username))
  {
    var normalized := DataSerializer(data);
    r := fieldValidation(normalized.entries);
  }

  /** A role spelled in any mix of cases is normalised to the choice it spells, so the
      role-choice field (which runs after normalisation) accepts "admin" as ADMIN. */
  lemma {:induction false} AnyCaseRoleBecomesChoice(d: map<string, Value>, choice: string)
    requires IsRole(choice)
    requires "role" in d && d["role"].StrV?
    requires |d["role"].s| == |choice| && forall i :: 0 <= i < |choice| ==> UpperChar(d["role"].s[i]) == choice[i]
    ensures Normalized(d, Username)["role"] == StrV(choice)
  {
    RoleSetIsClosed(choice);
    var claimed := d["role"].s;
    assert Upper(choice) == choice by {
      assert forall i :: 0 <= i < |choice| ==> UpperChar(choice[i]) == choice[i];
    }
    UpperEqualIff(claimed, choice);
  }

  /** What `UserSerializer` validates for creation: username, email, name and password as strings, role optional. */
  predicate SignupFields(d: map<string, Value>) {
    && d.Keys <= {"username", "email", "name", "password", "role"}
    && "username" in d && d["username"].StrV?
    && "email" in d && d["email"].StrV?
    && "name" in d && d["name"].StrV?
    && "password" in d && d["password"].StrV?
    && ("role" in d ==> d["role"].StrV?)
  }

  /**
   * `UserSerializer.create`: normalise the validated data in place once more, pop the raw
   * password, create the record from the remaining fields, then store only the password's hash.
   */
  method Create(store: UserStore, h: Hasher, validatedData: Dict) returns (r: Result<User, DbError>)
    requires store.Valid() && SignupFields(validatedData.entries)
    modifies store, validatedData
    ensures store.Valid()
    ensures validatedData.entries == Normalized(old(validatedData.entries), Username) - {"password"}
    ensures var n := Normalized(old(validatedData.entries), Username);
      && (r.Failure? <==> old(store.Taken(n["email"].s, n["username"].s)))
      && (r.Failure? ==> store.users == old(store.users))
      && (r.Success? ==> fresh(r.value) && store.users == old(store.users) + [r.value])
      && (r.Success? ==>
            && r.value.username == n["username"].s
            && r.value.email == n["email"].s
            && r.value.name == n["name"].s
            && r.value.role == (if "role" in n then n["role"].s else DefaultRole)
            && r.value.password == h.make(n["password"].s)
            && (h.Sound() ==> r.value.CheckPassword(h, n["password"].s)))
  {
    var data := DataSerializer(validatedData);
    var password := data.Pop("password");
    var fields := data.entries;
    assert "role" in fields ==> fields["role"].StrV?;
    var role := RequestedRole(fields);
    r := CreateWithPassword(store, h, fields["email"].s, fields["username"].s, fields["name"].s, role, password.s);
  }

  /**
   * What the declared fields may do to the normalised payload on its way to `create`:
   * drop keys they do not declare, keep a value, strip the whitespace around a string (a
   * CharField trims by default), or turn a non-string into a string. A CharField turns a
   * number into its `str()`, which has no upper-case letter; a ChoiceField gives back one of
   * the choices, which are upper case.
   */
  predicate FieldValidated(normalised: map<string, Value>, validated: map<string, Value>) {
    forall f :: f in validated ==>
      && f in normalised
      && (|| validated[f] == normalised[f]
          || (normalised[f].StrV? && validated[f] == StrV(Strip(normalised[f].s)))
          || (!normalised[f].StrV? && validated[f].StrV? && ConvertedInCase(f, validated[f].s)))
  }

  /** A string a field made out of a non-string is in the case the normaliser gives field `f`. */
  predicate ConvertedInCase(f: string, s: string) {
    && (f == "role" ==> Upper(s) == s)
    && (f == "username" || f == "name" ==> Lower(s) == s)
  }

  /** The data `create` receives came out of `to_internal_value`: normalised, then field-validated.
      The second normalisation changes nothing, so the record holds exactly the validated fields. */
  lemma {:induction false} CreateRenormalisationIsNoOp(raw: map<string, Value>, validated: map<string, Value>)
    requires FieldValidated(Normalized(raw, Username), validated)
    ensures Normalized(validated, Username) == validated
  {
    var n := Normalized(raw, Username);
    NormalFormIsFixedPoint(raw, Username);
    forall f | f in validated && n[f].StrV? {
      StripKeepsCase(n[f].s);
    }
    NormalFormIsFixedPoint(validated, Username);
  }

  /**
   * `LoginSerializer.validate`: an unknown username, a wrong password and a role that
   * differs other than by case each fail with their own field error; on success the
   * data comes back with the found record under "user".
   */
  function Validate(store: UserStore, h: Hasher, data: map<string, Value>): (r: Result<map<string, Value>, FieldErrors>)
    requires store.Valid() && HasLoginFields(data, Username)
    reads store, store.users
    ensures CheckPayload(store, h, Username, data) == UnknownKey <==> r == Failure(map["username" := ["Invalid username"]])
    ensures CheckPayload(store, h, Username, data) == WrongPassword <==> r == Failure(map["password" := ["Invalid password"]])
    ensures CheckPayload(store, h, Username, data) == RoleMismatch <==> r == Failure(map["role" := ["Invalid Role"]])
    ensures r.Success? <==> CheckPayload(store, h, Username, data).Authenticated?
    ensures r.Success? ==> r.value == data["user" := UserV(CheckPayload(store, h, Username, data).user)]
  {
    assert "username" !in map["password" := ["Invalid password"]] && "username" !in map["role" := ["Invalid Role"]];
    assert "password" !in map["role" := ["Invalid Role"]];
    match CheckPayload(store, h, Username, data)
    case UnknownKey => Failure(map["username" := ["Invalid username"]])
    case WrongPassword => Failure(map["password" := ["Invalid password"]])
    case RoleMismatch => Failure(map["role" := ["Invalid Role"]])
    case Authenticated(user) => Success(data["user" := UserV(user)])
  }

  /** An unknown username fails on the username field whatever the password, the hasher or the role. */
  lemma UnknownUsernameSkipsPassword(store: UserStore, h1: Hasher, h2: Hasher, d1: map<string, Value>, d2: map<string, Value>)
    requires store.Valid() && HasLoginFields(d1, Username) && HasLoginFields(d2, Username)
    requires d1["username"] == d2["username"]
    requires forall u :: u in store.users ==> u.username != d1["username"].s
    ensures Validate(store, h1, d1) == Validate(store, h2, d2) == Failure(map["username" := ["Invalid username"]])
  {
    assert CheckPayload(store, h1, Username, d1) == UnknownKey;
    assert CheckPayload(store, h2, Username, d2) == UnknownKey;
  }

  /** A known username with a wrong password fails on the password field whatever role is claimed. */
  lemma WrongPasswordSkipsRole(store: UserStore, h: Hasher, d1: map<string, Value>, d2: map<string, Value>, u: User)
    requires store.Valid() && HasLoginFields(d1, Username) && HasLoginFields(d2, Username)
    requires d1["username"] == d2["username"] && d1["password"] == d2["password"]
    requires u in store.users && u.username == d1["username"].s && !u.CheckPassword(h, d1["password"].s)
    ensures Validate(store, h, d1) == Validate(store, h, d2) == Failure(map["password" := ["Invalid password"]])
  {
    assert u.Key(Username) == d1["username"].s;
    assert CheckPayload(store, h, Username, d1) == WrongPassword;
    assert CheckPayload(store, h, Username, d2) == WrongPassword;
  }

  /** The claimed role is compared after upper-casing: claims equal up to case get the same answer. */
  lemma RoleComparedIgnoringCase(store: UserStore, h: Hasher, d1: map<string, Value>, d2: map<string, Value>)
    requires store.Valid() && HasLoginFields(d1, Username) && HasLoginFields(d2, Username)
    requires d1["username"] == d2["username"] && d1["password"] == d2["password"]
    requires Upper(d1["role"].s) == Upper(d2["role"].s)
    ensures Validate(store, h, d1).Success? == Validate(store, h, d2).Success?
    ensures Validate(store, h, d1).Failure? ==> Validate(store, h, d1) == Validate(store, h, d2)
  {
    var o1, o2 := CheckPayload(store, h, Username, d1), CheckPayload(store, h, Username, d2);
    if o1.Authenticated? {
      assert o2.Authenticated? by { assert o1.user.Key(Username) == d2["username"].s; }
    }
  }

  /** A successful login returns the input data plus "user": the stored record whose username is the
      (already normalised) input username, whose password verifies and whose role matches up to case. */
  lemma LoginSuccessAttachesUser(store: UserStore, h: Hasher, data: map<string, Value>)
    requires store.Valid() && HasLoginFields(data, Username)
    requires Validate(store, h, data).Success?
    ensures var out := Validate(store, h, data).value;
      && out.Keys == data.Keys + {"user"}
      && (forall f :: f in data && f != "user" ==> out[f] == data[f])
      && out["user"].UserV?
      && out["user"].user in store.users
      && out["user"].user.username == data["username"].s
      && out["user"].user.CheckPassword(h, data["password"].s)
      && Upper(out["user"].user.role) == Upper(data["role"].s)
  {
  }
}
