/**
 * accounts/utils/helpers.py: the role-dependent welcome line and the user-info dict
 * the endpoints return.
 */
module Helpers {
  import opened Wrappers
  import opened PyStr
  import opened PyData

  /** `role_messages`. Only "ADMIN" is spelled in upper case. */
  const RoleMessages: map<string, string> := map[
    "ADMIN" := "You can manage all system activities as an Admin.",
    "User" := "You can track and submit your activities as a User.",
    "Viewer" := "You have read-only access as a Viewer."
  ]

  const AdminMessage: string := RoleMessages["ADMIN"]

  /** An upper-cased string has no lower-case letter, so it can equal neither "User" nor "Viewer":
      of the three keys only "ADMIN" can ever be looked up. */
  lemma {:induction false} OnlyAdminKeyReachable(role: string)
    ensures Upper(role) in RoleMessages <==> Upper(role) == "ADMIN"
  {
    if |Upper(role)| >= 2 {
      assert !IsLower(Upper(role)[1]);
      assert IsLower("User"[1]) && IsLower("Viewer"[1]);
    }
  }

  /**
   * `create_welcome_msg(name, role)`: upper-case the role (a non-string role raises
   * AttributeError); when the result is a key of `role_messages` and `name` is a string,
   * greet the first whitespace-separated token of the name (an all-blank name raises
   * IndexError); otherwise say "Welcome!".
   */
  function CreateWelcomeMsg(name: Value, role: Value): (r: Result<string, PyExc>)
    ensures !role.StrV? ==> r == Failure(AttributeError(TypeName(role), "upper"))
    ensures role.StrV? && (Upper(role.s) != "ADMIN" || !name.StrV?) ==> r == Success("Welcome!")
    ensures role.StrV? && Upper(role.s) == "ADMIN" && name.StrV? ==>
      && (r.Failure? <==> forall i :: 0 <= i < |name.s| ==> IsSpace(name.s[i]))
      && (r.Failure? ==> r.error == IndexError)
      && (r.Success? ==> r.value == "Welcome " + Split(name.s)[0] + ", " + AdminMessage)
  {
    if !role.StrV? then Failure(AttributeError(TypeName(role), "upper"))
    else
      var key := Upper(role.s);
      OnlyAdminKeyReachable(role.s);
      if key in RoleMessages && name.StrV? then
        var words := Split(name.s);
        SplitEmptyIff(name.s);
        if words == [] then Failure(IndexError)
        else Success("Welcome " + words[0] + ", " + RoleMessages[key])
      else Success("Welcome!")
  }

  /** The admin greeting names the first token of `name` exactly as written, e.g.
      "Ali Hamza" with role "admin" gives "Welcome Ali, You can manage all system activities as an Admin.". */
  lemma AdminGreetsFirstToken(name: string, role: string, i: nat, j: nat)
    requires Upper(role) == "ADMIN"
    requires i < j <= |name|
    requires forall k :: 0 <= k < i ==> IsSpace(name[k])
    requires forall k :: i <= k < j ==> !IsSpace(name[k])
    requires j == |name| || IsSpace(name[j])
    ensures CreateWelcomeMsg(StrV(name), StrV(role)) == Success("Welcome " + name[i..j] + ", " + AdminMessage)
  {
    SplitFirstWord(name, i, j);
  }

  /** `data.get(key)`: the value, or None. */
  function GetOrNone(d: map<string, Value>, key: string): Value {
    if key in d then d[key] else NoneV
  }

  /** `v.title()` on a value: the title-cased string, or AttributeError for a non-string. */
  function TitleValue(v: Value): (r: Result<Value, PyExc>)
    ensures r.Success? <==> v.StrV?
    ensures r.Success? ==> r.value == StrV(Title(v.s))
    ensures r.Failure? ==> r.error == AttributeError(TypeName(v), "title")
  {
    if v.StrV? then Success(StrV(Title(v.s))) else Failure(AttributeError(TypeName(v), "title"))
  }

  /**
   * `normalize_userinfo(data)`: read `role`, `email`, `name` (KeyError if missing, in that
   * order), title-case name then role (AttributeError if not a string), copy email as is,
   * and add `date` only when `created_at` is present and truthy.
   */
  function NormalizeUserinfo(data: map<string, Value>): (r: Result<map<string, Value>, PyExc>)
    ensures "role" !in data ==> r == Failure(KeyError("role"))
    ensures "role" in data && "email" !in data ==> r == Failure(KeyError("email"))
    ensures "role" in data && "email" in data && "name" !in data ==> r == Failure(KeyError("name"))
    ensures r.Success? <==> "role" in data && "email" in data && "name" in data && data["name"].StrV? && data["role"].StrV?
    ensures "role" in data && "email" in data && "name" in data && !data["name"].StrV? ==>
      r == Failure(AttributeError(TypeName(data["name"]), "title"))
    ensures "role" in data && "email" in data && "name" in data && data["name"].StrV? && !data["role"].StrV? ==>
      r == Failure(AttributeError(TypeName(data["role"]), "title"))
    ensures r.Success? ==>
      && r.value.Keys == {"name", "email", "role"} + (if Truthy(GetOrNone(data, "created_at")) then {"date"} else {})
      && r.value["name"] == StrV(Title(data["name"].s))
      && r.value["email"] == data["email"]
      && r.value["role"] == StrV(Title(data["role"].s))
      && ("date" in r.value ==> r.value["date"] == data["created_at"])
  {
    var userRole :- Get(data, "role");
    var userEmail :- Get(data, "email");
    var fullName :- Get(data, "name");
    var createdAt := GetOrNone(data, "created_at");
    var name :- TitleValue(fullName);
    var role :- TitleValue(userRole);
    var info := map["name" := name, "email" := userEmail, "role" := role];
    Success(if Truthy(createdAt) then info["date" := createdAt] else info)
  }
}
