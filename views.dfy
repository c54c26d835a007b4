/**
 * accounts/views.py: which envelope each endpoint answers with. The serializer, the
 * database and the session machinery are not run here; their outcomes are inputs.
 */
module Views {
  import opened Wrappers
  import opened PyStr
  import opened PyData
  import opened Responses
  import opened Helpers

  /** How `serializer.save()` ended: the serialized record, or the exception it raised. */
  datatype SaveOutcome = Saved(serializedData: map<string, Value>) | SaveRaised(exc: PyExc)

  /** How `is_valid()` ended for a signup: the serializer's field errors, or the save that followed. */
  datatype SignupOutcome = SignupInvalid(errors: map<string, Value>) | SignupValid(save: SaveOutcome)

  /**
   * `signup_view`: invalid data is a 400 "Invalid data" with the field errors; a saved
   * record is a 201 carrying the normalised user info; inside the `try`, a DatabaseError
   * is a 500 without detail and any other exception a 500 naming it.
   */
  function SignupView(o: SignupOutcome): (r: Response)
    ensures "success" in r.data && r.data["success"] == BoolV(r.status == 201)
    ensures o.SignupInvalid? ==> r == ErrorResponse(StrV("Invalid data"), 400, DictV(o.errors))
    ensures o.SignupValid? && o.save.Saved? && NormalizeUserinfo(o.save.serializedData).Success? ==>
      && r.status == 201
      && r.data.Keys == {"success", "message", "user_info"}
      && r.data["message"] == StrV("User registered successfully")
      && r.data["user_info"] == DictV(NormalizeUserinfo(o.save.serializedData).value)
    ensures o.SignupValid? && o.save.SaveRaised? && o.save.exc.DatabaseError? ==>
      r == ErrorResponse(StrV("Database error occurred while creating user"), 500)
    ensures o.SignupValid? && o.save.SaveRaised? && !o.save.exc.DatabaseError? ==>
      r == ErrorResponse(StrV("Unexpected error: " + ExcStr(o.save.exc)), 500)
    ensures o.SignupValid? && o.save.Saved? && NormalizeUserinfo(o.save.serializedData).Failure? ==>
      r == ErrorResponse(StrV("Unexpected error: " + ExcStr(NormalizeUserinfo(o.save.serializedData).error)), 500)
  {
    match o
    case SignupInvalid(errors) => ErrorResponse(StrV("Invalid data"), errors := DictV(errors))
    case SignupValid(Saved(data)) =>
      (match NormalizeUserinfo(data)
       case Success(info) => SuccessResponse(StrV("User registered successfully"), 201, map["user_info" := DictV(info)])
       case Failure(e) => ErrorResponse(StrV("Unexpected error: " + ExcStr(e)), 500))
    case SignupValid(SaveRaised(DatabaseError(_))) => ErrorResponse(StrV("Database error occurred while creating user"), 500)
    case SignupValid(SaveRaised(e)) => ErrorResponse(StrV("Unexpected error: " + ExcStr(e)), 500)
  }

  /** How `login(request, user)` ended. */
  datatype SessionOutcome = SessionStarted | SessionRaised(exc: PyExc)

  /** How `is_valid()` ended for a login: the field errors, or the validated user's name and role and the session start. */
  datatype LoginViewOutcome = LoginInvalid(errors: map<string, Value>) | LoginValid(userName: string, userRole: string, session: SessionOutcome)

  /**
   * `login_view`: invalid credentials are a 400 with the serializer's errors; a session
   * that fails to start is a 500 naming the error; otherwise a 200 whose message is the
   * welcome line for the user's stored name and role, and nothing else. The welcome line
   * is built outside any `try`, so an exception from it (`Failure`) leaves the view.
   */
  function LoginView(o: LoginViewOutcome): (r: Result<Response, PyExc>)
    ensures o.LoginInvalid? ==>
      r == Success(ErrorResponse(StrV("Invalid credentials"), 400, DictV(o.errors)))
    ensures o.LoginValid? && o.session.SessionRaised? ==>
      r == Success(ErrorResponse(StrV("Error starting session: " + ExcStr(o.session.exc)), 500))
    ensures o.LoginValid? && o.session.SessionStarted? ==>
      && (r.Failure? <==> CreateWelcomeMsg(StrV(o.userName), StrV(o.userRole)).Failure?)
      && (r.Success? ==>
            && r.value.status == 200
            && r.value.data.Keys == {"success", "message"}
            && r.value.data["success"] == BoolV(true)
            && r.value.data["message"] == StrV(CreateWelcomeMsg(StrV(o.userName), StrV(o.userRole)).value))
  {
    match o
    case LoginInvalid(errors) => Success(ErrorResponse(StrV("Invalid credentials"), errors := DictV(errors)))
    case LoginValid(_, _, SessionRaised(e)) => Success(ErrorResponse(StrV("Error starting session: " + ExcStr(e)), 500))
    case LoginValid(name, role, SessionStarted) =>
      var message :- CreateWelcomeMsg(StrV(name), StrV(role));
      Success(SuccessResponse(StrV(message)))
  }

  /** How serializing `request.user` ended. */
  datatype UserInfoOutcome = Serialized(data: map<string, Value>) | SerializeRaised(exc: PyExc)

  /** The `except` clauses of `user_info_view`. */
  function UserInfoFailure(e: PyExc): (r: Response)
    ensures e.NotAuthenticatedError? ==> r == ErrorResponse(StrV("Invalid or missing authentication credentials"), 401)
    ensures e.AttributeError? ==> r == ErrorResponse(StrV("Invalid user session"), 401)
    ensures !e.NotAuthenticatedError? && !e.AttributeError? ==> r == ErrorResponse(StrV("Unexpected error: " + ExcStr(e)), 500)
  {
    match e
    case NotAuthenticatedError => ErrorResponse(StrV("Invalid or missing authentication credentials"), 401)
    case AttributeError(_, _) => ErrorResponse(StrV("Invalid user session"), 401)
    case _ => ErrorResponse(StrV("Unexpected error: " + ExcStr(e)), 500)
  }

  /** The body of the `try` in `user_info_view`: normalise, then greet from the normalised name and role. */
  function UserInfoBody(data: map<string, Value>): Result<Response, PyExc> {
    var info :- NormalizeUserinfo(data);
    var message :- CreateWelcomeMsg(info["name"], info["role"]);
    Success(SuccessResponse(StrV(message), kwargs := map["user_info" := DictV(info)]))
  }

  /**
   * `user_info_view`: a 200 with the normalised user info and a welcome line built from
   * its title-cased name and role; an authentication failure or an AttributeError is a
   * 401, any other exception a 500.
   */
  function UserInfoView(o: UserInfoOutcome): (r: Response)
    ensures o.SerializeRaised? ==> r == UserInfoFailure(o.exc)
    ensures o.Serialized? && NormalizeUserinfo(o.data).Success? ==>
      var info := NormalizeUserinfo(o.data).value;
      match CreateWelcomeMsg(info["name"], info["role"])
      case Success(message) =>
        && r.status == 200
        && r.data.Keys == {"success", "message", "user_info"}
        && r.data["success"] == BoolV(true)
        && r.data["message"] == StrV(message)
        && r.data["user_info"] == DictV(info)
      case Failure(e) => r == UserInfoFailure(e)
    ensures o.Serialized? && NormalizeUserinfo(o.data).Failure? ==> r == UserInfoFailure(NormalizeUserinfo(o.data).error)
  {
    match o
    case SerializeRaised(e) => UserInfoFailure(e)
    case Serialized(data) =>
      match UserInfoBody(data)
      case Success(response) => response
      case Failure(e) => UserInfoFailure(e)
  }

  /** The user info a signup returns title-cases the stored name, which the normaliser had
      lower-cased and the name field then trimmed: it is the title case of the trimmed name
      as submitted, whatever its case. */
  lemma {:induction false} SignupUserInfoNameIgnoresCase(submitted: string, data: map<string, Value>)
    requires "role" in data && data["role"].StrV? && "email" in data
    requires "name" in data && data["name"] == StrV(Strip(Lower(submitted)))
    ensures SignupView(SignupValid(Saved(data))).data["user_info"].entries["name"] == StrV(Title(Strip(submitted)))
  {
    StripLower(submitted);
    TitleOfLower(Strip(submitted));
  }

  /** Logging in as a USER or VIEWER (any case) greets with a bare "Welcome!": the upper-cased
      role never equals the table's "User" or "Viewer". */
  lemma LoginGreetsOnlyAdmins(name: string, role: string)
    requires Upper(role) != "ADMIN"
    ensures LoginView(LoginValid(name, role, SessionStarted)) == Success(SuccessResponse(StrV("Welcome!")))
  {
  }

  /** An ADMIN whose stored name is blank makes `split()[0]` raise inside the view: the
      IndexError leaves `login_view` instead of becoming an envelope of its own. */
  lemma LoginBlankAdminNameEscapes(name: string, role: string)
    requires Upper(role) == "ADMIN"
    requires forall k :: 0 <= k < |name| ==> IsSpace(name[k])
    ensures LoginView(LoginValid(name, role, SessionStarted)) == Failure(IndexError)
  {
  }

  /** For an admin, the user-info greeting names the title-cased first token of the stored
      name (login greets the stored token as it is). */
  lemma {:induction false} UserInfoGreetsAdminByTitledFirstName(data: map<string, Value>, i: nat, j: nat)
    requires "role" in data && data["role"].StrV? && Upper(data["role"].s) == "ADMIN"
    requires "email" in data && "name" in data && data["name"].StrV?
    requires i < j <= |data["name"].s|
    requires forall k :: 0 <= k < i ==> IsSpace(data["name"].s[k])
    requires forall k :: i <= k < j ==> !IsSpace(data["name"].s[k])
    requires j == |data["name"].s| || IsSpace(data["name"].s[j])
    ensures UserInfoView(Serialized(data)).status == 200
    ensures UserInfoView(Serialized(data)).data["message"] ==
      StrV("Welcome " + Title(data["name"].s[i..j]) + ", " + AdminMessage)
  {
    var name := data["name"].s;
    TitleKeepsShape(data["role"].s);
    TitleKeepsShape(name);
    TitleFirstWord(name, i, j);
    SplitEmptyIff(Title(name));
  }

  /** For a USER or VIEWER, the user-info greeting is the bare "Welcome!". */
  lemma {:induction false} UserInfoGreetsOthersPlainly(data: map<string, Value>)
    requires "role" in data && data["role"].StrV? && Upper(data["role"].s) != "ADMIN"
    requires "email" in data && "name" in data && data["name"].StrV?
    ensures UserInfoView(Serialized(data)).status == 200
    ensures UserInfoView(Serialized(data)).data["message"] == StrV("Welcome!")
  {
    TitleKeepsShape(data["role"].s);
  }
}
