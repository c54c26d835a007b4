# Account service credential pipeline, in Dafny

This project models the core of a small Django account service: the pipeline that
normalises and validates credentials, and the rules that turn every outcome into a
response envelope. It covers:

- the case normaliser `data_serializer`, in its email-keyed form (`accounts/serializers.py`)
  and its username-keyed form (`backend/accounts/serializers.py`);
- the login check `LoginSerializer.validate`: look the user up, verify the password, compare
  roles case-insensitively, stop at the first failure;
- the signup path `UserSerializer.create`, which pops the raw password and stores only its hash;
- the `User` record of `backend/accounts/models.py`: the role set, the unique email and username,
  and `set_password` / `check_password` / `__str__`;
- the welcome composer and the user-info normaliser of `accounts/utils/helpers.py`;
- the two envelopes of `accounts/utils/responses.py`;
- the exception mapper `custom_exception_handler`;
- the choice of envelope in `signup_view`, `login_view` and `user_info_view`.

Modules, one per source file or shared concern:

| module | file | models |
|---|---|---|
| `Wrappers` | wrappers.dfy | `Option`, and `Result` for "returns a value or raises" |
| `PyStr` | pystr.dfy | `str.upper`, `lower`, `title` and `split()` on ASCII |
| `Models` | models.dfy | backend/accounts/models.py, plus the user table as a class |
| `PyData` | pydata.dfy | Python values, dicts updated in place, built-in exceptions |
| `Credentials` | credentials.dfy | the normaliser and the login check shared by both serializer files |
| `EmailSerializers` | email_serializers.dfy | accounts/serializers.py |
| `UsernameSerializers` | username_serializers.dfy | backend/accounts/serializers.py |
| `Helpers` | helpers.dfy | accounts/utils/helpers.py |
| `Responses` | responses.dfy | accounts/utils/responses.py |
| `ExceptionHandler` | exceptions.dfy | backend/accounts/utils/exceptions.py |
| `Views` | views.dfy | accounts/views.py |

Code that updates state in place keeps that form. `User` is a class whose `SetPassword` assigns
the password field. The user table is a class whose `Create` appends a record. A payload is a
`Dict` object that `DataSerializer` and `Pop` change. The rest is functions over values.

The password hasher is a `Hasher` value holding two functions, `make` and `check`. The one thing
the record relies on is `Hasher.Sound()`: a hash made from a secret verifies against that secret.

Behaviour of the code worth knowing:

- The role table of the welcome composer has the keys "ADMIN", "User" and "Viewer", and the
  lookup upper-cases the role first. So only ADMIN ever gets a role-specific greeting
  (`Helpers.OnlyAdminKeyReachable`).
- A successful login answers with only `success` and `message`. There is no `user_info`, although the login schema example shows one (accounts/views.py:87-108).
- The login role-mismatch message is "Role mismatch" in the email variant and "Invalid Role" in
  the username variant.
- The login greeting uses the stored name. The normaliser lower-cased that name at signup, so
  the greeting reads "Welcome ali, ...". The user-info greeting title-cases the name first.

## Model

| member | source | states |
|---|---|---|
| `PyStr.Upper` | accounts/serializers.py:8 | `upper()` keeps the length and upper-cases each ASCII letter in place, leaving every other character |
| `PyStr.Lower` | accounts/serializers.py:10-12 | `lower()` keeps the length and lower-cases each ASCII letter in place, leaving every other character |
| `PyStr.UpperIdempotent` | accounts/serializers.py:8 | upper-casing twice is upper-casing once |
| `PyStr.LowerIdempotent` | accounts/serializers.py:10-12 | lower-casing twice is lower-casing once |
| `PyStr.UpperEqualIff` | accounts/serializers.py:67 | two strings have equal upper cases iff they have the same length and agree letter by letter up to case |
| `PyStr.TitleFromIgnoresCase` | accounts/utils/helpers.py:25-27 | `title()` gives the same result for strings that differ only in letter case |
| `PyStr.TitleOfLower` | accounts/utils/helpers.py:25 | `title(lower(s)) == title(s)` |
| `PyStr.TitleFrom` | accounts/utils/helpers.py:25-27 | from any starting state, each character of the result is upper-cased if it opens a word and lower-cased inside one, where a word opens after a character that is not cased |
| `PyStr.Title` | accounts/utils/helpers.py:25-27 | `title()` keeps the length; each character is upper-cased if it opens a word (at the start, or after a character that is not cased) and lower-cased inside a word |
| `PyStr.TitleKeepsShape` | accounts/utils/helpers.py:25-27 | `title()` keeps the length and the whitespace positions, and has the same upper case as its input |
| `PyStr.TitleOfWord` | accounts/utils/helpers.py:25 | a word that follows an uncased character is title-cased inside the whole string exactly as it is on its own |
| `PyStr.StripLeading` | backend/accounts/serializers.py:44 | `lstrip()` gives the suffix of the string left after cutting off only whitespace, and it does not start with whitespace |
| `PyStr.StripTrailing` | backend/accounts/serializers.py:44 | `rstrip()` gives the prefix of the string left after cutting off only whitespace, and it does not end with whitespace |
| `PyStr.Strip` | backend/accounts/serializers.py:44 | the whitespace trim of a CharField: the slice of the input from its first non-whitespace character, with only whitespace cut off after it, neither starting nor ending with whitespace |
| `PyStr.StripLeadingLower` | accounts/serializers.py:11-12 | cutting off leading whitespace commutes with lower-casing |
| `PyStr.StripTrailingLower` | accounts/serializers.py:11-12 | cutting off trailing whitespace commutes with lower-casing |
| `PyStr.StripLower` | accounts/serializers.py:11-12 | trimming a lower-cased name gives the lower case of the trimmed name |
| `PyStr.StripKeepsCase` | backend/accounts/serializers.py:28-34 | trimming an upper-case (or lower-case) string leaves it upper-case (or lower-case) |
| `PyStr.LeadingSpace` | accounts/utils/helpers.py:13 | the count of leading whitespace: all of it is whitespace, and the next character (if any) is not |
| `PyStr.WordLength` | accounts/utils/helpers.py:13 | the count of leading non-whitespace: none of it is whitespace, and the next character (if any) is |
| `PyStr.Split` | accounts/utils/helpers.py:13 | every token of `split()` is non-empty and contains no whitespace |
| `PyStr.SplitEmptyIff` | accounts/utils/helpers.py:13 | `split()` is empty iff the string is all whitespace, which is when `split()[0]` raises |
| `PyStr.SplitFirstWord` | accounts/utils/helpers.py:13 | `split()[0]` is the run from the first non-whitespace character up to the next whitespace |
| `PyStr.TitleFirstWord` | accounts/views.py:156-157 | the first token of the title-cased name is the title case of the name's first token |
| `Models.RoleSetIsClosed` | backend/accounts/models.py:6-19 | the role choices are exactly ADMIN, USER and VIEWER, and the default VIEWER is one of them |
| `Models.User.constructor` | backend/accounts/models.py:14-21 | a new record holds the given fields; the role defaults to VIEWER and the password field starts empty |
| `Models.User.SetPassword` | backend/accounts/models.py:26-28 | stores `make_password(raw)` and changes no other field; afterwards `check_password(raw)` holds whenever the hasher verifies its own output |
| `Models.User.CheckPassword` | backend/accounts/models.py:30-32 | asks the hasher about `raw` against the stored hash, reading only `password`; a password stored by `make(raw)` verifies against `raw` whenever the hasher is sound |
| `Models.User.ToString` | backend/accounts/models.py:34-35 | `__str__` is the username, " \| ", the email, then the role in parentheses |
| `Models.Find` | backend/accounts/serializers.py:59 | returns a stored record carrying the key, or nothing exactly when no record carries it |
| `Models.UserStore.Lookup` | accounts/serializers.py:58 | `objects.get` by login key returns a record with that key, or fails exactly when none exists |
| `Models.UserStore.Create` | backend/accounts/models.py:14-21 | `objects.create` fails with an integrity error iff the email or username is taken; otherwise it appends one fresh record with the given fields and the default role; the table stays unique |
| `Models.LookupFindsTheRecord` | backend/accounts/models.py:15-16 | with unique keys, the lookup by a record's key returns that very record |
| `PyData.Get` | accounts/utils/helpers.py:19-21 | `d[key]` returns the value iff the key is present, else raises KeyError(key) |
| `PyData.Dict.Pop` | accounts/serializers.py:33 | `pop` returns the value and removes exactly that key |
| `Credentials.Normalized` | accounts/serializers.py:6-13 | `role` is upper-cased and the login key and `name` lower-cased, each only when present and a string; no key is added or removed and every other field is unchanged |
| `Credentials.NormalizedIdempotent` | backend/accounts/serializers.py:6-13 | normalising twice equals normalising once |
| `Credentials.NormalFormIsFixedPoint` | backend/accounts/serializers.py:6-13 | the normaliser's output is in normal form (upper-case role, lower-case login key and name), and a payload is left unchanged by the normaliser iff it is in normal form |
| `Credentials.RequestedRole` | backend/accounts/serializers.py:35 | the role passed to `objects.create` is present exactly when the data names one, and is that string |
| `Credentials.CreateWithPassword` | backend/accounts/serializers.py:35-37 | `objects.create` then `set_password`: fails iff the email or username is taken, leaving the table as it was; otherwise appends one fresh record with the given fields, the default role when none is given, and `make(password)` as its password; the table stays unique |
| `Credentials.CheckLogin` | backend/accounts/serializers.py:57-69 | unknown key iff no stored user has it; wrong password iff that user's password does not verify; role mismatch iff it verifies but the upper-cased roles differ; otherwise the user is returned |
| `Credentials.LookupUnique` | backend/accounts/models.py:15-16 | with unique keys, at most one stored user carries a given key |
| `EmailSerializers.DataSerializer` | accounts/serializers.py:6-13 | normalises the passed dict in place (email variant) and returns the same dict |
| `EmailSerializers.ToInternalValue` | accounts/serializers.py:28-30 | normalises the incoming dict in place, then hands the normalised data to the field validation |
| `EmailSerializers.Create` | accounts/serializers.py:32-37 | `password` is popped from the validated data; the record gets the other fields, and its password field holds `make(password)`; the table stays unique; it fails iff the email or the empty username is taken |
| `EmailSerializers.Validate` | accounts/serializers.py:51-71 | unknown email gives `{"email": ["Invalid email"]}`, wrong password `{"password": ["Invalid password"]}`, role mismatch `{"role": ["Role mismatch"]}`; success returns the data plus `"user"` |
| `EmailSerializers.UnknownEmailSkipsPassword` | accounts/serializers.py:57-60 | an unknown email fails on `email` whatever the password, the hasher or the role |
| `EmailSerializers.WrongPasswordSkipsRole` | accounts/serializers.py:63-64 | a wrong password fails on `password` whatever role is claimed |
| `EmailSerializers.RoleComparedIgnoringCase` | accounts/serializers.py:67-68 | claims that are equal up to case get the same answer |
| `EmailSerializers.LoginSuccessAttachesUser` | accounts/serializers.py:70-71 | on success the data keeps every field and gains `user`: a stored record with that email, a verifying password and a matching role |
| `UsernameSerializers.DataSerializer` | backend/accounts/serializers.py:6-13 | normalises the passed dict in place (username variant, so `email` passes through unchanged) and returns the same dict |
| `UsernameSerializers.ToInternalValue` | backend/accounts/serializers.py:28-30 | normalises the incoming dict in place, then hands the normalised data to the field validation |
| `UsernameSerializers.AnyCaseRoleBecomesChoice` | backend/accounts/serializers.py:46-50 | a role spelled in any case becomes the choice it spells before the role-choice field sees it, so "admin" is accepted as ADMIN |
| `UsernameSerializers.Create` | backend/accounts/serializers.py:32-38 | the validated data is normalised again in place and `password` is popped; the record gets the normalised fields and the hash of the password |
| `UsernameSerializers.CreateRenormalisationIsNoOp` | backend/accounts/serializers.py:28-34 | data that `to_internal_value` normalised and the declared fields then filtered, kept, trimmed or converted to a string is unchanged by the second normalisation in `create` |
| `UsernameSerializers.Validate` | backend/accounts/serializers.py:52-72 | unknown username gives `{"username": ["Invalid username"]}`, wrong password `{"password": ["Invalid password"]}`, role mismatch `{"role": ["Invalid Role"]}`; success returns the data plus `"user"` |
| `UsernameSerializers.UnknownUsernameSkipsPassword` | backend/accounts/serializers.py:58-61 | an unknown username fails on `username` whatever the password, the hasher or the role |
| `UsernameSerializers.WrongPasswordSkipsRole` | backend/accounts/serializers.py:64-65 | a wrong password fails on `password` whatever role is claimed |
| `UsernameSerializers.RoleComparedIgnoringCase` | backend/accounts/serializers.py:68-69 | claims that are equal up to case get the same answer |
| `UsernameSerializers.LoginSuccessAttachesUser` | backend/accounts/serializers.py:71-72 | on success `data["user"]` is the stored record whose username is the input username |
| `Helpers.OnlyAdminKeyReachable` | accounts/utils/helpers.py:4-12 | an upper-cased role is a key of `role_messages` iff it is "ADMIN" |
| `Helpers.CreateWelcomeMsg` | accounts/utils/helpers.py:11-15 | a non-string role raises AttributeError; a role that is not ADMIN in any case, or a non-string name, gives "Welcome!"; for ADMIN, a blank name raises IndexError and any other name gives "Welcome <first token>, <admin text>" |
| `Helpers.AdminGreetsFirstToken` | accounts/utils/helpers.py:11-14 | the admin greeting names the first whitespace-separated token of the name, not re-cased |
| `Helpers.TitleValue` | accounts/utils/helpers.py:25-27 | `.title()` succeeds exactly on strings, giving their title case; on any other value it raises AttributeError naming the value's type and `title` |
| `Helpers.NormalizeUserinfo` | accounts/utils/helpers.py:18-31 | raises KeyError for a missing role, email or name (in that order), then AttributeError for a non-string name, then for a non-string role; otherwise the keys are exactly name, email, role plus `date` iff `created_at` is truthy, with name and role title-cased and email copied |
| `Responses.ErrorResponse` | accounts/utils/responses.py:5-10 | `success` is false, the message is kept, the status defaults to 400, and `errors` is present iff it is not None |
| `Responses.SuccessResponse` | accounts/utils/responses.py:13-19 | the keys are success, message and the extra fields; `success` is true unless an extra field overrides it; the status defaults to 200 |
| `Responses.EnvelopesAreDistinguishable` | accounts/utils/responses.py:5-19 | an error envelope never equals a success envelope built without a `success` field |
| `ExceptionHandler.DefaultHandlerData` | backend/accounts/utils/exceptions.py:86 | the framework's handler passes a list or dict detail through as the body and wraps any other detail as `{"detail": detail}`, so the body is a list exactly for a list detail |
| `ExceptionHandler.DetailOrDefault` | backend/accounts/utils/exceptions.py:91 | `response.data.get("detail", "An error occurred")` raises exactly when the body is not a dict; on a dict it gives the `detail` entry, or "An error occurred" when there is none |
| `ExceptionHandler.CustomExceptionHandler` | backend/accounts/utils/exceptions.py:20-100 | the handler raises exactly for Django's PermissionDenied, for the framework's MethodNotAllowed and for a list detail; every other kind gets an envelope |
| `ExceptionHandler.HandlerTable` | backend/accounts/utils/exceptions.py:26-100 | the status, message and errors for each kind: 401, 403 with detail, AttributeError on `method` for MethodNotAllowed, 400 with detail, 400, 404, 415, 429 with `retry_after`; any other exception the framework answers keeps its status and shows its detail (a dict detail's `detail` entry, or "An error occurred"), or raises for a list detail; and 500 with `error` |
| `ExceptionHandler.HandlerAlwaysReportsFailure` | backend/accounts/utils/exceptions.py:20-100 | every envelope the handler returns has `success` false |
| `ExceptionHandler.DjangoPermissionDeniedEscapes` | backend/accounts/utils/exceptions.py:34-39 | Django's PermissionDenied makes the handler raise AttributeError on `detail` |
| `ExceptionHandler.MethodNotAllowedEscapes` | backend/accounts/utils/exceptions.py:57-61 | the framework's MethodNotAllowed makes the handler raise AttributeError on `method` |
| `ExceptionHandler.ListDetailEscapes` | backend/accounts/utils/exceptions.py:86-93 | an exception with a list detail makes the handler raise |
| `ExceptionHandler.ExceptionEnvelope` | backend/accounts/utils/exceptions.py:20-100 | the corrected handler is total: every kind gets a failure envelope with a fixed status (or the framework's own status); Django's PermissionDenied gets the 403 envelope without errors, a disallowed method gets 405 naming the request's method, a list detail gets "An error occurred", and everywhere else it agrees with the handler as written |
| `Views.SignupView` | accounts/views.py:53-84 | invalid data gives 400 "Invalid data" with the errors; a save gives 201 "User registered successfully" with exactly the user info; a DatabaseError gives 500 without errors; another error gives 500 "Unexpected error: ..."; `success` is true exactly for 201 |
| `Views.LoginView` | accounts/views.py:110-134 | invalid credentials give 400 "Invalid credentials" with the errors; a failed session gives 500 "Error starting session: ..."; otherwise 200 with the welcome line and no other key, or the welcome line's exception leaves the view |
| `Views.UserInfoFailure` | accounts/views.py:163-179 | NotAuthenticated gives 401 with the credentials message, AttributeError gives 401 "Invalid user session", anything else gives 500 "Unexpected error: ..." |
| `Views.UserInfoView` | accounts/views.py:149-179 | success is 200 with the normalised user info and a greeting built from its name and role; any exception inside the try goes to the except clauses |
| `Views.SignupUserInfoNameIgnoresCase` | accounts/views.py:69 | the signup user info shows the title case of the submitted name with its surrounding whitespace trimmed, whatever case it was submitted in |
| `Views.LoginGreetsOnlyAdmins` | accounts/views.py:133-134 | a login whose role is not ADMIN in any letter case answers 200 with the bare "Welcome!" |
| `Views.LoginBlankAdminNameEscapes` | accounts/views.py:133 | an ADMIN with a blank stored name makes the login view raise IndexError |
| `Views.UserInfoGreetsAdminByTitledFirstName` | accounts/views.py:155-162 | for an admin, user info greets the title-cased first token of the stored name |
| `Views.UserInfoGreetsOthersPlainly` | accounts/views.py:155-162 | for any other role, user info greets with "Welcome!" |

## Findings

| source | as written | input that shows it | evidently intended | confidence | as-written member | corrected member |
|---|---|---|---|---|---|---|
| backend/accounts/utils/exceptions.py:34-39 | reads `exc.detail` for Django's own `PermissionDenied` too, and that class has no `detail` attribute | a view that raises `django.core.exceptions.PermissionDenied()` | the 403 permission envelope | medium, not executed (rests on Django's class having no `detail`) | `ExceptionHandler.DjangoPermissionDeniedEscapes` | `ExceptionHandler.ExceptionEnvelope` |
| backend/accounts/utils/exceptions.py:57-61 | reads `exc.method`, but the framework's `MethodNotAllowed` folds the method into its `detail` and keeps no `method` attribute | a GET request to the POST-only `signup_view` | the 405 envelope naming the request's method | medium, not executed (rests on the framework's class keeping no `method`) | `ExceptionHandler.MethodNotAllowedEscapes` | `ExceptionHandler.ExceptionEnvelope` |
| backend/accounts/utils/exceptions.py:86-93 | calls `response.data.get` on the framework's body, which is a list when the exception's detail is a list | an `APIException(["a"])` raised in a view | the fallback message "An error occurred" with the framework's status | medium, not executed (rests on the framework passing list details through as the body) | `ExceptionHandler.ListDetailEscapes` | `ExceptionHandler.ExceptionEnvelope` |

## Left out

- Logging: `create_logger` and every logger call write to process-wide handlers and streams.
- The hashing algorithm: `make_password` and `check_password` are the `Hasher`'s two functions. Salting is random in the source; the model gives each secret one fixed hash.
- The ORM and the database are a `UserStore` object holding a sequence of records. `save()` is not modelled: the record object is already in the table. Concurrent signups are not modelled.
- accounts/models.py is not part of this model. Both serializer files run against the `User` of backend/accounts/models.py. The email variant supplies no username, so its records get the field's default, the empty string. Because usernames are unique, once one record has the empty username every later email-variant signup fails with an integrity error: that variant can create at most one record.
- backend/accounts/utils/responses.py is not part of this model. The exception handler imports `error_response` from it, and the model uses the `error_response` of accounts/utils/responses.py in its place.
- `DataSerializer` and `ToInternalValue`, in both serializer modules: a payload is modelled as a mutable dict, which is what a JSON body gives. For a form-encoded body, or a multipart body without files, `request.data` is an immutable query dict. There the source raises AttributeError at the normaliser's first write, before field validation, and the exception leaves `signup_view` and `login_view` because `is_valid()` is called outside any `try`. The model does not capture that path.
- The framework's field validation is an input. `ToInternalValue` takes it as a function parameter, and the login and signup checks take its results as given. This covers the EmailField format, whitespace trimming, required fields and uniqueness validators. Only the role-choice acceptance is modelled (`AnyCaseRoleBecomesChoice`).
- `validate` inserts `user` into its argument in place. The model returns the extended map, which is what the framework goes on to use.
- Views take outcomes as inputs: the serializer's verdict, the result of `save()`, the result of `login()`, and the serialized `request.user`. The login view takes the validated user's name and role rather than the record.
- Which handler answers an exception that leaves `login_view` depends on the project settings. Those are not part of this model.
- The session machinery, the authentication and permission decorators, and logout. `logout_view` is imported by accounts/urls.py but is not defined anywhere.
- Timestamps: `created_at` and `updated_at` come from the clock.
- Non-ASCII text: `upper`, `lower` and `title` leave non-ASCII characters as they are, where Python maps them by the Unicode tables. Non-ASCII letters also count as uncased, so an ASCII letter after one opens a new word in `title()` (the model gives "éA" for "éa", where Python gives "Éa"). Non-ASCII whitespace such as U+00A0 neither separates tokens in `split()` nor is cut off by `strip()`.
- The `Throttled` wait is taken as a given attribute of the exception.
- The API schema decorators and their examples, which are documentation only.
