# Azuriom authentication client — Dafny model

This project models the Java client that logs a user in to an Azuriom site
(`java-azuriom-lib`): the `AzAuth` client, the `AuthManager` orchestrator of
its demo application, and the immutable `AuthResult` value.

- `AzAuth` (`az_auth.dfy`) normalises the site URL to `<site>/api/auth`,
  builds the JSON bodies of `authenticate`, `verify` and `logout` with
  in-place `addProperty` calls on a `JsonObject` (a class here), and
  classifies what came back. A 2xx answer gives `null` (no JSON expected),
  an empty object (blank body), the parsed object, or a `json_parse`
  `AzAuthException` with HTTP status 0. Any other answer gives an
  `AzAuthException` carrying the real code, with status, reason and message
  read from the JSON body or, for a body that is not JSON, `"error"`, `""`
  and the raw text. It also models `User.toString`, which prints the access
  token only as `****` or `null`, and the composite text the exception
  passes to its superclass. Because `getMessage()` is overridden to return
  the bare message, that composite text is stored but never what
  `getMessage()` returns, and the orchestrator's `FAIL` messages are the
  bare messages (`AuthManager.ExceptionMessage`).
- `AuthManager` (`auth_manager.dfy`) is a class whose field `currentUser` is
  the static field of the source. Its methods `PerformAuthentication`,
  `AuthenticateWithPassword` and `Handle2FA` follow the Java methods:
  - the password path is taken first, then the token path, otherwise the
    result is `FAIL(UNKNOWN)`;
  - the 2FA loop runs while the server answers with the "pending/2fa"
    signature (case-insensitive);
  - a null or blank code cancels the loop;
  - every user obtained goes through the email-verification gate.

  Each method is proved equal to a reference definition written as a
  function: `TwoFactorRun` is recursive, one round per prompt answer, and
  `PasswordRun` and `PerformRun` are plain functions built on it. The
  lemmas state the properties of those definitions.
- `AuthResult` (`auth_result.dfy`) is a datatype with the `success` and
  `failure` factories.
- `JavaText` (`java_text.dfy`) holds the `java.lang` behaviour these rely
  on: `trim()` (strips characters up to U+0020), blank tests,
  ASCII-only `equalsIgnoreCase`, `"" + null`, and `Integer.toString`, with
  its inverse.

Inputs that the Java code gets from outside are parameters:
- The HTTP exchange is a `Network` from request (URL and body) to
  `(status, body)` or a transport failure. A missing error stream is read
  as `""`.
- Gson's `JsonParser` is a `Parser` from text to an optional JSON value.
- Gson's `fromJson(…, User.class)` is a `Decoder` from object members to an
  optional user. `None` stands for a Gson exception.
- The orchestrator's calls to the client are answered by a `Server`: the
  answer to the n-th call, given its request.
- The Swing prompt is a sequence of answers. `None` is a closed dialog, and
  an exhausted sequence reads as `None`.

Exceptions are values: `Thrown` is `Service(AzAuthException)`,
`Io(message)`, or `Runtime` for an unchecked exception. An unchecked
exception is not caught by `performAuthentication`, so it ends the run as
`Escaped(Runtime)`. Gson throws one from `getAsString` on an object, an
array that does not hold exactly one element, or a null inside an array.

Three behaviours of the code are easy to miss, and the model keeps them:
- `EMAIL_UNVERIFIED` carries the user and the message
  `"L'email de l'utilisateur n'est pas vérifié."`
  (`AuthManager.java:97-98`).
- An error message may be `null`. This happens when the error JSON has no
  `message` field, or binds it to JSON null.
- A JSON error body whose `status`, `reason` or `message` is an object makes
  `getString` throw an unchecked exception. That exception escapes the
  orchestrator instead of becoming a `FAIL`.

The request body goes on the wire through `gson.toJson` with Gson's default
settings, which drop members bound to JSON null. The model keeps this:
`OnWire` removes those members, so a null email, password or access token
is absent from the request rather than sent as `null`.

## Model

| member | source | states |
|---|---|---|
| `AzAuth.NormalizeBaseUrl` | src/main/java/fr/mineria/azauth/AzAuth.java:18-19 | the stored URL ends in `/api/auth`; what precedes it is the input minus its trailing `/` if it had one, else the input itself |
| `AzAuth.OneSlashStripped` | src/main/java/fr/mineria/azauth/AzAuth.java:18 | only one trailing slash is removed: `site//` becomes `site/` + `/api/auth` |
| `AzAuth.AzAuth.constructor` | src/main/java/fr/mineria/azauth/AzAuth.java:17-21 | the client stores the normalised URL, with debugging off |
| `AzAuth.AzAuth.WithBaseUrl` | src/main/java/fr/mineria/azauth/AzAuth.java:23-25 | returns a new client holding the normalised URL |
| `AzAuth.AzAuth.Debug` | src/main/java/fr/mineria/azauth/AzAuth.java:27-30 | sets the debug flag to the argument and returns the same client |
| `AzAuth.JsonObject.AddProperty` | src/main/java/fr/mineria/azauth/AzAuth.java:44-47 | the members become `Put` of the old members, with `JsonNull` for a null value |
| `AzAuth.LookupPut` | src/main/java/fr/mineria/azauth/AzAuth.java:44-47 | after adding a property, its key maps to the new value and every other key keeps its value |
| `AzAuth.KeysPut` | src/main/java/fr/mineria/azauth/AzAuth.java:44-47 | adding a property keeps the key order; a new key goes last, an existing key keeps its place |
| `AzAuth.PutFresh` | src/main/java/fr/mineria/azauth/AzAuth.java:43-48 | adding a key that is not yet present appends it |
| `AzAuth.AuthenticateBodyBuilt` | src/main/java/fr/mineria/azauth/AzAuth.java:43-47 | the successive `addProperty` calls append `email`, `password` and `code` in that order, none replacing another |
| `AzAuth.AuthenticateBodyFields` | src/main/java/fr/mineria/azauth/AzAuth.java:43-48 | the `JsonObject` always holds `email` and `password`; it holds `code` exactly when the code is non-null and has a character above U+0020, and then holds it untrimmed; the keys are `email`, `password` and then `code` |
| `AzAuth.AuthenticateBody` | src/main/java/fr/mineria/azauth/AzAuth.java:43-48 | the object has two members, or three when the code is sent; they are `email` and `password` bound to the arguments (JSON null for null), then `code` bound to the untrimmed code |
| `AzAuth.AccessTokenBody` | src/main/java/fr/mineria/azauth/AzAuth.java:56-57 | the `verify` and `logout` object (also built at lines 65-66) has the single key `access_token`, bound to the argument, or JSON null for a null token |
| `AzAuth.OnWire` | src/main/java/fr/mineria/azauth/AzAuth.java:86 | the members `gson.toJson` writes: no JSON null remains, every non-null member is kept, and every member written was in the object |
| `AzAuth.OnWireAppend` | src/main/java/fr/mineria/azauth/AzAuth.java:86 | dropping null members distributes over concatenation, so the written members keep their order |
| `AzAuth.AuthenticateOnWire` | src/main/java/fr/mineria/azauth/AzAuth.java:43-49 | the written `authenticate` body is the email if non-null, then the password if non-null, then the code exactly when it is sent |
| `AzAuth.AccessTokenOnWire` | src/main/java/fr/mineria/azauth/AzAuth.java:56-58 | the written `verify`/`logout` body is `access_token` with the token when it is non-null, and the empty object `{}` for a null token |
| `AzAuth.AzAuth.Authenticate` | src/main/java/fr/mineria/azauth/AzAuth.java:42-51 | the body is built in place and posted to `…/api/auth/authenticate` as written on the wire (null members dropped); the result is the decoded classification of the answer to exactly that request |
| `AzAuth.AzAuth.Verify` | src/main/java/fr/mineria/azauth/AzAuth.java:55-60 | the same for `…/verify` with the access-token body as written on the wire |
| `AzAuth.AzAuth.Logout` | src/main/java/fr/mineria/azauth/AzAuth.java:64-68 | posts the access-token body as written on the wire to `…/logout`; returns normally exactly on a 2xx answer, whatever the body; otherwise it throws what the classification throws |
| `AzAuth.AzAuth.Post` | src/main/java/fr/mineria/azauth/AzAuth.java:72-105 | posts the body, with its null members dropped as `gson.toJson` does, to `baseUrl + path` and returns the classification of the answer to that request |
| `AzAuth.Classify` | src/main/java/fr/mineria/azauth/AzAuth.java:95-105 | 2xx: `null` without JSON expected, an empty object for a blank body, the parsed object, or `[error/json_parse]` with message `Réponse JSON invalide : ` + body and HTTP 0; non-2xx: exactly what `ErrorFromBody` gives for the code and body, thrown (the JSON fields, or `error`/`""`/raw body for a body that is not JSON, or an unchecked exception), always carrying that HTTP code; a transport failure is an `IOException`; a value comes back exactly on 2xx without a parse error |
| `AzAuth.JsonParseError` | src/main/java/fr/mineria/azauth/AzAuth.java:122-128 | a body that does not parse as an object gives status `error`, reason `json_parse`, HTTP status 0, and the message `Réponse JSON invalide : ` followed by the whole body |
| `AzAuth.ErrorFromBody` | src/main/java/fr/mineria/azauth/AzAuth.java:99-104 | a non-JSON body gives status `error`, reason `""` and the raw body as message; a JSON object gives its `status`, `reason` and `message` fields; an unchecked exception exactly when one of the three cannot be read as a string |
| `AzAuth.ParseObject` | src/main/java/fr/mineria/azauth/AzAuth.java:131-138 | an object comes back exactly when the text parses to a JSON object; any other outcome reads as null |
| `AzAuth.GetString` | src/main/java/fr/mineria/azauth/AzAuth.java:140-144 | null exactly when the key is absent or JSON null; a string element comes back verbatim; anything Gson cannot read as a string throws an unchecked exception |
| `AzAuth.AsString` | src/main/java/fr/mineria/azauth/AzAuth.java:143 | `getAsString`: a string is itself; a number is its literal text and a boolean `true` or `false`; null and objects throw; an array is read through its only element and throws otherwise |
| `AzAuth.FromJson` | src/main/java/fr/mineria/azauth/AzAuth.java:50 | errors pass through; a user comes back exactly when decoding succeeds; a failed decode is an unchecked exception |
| `AzAuth.ExceptionText` | src/main/java/fr/mineria/azauth/AzAuth.java:221 | the text handed to `Exception(String)` starts with `[` and the status (`null` for a null one) and ends with ` (HTTP <code>)` |
| `AzAuth.ExceptionTextLayout` | src/main/java/fr/mineria/azauth/AzAuth.java:221 | right after the status comes `/reason] ` when the reason is non-null and non-empty, and `] ` otherwise; between that and ` (HTTP <code>)` stands exactly the message (`null` for a null one) |
| `AzAuth.ExceptionTextEmptyReason` | src/main/java/fr/mineria/azauth/AzAuth.java:221 | a null and an empty reason print alike |
| `AzAuth.ExceptionTextCode` | src/main/java/fr/mineria/azauth/AzAuth.java:221 | the HTTP code can be read back from the end of the text |
| `AzAuth.MaskedToken` | src/main/java/fr/mineria/azauth/AzAuth.java:189 | a present token prints as `****`, a null one as `null` |
| `AzAuth.RoleText` | src/main/java/fr/mineria/azauth/AzAuth.java:201-207 | a null role prints `null`; a role prints `Role{name='<name>', color='<color>'}`, a null name or colour as `null` |
| `AzAuth.UserText` | src/main/java/fr/mineria/azauth/AzAuth.java:178-191 | the text starts with `User{id=<id>` and ends with `, accessToken='****'}` or `, accessToken='null'}` |
| `AzAuth.UserTextHidesToken` | src/main/java/fr/mineria/azauth/AzAuth.java:189 | the printed user is the same whatever non-null access token it holds |
| `JavaText.TrimIsSlice` | src/main/java/fr/mineria/azauth/AzAuth.java:46 | `trim()` returns a slice of its argument that neither starts nor ends with a character at most U+0020, and everything it cuts is such a character |
| `JavaText.BlankIffAllTrimmed` | src/main/java/fr/mineria/azauth/AzAuth.java:46 | `trim().isEmpty()` holds exactly when every character is at most U+0020 |
| `JavaText.DecimalRoundTrip` | src/main/java/fr/mineria/azauth/AzAuth.java:221 | the decimal text of the HTTP code reads back as the same number |
| `JavaText.DecimalTextInjective` | src/main/java/fr/mineria/azauth/AzAuth.java:221 | different HTTP codes never print alike |
| `AuthResult.Success` | src/main/java/fr/mineria/azauth/demo/AuthResult.java:21-23 | status `SUCCESS`, the given type and user, no error message |
| `AuthResult.Failure` | src/main/java/fr/mineria/azauth/demo/AuthResult.java:25-27 | status `FAIL`, the given type and message, no user |
| `AuthManager.PendingAnyCase` | src/main/java/fr/mineria/azauth/demo/AuthManager.java:71-73 | `IsPending2FA` holds exactly when the status is present and is `pending` in any mix of upper and lower case, and the reason is present and is `2fa` in any mix of case |
| `JavaText.EqualsIgnoreCaseLetters` | src/main/java/fr/mineria/azauth/demo/AuthManager.java:72 | `equalsIgnoreCase` against a lower-case literal holds exactly for a non-null text of the same length whose every character is the literal's or its upper-case form |
| `AuthManager.CheckEmailVerification` | src/main/java/fr/mineria/azauth/demo/AuthManager.java:93-101 | null user: `FAIL` with `Utilisateur non trouvé.`; unverified: `EMAIL_UNVERIFIED` with the user and its message; otherwise `SUCCESS` with the user and no message; the type is kept |
| `AuthManager.ExceptionMessage` | src/main/java/fr/mineria/azauth/AzAuth.java:230 | `getMessage()` is the bare message of a service error, or the I/O error's message |
| `AuthManager.Catch` | src/main/java/fr/mineria/azauth/demo/AuthManager.java:30-35 | a checked exception becomes `FAIL` with the given type and the exception's message; an unchecked one still escapes; a returned result is unchanged |
| `AuthManager.NextAnswer` | src/main/java/fr/mineria/azauth/demo/AuthManager.java:53 | the next prompt answer, or a closed dialog once the answers run out |
| `AuthManager.CancelWithoutCall` | src/main/java/fr/mineria/azauth/demo/AuthManager.java:53-56 | a null or blank answer ends the loop with `FAIL(PASSWORD, "2FA annulé par l'utilisateur.")`, makes no call and leaves `currentUser` alone |
| `AuthManager.PendingLoopsBack` | src/main/java/fr/mineria/azauth/demo/AuthManager.java:60-63 | a code refused with the pending signature records that one call and goes back to the prompt with the next answer |
| `AuthManager.SingleCall` | src/main/java/fr/mineria/azauth/demo/AuthManager.java:57-66 | a round that is neither cancelled nor refused as pending makes exactly one call, with the prompted code; a returned user goes through the email gate and becomes `currentUser`; a service error gives `FAIL(PASSWORD, e.getMessage())`; an unchecked or I/O exception escapes the loop; no failure changes `currentUser` |
| `AuthManager.TwoFactorCalls` | src/main/java/fr/mineria/azauth/demo/AuthManager.java:52-68 | the loop keeps earlier calls; its k-th call sends exactly the k-th answer as the code, and that answer is neither null nor blank; it makes at most one call per answer |
| `AuthManager.TwoFactorRefusals` | src/main/java/fr/mineria/azauth/demo/AuthManager.java:60-66 | every call of the loop except the last was refused with the pending signature |
| `AuthManager.TwoFactorUser` | src/main/java/fr/mineria/azauth/demo/AuthManager.java:58 | the loop sets `currentUser` only to the user its last call returned, and otherwise leaves it unchanged |
| `AuthManager.TwoFactorOutcome` | src/main/java/fr/mineria/azauth/demo/AuthManager.java:52-68 | the loop's result is well formed and of type `PASSWORD`; no service error escapes it |
| `AuthManager.TwoFactorRun` | src/main/java/fr/mineria/azauth/demo/AuthManager.java:51-69 | the loop adds at most one call per answer to those already made; a result it returns has type `PASSWORD` |
| `AuthManager.TwoFactorResult` | src/main/java/fr/mineria/azauth/demo/AuthManager.java:52-68 | no call: `FAIL(PASSWORD, "2FA annulé par l'utilisateur.")`; otherwise by the last reply: a user gives the email gate's result for it, a pending refusal gives the cancellation message, any other service error gives `FAIL(PASSWORD, e.getMessage())` verbatim, and an I/O or unchecked exception escapes |
| `AuthManager.NoMethod` | src/main/java/fr/mineria/azauth/demo/AuthManager.java:27-29 | with neither password nor token: `FAIL(UNKNOWN, "Aucune méthode d'authentification disponible.")`, no call, `currentUser` unchanged |
| `AuthManager.PasswordDispatch` | src/main/java/fr/mineria/azauth/demo/AuthManager.java:20-22 | a password takes the password path whether or not a token is also given |
| `AuthManager.PasswordRunCalls` | src/main/java/fr/mineria/azauth/demo/AuthManager.java:38-49 | the password path is the first `authenticate` call, followed by the 2FA loop exactly when that call was refused as pending |
| `AuthManager.PasswordPath` | src/main/java/fr/mineria/azauth/demo/AuthManager.java:38-68 | the first call is `authenticate` without a code, and each later call sends the next prompt answer verbatim; there are at most one call plus one per answer, and a given token changes nothing |
| `AuthManager.PasswordRetriesFollowRefusals` | src/main/java/fr/mineria/azauth/demo/AuthManager.java:42-66 | on the password path every call except the last was refused with the pending signature |
| `AuthManager.TokenPath` | src/main/java/fr/mineria/azauth/demo/AuthManager.java:23-26 | without a password, a token makes exactly one `verify` call; a returned user goes through the email gate with type `ACCESS_TOKEN` and becomes `currentUser`; a checked failure gives `FAIL(ACCESS_TOKEN, message)`; an unchecked one escapes; neither failure changes `currentUser` |
| `AuthManager.FirstAttemptRefused` | src/main/java/fr/mineria/azauth/demo/AuthManager.java:42-47 | a first attempt refused with a checked error other than pending 2FA gives `FAIL(PASSWORD, ex.getMessage())` verbatim after one call |
| `AuthManager.PasswordRunFacts` | src/main/java/fr/mineria/azauth/demo/AuthManager.java:38-68 | the password path ends well formed, with type `PASSWORD`; no service error escapes it; `currentUser` is the user its last call returned, if that call returned one |
| `AuthManager.PasswordRun` | src/main/java/fr/mineria/azauth/demo/AuthManager.java:38-49 | the password path makes at least one call and at most one more than there are answers; a result it returns has type `PASSWORD` |
| `AuthManager.PasswordResult` | src/main/java/fr/mineria/azauth/demo/AuthManager.java:38-68 | the password path's result by its last reply: a user gives the email gate's result, a pending refusal gives the cancellation message, any other service error gives its message verbatim, an I/O or unchecked exception escapes `authenticateWithPassword` |
| `AuthManager.PerformFacts` | src/main/java/fr/mineria/azauth/demo/AuthManager.java:13-36 | every result is well formed (user iff not `FAIL`, that user being `currentUser`; `SUCCESS` iff verified, with no message) and has the type of the path taken; only unchecked exceptions escape; `currentUser` is the user the last call returned, else unchanged |
| `AuthManager.PerformRun` | src/main/java/fr/mineria/azauth/demo/AuthManager.java:13-36 | no call is made exactly when neither a password nor a token is given; a result it returns has the type of the path taken |
| `AuthManager.PerformResult` | src/main/java/fr/mineria/azauth/demo/AuthManager.java:13-68 | neither password nor token: `FAIL(UNKNOWN, …)`; otherwise, with the path's type, by the last reply: a user gives the email gate's result, a service error gives `FAIL(type, e.getMessage())` (the cancellation message for a pending refusal on the password path), an I/O error gives `FAIL(type, its message)`, and an unchecked exception escapes |
| `AuthManager.TwoFactorScenario` | src/main/java/fr/mineria/azauth/demo/AuthManager.java:38-68 | pending refusal, code `000000`, then success: `SUCCESS` after exactly two `authenticate` calls, and `currentUser` is the user |
| `AuthManager.PendingOnlyFromServer` | src/main/java/fr/mineria/azauth/AzAuth.java:95-105 | a pending-2FA exception can only come from a non-2xx JSON-object body and carries that HTTP code; the generic and `json_parse` errors never start the loop |
| `AuthManager.WirePending` | src/main/java/fr/mineria/azauth/AzAuth.java:99-104 | a non-2xx body `{"status":"pending","reason":"2fa","message":m}` becomes the exception that the loop recognises |
| `AuthManager.AuthManager.constructor` | src/main/java/fr/mineria/azauth/demo/AuthManager.java:11 | `currentUser` starts as null |
| `AuthManager.AuthManager.PerformAuthentication` | src/main/java/fr/mineria/azauth/demo/AuthManager.java:13-36 | the result, the calls made and the new `currentUser` are those of `PerformRun` from the old `currentUser` |
| `AuthManager.AuthManager.AuthenticateWithPassword` | src/main/java/fr/mineria/azauth/demo/AuthManager.java:38-49 | the same, against `PasswordRun` |
| `AuthManager.AuthManager.Handle2FA` | src/main/java/fr/mineria/azauth/demo/AuthManager.java:51-69 | the prompt/retry loop ends with the result, calls and `currentUser` of `TwoFactorRun` |

## Left out

- Socket work in `post` and `readAll` is not modelled: opening the
  connection, headers, the UTF-8 write, picking the stream, the
  2048-character read loop and `disconnect`. The exchange is an input.
- The JSON grammar and Gson's reflective decoding are not modelled. They
  are the `Parser` and `Decoder` parameters. Writing the request body as
  text (`gson.toJson`) is left out too; only its dropping of null members is
  modelled, by `OnWire`.
- Debug printing is not modelled; only the `debug` flag is. The debug line
  prints the request body, password and access token included. Only
  `User.toString` masks the token.
- `User.money` is a Java `double`. It is kept as the text `Double.toString`
  gives for it.
- `id` and the HTTP status are Java `int`s. They are unbounded here, because
  no arithmetic is done on them.
- `equalsIgnoreCase` folds only ASCII letters. Java folds all of Unicode.
- The Swing prompt, the error dialog and the progress lines `AuthManager`
  prints with `System.out.println` (AuthManager.java:21, 24, 44, 63) are
  left out. Prompts are a sequence of answers, and the dialog and the
  printing do nothing.
- The 2FA loop has no retry limit in the source. Here it is bounded by the
  answer sequence, so a server that always refuses as pending ends the run
  by cancellation once the answers run out.
- `Demo.java` is not modelled: option parsing, dialogs, `System.exit` and
  the shutdown-hook logout. The orchestrator takes the email, password and
  token as arguments, not as an `OptionSet`.
- `AuthStatus.java` and `AuthType.java` are not part of this model. Their
  constants are taken from their uses.
- The null-user branch of `CheckEmailVerification` is modelled, but the
  orchestrator never reaches it. Gson's `fromJson` never returns null for a
  non-null object.
- `URI.create` and `toURL` in `post` (AzAuth.java:76-77) throw an unchecked
  `IllegalArgumentException` for a malformed URL. This is not modelled: an
  `Exchange` has no outcome for it, so `Post` never yields `Runtime` there.
- A null base URL is not modelled. The source throws a
  `NullPointerException` for it.
