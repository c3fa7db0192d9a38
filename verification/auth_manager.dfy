/**
 * `AuthManager`: the authentication orchestrator. It takes the password path
 * when a password is given, the access-token path otherwise, and fails with
 * `UNKNOWN` when there is neither; on the password path a "pending/2fa"
 * service error starts the 2FA loop, which asks for a code and retries until
 * success, a different failure, or cancellation; every user it obtains goes
 * through the email-verification gate.
 *
 * The client calls are answered by a `Server`: its answer to the n-th call
 * (numbered from 0) and that call's request. The Swing prompt is a sequence
 * of answers, `None` standing for a closed dialog; once the sequence is used
 * up every further prompt reads as `None`. The error dialog shown after a
 * rejected code does nothing here.
 */
module AuthManager {
  import opened Wrappers
  import opened JavaText
  import opened AzAuth
  import opened R = AuthResult

  const NO_METHOD := "Aucune méthode d'authentification disponible."
  const CANCELLED := "2FA annulé par l'utilisateur."
  const USER_NOT_FOUND := "Utilisateur non trouvé."
  const EMAIL_NOT_VERIFIED := "L'email de l'utilisateur n'est pas vérifié."

  /** A call to the client: `authenticate(email, password[, code])` or `verify(accessToken)`. */
  datatype Request =
    | Authenticate(email: Option<string>, password: string, code: Option<string>)
    | Verify(accessToken: string)

  /** The client's answer to the n-th call. */
  type Server = (nat, Request) -> Outcome<User>

  /** How one of the orchestrator's methods ended: it returned a result, or a failure escaped it. */
  datatype Flow = Done(result: AuthResult) | Escaped(failure: Thrown)

  /** A finished run: how it ended, the client calls in order, and the final `currentUser`. */
  datatype Run = Run(flow: Flow, calls: seq<Request>, currentUser: Option<User>)

  /** `isPending2FA`: status "pending" and reason "2fa", both ignoring case; false on null. */
  predicate IsPending2FA(e: AzAuthException) {
    EqualsIgnoreCase("pending", e.status) && EqualsIgnoreCase("2fa", e.reason)
  }

  /**
   * The signature letter by letter: a status that spells `pending` and a
   * reason that spells `2fa`, each letter in either case, and nothing else.
   */
  lemma PendingAnyCase(e: AzAuthException)
    ensures IsPending2FA(e) <==>
      e.status.Some? && |e.status.value| == 7
      && (forall i :: 0 <= i < 7 ==> e.status.value[i] == "pending"[i] || e.status.value[i] == "PENDING"[i])
      && e.reason.Some? && |e.reason.value| == 3
      && (forall i :: 0 <= i < 3 ==> e.reason.value[i] == "2fa"[i] || e.reason.value[i] == "2FA"[i])
  {
    assert forall i :: 0 <= i < 7 ==> AsciiUpper("pending"[i]) == "PENDING"[i];
    assert forall i :: 0 <= i < 3 ==> AsciiUpper("2fa"[i]) == "2FA"[i];
    if e.status.Some? {
      EqualsIgnoreCaseLetters("pending", e.status.value);
    }
    if e.reason.Some? {
      EqualsIgnoreCaseLetters("2fa", e.reason.value);
    }
  }

  /** `checkEmailVerification`: the gate every user obtained goes through. */
  function CheckEmailVerification(user: Option<User>, authType: AuthType): (r: AuthResult)
    ensures r.authType == authType
    ensures user.None? ==> r == R.Failure(authType, Some(USER_NOT_FOUND))
    ensures user.Some? && !user.value.emailVerified ==>
      r == R.AuthResult(EMAIL_UNVERIFIED, authType, user, Some(EMAIL_NOT_VERIFIED))
    ensures user.Some? && user.value.emailVerified ==> r == Success(authType, user)
  {
    if user.None? then R.Failure(authType, Some(USER_NOT_FOUND))
    else if !user.value.emailVerified then R.AuthResult(EMAIL_UNVERIFIED, authType, user, Some(EMAIL_NOT_VERIFIED))
    else R.AuthResult(SUCCESS, authType, user, None)
  }

  /** `ex.getMessage()` of a checked exception. */
  function ExceptionMessage(f: Thrown): (r: Option<string>)
    requires !f.Runtime?
    ensures f.Service? ==> r == f.error.message
    ensures f.Io? ==> r == f.ioMessage
  {
    match f
    case Service(e) => e.message
    case Io(m) => m
  }

  /**
   * The `catch (AzAuthException | IOException ex)` of `performAuthentication`:
   * a checked failure becomes a `FAIL` of the given type; an unchecked one
   * passes through.
   */
  function Catch(flow: Flow, authType: AuthType): (r: Flow)
    ensures r.Escaped? <==> flow.Escaped? && flow.failure.Runtime?
    ensures flow.Done? ==> r == flow
    ensures flow.Escaped? && !flow.failure.Runtime? ==>
      r == Done(R.Failure(authType, ExceptionMessage(flow.failure)))
  {
    if flow.Escaped? && !flow.failure.Runtime? then Done(R.Failure(authType, ExceptionMessage(flow.failure)))
    else flow
  }

  /** `promptFor2FA`: the next answer, or a closed dialog once the answers are used up. */
  function NextAnswer(answers: seq<Option<string>>): (r: Option<string>)
    ensures answers != [] ==> r == answers[0]
    ensures answers == [] ==> r.None?
  {
    if answers == [] then None else answers[0]
  }

  /** A prompt answer that cancels the 2FA loop: null or blank. */
  predicate Cancels(answer: Option<string>) {
    answer.None? || IsBlank(answer.value)
  }

  // ======================= Reference definitions =======================

  /** `handle2FA` with the answers still to come, after the calls already made. */
  function TwoFactorRun(email: Option<string>, password: string, answers: seq<Option<string>>,
                        server: Server, calls: seq<Request>, current: Option<User>): (r: Run)
    ensures |calls| <= |r.calls| <= |calls| + |answers|
    ensures r.flow.Done? ==> r.flow.result.authType == PASSWORD
    decreases |answers|
  {
    var code := NextAnswer(answers);
    if Cancels(code) then
      Run(Done(R.Failure(PASSWORD, Some(CANCELLED))), calls, current)
    else
      var request := Authenticate(email, password, code);
      match server(|calls|, request)
      case Ok(u) => Run(Done(CheckEmailVerification(Some(u), PASSWORD)), calls + [request], Some(u))
      case Err(Service(e)) =>
        if IsPending2FA(e) then TwoFactorRun(email, password, answers[1..], server, calls + [request], current)
        else Run(Done(R.Failure(PASSWORD, e.message)), calls + [request], current)
      case Err(f) => Run(Escaped(f), calls + [request], current)
  }

  /** `authenticateWithPassword`. */
  function PasswordRun(email: Option<string>, password: string, answers: seq<Option<string>>,
                       server: Server, current: Option<User>): (r: Run)
    ensures 1 <= |r.calls| <= |answers| + 1
    ensures r.flow.Done? ==> r.flow.result.authType == PASSWORD
  {
    var request := Authenticate(email, password, None);
    match server(0, request)
    case Ok(u) => Run(Done(CheckEmailVerification(Some(u), PASSWORD)), [request], Some(u))
    case Err(Service(e)) =>
      if IsPending2FA(e) then TwoFactorRun(email, password, answers, server, [request], current)
      else Run(Done(R.Failure(PASSWORD, e.message)), [request], current)
    case Err(f) => Run(Escaped(f), [request], current)
  }

  /** `performAuthentication`. */
  function PerformRun(email: Option<string>, password: Option<string>, accessToken: Option<string>,
                      answers: seq<Option<string>>, server: Server, current: Option<User>): (r: Run)
    ensures r.calls == [] <==> password.None? && accessToken.None?
    ensures r.flow.Done? ==>
      r.flow.result.authType == if password.Some? then PASSWORD else if accessToken.Some? then ACCESS_TOKEN else UNKNOWN
  {
    if password.Some? then
      var run := PasswordRun(email, password.value, answers, server, current);
      run.(flow := Catch(run.flow, PASSWORD))
    else if accessToken.Some? then
      var request := Verify(accessToken.value);
      match server(0, request)
      case Ok(u) => Run(Done(CheckEmailVerification(Some(u), ACCESS_TOKEN)), [request], Some(u))
      case Err(f) => Run(Catch(Escaped(f), ACCESS_TOKEN), [request], current)
    else
      Run(Done(R.Failure(UNKNOWN, Some(NO_METHOD))), [], current)
  }

  // ======================= Properties =======================

  /** The n-th call was answered with the pending-2FA service error. */
  predicate PendingReply(server: Server, n: nat, request: Request) {
    var reply := server(n, request);
    reply.Err? && reply.failure.Service? && IsPending2FA(reply.failure.error)
  }

  /** `currentUser` after the given calls: the user the last call returned, if it returned one. */
  function UserAfter(server: Server, calls: seq<Request>, current: Option<User>): Option<User> {
    if calls != [] && server(|calls| - 1, calls[|calls| - 1]).Ok? then
      Some(server(|calls| - 1, calls[|calls| - 1]).value)
    else current
  }

  /** The server's reply to the last of the calls. */
  function LastReply(server: Server, calls: seq<Request>): Outcome<User>
    requires calls != []
  {
    server(|calls| - 1, calls[|calls| - 1])
  }

  /**
   * What every finished result satisfies: a user exactly when it is not a
   * failure, that user being `currentUser`; `SUCCESS` exactly for a verified
   * email, with no message; `EMAIL_UNVERIFIED` with its fixed message.
   */
  predicate WellFormed(run: Run) {
    run.flow.Done? ==>
      var r := run.flow.result;
      (r.user.Some? <==> r.status != FAIL)
      && (r.status != FAIL ==> r.user == run.currentUser && (r.status == SUCCESS <==> r.user.value.emailVerified))
      && (r.status == SUCCESS ==> r.errorMessage.None?)
      && (r.status == EMAIL_UNVERIFIED ==> r.errorMessage == Some(EMAIL_NOT_VERIFIED))
  }

  /** A null or blank answer in the loop cancels it without another call. */
  lemma CancelWithoutCall(email: Option<string>, password: string, answers: seq<Option<string>>,
                          server: Server, calls: seq<Request>, current: Option<User>)
    requires Cancels(NextAnswer(answers))
    ensures TwoFactorRun(email, password, answers, server, calls, current)
         == Run(Done(R.Failure(PASSWORD, Some(CANCELLED))), calls, current)
  {
  }

  /** A refused code whose error is the pending-2FA signature sends the loop back to the prompt. */
  lemma PendingLoopsBack(email: Option<string>, password: string, answers: seq<Option<string>>,
                         server: Server, calls: seq<Request>, current: Option<User>)
    requires !Cancels(NextAnswer(answers))
    requires PendingReply(server, |calls|, Authenticate(email, password, NextAnswer(answers)))
    ensures answers != []
    ensures TwoFactorRun(email, password, answers, server, calls, current)
         == TwoFactorRun(email, password, answers[1..], server,
                         calls + [Authenticate(email, password, answers[0])], current)
  {
  }

  /**
   * A loop round that neither cancels nor is refused with pending 2FA makes
   * exactly one call and ends the loop: an accepted code goes through the
   * email gate and becomes `currentUser`; any other service error is
   * `FAIL(PASSWORD, message)`; an I/O or unchecked exception escapes.
   */
  lemma SingleCall(email: Option<string>, password: string, answers: seq<Option<string>>,
                   server: Server, calls: seq<Request>, current: Option<User>)
    requires !Cancels(NextAnswer(answers))
    requires !PendingReply(server, |calls|, Authenticate(email, password, NextAnswer(answers)))
    ensures var run := TwoFactorRun(email, password, answers, server, calls, current);
      var reply := server(|calls|, Authenticate(email, password, NextAnswer(answers)));
      run.calls == calls + [Authenticate(email, password, NextAnswer(answers))]
      && (reply.Ok? ==>
            run.flow == Done(CheckEmailVerification(Some(reply.value), PASSWORD)) && run.currentUser == Some(reply.value))
      && (reply.Err? && reply.failure.Service? ==>
            run.flow == Done(R.Failure(PASSWORD, reply.failure.error.message)) && run.currentUser == current)
      && (reply.Err? && !reply.failure.Service? ==> run.flow == Escaped(reply.failure) && run.currentUser == current)
  {
  }

  /** The k-th of `added` sends the k-th answer as the code, that answer being neither null nor blank. */
  predicate CallsFollow(email: Option<string>, password: string, answers: seq<Option<string>>, added: seq<Request>) {
    |added| <= |answers|
    && forall k :: 0 <= k < |added| ==> !Cancels(answers[k]) && added[k] == Authenticate(email, password, answers[k])
  }

  /** Calls that follow the remaining answers, after one made with the first answer, follow all the answers. */
  lemma CallsFollowCons(email: Option<string>, password: string, answers: seq<Option<string>>,
                        calls: seq<Request>, all: seq<Request>)
    requires answers != [] && !Cancels(answers[0])
    requires var calls' := calls + [Authenticate(email, password, answers[0])];
      |calls'| <= |all| && all[..|calls'|] == calls' && CallsFollow(email, password, answers[1..], all[|calls'|..])
    ensures |calls| <= |all| && all[..|calls|] == calls && CallsFollow(email, password, answers, all[|calls|..])
  {
    var added := all[|calls|..];
    var added' := all[|calls| + 1..];
    assert all[..|calls|] == all[..|calls| + 1][..|calls|];
    assert added == [Authenticate(email, password, answers[0])] + added' by {
      assert added[0] == all[|calls|] == all[..|calls| + 1][|calls|];
      assert added[1..] == added';
    }
    forall k | 0 <= k < |added|
      ensures !Cancels(answers[k]) && added[k] == Authenticate(email, password, answers[k])
    {
      if k > 0 {
        assert added[k] == added'[k - 1];
        assert answers[1..][k - 1] == answers[k];
      }
    }
  }

  /**
   * The 2FA loop keeps the calls already made, and the k-th call it adds
   * sends the k-th answer as the code, that answer being neither null nor
   * blank.
   */
  lemma {:induction false} TwoFactorCalls(email: Option<string>, password: string, answers: seq<Option<string>>,
                                          server: Server, calls: seq<Request>, current: Option<User>)
    ensures var run := TwoFactorRun(email, password, answers, server, calls, current);
      |calls| <= |run.calls| && run.calls[..|calls|] == calls
      && CallsFollow(email, password, answers, run.calls[|calls|..])
    decreases |answers|
  {
    var code := NextAnswer(answers);
    var request := Authenticate(email, password, code);
    var run := TwoFactorRun(email, password, answers, server, calls, current);
    if Cancels(code) {
      assert run.calls == calls;
    } else if PendingReply(server, |calls|, request) {
      PendingLoopsBack(email, password, answers, server, calls, current);
      var calls' := calls + [request];
      TwoFactorCalls(email, password, answers[1..], server, calls', current);
      CallsFollowCons(email, password, answers, calls, TwoFactorRun(email, password, answers[1..], server, calls', current).calls);
    } else {
      assert run.calls == calls + [request];
      assert run.calls[|calls|..] == [request];
    }
  }

  /** Every call the 2FA loop adds, but the last, was refused with the pending-2FA error. */
  lemma {:induction false} TwoFactorRefusals(email: Option<string>, password: string, answers: seq<Option<string>>,
                                             server: Server, calls: seq<Request>, current: Option<User>)
    ensures var run := TwoFactorRun(email, password, answers, server, calls, current);
      forall k :: |calls| <= k < |run.calls| - 1 ==> PendingReply(server, k, run.calls[k])
    decreases |answers|
  {
    var code := NextAnswer(answers);
    var request := Authenticate(email, password, code);
    var run := TwoFactorRun(email, password, answers, server, calls, current);
    if Cancels(code) {
      assert run.calls == calls;
    } else if PendingReply(server, |calls|, request) {
      PendingLoopsBack(email, password, answers, server, calls, current);
      var calls' := calls + [request];
      TwoFactorRefusals(email, password, answers[1..], server, calls', current);
      TwoFactorCalls(email, password, answers[1..], server, calls', current);
      var next := TwoFactorRun(email, password, answers[1..], server, calls', current);
      assert run == next;
      assert run.calls[|calls|] == calls'[|calls|] == request;
    } else {
      assert run.calls == calls + [request];
    }
  }

  /** The loop changes `currentUser` only when its last call returned a user, and then to that user. */
  lemma {:induction false} TwoFactorUser(email: Option<string>, password: string, answers: seq<Option<string>>,
                                         server: Server, calls: seq<Request>, current: Option<User>)
    ensures var run := TwoFactorRun(email, password, answers, server, calls, current);
      run.currentUser == if |run.calls| == |calls| then current else UserAfter(server, run.calls, current)
    decreases |answers|
  {
    var code := NextAnswer(answers);
    var request := Authenticate(email, password, code);
    var run := TwoFactorRun(email, password, answers, server, calls, current);
    if Cancels(code) {
      assert run.calls == calls;
    } else if PendingReply(server, |calls|, request) {
      PendingLoopsBack(email, password, answers, server, calls, current);
      var calls' := calls + [request];
      TwoFactorUser(email, password, answers[1..], server, calls', current);
      TwoFactorCalls(email, password, answers[1..], server, calls', current);
      var next := TwoFactorRun(email, password, answers[1..], server, calls', current);
      assert run == next;
      if |next.calls| == |calls'| {
        assert next.calls == calls';
        assert !server(|calls|, request).Ok?;
      }
    } else {
      assert run.calls == calls + [request];
    }
  }

  /** The loop's result is well formed and of type `PASSWORD`; no service error escapes it. */
  lemma {:induction false} TwoFactorOutcome(email: Option<string>, password: string, answers: seq<Option<string>>,
                                            server: Server, calls: seq<Request>, current: Option<User>)
    ensures var run := TwoFactorRun(email, password, answers, server, calls, current);
      WellFormed(run)
      && (run.flow.Done? ==> run.flow.result.authType == PASSWORD)
      && (run.flow.Escaped? ==> !run.flow.failure.Service?)
    decreases |answers|
  {
    var code := NextAnswer(answers);
    var request := Authenticate(email, password, code);
    if !Cancels(code) && PendingReply(server, |calls|, request) {
      PendingLoopsBack(email, password, answers, server, calls, current);
      TwoFactorOutcome(email, password, answers[1..], server, calls + [request], current);
    }
  }

  /**
   * How the loop ends is decided by the reply to its last call: an accepted
   * code goes through the email gate; another service error gives
   * `FAIL(PASSWORD, message)`; an I/O or unchecked exception escapes. A loop
   * that makes no call, or whose last call was refused as pending, was
   * cancelled.
   */
  lemma {:induction false} TwoFactorResult(email: Option<string>, password: string, answers: seq<Option<string>>,
                                           server: Server, calls: seq<Request>, current: Option<User>)
    ensures var run := TwoFactorRun(email, password, answers, server, calls, current);
      (|run.calls| == |calls| ==> run.flow == Done(R.Failure(PASSWORD, Some(CANCELLED))))
      && (|run.calls| > |calls| ==>
            var reply := LastReply(server, run.calls);
            (reply.Ok? ==> run.flow == Done(CheckEmailVerification(Some(reply.value), PASSWORD)))
            && (reply.Err? && reply.failure.Service? ==>
                  run.flow == Done(R.Failure(PASSWORD, if IsPending2FA(reply.failure.error) then Some(CANCELLED)
                                                       else reply.failure.error.message)))
            && (reply.Err? && !reply.failure.Service? ==> run.flow == Escaped(reply.failure)))
    decreases |answers|
  {
    var code := NextAnswer(answers);
    var request := Authenticate(email, password, code);
    var run := TwoFactorRun(email, password, answers, server, calls, current);
    if Cancels(code) {
      CancelWithoutCall(email, password, answers, server, calls, current);
    } else if PendingReply(server, |calls|, request) {
      PendingLoopsBack(email, password, answers, server, calls, current);
      var calls' := calls + [request];
      TwoFactorResult(email, password, answers[1..], server, calls', current);
      var next := TwoFactorRun(email, password, answers[1..], server, calls', current);
      assert run == next;
      if |next.calls| == |calls'| {
        assert LastReply(server, run.calls) == server(|calls|, request);
      }
    } else {
      SingleCall(email, password, answers, server, calls, current);
      assert LastReply(server, run.calls) == server(|calls|, request);
    }
  }

  /** No password and no token: `FAIL(UNKNOWN)` with no call and `currentUser` untouched. */
  lemma NoMethod(email: Option<string>, answers: seq<Option<string>>, server: Server, current: Option<User>)
    ensures PerformRun(email, None, None, answers, server, current)
         == Run(Done(R.Failure(UNKNOWN, Some(NO_METHOD))), [], current)
  {
  }

  /** The password path makes the calls `authenticateWithPassword` makes, whatever the token. */
  lemma PasswordDispatch(email: Option<string>, password: string, accessToken: Option<string>,
                         answers: seq<Option<string>>, server: Server, current: Option<User>)
    ensures var run := PerformRun(email, Some(password), accessToken, answers, server, current);
      run == PerformRun(email, Some(password), None, answers, server, current)
      && run.calls == PasswordRun(email, password, answers, server, current).calls
      && run.currentUser == PasswordRun(email, password, answers, server, current).currentUser
  {
  }

  /** `authenticateWithPassword` is the first call followed by the 2FA loop, or that call alone. */
  lemma PasswordRunCalls(email: Option<string>, password: string, answers: seq<Option<string>>,
                         server: Server, current: Option<User>)
    ensures var request := Authenticate(email, password, None);
      PasswordRun(email, password, answers, server, current).calls
        == if PendingReply(server, 0, request) then TwoFactorRun(email, password, answers, server, [request], current).calls
           else [request]
  {
  }

  /**
   * A password always wins over a token. The first call is `authenticate`
   * without a code; each later call sends exactly the next prompt answer,
   * which is neither null nor blank.
   */
  lemma PasswordPath(email: Option<string>, password: string, accessToken: Option<string>,
                     answers: seq<Option<string>>, server: Server, current: Option<User>)
    ensures var run := PerformRun(email, Some(password), accessToken, answers, server, current);
      run == PerformRun(email, Some(password), None, answers, server, current)
      && 1 <= |run.calls| <= |answers| + 1
      && run.calls[0] == Authenticate(email, password, None)
      && forall k :: 0 <= k < |run.calls| - 1 ==>
           !Cancels(answers[k]) && run.calls[1..][k] == Authenticate(email, password, answers[k])
  {
    var request := Authenticate(email, password, None);
    PasswordDispatch(email, password, accessToken, answers, server, current);
    PasswordRunCalls(email, password, answers, server, current);
    if PendingReply(server, 0, request) {
      TwoFactorCalls(email, password, answers, server, [request], current);
    }
  }

  /** On the password path, every call but the last was refused with the pending-2FA error. */
  lemma PasswordRetriesFollowRefusals(email: Option<string>, password: string, accessToken: Option<string>,
                                      answers: seq<Option<string>>, server: Server, current: Option<User>)
    ensures var run := PerformRun(email, Some(password), accessToken, answers, server, current);
      forall k :: 0 <= k < |run.calls| - 1 ==> PendingReply(server, k, run.calls[k])
  {
    var request := Authenticate(email, password, None);
    PasswordDispatch(email, password, accessToken, answers, server, current);
    PasswordRunCalls(email, password, answers, server, current);
    if PendingReply(server, 0, request) {
      TwoFactorCalls(email, password, answers, server, [request], current);
      TwoFactorRefusals(email, password, answers, server, [request], current);
    }
  }

  /**
   * Without a password, a token leads to exactly one `verify` call; an
   * accepted token goes through the email gate with type `ACCESS_TOKEN` and
   * becomes `currentUser`; a checked failure is `FAIL(ACCESS_TOKEN, message)`
   * and an unchecked one escapes, both leaving `currentUser` alone.
   */
  lemma TokenPath(email: Option<string>, accessToken: string, answers: seq<Option<string>>,
                  server: Server, current: Option<User>)
    ensures var run := PerformRun(email, None, Some(accessToken), answers, server, current);
      run.calls == [Verify(accessToken)]
      && (run.flow.Done? ==> run.flow.result.authType == ACCESS_TOKEN)
      && (server(0, Verify(accessToken)).Ok? ==>
            run.flow == Done(CheckEmailVerification(Some(server(0, Verify(accessToken)).value), ACCESS_TOKEN))
            && run.currentUser == Some(server(0, Verify(accessToken)).value))
      && (server(0, Verify(accessToken)).Err? && !server(0, Verify(accessToken)).failure.Runtime? ==>
            run.flow == Done(R.Failure(ACCESS_TOKEN, ExceptionMessage(server(0, Verify(accessToken)).failure)))
            && run.currentUser == current)
      && (server(0, Verify(accessToken)) == Err(Runtime) ==>
            run.flow == Escaped(Runtime) && run.currentUser == current)
  {
  }

  /** A first attempt refused for any reason but pending 2FA fails with the exception's own message. */
  lemma FirstAttemptRefused(email: Option<string>, password: string, accessToken: Option<string>,
                            answers: seq<Option<string>>, server: Server, current: Option<User>)
    requires server(0, Authenticate(email, password, None)).Err?
    requires var f := server(0, Authenticate(email, password, None)).failure;
      !f.Runtime? && !(f.Service? && IsPending2FA(f.error))
    ensures var run := PerformRun(email, Some(password), accessToken, answers, server, current);
      run == Run(Done(R.Failure(PASSWORD, ExceptionMessage(server(0, Authenticate(email, password, None)).failure))),
                 [Authenticate(email, password, None)], current)
  {
  }

  /**
   * `authenticateWithPassword` ends well formed, with type `PASSWORD`; no
   * service error escapes it, and `currentUser` is the user its last call
   * returned, if that call returned one.
   */
  lemma PasswordRunFacts(email: Option<string>, password: string, answers: seq<Option<string>>,
                         server: Server, current: Option<User>)
    ensures var run := PasswordRun(email, password, answers, server, current);
      WellFormed(run)
      && (run.flow.Done? ==> run.flow.result.authType == PASSWORD)
      && (run.flow.Escaped? ==> !run.flow.failure.Service?)
      && run.currentUser == UserAfter(server, run.calls, current)
  {
    var request := Authenticate(email, password, None);
    if PendingReply(server, 0, request) {
      TwoFactorCalls(email, password, answers, server, [request], current);
      TwoFactorUser(email, password, answers, server, [request], current);
      TwoFactorOutcome(email, password, answers, server, [request], current);
      var run := TwoFactorRun(email, password, answers, server, [request], current);
      assert PasswordRun(email, password, answers, server, current) == run;
      if |run.calls| == 1 {
        assert run.calls == [request];
      }
    }
  }

  /**
   * `authenticateWithPassword` ends as the reply to its last call decides:
   * an accepted call goes through the email gate; a service error other than
   * pending 2FA gives `FAIL(PASSWORD, message)`, and a last call refused as
   * pending means the prompt was then cancelled; an I/O or unchecked
   * exception escapes.
   */
  lemma PasswordResult(email: Option<string>, password: string, answers: seq<Option<string>>,
                       server: Server, current: Option<User>)
    ensures var run := PasswordRun(email, password, answers, server, current);
      var reply := LastReply(server, run.calls);
      (reply.Ok? ==> run.flow == Done(CheckEmailVerification(Some(reply.value), PASSWORD)))
      && (reply.Err? && reply.failure.Service? ==>
            run.flow == Done(R.Failure(PASSWORD, if IsPending2FA(reply.failure.error) then Some(CANCELLED)
                                                 else reply.failure.error.message)))
      && (reply.Err? && !reply.failure.Service? ==> run.flow == Escaped(reply.failure))
  {
    var request := Authenticate(email, password, None);
    var run := PasswordRun(email, password, answers, server, current);
    if PendingReply(server, 0, request) {
      TwoFactorResult(email, password, answers, server, [request], current);
      assert run == TwoFactorRun(email, password, answers, server, [request], current);
      if |run.calls| == 1 {
        TwoFactorCalls(email, password, answers, server, [request], current);
        assert run.calls == [request];
      }
    } else {
      assert run.calls == [request];
    }
  }

  /**
   * `performAuthentication` ends as the reply to the last call decides, with
   * the type of the path taken: an accepted call goes through the email
   * gate; a service error gives `FAIL` with its message (on the password
   * path, a last refusal as pending means the prompt was cancelled); an
   * `IOException` gives `FAIL` with its message; an unchecked exception
   * escapes. With neither password nor token no call is made.
   */
  lemma PerformResult(email: Option<string>, password: Option<string>, accessToken: Option<string>,
                      answers: seq<Option<string>>, server: Server, current: Option<User>)
    ensures var run := PerformRun(email, password, accessToken, answers, server, current);
      (password.None? && accessToken.None? ==> run.flow == Done(R.Failure(UNKNOWN, Some(NO_METHOD))))
      && (password.Some? || accessToken.Some? ==>
            var authType := if password.Some? then PASSWORD else ACCESS_TOKEN;
            var reply := LastReply(server, run.calls);
            (reply.Ok? ==> run.flow == Done(CheckEmailVerification(Some(reply.value), authType)))
            && (reply.Err? && reply.failure.Service? ==>
                  run.flow == Done(R.Failure(authType,
                    if password.Some? && IsPending2FA(reply.failure.error) then Some(CANCELLED)
                    else reply.failure.error.message)))
            && (reply.Err? && reply.failure.Io? ==> run.flow == Done(R.Failure(authType, reply.failure.ioMessage)))
            && (reply.Err? && reply.failure.Runtime? ==> run.flow == Escaped(Runtime)))
  {
    if password.Some? {
      PasswordResult(email, password.value, answers, server, current);
    }
  }

  /**
   * Every finished result is well formed and has the type of the path taken;
   * only an unchecked exception escapes; `currentUser` is the user the last
   * call returned, if it returned one, and is otherwise left as it was.
   */
  lemma PerformFacts(email: Option<string>, password: Option<string>, accessToken: Option<string>,
                     answers: seq<Option<string>>, server: Server, current: Option<User>)
    ensures var run := PerformRun(email, password, accessToken, answers, server, current);
      WellFormed(run)
      && (run.flow.Escaped? ==> run.flow.failure.Runtime?)
      && (run.flow.Done? ==>
            run.flow.result.authType == if password.Some? then PASSWORD else if accessToken.Some? then ACCESS_TOKEN else UNKNOWN)
      && run.currentUser == UserAfter(server, run.calls, current)
  {
    if password.Some? {
      PasswordRunFacts(email, password.value, answers, server, current);
    }
  }

  /**
   * First call refused with pending 2FA, code "000000" entered, second call
   * accepted: `SUCCESS` after exactly two `authenticate` calls.
   */
  lemma TwoFactorScenario(email: Option<string>, password: string, bob: User, current: Option<User>)
    requires bob.emailVerified
    ensures var pending := AzAuthException(Some("pending"), Some("2fa"), Some("code required"), 401);
      var server: Server := (n: nat, request: Request) => if n == 0 then Err(Service(pending)) else Ok(bob);
      PerformRun(email, Some(password), None, [Some("000000")], server, current)
        == Run(Done(Success(PASSWORD, Some(bob))),
               [Authenticate(email, password, None), Authenticate(email, password, Some("000000"))],
               Some(bob))
  {
    var pending := AzAuthException(Some("pending"), Some("2fa"), Some("code required"), 401);
    assert IsPending2FA(pending) by {
      assert LowerAscii("pending") == "pending";
      assert LowerAscii("2fa") == "2fa";
    }
    BlankIffAllTrimmed("000000");
    assert !IsTrimmed("000000"[0]);
  }

  /**
   * The 2FA loop starts only on the server's own signature: a pending-2FA
   * exception from the client comes from a non-2xx answer whose body is a
   * JSON object, never from the generic or the `json_parse` errors.
   */
  lemma PendingOnlyFromServer(exchange: Exchange, expectJson: bool, parse: Parser, e: AzAuthException)
    requires Classify(exchange, expectJson, parse) == Err(Service(e))
    requires IsPending2FA(e)
    ensures exchange.Response? && !IsSuccess(exchange.status)
    ensures ParseObject(exchange.body, parse).Some? && e.httpStatus == exchange.status
  {
    assert |LowerAscii("json_parse")| != |LowerAscii("2fa")|;
    assert |LowerAscii("")| != |LowerAscii("2fa")|;
  }

  /** The wire form of the 2FA challenge becomes an exception the loop recognises. */
  lemma WirePending(status: int, body: string, message: string, parse: Parser, decode: Decoder)
    requires !IsSuccess(status)
    requires parse(body) == Some(JObject(map["status" := JString("pending"), "reason" := JString("2fa"),
                                             "message" := JString(message)]))
    ensures var e := AzAuthException(Some("pending"), Some("2fa"), Some(message), status);
      FromJson(Classify(Response(status, body), true, parse), decode) == Err(Service(e))
      && IsPending2FA(e)
  {
    assert LowerAscii("pending") == "pending";
    assert LowerAscii("2fa") == "2fa";
  }

  // ======================= The orchestrator =======================

  /** The static state of `AuthManager`: the user of the last successful call. */
  class AuthManager {
    var currentUser: Option<User>

    constructor ()
      ensures currentUser.None?
    {
      currentUser := None;
    }

    method PerformAuthentication(email: Option<string>, password: Option<string>, accessToken: Option<string>,
                                 answers: seq<Option<string>>, server: Server)
      returns (flow: Flow, calls: seq<Request>)
      modifies this
      ensures Run(flow, calls, currentUser) == PerformRun(email, password, accessToken, answers, server, old(currentUser))
    {
      if password.Some? {
        var inner;
        inner, calls := AuthenticateWithPassword(email, password.value, answers, server);
        flow := Catch(inner, PASSWORD);
      } else if accessToken.Some? {
        var request := Verify(accessToken.value);
        calls := [request];
        match server(0, request)
        case Ok(u) =>
          currentUser := Some(u);
          flow := Done(CheckEmailVerification(currentUser, ACCESS_TOKEN));
        case Err(f) =>
          flow := Catch(Escaped(f), ACCESS_TOKEN);
      } else {
        flow := Done(R.Failure(UNKNOWN, Some(NO_METHOD)));
        calls := [];
      }
    }

    method AuthenticateWithPassword(email: Option<string>, password: string,
                                    answers: seq<Option<string>>, server: Server)
      returns (flow: Flow, calls: seq<Request>)
      modifies this
      ensures Run(flow, calls, currentUser) == PasswordRun(email, password, answers, server, old(currentUser))
    {
      var request := Authenticate(email, password, None);
      calls := [request];
      match server(0, request)
      case Ok(u) =>
        currentUser := Some(u);
        flow := Done(CheckEmailVerification(currentUser, PASSWORD));
      case Err(Service(e)) =>
        if IsPending2FA(e) {
          flow, calls := Handle2FA(email, password, answers, server, calls);
        } else {
          flow := Done(R.Failure(PASSWORD, e.message));
        }
      case Err(f) =>
        flow := Escaped(f);
    }

    /** The 2FA loop: prompt, retry with the code, and go round again while the code is refused. */
    method Handle2FA(email: Option<string>, password: string, answers: seq<Option<string>>,
                     server: Server, callsBefore: seq<Request>)
      returns (flow: Flow, calls: seq<Request>)
      modifies this
      ensures Run(flow, calls, currentUser) == TwoFactorRun(email, password, answers, server, callsBefore, old(currentUser))
    {
      var i := 0;
      calls := callsBefore;
      while true
        invariant i <= |answers|
        invariant TwoFactorRun(email, password, answers[i..], server, calls, currentUser)
               == TwoFactorRun(email, password, answers, server, callsBefore, old(currentUser))
        decreases |answers| - i
      {
        var code := if i < |answers| then answers[i] else None;
        assert code == NextAnswer(answers[i..]);
        if code.None? || IsBlank(code.value) {
          flow := Done(R.Failure(PASSWORD, Some(CANCELLED)));
          return;
        }
        var request := Authenticate(email, password, code);
        var reply := server(|calls|, request);
        calls := calls + [request];
        match reply
        case Ok(u) =>
          currentUser := Some(u);
          flow := Done(CheckEmailVerification(currentUser, PASSWORD));
          return;
        case Err(Service(e)) =>
          if IsPending2FA(e) {
            assert answers[i..][1..] == answers[i + 1..];
            i := i + 1;
          } else {
            flow := Done(R.Failure(PASSWORD, e.message));
            return;
          }
        case Err(f) =>
          flow := Escaped(f);
          return;
      }
    }
  }
}
