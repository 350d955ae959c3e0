/** The sign-in page: it renders the login form, runs the login call when the
    form submits, reports the outcome in a snackbar, and after a successful
    login schedules a navigation to the dashboard. */
module SignInPage {
  import opened Session
  import opened Text
  import opened LoginFormModel

  const LoginSucceededMessage: string := "Đăng nhập thành công"
  const LoginFailedMessage: string := "Đăng nhập thất bại"
  /** Milliseconds between the success notice and the navigation to the dashboard. */
  const RedirectDelayMs: nat := 500

  datatype Severity = Success | Error

  /** The snackbar record `{ open, message, severity }`. */
  datatype Snackbar = Snackbar(open: bool, message: string, severity: Severity)

  const ClosedSnackbar: Snackbar := Snackbar(false, "", Success)

  /** How the auth service's `login` settles: it resolves, it rejects with an
      `Error` (which carries a message), or it rejects with a value that is not an
      `Error`. */
  datatype LoginOutcome = Resolved | RejectedWithError(message: string) | RejectedWithNonError

  /** The argument of `login`: the username and password only. */
  datatype Credentials = Credentials(username: string, password: string)

  /** The page's side effects, in the order they happen. `LoginCalled` records the
      page's `loading` flag at the moment of the call; `NavigationScheduled` is a
      `setTimeout` that will navigate to `target`, together with the snackbar
      that is showing when it is scheduled. */
  datatype Event =
    | LoginCalled(credentials: Credentials, loading: bool)
    | NavigationScheduled(target: string, delayMs: nat, shown: Snackbar)

  /** The notice the page opens once `login` has settled: green with the success
      text when it resolved; red otherwise, carrying the error's own message for an
      `Error` and the generic failure text for anything else thrown. */
  function Feedback(outcome: LoginOutcome): (s: Snackbar)
    ensures s.open
    ensures s.severity == Success <==> outcome.Resolved?
    ensures s.message == match outcome
                         case Resolved => LoginSucceededMessage
                         case RejectedWithError(m) => m
                         case RejectedWithNonError => LoginFailedMessage
  {
    match outcome
    case Resolved => Snackbar(true, LoginSucceededMessage, Success)
    case RejectedWithError(m) => Snackbar(true, m, Error)
    case RejectedWithNonError => Snackbar(true, LoginFailedMessage, Error)
  }

  /** The side-effect log a page can have produced: every login call ran with
      `loading` set, and every scheduled navigation goes to the dashboard after the
      fixed delay, was scheduled while the success notice was showing, and comes
      right after the login call whose success caused it. */
  ghost predicate WellFormedLog(log: seq<Event>) {
    && (forall i :: 0 <= i < |log| && log[i].LoginCalled? ==> log[i].loading)
    && (forall i :: 0 <= i < |log| && log[i].NavigationScheduled? ==>
          && 0 < i && log[i - 1].LoginCalled?
          && log[i].target == DashboardRoute
          && log[i].delayMs == RedirectDelayMs
          && log[i].shown == Feedback(Resolved))
  }

  /** The number of login calls in `log`. */
  function LoginCalls(log: seq<Event>): nat
  {
    if log == [] then 0
    else LoginCalls(log[..|log| - 1]) + (if log[|log| - 1].LoginCalled? then 1 else 0)
  }

  /** The number of scheduled navigations in `log`. */
  function NavigationsScheduled(log: seq<Event>): nat
  {
    if log == [] then 0
    else NavigationsScheduled(log[..|log| - 1]) + (if log[|log| - 1].NavigationScheduled? then 1 else 0)
  }

  /** In a well-formed log, every scheduled navigation is paid for by its own
      login call, and a log ending in a login call has one call to spare. */
  lemma {:induction false} NavigationsPairWithLogins(log: seq<Event>)
    requires WellFormedLog(log)
    ensures NavigationsScheduled(log) + (if log != [] && log[|log| - 1].LoginCalled? then 1 else 0)
            <= LoginCalls(log)
  {
    if log != [] {
      var init := log[..|log| - 1];
      assert forall i :: 0 <= i < |init| ==> init[i] == log[i];
      NavigationsPairWithLogins(init);
      if log[|log| - 1].NavigationScheduled? {
        assert init[|init| - 1].LoginCalled?;
      }
    }
  }

  /** A page never schedules more navigations to the dashboard than it has made
      login calls: at most one per submission. */
  lemma AtMostOneNavigationPerLogin(log: seq<Event>)
    requires WellFormedLog(log)
    ensures NavigationsScheduled(log) <= LoginCalls(log)
  {
    NavigationsPairWithLogins(log);
  }

  /** Appending one submission's events to a well-formed log keeps it well formed. */
  lemma SubmissionKeepsLogWellFormed(log: seq<Event>, c: Credentials, outcome: LoginOutcome)
    requires WellFormedLog(log)
    ensures WellFormedLog(log + SubmissionEvents(c, outcome))
  {
  }

  /** The events of one run of the submit handler: the login call, made with
      `loading` set, and, only when it resolved, the delayed navigation to the
      dashboard scheduled while the success notice is showing. */
  function SubmissionEvents(c: Credentials, outcome: LoginOutcome): (evs: seq<Event>)
    ensures 1 <= |evs| <= 2
    ensures evs[0] == LoginCalled(c, true)
    ensures |evs| == 2 <==> outcome.Resolved?
    ensures |evs| == 2 ==> evs[1] == NavigationScheduled(DashboardRoute, RedirectDelayMs, Feedback(Resolved))
  {
    [LoginCalled(c, true)]
    + if outcome.Resolved? then [NavigationScheduled(DashboardRoute, RedirectDelayMs, Feedback(outcome))] else []
  }

  class LoginPage {
    var loading: bool
    var snackbar: Snackbar
    var log: seq<Event>

    /** Between handler runs the page is not loading and its log is well formed. */
    ghost predicate Valid()
      reads this
    {
      !loading && WellFormedLog(log)
    }

    /** A freshly mounted page: not loading, snackbar closed with no message and
        the success severity, no side effects yet. */
    constructor ()
      ensures Valid()
      ensures !loading && snackbar == ClosedSnackbar && log == []
    {
      loading := false;
      snackbar := ClosedSnackbar;
      log := [];
    }

    /** The page's submit handler, run to completion with `login` settling as
        `outcome`. It sets `loading` before calling `login` with the username and
        password (the "remember me" flag is dropped); on success it opens the
        success notice and only then schedules the navigation to the dashboard; on
        failure it opens the error notice and schedules nothing; either way
        `loading` is cleared at the end. */
    method HandleSubmit(values: LoginFormValues, outcome: LoginOutcome)
      requires Valid()
      modifies this
      ensures Valid()
      ensures !loading
      ensures snackbar == Feedback(outcome)
      ensures log == old(log) + SubmissionEvents(Credentials(values.username, values.password), outcome)
    {
      var credentials := Credentials(values.username, values.password);
      SubmissionKeepsLogWellFormed(log, credentials, outcome);
      loading := true;
      log := log + [LoginCalled(credentials, loading)];
      match outcome {
        case Resolved =>
          snackbar := Snackbar(true, LoginSucceededMessage, Success);
          log := log + [NavigationScheduled(DashboardRoute, RedirectDelayMs, snackbar)];
        case RejectedWithError(m) =>
          snackbar := Snackbar(true, m, Error);
        case RejectedWithNonError =>
          snackbar := Snackbar(true, LoginFailedMessage, Error);
      }
      loading := false;
    }

    /** Dismissing the snackbar closes it and keeps its message and severity. */
    method HandleCloseSnackbar()
      requires Valid()
      modifies this
      ensures Valid()
      ensures snackbar == old(snackbar).(open := false)
      ensures loading == old(loading) && log == old(log)
    {
      snackbar := snackbar.(open := false);
    }

    /** Whether the login form's submit button is disabled: the page always passes
        its `loading` flag, so exactly while a login is in flight. */
    function SubmitButtonDisabled(): (disabled: bool)
      reads this
      ensures disabled <==> loading
    {
      SubmitDisabled(Some(loading))
    }
  }

  /** A submission from the rendered form, wired as the page wires it: the form
      validates, and only a submission with both fields filled in reaches the
      page's handler and so the `login` call. A rejected submission leaves the
      page untouched; an accepted one makes exactly one login call, with the
      form's untrimmed username and password. */
  method SubmitFromForm(form: LoginForm, page: LoginPage, outcome: LoginOutcome)
    requires form.Valid() && page.Valid()
    modifies form, page
    ensures form.Valid() && page.Valid()
    ensures form.username == old(form.username) && form.password == old(form.password)
    ensures form.remember == old(form.remember)
    ensures form.errors == Validate(form.username, form.password)
    ensures IsBlank(form.username) || IsBlank(form.password) ==>
              page.log == old(page.log) && page.snackbar == old(page.snackbar)
    ensures !IsBlank(form.username) && !IsBlank(form.password) ==>
              && page.log == old(page.log) + SubmissionEvents(Credentials(form.username, form.password), outcome)
              && page.snackbar == Feedback(outcome)
  {
    var submitted := form.Submit(true);
    if submitted.Some? {
      page.HandleSubmit(submitted.value, outcome);
    }
  }
}
