/** `LoginPage`: the login form's request cycle. Submitting sets the page
    loading until the `login` call settles; the call's outcome is an input.
    Toasts and navigations are recorded in order. */
module LoginPage {
  import opened Common

  const HomePath: string := "/"

  /** `location.state?.from?.pathname || "/"`: `fromPath` is `None` when the
      state, its `from` or its `pathname` is missing. */
  function RedirectTarget(fromPath: Option<string>): (target: string)
    ensures fromPath.Some? && fromPath.value != "" ==> target == fromPath.value
    ensures fromPath.None? || fromPath.value == "" ==> target == HomePath
    ensures target != ""
  {
    if fromPath.Some? && fromPath.value != "" then fromPath.value else HomePath
  }

  datatype Toast = SuccessToast(title: string, description: string) | ErrorToast(title: string, description: string)

  const Welcome: Toast := SuccessToast("Zalogowano pomyślnie!", "Witaj z powrotem w Local Trade")
  const LoginFailed: Toast := ErrorToast("Błąd logowania", "Nie udało się połączyć z serwerem.")

  datatype Navigation = Navigation(to: string, replace: bool)

  datatype State = State(isLoading: bool, toasts: seq<Toast>, navigations: seq<Navigation>)

  datatype Event = Submit | Settle(ok: bool)

  /** The page's state after `e`; `from` is the target of a successful
      login. */
  function Apply(s: State, e: Event, from: string): State {
    match e
    case Submit => s.(isLoading := true)
    case Settle(ok) =>
      if ok then State(false, s.toasts + [Welcome], s.navigations + [Navigation(from, true)])
      else State(false, s.toasts + [LoginFailed], s.navigations)
  }

  /** The submit button: disabled and relabelled while the request runs. */
  datatype Button = Button(disabled: bool, caption: string)

  function ButtonOf(isLoading: bool): (b: Button)
    ensures b.disabled <==> isLoading
  {
    if isLoading then Button(true, "Logowanie...") else Button(false, "Zaloguj się")
  }

  /** One submission from an idle page: while the request runs the button is
      disabled and reads "Logowanie..."; afterwards loading is over on both
      paths; success shows the welcome toast and replaces the page with the
      redirect target; failure shows the error toast and navigates nowhere. */
  lemma SubmissionOutcome(s: State, ok: bool, fromPath: Option<string>)
    ensures var during := Apply(s, Submit, RedirectTarget(fromPath));
      && ButtonOf(during.isLoading) == Button(true, "Logowanie...")
      && during.toasts == s.toasts && during.navigations == s.navigations
    ensures var after := Apply(Apply(s, Submit, RedirectTarget(fromPath)), Settle(ok), RedirectTarget(fromPath));
      && !after.isLoading && ButtonOf(after.isLoading) == Button(false, "Zaloguj się")
      && (ok ==> after.toasts == s.toasts + [Welcome]
                 && after.navigations == s.navigations + [Navigation(RedirectTarget(fromPath), true)])
      && (!ok ==> after.toasts == s.toasts + [LoginFailed] && after.navigations == s.navigations)
  {
  }

  /** The page as the component holds it. */
  class Page {
    const from: string
    var isLoading: bool
    var toasts: seq<Toast>
    var navigations: seq<Navigation>

    constructor (fromPath: Option<string>)
      ensures from == RedirectTarget(fromPath)
      ensures Snapshot() == State(false, [], [])
    {
      from := RedirectTarget(fromPath);
      isLoading := false;
      toasts := [];
      navigations := [];
    }

    function Snapshot(): State
      reads this
    {
      State(isLoading, toasts, navigations)
    }

    /** `handleLogin` up to the `await`. */
    method HandleLogin()
      modifies this
      ensures Snapshot() == Apply(old(Snapshot()), Submit, from)
    {
      isLoading := true;
    }

    /** The rest of `handleLogin` once `login` has settled. */
    method LoginSettled(ok: bool)
      modifies this
      ensures Snapshot() == Apply(old(Snapshot()), Settle(ok), from)
    {
      if ok {
        toasts := toasts + [Welcome];
        navigations := navigations + [Navigation(from, true)];
      } else {
        toasts := toasts + [LoginFailed];
      }
      isLoading := false;
    }
  }
}
