/**
 * The login page (`app/login/page.tsx`): checks that both fields are
 * filled, posts the credentials, reports the server's error, and on success
 * stores the user as the session and goes to the dashboard.
 */
module LoginPage {
  import opened Wrappers
  import opened Records
  import opened Session

  /** The answer to the login request. */
  datatype LoginReply =
    /** The request or the JSON decoding threw. */
    | Threw
    | Replied(httpOk: bool, error: Option<string>, user: Option<StoredUser>)

  datatype Credentials = Credentials(email: string, password: string)

  const MissingFields := "Por favor ingresa correo y contraseña."
  const LoginFailed := "Error al iniciar sesión."
  const Unexpected := "Ocurrió un error inesperado. Inténtalo de nuevo."
  const RecoverPath := "/recuperar-contrasena"

  /** `JSON.stringify(user)`, where a missing user gives `undefined`, which storage keeps as the text "undefined". */
  function StoredText(user: Option<StoredUser>, stringify: StoredUser -> string): string {
    if user.Some? then stringify(user.value) else "undefined"
  }

  class LoginView {
    var email: string
    var password: string
    var loading: bool
    var error: Option<string>
    var requests: seq<Credentials>
    var navigations: seq<Navigation>

    constructor()
      ensures email == "" && password == "" && !loading && error == None && requests == [] && navigations == []
    {
      email := "";
      password := "";
      loading := false;
      error := None;
      requests := [];
      navigations := [];
    }

    method SetEmail(v: string)
      modifies this`email
      ensures email == v
    {
      email := v;
    }

    method SetPassword(v: string)
      modifies this`password
      ensures password == v
    {
      password := v;
    }

    /** `handleSubmit`. */
    method HandleSubmit(slot: SessionSlot, reply: LoginReply, stringify: StoredUser -> string)
      modifies this`loading, this`error, this`requests, this`navigations, slot
      ensures email == "" || password == "" ==>
        error == Some(MissingFields) && requests == old(requests) && loading == old(loading)
        && slot.value == old(slot.value) && navigations == old(navigations)
      ensures email != "" && password != "" ==>
        requests == old(requests) + [Credentials(email, password)] && !loading
      ensures email != "" && password != "" && reply.Threw? ==>
        error == Some(Unexpected) && slot.value == old(slot.value) && navigations == old(navigations)
      ensures email != "" && password != "" && reply.Replied? && !reply.httpOk ==>
        error == Some(OrFallback(reply.error, LoginFailed))
        && slot.value == old(slot.value) && navigations == old(navigations)
      ensures email != "" && password != "" && reply.Replied? && reply.httpOk ==>
        error == None && slot.value == Some(StoredText(reply.user, stringify))
        && navigations == old(navigations) + [Push(HomePath)]
    {
      error := None;
      if email == "" || password == "" {
        error := Some(MissingFields);
        return;
      }
      loading := true;
      requests := requests + [Credentials(email, password)];
      match reply {
        case Threw =>
          error := Some(Unexpected);
        case Replied(httpOk, serverError, user) =>
          if !httpOk {
            error := Some(OrFallback(serverError, LoginFailed));
          } else {
            slot.SetItem(StoredText(user, stringify));
            navigations := navigations + [Push(HomePath)];
          }
      }
      loading := false;
    }

    /** `goToRecover`: the forgotten-password link. */
    method GoToRecover()
      modifies this`navigations
      ensures navigations == old(navigations) + [Push(RecoverPath)]
    {
      navigations := navigations + [Push(RecoverPath)];
    }
  }

  /**
   * A successful login of a user with an email leaves a session that the
   * dashboard and profile checks accept as that same user.
   */
  lemma LoginSessionAccepted(u: StoredUser, parse: string -> ParseResult, stringify: StoredUser -> string)
    requires HasEmail(u)
    requires stringify(u) != "" && parse(stringify(u)) == Object(u)
    ensures Check(Some(StoredText(Some(u), stringify)), parse) == Valid(u)
  {
  }

  /** A success reply without a user stores text that is no session: the next check rejects and clears it. */
  lemma MissingUserRejected(parse: string -> ParseResult)
    requires parse("undefined") == Malformed
    ensures Check(Some(StoredText(None, (u: StoredUser) => "")), parse) == Invalid
  {
  }
}
