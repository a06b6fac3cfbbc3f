/**
 * The password-recovery page (`app/recuperar-contrasena/page.tsx`): a
 * three-step wizard that first asks the server for a code sent to the
 * user's email, then sends the code with a new password, then offers the way
 * back to the login page.
 */
module RecoverPassword {
  import opened Wrappers
  import opened Records
  import opened Session

  datatype Step = RequestStep | ResetStep | SuccessStep

  /** The answer to either request: the fetch or the JSON decoding threw, or a body arrived. */
  datatype RecoveryReply =
    | Threw
    | Replied(httpOk: bool, message: Option<string>, error: Option<string>)

  /** The requests the page sends, in order. */
  datatype RecoveryCall =
    | ForgotPassword(email: string)
    | ResetPassword(email: string, codigo: string, newPassword: string)

  const MissingEmail := "Por favor ingresa tu correo institucional."
  const CodeFailed := "No se pudo generar el código."
  const CodeSent := "Si el correo está registrado, se ha enviado un código de recuperación."
  const MissingFields := "Completa todos los campos."
  const PasswordTooShort := "La contraseña debe tener al menos 6 caracteres."
  const ResetFailed := "No se pudo actualizar la contraseña."
  const ResetDone := "Contraseña actualizada correctamente."
  const Unexpected := "Ocurrió un error inesperado. Inténtalo de nuevo."

  /** The shortest new password the page sends. */
  const MinPasswordLength := 6

  /** The wizard's order; no handler moves it backwards. */
  function Rank(s: Step): (n: nat)
    ensures n <= 2
    ensures n == 0 <==> s == RequestStep
    ensures n == 2 <==> s == SuccessStep
  {
    match s
    case RequestStep => 0
    case ResetStep => 1
    case SuccessStep => 2
  }

  /**
   * What the reset form rejects before anything is sent: a missing field,
   * then a password shorter than six characters.
   */
  function ResetFormError(email: string, codigo: string, newPassword: string): (e: Option<string>)
    ensures e == Some(MissingFields) <==> email == "" || codigo == "" || newPassword == ""
    ensures e == Some(PasswordTooShort) <==>
      email != "" && codigo != "" && newPassword != "" && |newPassword| < MinPasswordLength
    ensures e.None? <==> email != "" && codigo != "" && |newPassword| >= MinPasswordLength
  {
    if email == "" || codigo == "" || newPassword == "" then Some(MissingFields)
    else if |newPassword| < MinPasswordLength then Some(PasswordTooShort)
    else None
  }

  class RecoverView {
    var step: Step
    var email: string
    var codigo: string
    var newPassword: string
    var loading: bool
    var info: Option<string>
    var error: Option<string>
    var calls: seq<RecoveryCall>
    var navigations: seq<Navigation>

    constructor()
      ensures step == RequestStep && email == "" && codigo == "" && newPassword == ""
      ensures !loading && info == None && error == None && calls == [] && navigations == []
    {
      step := RequestStep;
      email := "";
      codigo := "";
      newPassword := "";
      loading := false;
      info := None;
      error := None;
      calls := [];
      navigations := [];
    }

    method SetEmail(v: string)
      modifies this`email
      ensures email == v
    {
      email := v;
    }

    method SetCodigo(v: string)
      modifies this`codigo
      ensures codigo == v
    {
      codigo := v;
    }

    method SetNewPassword(v: string)
      modifies this`newPassword
      ensures newPassword == v
    {
      newPassword := v;
    }

    /**
     * `handleRequestCode`, reachable only from the first step's form: an empty
     * email is refused without a request; otherwise the code is requested and
     * a success moves the wizard to the reset step.
     */
    method RequestCode(reply: RecoveryReply)
      requires step == RequestStep
      modifies this`step, this`loading, this`info, this`error, this`calls
      ensures email == "" ==>
        error == Some(MissingEmail) && info == None && calls == old(calls)
        && step == RequestStep && loading == old(loading)
      ensures email != "" ==> calls == old(calls) + [ForgotPassword(email)] && !loading
      ensures email != "" && reply.Threw? ==>
        error == Some(Unexpected) && info == None && step == RequestStep
      ensures email != "" && reply.Replied? && !reply.httpOk ==>
        error == Some(OrFallback(reply.error, CodeFailed)) && info == None && step == RequestStep
      ensures email != "" && reply.Replied? && reply.httpOk ==>
        error == None && info == Some(OrFallback(reply.message, CodeSent)) && step == ResetStep
      ensures Rank(old(step)) <= Rank(step)
    {
      error := None;
      info := None;
      if email == "" {
        error := Some(MissingEmail);
        return;
      }
      loading := true;
      calls := calls + [ForgotPassword(email)];
      match reply {
        case Threw =>
          error := Some(Unexpected);
        case Replied(httpOk, message, serverError) =>
          if !httpOk {
            error := Some(OrFallback(serverError, CodeFailed));
          } else {
            info := Some(OrFallback(message, CodeSent));
            step := ResetStep;
          }
      }
      loading := false;
    }

    /**
     * `handleResetPassword`, reachable only from the second step's form:
     * the form checks come first; then the new password is sent and a
     * success moves the wizard to its last step.
     */
    method ResetPasswordSubmit(reply: RecoveryReply)
      requires step == ResetStep
      modifies this`step, this`loading, this`info, this`error, this`calls
      ensures ResetFormError(email, codigo, newPassword).Some? ==>
        error == ResetFormError(email, codigo, newPassword) && info == None
        && calls == old(calls) && step == ResetStep && loading == old(loading)
      ensures ResetFormError(email, codigo, newPassword).None? ==>
        calls == old(calls) + [ResetPassword(email, codigo, newPassword)] && !loading
      ensures ResetFormError(email, codigo, newPassword).None? && reply.Threw? ==>
        error == Some(Unexpected) && info == None && step == ResetStep
      ensures ResetFormError(email, codigo, newPassword).None? && reply.Replied? && !reply.httpOk ==>
        error == Some(OrFallback(reply.error, ResetFailed)) && info == None && step == ResetStep
      ensures ResetFormError(email, codigo, newPassword).None? && reply.Replied? && reply.httpOk ==>
        error == None && info == Some(OrFallback(reply.message, ResetDone)) && step == SuccessStep
      ensures Rank(old(step)) <= Rank(step)
    {
      error := None;
      info := None;
      if email == "" || codigo == "" || newPassword == "" {
        error := Some(MissingFields);
        return;
      }
      if |newPassword| < MinPasswordLength {
        error := Some(PasswordTooShort);
        return;
      }
      loading := true;
      calls := calls + [ResetPassword(email, codigo, newPassword)];
      match reply {
        case Threw =>
          error := Some(Unexpected);
        case Replied(httpOk, message, serverError) =>
          if !httpOk {
            error := Some(OrFallback(serverError, ResetFailed));
          } else {
            info := Some(OrFallback(message, ResetDone));
            step := SuccessStep;
          }
      }
      loading := false;
    }

    /** `goToLogin`: the cancel and finish buttons. */
    method GoToLogin()
      modifies this`navigations
      ensures navigations == old(navigations) + [Push(LoginPath)]
    {
      navigations := navigations + [Push(LoginPath)];
    }
  }
}
