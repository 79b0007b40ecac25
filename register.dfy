/**
 * The user registration page (src/pages/Register.tsx): four text fields and
 * a role selector, an ordered validation chain run before any request, the
 * request body, and the message shown for the service's reply.
 */
module Register {
  import opened Optional
  import JsString

  /** The two options of the role selector. */
  datatype Role = User | Admin

  function RoleName(r: Role): string {
    match r
    case User => "user"
    case Admin => "admin"
  }

  /** The JSON body posted to `/api/cadastro_usuario`: four fields, never the confirmation. */
  datatype RegisterBody = RegisterBody(nome: string, login: string, senha: string, permissao: string)

  const MissingFieldsAlert := "Preencha todos os campos"
  const PasswordMismatchAlert := "As senhas não coincidem"
  const SuccessDefault := "Cadastro realizado com sucesso!"
  const ErrorDefault := "Erro ao registrar usuário"
  const ConnectionErrorAlert := "Erro ao conectar com o servidor"

  /**
   * The validation chain: first every field must be filled, then the two
   * passwords must agree. The alert that stops the request, or nothing.
   */
  function Validate(nome: string, login: string, senha: string, confirmarSenha: string): (r: Option<string>)
    ensures r == Some(MissingFieldsAlert) <==> nome == "" || login == "" || senha == "" || confirmarSenha == ""
    ensures r == Some(PasswordMismatchAlert) <==>
      nome != "" && login != "" && senha != "" && confirmarSenha != "" && senha != confirmarSenha
    ensures r.None? <==> nome != "" && login != "" && senha != "" && senha == confirmarSenha
  {
    if !JsString.Truthy(nome) || !JsString.Truthy(login) || !JsString.Truthy(senha) || !JsString.Truthy(confirmarSenha) then
      Some(MissingFieldsAlert)
    else if senha != confirmarSenha then
      Some(PasswordMismatchAlert)
    else
      None
  }

  /** The decoded reply body: `message` and `error` may be missing. */
  datatype ReplyBody = ReplyBody(message: Option<string>, error: Option<string>)

  /** The reply: a status with its decoded body, or a failure (`fetch` rejected or the body was not JSON). */
  datatype Reply = Received(ok: bool, body: ReplyBody) | Failed

  /** `value || fallback` for a possibly missing string. */
  function OrElse(value: Option<string>, fallback: string): (r: string)
    ensures value.Some? && value.value != "" ==> r == value.value
    ensures value.None? || value.value == "" ==> r == fallback
  {
    match value
    case Some(s) => if JsString.Truthy(s) then s else fallback
    case None => fallback
  }

  /** The alert for the reply: the server's text when it sent one, a fixed text otherwise. */
  function ReplyMessage(reply: Reply): (m: string)
    ensures reply.Failed? ==> m == ConnectionErrorAlert
    ensures reply.Received? && reply.ok ==> m == OrElse(reply.body.message, SuccessDefault)
    ensures reply.Received? && !reply.ok ==> m == OrElse(reply.body.error, ErrorDefault)
  {
    match reply
    case Received(ok, body) => if ok then OrElse(body.message, SuccessDefault) else OrElse(body.error, ErrorDefault)
    case Failed => ConnectionErrorAlert
  }

  class RegisterPage {
    var nome: string
    var login: string
    var senha: string
    var confirmarSenha: string
    var permissao: Role

    constructor ()
      ensures nome == "" && login == "" && senha == "" && confirmarSenha == "" && permissao == User
    {
      nome, login, senha, confirmarSenha := "", "", "", "";
      permissao := User;
    }

    method SetNome(value: string)
      modifies this`nome
      ensures nome == value
    {
      nome := value;
    }

    method SetLogin(value: string)
      modifies this`login
      ensures login == value
    {
      login := value;
    }

    method SetSenha(value: string)
      modifies this`senha
      ensures senha == value
    {
      senha := value;
    }

    method SetConfirmarSenha(value: string)
      modifies this`confirmarSenha
      ensures confirmarSenha == value
    {
      confirmarSenha := value;
    }

    method SetPermissao(value: Role)
      modifies this`permissao
      ensures permissao == value
    {
      permissao := value;
    }

    /**
     * `handleRegister`: `reply` is the service's answer if a request is made.
     * Returns the body posted, if any, and the alert shown.
     */
    method HandleRegister(reply: Reply) returns (request: Option<RegisterBody>, alert: string)
      ensures request.None? <==> (nome == "" || login == "" || senha == "" || confirmarSenha == "" || senha != confirmarSenha)
      ensures request.None? ==> alert == Validate(nome, login, senha, confirmarSenha).value
      ensures request.Some? ==> request.value == RegisterBody(nome, login, senha, RoleName(permissao))
      ensures request.Some? ==> alert == ReplyMessage(reply)
    {
      var problem := Validate(nome, login, senha, confirmarSenha);
      if problem.Some? {
        return None, problem.value;
      }
      request := Some(RegisterBody(nome, login, senha, RoleName(permissao)));
      alert := ReplyMessage(reply);
    }
  }
}
