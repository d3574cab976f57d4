/**
 * The decision structure of the register and login handlers. The user
 * lookup, the save, the password comparison and token signing are inputs:
 * each awaited step either completes with a value or throws a fault.
 */
module Auth {
  import opened Wrappers

  /** A thrown error as the handlers inspect it: its numeric code, its name and its message. */
  datatype Fault = Fault(code: Option<int>, name: string, message: string)

  /** An awaited step: it completes with a value or throws. */
  datatype Step<T> = Done(value: T) | Threw(fault: Fault)

  /** A JSON reply body: an error message, or a signed token for the given email. */
  datatype Body = Message(msg: string) | Session(token: string, email: string)

  /** An HTTP status with its body. */
  datatype Response = Response(status: nat, body: Body)

  /** A request field or setting passes `!x` only when present and non-empty. */
  predicate Truthy(v: Option<string>)
  {
    v.Some? && |v.value| > 0
  }

  /** MongoDB's duplicate-key error code. */
  const DuplicateKeyCode: int := 11000

  const RegisterFieldsRequired: string := "Name, email, and password are required"
  const LoginFieldsRequired: string := "Email and password are required"
  const SecretNotConfigured: string := "JWT secret is not configured"
  const UserExists: string := "User already exists"
  const EmailRegistered: string := "Email is already registered"
  const InvalidCredentials: string := "Invalid credentials"

  /** `err.message || 'Server error'`. */
  function ServerMessage(f: Fault): (m: string)
    ensures |m| > 0
    ensures |f.message| > 0 ==> m == f.message
    ensures f.message == "" ==> m == "Server error"
  {
    if f.message == "" then "Server error" else f.message
  }

  /** The register handler's catch block: duplicate key first, then validation, then 500. */
  function RegisterFault(f: Fault): (r: Response)
    ensures f.code == Some(DuplicateKeyCode) ==> r == Response(400, Message(EmailRegistered))
    ensures f.code != Some(DuplicateKeyCode) && f.name == "ValidationError" ==> r == Response(400, Message(f.message))
    ensures r.status == 500 <==> f.code != Some(DuplicateKeyCode) && f.name != "ValidationError"
    ensures r.status == 500 ==> r.body == Message(ServerMessage(f))
  {
    if f.code == Some(DuplicateKeyCode) then Response(400, Message(EmailRegistered))
    else if f.name == "ValidationError" then Response(400, Message(f.message))
    else Response(500, Message(ServerMessage(f)))
  }

  /** The register handler. */
  function Register(name: Option<string>, email: Option<string>, password: Option<string>,
                    secret: Option<string>, lookup: Step<bool>, save: Step<()>, token: string): (r: Response)
    ensures !Truthy(name) || !Truthy(email) || !Truthy(password) ==>
      r == Response(400, Message(RegisterFieldsRequired))
    ensures Truthy(name) && Truthy(email) && Truthy(password) && !Truthy(secret) ==>
      r == Response(500, Message(SecretNotConfigured))
    ensures Truthy(name) && Truthy(email) && Truthy(password) && Truthy(secret) && lookup == Done(true) ==>
      r == Response(400, Message(UserExists))
    ensures r.body.Session? <==>
      Truthy(name) && Truthy(email) && Truthy(password) && Truthy(secret) && lookup == Done(false) && save.Done?
    ensures Truthy(name) && Truthy(email) && Truthy(password) && Truthy(secret) && lookup.Threw? ==>
      r == RegisterFault(lookup.fault)
    ensures Truthy(name) && Truthy(email) && Truthy(password) && Truthy(secret) && lookup == Done(false) && save.Threw? ==>
      r == RegisterFault(save.fault)
    ensures r.body.Session? ==> r == Response(201, Session(token, email.value))
    ensures r.status in {201, 400, 500}
  {
    if !Truthy(name) || !Truthy(email) || !Truthy(password) then
      Response(400, Message(RegisterFieldsRequired))
    else if !Truthy(secret) then
      Response(500, Message(SecretNotConfigured))
    else
      match lookup
      case Threw(f) => RegisterFault(f)
      case Done(true) => Response(400, Message(UserExists))
      case Done(false) =>
        match save
        case Threw(f) => RegisterFault(f)
        case Done(_) => Response(201, Session(token, email.value))
  }

  /** A save that loses the race to a concurrent registration is reported differently from a found user. */
  lemma DuplicateOnSaveIsReported(name: string, email: string, password: string, secret: string,
                                  f: Fault, token: string)
    requires |name| > 0 && |email| > 0 && |password| > 0 && |secret| > 0
    requires f.code == Some(DuplicateKeyCode)
    ensures Register(Some(name), Some(email), Some(password), Some(secret), Done(false), Threw(f), token)
         == Response(400, Message(EmailRegistered))
    ensures Register(Some(name), Some(email), Some(password), Some(secret), Done(true), Threw(f), token)
         == Response(400, Message(UserExists))
  {
  }

  /** The login handler's catch block: every fault is a 500. */
  function LoginFault(f: Fault): (r: Response)
    ensures r.status == 500 && r.body.Message? && |r.body.msg| > 0
    ensures |f.message| > 0 ==> r.body == Message(f.message)
    ensures f.message == "" ==> r.body == Message("Server error")
  {
    Response(500, Message(ServerMessage(f)))
  }

  /** The login handler. */
  function Login(email: Option<string>, password: Option<string>, secret: Option<string>,
                 lookup: Step<bool>, compare: Step<bool>, token: string): (r: Response)
    ensures !Truthy(email) || !Truthy(password) ==> r == Response(400, Message(LoginFieldsRequired))
    ensures Truthy(email) && Truthy(password) && !Truthy(secret) ==>
      r == Response(500, Message(SecretNotConfigured))
    ensures r.body.Session? <==>
      Truthy(email) && Truthy(password) && Truthy(secret) && lookup == Done(true) && compare == Done(true)
    ensures Truthy(email) && Truthy(password) && Truthy(secret) && lookup.Threw? ==>
      r == LoginFault(lookup.fault)
    ensures Truthy(email) && Truthy(password) && Truthy(secret) && lookup == Done(true) && compare.Threw? ==>
      r == LoginFault(compare.fault)
    ensures Truthy(email) && Truthy(password) && Truthy(secret)
            && (lookup == Done(false) || (lookup == Done(true) && compare == Done(false))) ==>
      r == Response(400, Message(InvalidCredentials))
    ensures r.body.Session? ==> r == Response(200, Session(token, email.value))
    ensures r.status in {200, 400, 500}
  {
    if !Truthy(email) || !Truthy(password) then
      Response(400, Message(LoginFieldsRequired))
    else if !Truthy(secret) then
      Response(500, Message(SecretNotConfigured))
    else
      match lookup
      case Threw(f) => LoginFault(f)
      case Done(false) => Response(400, Message(InvalidCredentials))
      case Done(true) =>
        match compare
        case Threw(f) => LoginFault(f)
        case Done(false) => Response(400, Message(InvalidCredentials))
        case Done(true) => Response(200, Session(token, email.value))
  }

  /** An unknown email and a wrong password get the identical reply, so neither reveals which it was. */
  lemma UnknownEmailLooksLikeWrongPassword(email: string, password: string, secret: string,
                                           compare: Step<bool>, token: string)
    requires |email| > 0 && |password| > 0 && |secret| > 0
    ensures Login(Some(email), Some(password), Some(secret), Done(false), compare, token)
         == Login(Some(email), Some(password), Some(secret), Done(true), Done(false), token)
    ensures Login(Some(email), Some(password), Some(secret), Done(false), compare, token)
         == Response(400, Message(InvalidCredentials))
  {
  }
}
