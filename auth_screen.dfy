/** The sign-in / sign-up screen: the form rules checked before any call, the
    toast each outcome of the remote call produces, and the busy flag and
    password-visibility toggle. */
module AuthScreen {
  import opened Optional
  import opened Text
  import opened Rules
  import opened AuthContext

  // ---------------------------------------------------------------- form rules

  const ProfileTypeNames: seq<string> := ["faculdade", "concurso", "oab", "advogado"]

  /** The sign-up form's fields; `profileType` is `None` until one is chosen. */
  datatype SignUpData = SignUpData(email: string, password: string, fullName: string, profileType: Option<string>)

  datatype SignInData = SignInData(email: string, password: string)

  /** The problems the form schemas report. */
  datatype Issue =
    | BadEmail          // "Email inválido"
    | ShortPassword     // "Senha deve ter pelo menos 6 caracteres"
    | ShortName         // "Nome deve ter pelo menos 2 caracteres"
    | MissingProfile    // "Selecione seu foco de estudos"
    | UnknownProfile    // a value outside the four, reported by the schema library
    | MissingPassword   // "Senha é obrigatória"

  /** The message shown under the field; the schema library words the last
      profile problem itself. */
  function IssueMessage(i: Issue): Option<string> {
    match i
    case BadEmail => Some("Email inválido")
    case ShortPassword => Some("Senha deve ter pelo menos 6 caracteres")
    case ShortName => Some("Nome deve ter pelo menos 2 caracteres")
    case MissingProfile => Some("Selecione seu foco de estudos")
    case UnknownProfile => None
    case MissingPassword => Some("Senha é obrigatória")
  }

  /** The sign-up schema's findings in field order. `emailOk` is the schema
      library's e-mail format check. */
  function SignUpIssues(d: SignUpData, emailOk: bool): (issues: seq<Issue>)
    ensures |issues| <= 4
    ensures issues == [] <==>
      emailOk && |d.password| >= 6 && |d.fullName| >= 2 && d.profileType.Some?
      && d.profileType.value in ProfileTypeNames
  {
    (if emailOk then [] else [BadEmail])
    + (if |d.password| >= 6 then [] else [ShortPassword])
    + (if |d.fullName| >= 2 then [] else [ShortName])
    + (if d.profileType.None? then [MissingProfile]
       else if d.profileType.value in ProfileTypeNames then [] else [UnknownProfile])
  }

  /** Each problem is reported exactly when its rule is broken, so the form is
      accepted exactly when all four rules hold, and a profile accepted by the
      form is one the context's normalisation keeps. */
  lemma SignUpRules(d: SignUpData, emailOk: bool)
    ensures BadEmail in SignUpIssues(d, emailOk) <==> !emailOk
    ensures ShortPassword in SignUpIssues(d, emailOk) <==> |d.password| < 6
    ensures ShortName in SignUpIssues(d, emailOk) <==> |d.fullName| < 2
    ensures MissingProfile in SignUpIssues(d, emailOk) <==> d.profileType.None?
    ensures UnknownProfile in SignUpIssues(d, emailOk) <==>
      d.profileType.Some? && d.profileType.value !in ProfileTypeNames
    ensures MissingPassword !in SignUpIssues(d, emailOk)
    ensures SignUpIssues(d, emailOk) == [] <==>
      emailOk && |d.password| >= 6 && |d.fullName| >= 2 && d.profileType.Some?
      && NormaliseProfileType(d.profileType).Some?
  {
  }

  /** The sign-in schema's findings in field order. */
  function SignInIssues(d: SignInData, emailOk: bool): (issues: seq<Issue>)
    ensures |issues| <= 2
    ensures issues == [] <==> emailOk && d.password != ""
  {
    (if emailOk then [] else [BadEmail]) + (if |d.password| >= 1 then [] else [MissingPassword])
  }

  lemma SignInRules(d: SignInData, emailOk: bool)
    ensures SignInIssues(d, emailOk) == [] <==> emailOk && d.password != ""
    ensures MissingPassword in SignInIssues(d, emailOk) <==> d.password == ""
    ensures forall i | i in SignInIssues(d, emailOk) :: i == BadEmail || i == MissingPassword
  {
  }

  // ---------------------------------------------------------------- toasts

  datatype Toast = Toast(title: string, description: string, destructive: bool)

  const UserExists := Toast("Usuário já existe", "Este email já está cadastrado. Tente fazer login.", true)
  const ServerError := Toast("Erro no servidor", "Problema temporário no servidor. Tente novamente em alguns instantes.", true)
  const InvalidEmail := Toast("Email inválido", "Por favor, verifique o formato do seu email.", true)
  const InvalidPassword := Toast("Senha inválida", "A senha deve ter pelo menos 6 caracteres.", true)
  const SignUpFailed := Toast("Erro no cadastro", "Verifique seus dados e tente novamente.", true)
  const SignUpDone := Toast("Cadastro realizado!", "Sua conta foi criada com sucesso.", false)
  const Unexpected := Toast("Erro inesperado", "Tente novamente em alguns instantes.", true)
  const BadCredentials := Toast("Credenciais inválidas", "Email ou senha incorretos.", true)

  /** The sign-up handler's classification of the returned error message.
      Success is the one toast that is not destructive, and it appears
      exactly when no error came back. */
  function SignUpToast(error: Option<string>): (t: Toast)
    ensures t == SignUpDone <==> error.None?
    ensures t.destructive <==> error.Some?
    ensures error.Some? && Contains(error.value, "already registered") ==> t == UserExists
  {
    if error.None? then SignUpDone
    else
      var m := error.value;
      if Contains(m, "already registered") || Contains(m, "User already registered") then UserExists
      else if Contains(m, "Database error") then ServerError
      else if Contains(m, "Invalid email") then InvalidEmail
      else if Contains(m, "Password") then InvalidPassword
      else SignUpFailed
  }

  /** The same cascade as data: one rule per toast, tried in order. */
  const SignUpToastRules: seq<Rule<Toast>> := [
    Rule([], [["already registered"], ["User already registered"]], UserExists),
    Rule([], [["Database error"]], ServerError),
    Rule([], [["Invalid email"]], InvalidEmail),
    Rule([], [["Password"]], InvalidPassword)
  ]

  /** Each rule of the table fires exactly on its branch's test. */
  lemma SignUpToastRulesMatchTests(m: string)
    ensures Fires(SignUpToastRules[0], 0, m) <==>
      Contains(m, "already registered") || Contains(m, "User already registered")
    ensures Fires(SignUpToastRules[1], 0, m) <==> Contains(m, "Database error")
    ensures Fires(SignUpToastRules[2], 0, m) <==> Contains(m, "Invalid email")
    ensures Fires(SignUpToastRules[3], 0, m) <==> Contains(m, "Password")
  {
    FiresUnfolded(SignUpToastRules[0], 0, m);
    FiresUnfolded(SignUpToastRules[1], 0, m);
    FiresUnfolded(SignUpToastRules[2], 0, m);
    FiresUnfolded(SignUpToastRules[3], 0, m);
  }

  /** The classification is the first rule of the table that fires, and the
      generic failure when none does. */
  lemma SignUpToastByTable(m: string)
    ensures SignUpToast(Some(m)) == Select(SignUpToastRules, 0, m, SignUpFailed)
  {
    SignUpToastRulesMatchTests(m);
    var rules := SignUpToastRules;
    var k := FirstFiring(rules, 0, m);
    FirstFiringUnique(rules, 0, m, k);
  }

  /** `includes` is transitive: what occurs in a slice of `s` occurs in `s`. */
  lemma ContainsTransitive(s: string, t: string, u: string)
    requires Contains(s, t) && Contains(t, u)
    ensures Contains(s, u)
  {
    var i :| 0 <= i <= |s| - |t| && OccursAt(s, t, i);
    var j :| 0 <= j <= |t| - |u| && OccursAt(t, u, j);
    forall k | 0 <= k < |u| ensures s[i + j + k] == u[k] {
      assert t[j + k] == u[k];
      assert s[i + j + k] == t[j + k];
    }
    assert s[i + j..i + j + |u|] == u;
    assert OccursAt(s, u, i + j);
  }

  /** The second test of the first branch never decides anything: a message
      containing "User already registered" contains "already registered". */
  lemma LongerRegisteredTestSubsumed(m: string)
    requires Contains(m, "User already registered")
    ensures Contains(m, "already registered")
  {
    assert OccursAt("User already registered", "already registered", 5);
    ContainsTransitive(m, "User already registered", "already registered");
  }

  lemma UnexpectedMessageLacks(c: char)
    requires c == 'g' || c == 'b' || c == 'I' || c == 'P'
    ensures c !in UnexpectedSignUpMessage
  {
    assert c !in "Erro inesperado ";
    assert c !in "durante o cadastro. ";
    assert c !in "Tente novamente.";
  }

  /** An exception inside the context's sign-up reaches the screen as an
      error whose message matches no keyword, so the user sees the generic
      failure, not the screen's own "unexpected" toast. */
  lemma SignUpExceptionGivesGenericToast()
    ensures SignUpResult(Threw).error.Some?
    ensures SignUpToast(SignUpResult(Threw).error) == SignUpFailed
  {
    var m := UnexpectedSignUpMessage;
    UnexpectedMessageLacks('g');
    UnexpectedMessageLacks('b');
    UnexpectedMessageLacks('I');
    UnexpectedMessageLacks('P');
    MissingCharNotContained(m, "already registered", 'g');
    MissingCharNotContained(m, "User already registered", 'g');
    MissingCharNotContained(m, "Database error", 'b');
    MissingCharNotContained(m, "Invalid email", 'I');
    MissingCharNotContained(m, "Password", 'P');
  }

  /** The sign-in handler: no toast on success, the credentials toast for
      that message, and otherwise the raw message. */
  function SignInToast(error: Option<string>): (t: Option<Toast>)
    ensures t.None? <==> error.None?
    ensures t.Some? ==> t.value.destructive
    ensures error.Some? && Contains(error.value, "Invalid login credentials") ==> t == Some(BadCredentials)
    ensures error.Some? && !Contains(error.value, "Invalid login credentials") ==>
      t == Some(Toast("Erro no login", error.value, true))
  {
    if error.None? then None
    else if Contains(error.value, "Invalid login credentials") then Some(BadCredentials)
    else Some(Toast("Erro no login", error.value, true))
  }

  // ---------------------------------------------------------------- screen state

  class AuthForm {
    var isLoading: bool
    var showPassword: bool

    constructor ()
      ensures !isLoading && !showPassword
    {
      isLoading := false;
      showPassword := false;
    }

    /** The eye button. */
    method ToggleShowPassword()
      modifies this
      ensures showPassword == !old(showPassword) && isLoading == old(isLoading)
    {
      showPassword := !showPassword;
    }

    /** The start of either handler, before the remote call. */
    method BeginSubmit()
      modifies this
      ensures isLoading && showPassword == old(showPassword)
    {
      isLoading := true;
    }

    /** The rest of `handleSignUp` once the call has ended: its toast, and the
        `finally` that ends loading on every path. */
    method FinishSignUp(call: Call) returns (toast: Toast)
      modifies this
      ensures !isLoading && showPassword == old(showPassword)
      ensures toast == if call.Threw? then Unexpected else SignUpToast(call.error)
    {
      match call {
        case Returned(error) => toast := SignUpToast(error);
        case Threw => toast := Unexpected;
      }
      isLoading := false;
    }

    method FinishSignIn(call: Call) returns (toast: Option<Toast>)
      modifies this
      ensures !isLoading && showPassword == old(showPassword)
      ensures toast == if call.Threw? then Some(Unexpected) else SignInToast(call.error)
    {
      match call {
        case Returned(error) => toast := SignInToast(error);
        case Threw => toast := Some(Unexpected);
      }
      isLoading := false;
    }

    /** Submitting the sign-up form: a form with problems is not sent and shows
        no toast; a valid one goes through the context's `signUp` (whose own
        handler catches what the backend throws) and ends with loading off. */
    method SubmitSignUp(d: SignUpData, emailOk: bool, backend: Call) returns (issues: seq<Issue>, toast: Option<Toast>)
      modifies this
      ensures issues == SignUpIssues(d, emailOk)
      ensures issues != [] ==> toast == None && isLoading == old(isLoading)
      ensures issues == [] ==> !isLoading && toast == Some(SignUpToast(SignUpResult(backend).error))
      ensures showPassword == old(showPassword)
    {
      issues := SignUpIssues(d, emailOk);
      toast := None;
      if issues == [] {
        BeginSubmit();
        var t := FinishSignUp(SignUpResult(backend));
        toast := Some(t);
      }
    }

    method SubmitSignIn(d: SignInData, emailOk: bool, backend: Call) returns (issues: seq<Issue>, toast: Option<Toast>)
      modifies this
      ensures issues == SignInIssues(d, emailOk)
      ensures issues != [] ==> toast == None && isLoading == old(isLoading)
      ensures issues == [] ==>
        !isLoading && toast == (if backend.Threw? then Some(Unexpected) else SignInToast(backend.error))
      ensures showPassword == old(showPassword)
    {
      issues := SignInIssues(d, emailOk);
      toast := None;
      if issues == [] {
        BeginSubmit();
        toast := FinishSignIn(SignInResult(backend));
      }
    }
  }
}
