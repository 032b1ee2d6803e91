/** The customer sign-up form: field rules, the submit step and how a
    rejected sign-up is reported. */
module UserSignup {
  import opened Records
  import opened Text
  import opened RoleUtils

  datatype SignupField = Username | Email | Password | ConfirmPassword

  datatype SignupForm = SignupForm(username: string, email: string, password: string, confirmPassword: string)

  const EmptySignupForm := SignupForm("", "", "", "")

  function Get(form: SignupForm, f: SignupField): string
  {
    match f
    case Username => form.username
    case Email => form.email
    case Password => form.password
    case ConfirmPassword => form.confirmPassword
  }

  /** `{...form, [name]: value}`. */
  function With(form: SignupForm, f: SignupField, value: string): (r: SignupForm)
    ensures forall g :: Get(r, g) == if g == f then value else Get(form, g)
  {
    match f
    case Username => form.(username := value)
    case Email => form.(email := value)
    case Password => form.(password := value)
    case ConfirmPassword => form.(confirmPassword := value)
  }

  const UsernameRequired := "Username is required"
  const UsernameTooShort := "Username must be at least 3 characters"
  const EmailRequired := "Email is required"
  const EmailInvalid := "Please enter a valid email"
  const PasswordRequired := "Password is required"
  const PasswordTooShort := "Password must be at least 8 characters"
  const ConfirmRequired := "Please confirm your password"
  const PasswordsDiffer := "Passwords do not match"
  const EmailRegistered := "Email already registered"
  const UsernameTaken := "Username already taken"

  function UsernameMessage(username: string): (m: Option<string>)
    ensures m.Some? <==> IsBlank(username) || |username| < 3
    ensures m == Some(UsernameRequired) <==> IsBlank(username)
    ensures m.Some? ==> m.value in {UsernameRequired, UsernameTooShort}
  {
    if Trim(username) == "" then Some(UsernameRequired)
    else if |username| < 3 then Some(UsernameTooShort)
    else None
  }

  function EmailMessage(email: string): (m: Option<string>)
    ensures m.Some? <==> IsBlank(email) || !MatchesEmailPattern(email)
    ensures m == Some(EmailRequired) <==> IsBlank(email)
    ensures m.Some? ==> m.value in {EmailRequired, EmailInvalid}
  {
    EmailPatternIff(email);
    if Trim(email) == "" then Some(EmailRequired)
    else if !ValidEmail(email) then Some(EmailInvalid)
    else None
  }

  function PasswordMessage(password: string): (m: Option<string>)
    ensures m.Some? <==> |password| < 8
    ensures m == Some(PasswordRequired) <==> password == ""
    ensures m.Some? ==> m.value in {PasswordRequired, PasswordTooShort}
  {
    if password == "" then Some(PasswordRequired)
    else if |password| < 8 then Some(PasswordTooShort)
    else None
  }

  function ConfirmMessage(password: string, confirmPassword: string): (m: Option<string>)
    ensures m.Some? <==> confirmPassword == "" || password != confirmPassword
    ensures m == Some(ConfirmRequired) <==> confirmPassword == ""
    ensures m.Some? ==> m.value in {ConfirmRequired, PasswordsDiffer}
  {
    if confirmPassword == "" then Some(ConfirmRequired)
    else if password != confirmPassword then Some(PasswordsDiffer)
    else None
  }

  /** The rule of one field; "required" wins over the length, format or
      match message in each. */
  function FieldMessage(form: SignupForm, f: SignupField): Option<string>
  {
    match f
    case Username => UsernameMessage(form.username)
    case Email => EmailMessage(form.email)
    case Password => PasswordMessage(form.password)
    case ConfirmPassword => ConfirmMessage(form.password, form.confirmPassword)
  }

  const AllSignupFields: set<SignupField> := {Username, Email, Password, ConfirmPassword}

  lemma AllFieldsListed()
    ensures forall f: SignupField :: f in AllSignupFields
  {
    forall f: SignupField
      ensures f in AllSignupFields
    {
      match f
      case Username =>
      case Email =>
      case Password =>
      case ConfirmPassword =>
    }
  }

  /** `validateForm`'s `newErrors`: a key exactly for each failing field,
      holding that field's message. */
  function SignupErrors(form: SignupForm): (errors: map<SignupField, string>)
    ensures forall f :: f in errors <==> FieldMessage(form, f).Some?
    ensures forall f :: f in errors ==> errors[f] == FieldMessage(form, f).value
  {
    AllFieldsListed();
    map f | f in AllSignupFields && FieldMessage(form, f).Some? :: FieldMessage(form, f).value
  }

  /** A form passes exactly when every rule holds. */
  lemma SignupValidIff(form: SignupForm)
    ensures SignupErrors(form) == map[] <==>
      && !IsBlank(form.username) && |form.username| >= 3
      && !IsBlank(form.email) && MatchesEmailPattern(form.email)
      && |form.password| >= 8 && form.confirmPassword == form.password
  {
    var errors := SignupErrors(form);
    var u, e := UsernameMessage(form.username), EmailMessage(form.email);
    var p, c := PasswordMessage(form.password), ConfirmMessage(form.password, form.confirmPassword);
    assert FieldMessage(form, Username) == u && FieldMessage(form, Email) == e;
    assert FieldMessage(form, Password) == p && FieldMessage(form, ConfirmPassword) == c;
    if errors == map[] {
      assert Username !in errors && Email !in errors && Password !in errors && ConfirmPassword !in errors;
    } else {
      var f :| f in errors;
      assert FieldMessage(form, f).Some?;
      match f
      case Username => assert u.Some?;
      case Email => assert e.Some?;
      case Password => assert p.Some?;
      case ConfirmPassword => assert c.Some?;
    }
  }

  /** The response body of a rejected request, as far as the message goes. */
  datatype Body = NoBody | TextBody(text: string) | ObjectBody(message: string, error: string)

  datatype SignupFailure =
    | Response(status: int, statusText: string, body: Body)
    | NoResponse
    | Unexpected

  /** `(data?.message || data?.error || data || "User already exists")`,
      turned into a string and lower-cased; an object without a message
      prints as "[object Object]". */
  function ErrorText(body: Body): (r: string)
    ensures r != "" && Lower(r) == r
    ensures body.NoBody? ==> r == "user already exists"
  {
    match body
    case NoBody => Lower("User already exists")
    case TextBody(t) => if t != "" then Lower(t) else Lower("User already exists")
    case ObjectBody(m, e) =>
      if m != "" then Lower(m) else if e != "" then Lower(e) else Lower("[object Object]")
  }

  /** What the page tells the user after submitting. */
  datatype SignupNotice =
    | Welcome
    | EmailTakenNotice
    | UsernameTakenNotice
    | AccountExists
    | InvalidInput
    | Failed(statusText: string)
    | NetworkError
    | UnexpectedError
    | NoNotice

  /** The error branches of `handleSignup`. */
  function Classify(failure: SignupFailure): (n: SignupNotice)
    ensures n == EmailTakenNotice <==>
              failure.Response? && failure.status == 409 && Contains(ErrorText(failure.body), "email")
    ensures n == UsernameTakenNotice <==>
              && failure.Response? && failure.status == 409
              && !Contains(ErrorText(failure.body), "email") && Contains(ErrorText(failure.body), "username")
    ensures n == AccountExists <==>
              && failure.Response? && failure.status == 409
              && !Contains(ErrorText(failure.body), "email") && !Contains(ErrorText(failure.body), "username")
    ensures n == InvalidInput <==> failure.Response? && failure.status == 400
    ensures n.Failed? <==> failure.Response? && failure.status != 409 && failure.status != 400
    ensures n.Failed? ==> n.statusText == failure.statusText
    ensures n == NetworkError <==> failure.NoResponse?
    ensures n == UnexpectedError <==> failure.Unexpected?
  {
    match failure
    case Response(status, statusText, body) =>
      var text := ErrorText(body);
      if status == 409 then
        if Contains(text, "email") then EmailTakenNotice
        else if Contains(text, "username") then UsernameTakenNotice
        else AccountExists
      else if status == 400 then InvalidInput
      else Failed(statusText)
    case NoResponse => NetworkError
    case Unexpected => UnexpectedError
  }

  /** Where the page navigates after the notice, if anywhere. */
  function RedirectAfter(n: SignupNotice): (target: string)
    ensures target != "" <==> n in {Welcome, EmailTakenNotice, AccountExists}
  {
    match n
    case Welcome => "/"
    case EmailTakenNotice => "/user-login"
    case AccountExists => "/user-login"
    case _ => ""
  }

  /** The field errors a conflict notice adds on top of `base`. */
  function ConflictErrors(base: map<SignupField, string>, n: SignupNotice): (r: map<SignupField, string>)
    ensures n == EmailTakenNotice ==> r == base[Email := EmailRegistered]
    ensures n == UsernameTakenNotice ==> r == base[Username := UsernameTaken]
    ensures n != EmailTakenNotice && n != UsernameTakenNotice ==> r == base
  {
    if n == EmailTakenNotice then base[Email := EmailRegistered]
    else if n == UsernameTakenNotice then base[Username := UsernameTaken]
    else base
  }

  /** The server's answer to the sign-up request. */
  datatype SignupReply = Created(hasUser: bool, userData: string) | Rejected(failure: SignupFailure)

  class SignupPage {
    var form: SignupForm
    /** Field messages; a field without a key shows nothing. */
    var errors: map<SignupField, string>
    var touched: set<SignupField>
    const store: RoleStore

    constructor (store: RoleStore)
      ensures form == EmptySignupForm && errors == map[] && touched == {} && this.store == store
    {
      form := EmptySignupForm;
      errors := map[];
      touched := {};
      this.store := store;
    }

    /** `handleChange`: set the field, mark it touched, clear its message. */
    method Change(f: SignupField, value: string)
      modifies this`form, this`touched, this`errors
      ensures form == With(old(form), f, value)
      ensures touched == old(touched) + {f}
      ensures f !in errors && forall g :: g != f ==> (g in errors <==> g in old(errors))
      ensures forall g :: g in errors ==> errors[g] == old(errors)[g]
    {
      form := With(form, f, value);
      touched := touched + {f};
      if f in errors {
        errors := errors - {f};
      }
    }

    /** `handleBlur`. */
    method Blur(f: SignupField)
      modifies this`touched, this`errors
      ensures touched == old(touched) + {f} && errors == SignupErrors(form)
    {
      touched := touched + {f};
      errors := SignupErrors(form);
    }

    /** `validateForm`: store the messages and report whether there are none. */
    method Validate() returns (ok: bool)
      modifies this`errors
      ensures errors == SignupErrors(form)
      ensures ok <==> errors == map[]
    {
      errors := SignupErrors(form);
      ok := errors == map[];
    }

    /** `handleSignup`, given the server's answer: an invalid form sends
        nothing; a created account is stored under "userData"; a conflict
        shows its field message beside the freshly validated ones (none).
        The page as written adds it to the messages captured before this
        submit instead; see StaleMessageAfterConflict. */
    method Submit(reply: SignupReply) returns (sent: bool, notice: SignupNotice, redirect: string)
      modifies this`errors, store
      ensures sent <==> SignupErrors(form) == map[]
      ensures !sent ==> errors == SignupErrors(form) && store.entries == old(store.entries)
      ensures sent && reply.Created? && reply.hasUser ==>
                store.entries == old(store.entries)["userData" := reply.userData]
                && notice == Welcome && errors == map[]
      ensures sent && reply.Created? && !reply.hasUser ==>
                store.entries == old(store.entries) && errors == map[] && notice == NoNotice
      ensures sent && reply.Rejected? ==>
                && notice == Classify(reply.failure)
                && store.entries == old(store.entries)
                && errors == (if notice in {EmailTakenNotice, UsernameTakenNotice}
                              then CorrectedConflictErrors(form, notice) else map[])
      ensures sent ==> redirect == RedirectAfter(notice)
      ensures !sent ==> notice == NoNotice && redirect == ""
    {
      var ok := Validate();
      notice := NoNotice;
      redirect := "";
      if !ok {
        sent := false;
        return;
      }
      sent := true;
      match reply {
        case Created(hasUser, userData) =>
          if hasUser {
            store.SetItem("userData", userData);
            notice := Welcome;
          }
        case Rejected(failure) =>
          notice := Classify(failure);
          if notice == EmailTakenNotice || notice == UsernameTakenNotice {
            errors := CorrectedConflictErrors(form, notice);
          }
      }
      redirect := RedirectAfter(notice);
    }
  }

  /** As written, a message from an earlier check survives a successful
      validation: the passwords below match, yet after an e-mail conflict the
      page again says they do not. */
  lemma StaleMessageAfterConflict()
    ensures var form := SignupForm("alice", "a@b.co", "password1", "password1");
      var before := map[ConfirmPassword := PasswordsDiffer];
      && SignupErrors(form) == map[]
      && ConflictErrors(before, EmailTakenNotice)[ConfirmPassword] == PasswordsDiffer
  {
    var form := SignupForm("alice", "a@b.co", "password1", "password1");
    assert !IsBlank(form.username) by { assert !IsSpace(form.username[0]); }
    assert !IsBlank(form.email) by { assert !IsSpace(form.email[0]); }
    assert EmailSplit(form.email, 1, 3);
    SignupValidIff(form);
  }

  /** The intended messages after a conflict: the freshly validated ones plus
      the conflict's own. */
  function CorrectedConflictErrors(form: SignupForm, n: SignupNotice): (r: map<SignupField, string>)
    requires SignupErrors(form) == map[]
    ensures n == EmailTakenNotice ==> r == map[Email := EmailRegistered]
    ensures n == UsernameTakenNotice ==> r == map[Username := UsernameTaken]
    ensures forall f :: f in r ==> r[f] in {EmailRegistered, UsernameTaken}
  {
    ConflictErrors(SignupErrors(form), n)
  }
}
