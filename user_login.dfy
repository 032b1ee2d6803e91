/** The customer login form: field rules, the login step with its status
    messages, and the forgotten-password link. The e-mail and password rules
    are the sign-up page's. */
module UserLogin {
  import opened Records
  import opened Text
  import opened RoleUtils
  import UserSignup

  datatype LoginField = LoginEmail | LoginPassword

  datatype LoginForm = LoginForm(email: string, password: string)

  function With(form: LoginForm, f: LoginField, value: string): (r: LoginForm)
    ensures f == LoginEmail ==> r.email == value && r.password == form.password
    ensures f == LoginPassword ==> r.password == value && r.email == form.email
  {
    match f
    case LoginEmail => form.(email := value)
    case LoginPassword => form.(password := value)
  }

  function FieldMessage(form: LoginForm, f: LoginField): Option<string>
  {
    match f
    case LoginEmail => UserSignup.EmailMessage(form.email)
    case LoginPassword => UserSignup.PasswordMessage(form.password)
  }

  const AllLoginFields: set<LoginField> := {LoginEmail, LoginPassword}

  lemma AllLoginFieldsListed()
    ensures forall f: LoginField :: f in AllLoginFields
  {
    forall f: LoginField
      ensures f in AllLoginFields
    {
      match f
      case LoginEmail =>
      case LoginPassword =>
    }
  }

  /** `validateForm`'s `newErrors`: a key exactly for each failing field,
      holding that field's message. */
  function LoginErrors(form: LoginForm): (errors: map<LoginField, string>)
    ensures forall f :: f in errors <==> FieldMessage(form, f).Some?
    ensures forall f :: f in errors ==> errors[f] == FieldMessage(form, f).value
  {
    AllLoginFieldsListed();
    map f | f in AllLoginFields && FieldMessage(form, f).Some? :: FieldMessage(form, f).value
  }

  /** The login rules: the e-mail must be non-blank and match the pattern,
      the password must have at least 8 characters; a failing field shows
      "required" for an empty entry, otherwise the format or length message. */
  lemma LoginMessages(form: LoginForm)
    ensures LoginEmail in LoginErrors(form) <==> IsBlank(form.email) || !MatchesEmailPattern(form.email)
    ensures LoginPassword in LoginErrors(form) <==> |form.password| < 8
    ensures LoginEmail in LoginErrors(form) ==>
      (LoginErrors(form)[LoginEmail] == UserSignup.EmailRequired <==> IsBlank(form.email))
    ensures LoginPassword in LoginErrors(form) ==>
      (LoginErrors(form)[LoginPassword] == UserSignup.PasswordRequired <==> form.password == "")
    ensures LoginErrors(form) == map[] <==>
      !IsBlank(form.email) && MatchesEmailPattern(form.email) && |form.password| >= 8
  {
    var errors := LoginErrors(form);
    assert LoginEmail in errors <==> FieldMessage(form, LoginEmail).Some?;
    assert LoginPassword in errors <==> FieldMessage(form, LoginPassword).Some?;
    if errors != map[] {
      var f :| f in errors;
      assert f == LoginEmail || f == LoginPassword;
    }
  }

  /** What the page tells the user after a login attempt. */
  datatype LoginNotice =
    | WelcomeBack
    | InvalidResponse
    | InvalidCredentials
    | AccountNotFound
    | NotVerified
    | LoginFailed
    | NetworkError
    | NoNotice

  /** The status branches of `handleLogin`'s error path. */
  function StatusNotice(status: int): (n: LoginNotice)
    ensures n == InvalidCredentials <==> status == 401
    ensures n == AccountNotFound <==> status == 404
    ensures n == NotVerified <==> status == 403
    ensures n == LoginFailed <==> status !in {401, 403, 404}
  {
    if status == 401 then InvalidCredentials
    else if status == 404 then AccountNotFound
    else if status == 403 then NotVerified
    else LoginFailed
  }

  /** Where the page navigates after the notice, if anywhere. */
  function RedirectAfter(n: LoginNotice): (target: string)
    ensures n == WelcomeBack <==> target == "/"
    ensures n == AccountNotFound <==> target == "/signup"
    ensures target != "" <==> n in {WelcomeBack, AccountNotFound}
  {
    match n
    case WelcomeBack => "/"
    case AccountNotFound => "/signup"
    case _ => ""
  }

  /** The server's answer to the login request. */
  datatype LoginReply = Accepted(hasUser: bool, userData: string) | Refused(status: int) | NoResponse

  /** After a successful login the store holds the customer's record and no
      other role's. */
  lemma LoginLeavesOnlyCustomerRole(entries: map<string, string>, userData: string)
    ensures var r := WithoutOtherRoles(entries, "userData")["userData" := userData];
      && "vendorData" !in r && "adminData" !in r && r["userData"] == userData
      && forall k :: k !in RoleKeys ==> (k in r <==> k in entries)
  {
    var cleared := WithoutOtherRoles(entries, "userData");
    assert "vendorData" in RoleKeys && "adminData" in RoleKeys;
    assert "vendorData" !in cleared && "adminData" !in cleared;
  }

  class LoginPage {
    var form: LoginForm
    var errors: map<LoginField, string>
    var touched: set<LoginField>
    const store: RoleStore

    constructor (store: RoleStore)
      ensures form == LoginForm("", "") && errors == map[] && touched == {} && this.store == store
    {
      form := LoginForm("", "");
      errors := map[];
      touched := {};
      this.store := store;
    }

    /** `handleChange`: set the field, mark it touched, clear its message. */
    method Change(f: LoginField, value: string)
      modifies this`form, this`touched, this`errors
      ensures form == With(old(form), f, value)
      ensures touched == old(touched) + {f}
      ensures f !in errors && forall g :: g != f ==> (g in errors <==> g in old(errors))
      ensures forall g :: g in errors ==> errors[g] == old(errors)[g]
    {
      form := With(form, f, value);
      touched := touched + {f};
      if f in errors {
        errors := errors - {f};
      }
    }

    /** `handleBlur`. */
    method Blur(f: LoginField)
      modifies this`touched, this`errors
      ensures touched == old(touched) + {f} && errors == LoginErrors(form)
    {
      var e := LoginErrors(form);
      errors := e;
      touched := touched + {f};
    }

    /** `validateForm`: store the messages and report whether there are none. */
    method Validate() returns (ok: bool)
      modifies this`errors
      ensures errors == LoginErrors(form)
      ensures ok <==> errors == map[]
    {
      var e := LoginErrors(form);
      errors := e;
      ok := e == map[];
    }

    /** `handleLogin`, given the server's answer: an invalid form sends
        nothing; an answer carrying a user clears the other roles and then
        stores the customer's record under "userData". */
    method Login(reply: LoginReply) returns (sent: bool, notice: LoginNotice, redirect: string)
      modifies this`errors, store
      ensures errors == LoginErrors(form)
      ensures sent <==> errors == map[]
      ensures !(sent && reply.Accepted? && reply.hasUser) ==> store.entries == old(store.entries)
      ensures sent && reply.Accepted? && reply.hasUser ==>
                store.entries == WithoutOtherRoles(old(store.entries), "userData")["userData" := reply.userData]
                && notice == WelcomeBack
      ensures sent && reply.Accepted? && !reply.hasUser ==> notice == InvalidResponse
      ensures sent && reply.Refused? ==> notice == StatusNotice(reply.status)
      ensures sent && reply.NoResponse? ==> notice == NetworkError
      ensures !sent ==> notice == NoNotice
      ensures redirect == (if sent then RedirectAfter(notice) else "")
    {
      sent := Validate();
      notice := NoNotice;
      redirect := "";
      if !sent {
        return;
      }
      match reply {
        case Accepted(hasUser, userData) =>
          if hasUser {
            store.ClearOtherRoles("userData");
            store.SetItem("userData", userData);
            notice := WelcomeBack;
          } else {
            notice := InvalidResponse;
          }
        case Refused(status) =>
          notice := StatusNotice(status);
        case NoResponse =>
          notice := NetworkError;
      }
      redirect := RedirectAfter(notice);
    }

    /** `handleForgotPassword`: the e-mail to carry to the reset page, or
        nothing (no navigation) when the field is empty. */
    method ForgotPassword() returns (carried: Option<string>)
      ensures carried.None? <==> form.email == ""
      ensures carried.Some? ==> carried.value == form.email
    {
      if form.email == "" {
        return None;
      }
      carried := Some(form.email);
    }
  }
}
