/** The sign-in page (`src/pages/auth/Login.jsx`): a form of e-mail, password and "remember me",
    checked against fixed development credentials. A match marks the browser as signed in and opens
    the dashboard; anything else shows an alert. */
module LoginPage {
  import opened Js
  import opened Browser

  const DevEmail := "admin@example.com"
  const DevPassword := "admin123"
  const InvalidText := "Invalid credentials! Use admin@example.com / admin123"
  /** `JSON.stringify({ name: 'Admin User', email, role: 'admin' })` for the development address. */
  const StoredUserJson := "{\"name\":\"Admin User\",\"email\":\"admin@example.com\",\"role\":\"admin\"}"

  /** The form as it starts. */
  function InitialForm(): Record {
    map["email" := Str(""), "password" := Str(""), "rememberMe" := Bool(false)]
  }

  /** `email === devCredentials.email && password === devCredentials.password`: strict equality,
      so only these exact strings pass. */
  predicate Accepted(form: Record) {
    Get(form, "email") == Str(DevEmail) && Get(form, "password") == Str(DevPassword)
  }

  /** What a submit does: the new storage, the route navigated to, and the alert shown. */
  datatype SubmitResult = SubmitResult(storage: map<string, string>, route: Option<string>, alert: Option<string>)

  /** `handleSubmit`. */
  function Submit(form: Record, storage: map<string, string>): (r: SubmitResult)
    ensures r.route.Some? <==> Accepted(form)
    ensures r.alert.Some? <==> !Accepted(form)
    ensures Accepted(form) ==> && r.route == Some("/dashboard")
                               && r.storage == storage["isAuthenticated" := "true"]["user" := StoredUserJson]
    ensures !Accepted(form) ==> r.storage == storage && r.alert == Some(InvalidText)
  {
    if Accepted(form) then
      SubmitResult(storage["isAuthenticated" := "true"]["user" := StoredUserJson], Some("/dashboard"), None)
    else
      SubmitResult(storage, None, Some(InvalidText))
  }

  /** The outcome does not depend on "remember me". */
  lemma RememberMeIgnored(form: Record, storage: map<string, string>, v: Value)
    ensures Submit(form["rememberMe" := v], storage) == Submit(form, storage)
  {
    assert Get(form["rememberMe" := v], "email") == Get(form, "email");
    assert Get(form["rememberMe" := v], "password") == Get(form, "password");
  }

  /** A submit never writes, removes or changes the `token` key, and only ever writes
      `isAuthenticated` and `user`. */
  lemma SubmitWritesNoToken(form: Record, storage: map<string, string>)
    ensures var s := Submit(form, storage).storage;
            && ("token" in s <==> "token" in storage)
            && ("token" in storage ==> s["token"] == storage["token"])
            && forall k :: k in storage && k != "isAuthenticated" && k != "user" ==> k in s && s[k] == storage[k]
  {
  }

  /** The value `handleChange` stores: `checked` for a checkbox, `value` for any other input. */
  function InputValue(e: InputEvent): (v: Value)
    ensures e.kind == "checkbox" ==> v == Bool(e.checked)
    ensures e.kind != "checkbox" ==> v == Str(e.value)
  {
    if e.kind == "checkbox" then Bool(e.checked) else Str(e.value)
  }

  /** Only a submit with the exact development address and password gets in: the untouched form, a
      differently cased address, and a password with a trailing space are all refused. */
  lemma OnlyExactCredentials(storage: map<string, string>)
    ensures Submit(InitialForm(), storage).alert == Some(InvalidText)
    ensures Submit(InitialForm()["email" := Str("Admin@example.com")]["password" := Str(DevPassword)], storage).route == None
    ensures Submit(InitialForm()["email" := Str(DevEmail)]["password" := Str("admin123 ")], storage).route == None
    ensures Submit(InitialForm()["email" := Str(DevEmail)]["password" := Str(DevPassword)], storage).route == Some("/dashboard")
  {
    assert "Admin@example.com"[0] != DevEmail[0];
    assert |"admin123 "| != |DevPassword|;
  }

  class LoginForm {
    const env: Env
    var formData: Record
    var route: Option<string>

    constructor (env: Env)
      ensures this.env == env && formData == InitialForm() && route == None
    {
      this.env := env;
      formData := map["email" := Str(""), "password" := Str(""), "rememberMe" := Bool(false)];
      route := None;
    }

    /** `handleSubmit`: returns the alert shown, if any. */
    method HandleSubmit() returns (alert: Option<string>)
      modifies this, env
      ensures var r := Submit(formData, old(env.storage));
              env.storage == r.storage && alert == r.alert
              && route == (if r.route.Some? then r.route else old(route))
      ensures formData == old(formData)
      ensures env.apiHeader == old(env.apiHeader) && env.axiosHeader == old(env.axiosHeader)
    {
      if Get(formData, "email") == Str(DevEmail) && Get(formData, "password") == Str(DevPassword) {
        env.storage := env.storage["isAuthenticated" := "true"];
        env.storage := env.storage["user" := StoredUserJson];
        route := Some("/dashboard");
        alert := None;
      } else {
        alert := Some(InvalidText);
      }
    }

    /** `handleChange`: the input's `checked` or `value` goes under its name; the other fields stay. */
    method HandleChange(e: InputEvent)
      modifies this`formData
      ensures Assigned(formData, old(formData), e.name, InputValue(e))
    {
      if e.kind == "checkbox" {
        formData := formData[e.name := Bool(e.checked)];
      } else {
        formData := formData[e.name := Str(e.value)];
      }
    }
  }
}
