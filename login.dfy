/** The sign-in form (src/Login.js): the demo credential check behind
    "Sign In" and the buttons that fill in a demo account. */
module Login {
  import opened Common

  /** The user handed to `onLogin`. */
  datatype User = User(email: string, role: string, name: string)

  /** What a submit of the form comes to. */
  datatype Outcome =
    | MissingFields
    | LoggedIn(user: User)
    | Invalid

  const AdminEmail: string := "admin@pv.com"
  const AdminPassword: string := "admin123"
  const UserEmail: string := "user@pv.com"
  const UserPassword: string := "user123"

  /** The decision of `handleSubmit`: an empty field is refused before the
      credentials are looked at; only the two demo pairs log in. */
  function Authenticate(email: string, password: string): (r: Outcome)
    ensures r.MissingFields? <==> email == "" || password == ""
    ensures r.LoggedIn? ==> r.user.email == email
    ensures r.LoggedIn? && r.user.role == "admin" <==> email == AdminEmail && password == AdminPassword
    ensures r.LoggedIn? && r.user.role == "user" <==> email == UserEmail && password == UserPassword
    ensures r.LoggedIn? ==> r.user.role in {"admin", "user"}
  {
    if email == "" || password == "" then MissingFields
    else if email == AdminEmail && password == AdminPassword then LoggedIn(User(email, "admin", "Admin User"))
    else if email == UserEmail && password == UserPassword then LoggedIn(User(email, "user", "Regular User"))
    else Invalid
  }

  /** The message the form shows after a submit; none after a login. */
  function ErrorText(o: Outcome): (msg: string)
    ensures msg == "" <==> o.LoggedIn?
  {
    match o
    case MissingFields => "Please fill in all fields"
    case LoggedIn(_) => ""
    case Invalid => "Invalid email or password"
  }

  /** The user passed to `onLogin`, if any. */
  function LoginOf(o: Outcome): (u: Option<User>)
    ensures u.Some? <==> o.LoggedIn?
    ensures u.Some? ==> u.value == o.user
  {
    if o.LoggedIn? then Some(o.user) else None
  }

  /** The pair a demo button fills in: the admin pair for "admin", the user
      pair for any other choice. */
  function DemoCredentials(role: string): (c: (string, string))
    ensures role == "admin" ==> c == (AdminEmail, AdminPassword)
    ensures role != "admin" ==> c == (UserEmail, UserPassword)
  {
    if role == "admin" then (AdminEmail, AdminPassword) else (UserEmail, UserPassword)
  }

  /** A submit logs in exactly when it shows no error. */
  lemma LoginIffNoError(email: string, password: string)
    ensures LoginOf(Authenticate(email, password)).Some? <==> ErrorText(Authenticate(email, password)) == ""
  {
  }

  /** Only the two demo accounts get in, each with its own role and name. */
  lemma LoginOnlyWithDemoPair(email: string, password: string)
    requires LoginOf(Authenticate(email, password)).Some?
    ensures (email, password) == DemoCredentials("admin") || (email, password) == DemoCredentials("user")
    ensures var u := LoginOf(Authenticate(email, password)).value;
      u.email == email
      && (u.role == "admin" <==> (email, password) == DemoCredentials("admin"))
      && (u.name == if u.role == "admin" then "Admin User" else "Regular User")
  {
  }

  /** Filling in a demo account and submitting logs in with the chosen
      role; any choice other than "admin" logs in as the plain user. */
  lemma DemoLoginSucceeds(role: string)
    ensures var (e, p) := DemoCredentials(role);
      LoginOf(Authenticate(e, p)) == Some(if role == "admin" then User(AdminEmail, "admin", "Admin User")
                                           else User(UserEmail, "user", "Regular User"))
  {
  }

  /** The form's state: the two inputs and the error banner. */
  class LoginForm {
    var email: string
    var password: string
    var error: string

    constructor()
      ensures email == "" && password == "" && error == ""
    {
      email := "";
      password := "";
      error := "";
    }

    /** Typing into the e-mail input. */
    method SetEmail(v: string)
      modifies this
      ensures email == v && password == old(password) && error == old(error)
    {
      email := v;
    }

    /** Typing into the password input. */
    method SetPassword(v: string)
      modifies this
      ensures password == v && email == old(email) && error == old(error)
    {
      password := v;
    }

    /** `handleSubmit`: clears the error, then either reports what is wrong
        or returns the user handed to `onLogin`. The inputs are kept. */
    method HandleSubmit() returns (login: Option<User>)
      modifies this
      ensures login == LoginOf(Authenticate(email, password))
      ensures error == ErrorText(Authenticate(email, password))
      ensures email == old(email) && password == old(password)
    {
      error := "";
      if email == "" || password == "" {
        error := "Please fill in all fields";
        return None;
      }
      if email == AdminEmail && password == AdminPassword {
        login := Some(User(email, "admin", "Admin User"));
      } else if email == UserEmail && password == UserPassword {
        login := Some(User(email, "user", "Regular User"));
      } else {
        error := "Invalid email or password";
        login := None;
      }
    }

    /** `handleDemoLogin`: fills both inputs with the chosen demo account. */
    method HandleDemoLogin(role: string)
      modifies this
      ensures (email, password) == DemoCredentials(role)
      ensures error == old(error)
    {
      if role == "admin" {
        email := AdminEmail;
        password := AdminPassword;
      } else {
        email := UserEmail;
        password := UserPassword;
      }
    }
  }
}
