/**
 * The landing page: a login or sign-up form whose submit moves to the home
 * route when its validation passes. Navigation is recorded as the list of
 * routes the page asked the router for.
 */
module LandingScreen {

  const HomeRoute := "/home"

  /** The five inputs, by their `name` attribute. */
  datatype Field = Email | Password | ConfirmPassword | Name | EmployeeId

  datatype FormData = FormData(email: string, password: string, confirmPassword: string, name: string, employeeId: string)
  {
    function Value(f: Field): (v: string) {
      match f
      case Email => email
      case Password => password
      case ConfirmPassword => confirmPassword
      case Name => name
      case EmployeeId => employeeId
    }

    /** `{ ...formData, [name]: value }`. */
    function With(f: Field, v: string): (r: FormData)
      ensures r.Value(f) == v
      ensures forall g :: g != f ==> r.Value(g) == Value(g)
    {
      match f
      case Email => this.(email := v)
      case Password => this.(password := v)
      case ConfirmPassword => this.(confirmPassword := v)
      case Name => this.(name := v)
      case EmployeeId => this.(employeeId := v)
    }
  }

  const EmptyForm := FormData("", "", "", "", "")

  /** Whether a submit in the given mode passes validation. */
  predicate Accepts(form: FormData, isLogin: bool) {
    if isLogin then form.email != "" && form.password != ""
    else
      && form.email != "" && form.password != "" && form.confirmPassword != ""
      && form.name != "" && form.employeeId != ""
      && form.password == form.confirmPassword
  }

  /** Login reads only the e-mail and password. */
  lemma LoginIgnoresSignupFields(form: FormData, confirm: string, name: string, employeeId: string)
    ensures Accepts(form, true) == Accepts(form.(confirmPassword := confirm, name := name, employeeId := employeeId), true)
  {
  }

  /** Sign-up asks everything login does, and more: a form sign-up accepts is one login accepts. */
  lemma SignupIsStricter(form: FormData)
    ensures Accepts(form, false) ==> Accepts(form, true)
    ensures form.email != "" && form.password != "" && form.confirmPassword != "" && form.password != form.confirmPassword ==>
      Accepts(form, true) && !Accepts(form, false)
  {
  }

  class LandingPage {
    var isLogin: bool
    var showPassword: bool
    var form: FormData
    var navigations: seq<string>

    constructor()
      ensures isLogin && !showPassword && form == EmptyForm && navigations == []
    {
      isLogin := true;
      showPassword := false;
      form := EmptyForm;
      navigations := [];
    }

    /** `handleSubmit`: to the home route when validation passes; the form is never changed. */
    method Submit()
      modifies this
      ensures navigations == old(navigations) + (if Accepts(old(form), old(isLogin)) then [HomeRoute] else [])
      ensures form == old(form) && isLogin == old(isLogin) && showPassword == old(showPassword)
    {
      if isLogin {
        if form.email != "" && form.password != "" {
          navigations := navigations + [HomeRoute];
        }
      } else {
        if form.email != "" && form.password != "" && form.confirmPassword != "" && form.name != "" && form.employeeId != "" {
          if form.password == form.confirmPassword {
            navigations := navigations + [HomeRoute];
          }
        }
      }
    }

    /** `handleInputChange`: sets the named input and nothing else. */
    method InputChange(f: Field, v: string)
      modifies this
      ensures form == old(form).With(f, v)
      ensures isLogin == old(isLogin) && showPassword == old(showPassword) && navigations == old(navigations)
    {
      form := form.With(f, v);
    }

    /** The Login tab. */
    method ChooseLogin()
      modifies this
      ensures isLogin
      ensures form == old(form) && showPassword == old(showPassword) && navigations == old(navigations)
    {
      isLogin := true;
    }

    /** The Sign Up tab. */
    method ChooseSignup()
      modifies this
      ensures !isLogin
      ensures form == old(form) && showPassword == old(showPassword) && navigations == old(navigations)
    {
      isLogin := false;
    }

    /** The footer link under the form. */
    method ToggleMode()
      modifies this
      ensures isLogin == !old(isLogin)
      ensures form == old(form) && showPassword == old(showPassword) && navigations == old(navigations)
    {
      isLogin := !isLogin;
    }

    /** The eye button on the password input. */
    method TogglePassword()
      modifies this
      ensures showPassword == !old(showPassword)
      ensures form == old(form) && isLogin == old(isLogin) && navigations == old(navigations)
    {
      showPassword := !showPassword;
    }
  }
}
