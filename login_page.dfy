// client/src/pages/LoginPage.jsx: the two-step sign-up form. The form's
// state is `currState` and `isDataSubmitted` plus the four field values; the
// calls it makes to AuthContext's `login` are recorded in `calls`.

module LoginPage {

  /** `currState`: "Login" or "Sign up". */
  datatype Mode = Login | SignUp

  /** The action string passed to `login`. */
  function Action(m: Mode): (r: string)
    ensures r == "signup" <==> m == SignUp
    ensures r == "login" <==> m == Login
  {
    assert |"signup"| != |"login"|;
    match m
    case SignUp => "signup"
    case Login => "login"
  }

  /** One call `login(action, {fullName, email, password, bio})`. */
  datatype AuthCall = AuthCall(action: string, fullName: string, email: string, password: string, bio: string)

  /** The four controlled inputs. */
  datatype Field = FullName | Email | Password | Bio

  class LoginForm {
    var currState: Mode
    var isDataSubmitted: bool
    var fullName: string
    var email: string
    var password: string
    var bio: string
    var calls: seq<AuthCall>

    /** LoginPage.jsx:6-11: Login mode, nothing submitted, empty fields. */
    constructor ()
      ensures currState == Login && !isDataSubmitted
      ensures fullName == "" && email == "" && password == "" && bio == ""
      ensures calls == []
    {
      currState, isDataSubmitted := Login, false;
      fullName, email, password, bio := "", "", "", "";
      calls := [];
    }

    /** An `onChange` handler: the one field takes the typed value. */
    method Change(f: Field, v: string)
      modifies this`fullName, this`email, this`password, this`bio
      ensures fullName == (if f == FullName then v else old(fullName))
      ensures email == (if f == Email then v else old(email))
      ensures password == (if f == Password then v else old(password))
      ensures bio == (if f == Bio then v else old(bio))
    {
      match f
      case FullName => fullName := v;
      case Email => email := v;
      case Password => password := v;
      case Bio => bio := v;
    }

    /**
     * onSubmitHandler (LoginPage.jsx:15-29): the first submit in Sign up mode
     * only moves to the bio step; every other submit calls `login` once, with
     * "signup" in Sign up mode and "login" otherwise, and all four fields.
     */
    method Submit()
      modifies this`isDataSubmitted, this`calls
      ensures currState == SignUp && !old(isDataSubmitted) ==>
        isDataSubmitted && calls == old(calls)
      ensures !(currState == SignUp && !old(isDataSubmitted)) ==>
        && isDataSubmitted == old(isDataSubmitted)
        && calls == old(calls) + [AuthCall(Action(currState), fullName, email, password, bio)]
    {
      if currState == SignUp && !isDataSubmitted {
        isDataSubmitted := true;
        return;
      }
      calls := calls + [AuthCall(Action(currState), fullName, email, password, bio)];
    }

    /** The back arrow (LoginPage.jsx:49): back to the first step. */
    method BackArrow()
      modifies this`isDataSubmitted
      ensures !isDataSubmitted
    {
      isDataSubmitted := false;
    }

    /** "Login here" / "Click here" (LoginPage.jsx:118, 128): the mode changes; the step does not. */
    method SwitchMode(m: Mode)
      modifies this`currState
      ensures currState == m
    {
      currState := m;
    }
  }

  /**
   * Signing up takes two submits: the first only reveals the bio field, the
   * second makes exactly one "signup" call carrying the four values entered.
   */
  method SignUpTakesTwoSubmits(fullName: string, email: string, password: string, bio: string)
    returns (afterFirst: seq<AuthCall>, afterSecond: seq<AuthCall>)
    ensures afterFirst == []
    ensures afterSecond == [AuthCall("signup", fullName, email, password, bio)]
  {
    var form := new LoginForm();
    form.SwitchMode(SignUp);
    form.Change(FullName, fullName);
    form.Change(Email, email);
    form.Change(Password, password);
    form.Submit();
    afterFirst := form.calls;
    form.Change(Bio, bio);
    form.Submit();
    afterSecond := form.calls;
  }

  /**
   * Leaving the bio step for Login mode keeps `isDataSubmitted`, so the login
   * form then submits at once, with the values typed earlier, though its
   * email and password inputs are hidden.
   */
  method SwitchAfterFirstStepLogsInAtOnce(email: string, password: string)
    returns (calls: seq<AuthCall>, stepKept: bool)
    ensures stepKept
    ensures calls == [AuthCall("login", "", email, password, "")]
  {
    var form := new LoginForm();
    form.SwitchMode(SignUp);
    form.Change(Email, email);
    form.Change(Password, password);
    form.Submit();
    form.SwitchMode(Login);
    stepKept := form.isDataSubmitted;
    form.Submit();
    calls := form.calls;
  }
}
