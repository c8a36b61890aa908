/**
 * The login screen's state holder (`LoginViewModel`): input validation, then an
 * asynchronous Firebase Auth call whose completion callback sets the final state.
 * `login*`/`register*` are split at that callback: the first method validates and
 * reports whether an auth call is issued, the `On*Complete` method is the callback.
 */
module Login {
  import opened Wrappers
  import opened Text

  datatype LoginState = Idle | Loading | Success | Error(message: string)

  /** How a Firebase Auth task ended: successfully, or with an exception whose message may be null. */
  datatype AuthResult = AuthSucceeded | AuthFailed(message: Option<string>)

  const EmptyInputMessage := "Email and password cannot be empty"
  /** The default `loginUser` in `utils/AuthUtils.kt` gives a failure without a message. */
  const LoginFailedMessage := "Login failed"
  const RegistrationFailedMessage := "Registration failed"

  /** The guard both `login` and `register` apply before calling Firebase. */
  predicate AcceptsInput(email: string, password: string) {
    !IsBlank(email) && !IsBlank(password)
  }

  /** The state an auth completion callback sets, with the default message for a null one. */
  function Completion(result: AuthResult, defaultMessage: string): (s: LoginState)
    ensures result.AuthSucceeded? <==> s == Success
    ensures result.AuthFailed? && result.message.Some? ==> s == Error(result.message.value)
    ensures result.AuthFailed? && result.message.None? ==> s == Error(defaultMessage)
  {
    match result
    case AuthSucceeded => Success
    case AuthFailed(msg) => Error(msg.GetOr(defaultMessage))
  }

  /** `isLoggedIn()`: whether Firebase has a current user. */
  function IsLoggedIn(currentUser: Option<string>): (r: bool)
    ensures r <==> currentUser != None
  {
    currentUser.Some?
  }

  class LoginViewModel {
    var state: LoginState

    constructor ()
      ensures state == Idle
    {
      state := Idle;
    }

    /** `login(email, password)` up to the auth call: blank input is an error and issues no call; otherwise Loading. */
    method Login(email: string, password: string) returns (attempt: bool)
      modifies this
      ensures attempt <==> AcceptsInput(email, password)
      ensures !attempt ==> state == Error(EmptyInputMessage)
      ensures attempt ==> state == Loading
    {
      if IsBlank(email) || IsBlank(password) {
        state := Error(EmptyInputMessage);
        return false;
      }
      state := Loading;
      attempt := true;
    }

    /** The `loginUser` callbacks: Success, or Error with the failure's message ("Login failed" if null). */
    method OnLoginComplete(result: AuthResult)
      modifies this
      ensures state == Completion(result, LoginFailedMessage)
    {
      state := Completion(result, LoginFailedMessage);
    }

    /** `register(email, password)` up to the auth call: the same guard and the same Loading step as `login`. */
    method Register(email: string, password: string) returns (attempt: bool)
      modifies this
      ensures attempt <==> AcceptsInput(email, password)
      ensures !attempt ==> state == Error(EmptyInputMessage)
      ensures attempt ==> state == Loading
    {
      if IsBlank(email) || IsBlank(password) {
        state := Error(EmptyInputMessage);
        return false;
      }
      state := Loading;
      attempt := true;
    }

    /** The `createUserWithEmailAndPassword` completion listener: Success, or Error ("Registration failed" if null). */
    method OnRegisterComplete(result: AuthResult)
      modifies this
      ensures state == Completion(result, RegistrationFailedMessage)
    {
      state := Completion(result, RegistrationFailedMessage);
    }
  }

  /**
   * A whole login from a fresh view model: the final state is Success exactly when the input
   * passes the guard and Firebase accepts it; every other ending is an Error with a message.
   */
  method LoginFlow(email: string, password: string, result: AuthResult)
    returns (attempted: bool, final: LoginState)
    ensures attempted <==> AcceptsInput(email, password)
    ensures final == Success <==> attempted && result.AuthSucceeded?
    ensures final != Success ==> final.Error?
    ensures !attempted ==> final == Error(EmptyInputMessage)
  {
    var vm := new LoginViewModel();
    attempted := vm.Login(email, password);
    if attempted {
      vm.OnLoginComplete(result);
    }
    final := vm.state;
  }
}
