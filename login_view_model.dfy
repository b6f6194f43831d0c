/**
 * The login screen's view model: form state, the two field validators, the
 * validation step of the login button, and navigation events. The sign-in
 * with the identity provider is not modelled; its three possible endings are
 * handed to `OnSignInFinished` as a parameter.
 */
module Login {
  import opened Util
  import opened Text
  import Session

  datatype LoginUiState = LoginUiState(
    email: string,
    password: string,
    isLoading: bool,
    isPasswordVisible: bool,
    errorMessage: Option<string>,
    isLoginSuccessful: bool,
    isEmailValid: bool,
    isPasswordValid: bool
  )

  /** `LoginUiState()` with every default. */
  const DefaultState := LoginUiState("", "", false, false, None, false, true, true)

  datatype NavigationEvent = NavigateToHome | NavigateToAdmin | NavigateToForgotPassword

  const InvalidFieldsMessage := "Por favor, verifica que todos los campos sean válidos"
  const MissingUserMessage := "No se pudo obtener la información del usuario."
  const BadCredentialsMessage := "Credenciales incorrectas o el usuario no existe."

  /**
   * `validateEmail`: non-blank, has an '@' and a '.', at least five
   * characters. The blank test is implied by the '@' test.
   */
  predicate ValidateEmail(email: string): (ok: bool)
    ensures ok <==> '@' in email && '.' in email && |email| >= 5
  {
    assert '@' in email ==> !IsBlank(email) by {
      if '@' in email {
        var i :| 0 <= i < |email| && email[i] == '@';
        assert !IsWhitespace(email[i]);
      }
    }
    !IsBlank(email) && '@' in email && '.' in email && |email| >= 5
  }

  /** `validatePassword`: non-blank and at least six characters. */
  predicate ValidatePassword(password: string): (ok: bool)
    ensures ok <==> |password| >= 6 && exists i :: 0 <= i < |password| && !IsWhitespace(password[i])
  {
    !IsBlank(password) && |password| >= 6
  }

  /** A password of whitespace only is rejected whatever its length. */
  lemma BlankPasswordRejected(password: string)
    requires IsBlank(password)
    ensures !ValidatePassword(password)
  {
  }

  /** Any password of six or more characters with a non-whitespace one is accepted. */
  lemma LongPasswordWithVisibleCharAccepted(password: string, k: nat)
    requires |password| >= 6 && k < |password| && !IsWhitespace(password[k])
    ensures ValidatePassword(password)
  {
  }

  /** The shortest accepted e-mail addresses have five characters. */
  lemma ShortestValidEmail()
    ensures ValidateEmail("a@b.c")
    ensures forall e :: |e| < 5 ==> !ValidateEmail(e)
  {
    assert !IsWhitespace("a@b.c"[0]);
  }

  /** How the sign-in coroutine ended. */
  datatype SignInOutcome =
    | SignedIn(token: Option<string>)   // a user and its ID token, which may be null
    | NoUser                             // sign-in returned no user
    | SignInFailed                       // sign-in or token fetch threw

  class LoginViewModel {
    var uiState: LoginUiState
    var navigationEvent: Option<NavigationEvent>

    constructor ()
      ensures uiState == DefaultState && navigationEvent == None
    {
      uiState := DefaultState;
      navigationEvent := None;
    }

    method OnEmailChanged(email: string)
      modifies this`uiState
      ensures uiState == old(uiState).(email := email, errorMessage := None, isEmailValid := ValidateEmail(email))
    {
      uiState := uiState.(email := email, errorMessage := None, isEmailValid := ValidateEmail(email));
    }

    method OnPasswordChanged(password: string)
      modifies this`uiState
      ensures uiState == old(uiState).(password := password, errorMessage := None, isPasswordValid := ValidatePassword(password))
    {
      uiState := uiState.(password := password, errorMessage := None, isPasswordValid := ValidatePassword(password));
    }

    method TogglePasswordVisibility()
      modifies this`uiState
      ensures uiState == old(uiState).(isPasswordVisible := !old(uiState).isPasswordVisible)
    {
      uiState := uiState.(isPasswordVisible := !uiState.isPasswordVisible);
    }

    /**
     * `onLoginClicked()` up to the sign-in call: both flags are recomputed;
     * invalid input sets the error message and stops, valid input starts
     * loading (`started`).
     */
    method OnLoginClicked() returns (started: bool)
      modifies this`uiState
      ensures started <==> ValidateEmail(old(uiState).email) && ValidatePassword(old(uiState).password)
      ensures var checked := old(uiState).(isEmailValid := ValidateEmail(old(uiState).email),
                                           isPasswordValid := ValidatePassword(old(uiState).password));
              uiState == if started then checked.(isLoading := true, errorMessage := None)
                         else checked.(errorMessage := Some(InvalidFieldsMessage))
    {
      var current := uiState;
      var emailValid := ValidateEmail(current.email);
      var passwordValid := ValidatePassword(current.password);
      uiState := current.(isEmailValid := emailValid, isPasswordValid := passwordValid);
      if !emailValid || !passwordValid {
        uiState := uiState.(errorMessage := Some(InvalidFieldsMessage));
        return false;
      }
      uiState := uiState.(isLoading := true, errorMessage := None);
      started := true;
    }

    /** The end of the sign-in coroutine: a missing token is saved as the empty string. */
    method OnSignInFinished(outcome: SignInOutcome, tokens: Session.TokenManager)
      modifies this, tokens
      ensures outcome.SignedIn? ==>
        && tokens.currentToken == Some(outcome.token.GetOr(""))
        && uiState == old(uiState).(isLoading := false, isLoginSuccessful := true)
        && navigationEvent == Some(NavigateToHome)
      ensures outcome.NoUser? ==>
        && unchanged(tokens) && navigationEvent == old(navigationEvent)
        && uiState == old(uiState).(isLoading := false, errorMessage := Some(MissingUserMessage))
      ensures outcome.SignInFailed? ==>
        && unchanged(tokens) && navigationEvent == old(navigationEvent)
        && uiState == old(uiState).(isLoading := false, errorMessage := Some(BadCredentialsMessage))
    {
      match outcome
      case SignedIn(token) =>
        tokens.SaveToken(token.GetOr(""));
        uiState := uiState.(isLoading := false, isLoginSuccessful := true);
        navigationEvent := Some(NavigateToHome);
      case NoUser =>
        uiState := uiState.(isLoading := false, errorMessage := Some(MissingUserMessage));
      case SignInFailed =>
        uiState := uiState.(isLoading := false, errorMessage := Some(BadCredentialsMessage));
    }

    method OnForgotPasswordClicked()
      modifies this`navigationEvent
      ensures navigationEvent == Some(NavigateToForgotPassword)
    {
      navigationEvent := Some(NavigateToForgotPassword);
    }

    method ClearNavigationEvent()
      modifies this`navigationEvent
      ensures navigationEvent == None
    {
      navigationEvent := None;
    }

    method ClearErrorMessage()
      modifies this`uiState
      ensures uiState == old(uiState).(errorMessage := None)
    {
      uiState := uiState.(errorMessage := None);
    }
  }

  /** Toggling password visibility twice restores the state. */
  method ToggleTwiceRestores(vm: LoginViewModel)
    modifies vm
    ensures vm.uiState == old(vm.uiState) && vm.navigationEvent == old(vm.navigationEvent)
  {
    vm.TogglePasswordVisibility();
    vm.TogglePasswordVisibility();
  }
}
