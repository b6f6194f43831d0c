/**
 * The registration screens' view model: ten form fields held one by one, the
 * guards of the register button, and the UI state. Image upload and account
 * creation are not modelled; their possible endings are handed to
 * `OnRegistrationFinished` as a parameter, and network availability is a
 * parameter of `OnRegisterClicked`.
 */
module Register {
  import opened Util
  import opened Text

  datatype ValidationErrors = ValidationErrors(
    firstNameError: Option<string>,
    lastNameError: Option<string>,
    dniError: Option<string>,
    phoneError: Option<string>,
    emailError: Option<string>,
    passwordError: Option<string>,
    confirmPasswordError: Option<string>
  )

  datatype RegisterUiState = RegisterUiState(
    isLoading: bool,
    errorMessage: Option<string>,
    isRegistrationSuccessful: bool,
    validationErrors: ValidationErrors
  )

  const DefaultState := RegisterUiState(false, None, false,
    ValidationErrors(None, None, None, None, None, None, None))

  const NoConnectionMessage := "No hay conexión a internet. Por favor, verifica tu red."
  const TimeoutMessage := "La operación tardó demasiado. Revisa tu conexión a internet."
  const UploadErrorPrefix := "Error al subir imágenes: "

  /** How the upload-and-register coroutine ended. */
  datatype RegistrationOutcome =
    | Finished(result: Resource<()>)   // the repository answered
    | TimedOut                         // the 30-second timeout expired
    | Failed(message: string)          // another exception, with its message

  class RegisterViewModel {
    var uiState: RegisterUiState
    var firstName: string
    var lastName: string
    var dni: string
    var phone: string
    var email: string
    var password: string
    var confirmPassword: string
    var dniFrontImageUri: string
    var dniBackImageUri: string

    constructor ()
      ensures uiState == DefaultState
      ensures firstName == lastName == dni == phone == email == password == confirmPassword == ""
      ensures dniFrontImageUri == dniBackImageUri == ""
    {
      uiState := DefaultState;
      firstName, lastName, dni, phone, email := "", "", "", "", "";
      password, confirmPassword, dniFrontImageUri, dniBackImageUri := "", "", "", "";
    }

    method OnFirstNameChanged(value: string)
      modifies this`firstName
      ensures firstName == value
    {
      firstName := value;
    }

    method OnLastNameChanged(value: string)
      modifies this`lastName
      ensures lastName == value
    {
      lastName := value;
    }

    /** Keeps only the digits of `value`. */
    method OnDniChanged(value: string)
      modifies this`dni
      ensures dni == DigitsOf(value)
    {
      dni := DigitsOf(value);
    }

    /** Keeps only the digits of `value`. */
    method OnPhoneChanged(value: string)
      modifies this`phone
      ensures phone == DigitsOf(value)
    {
      phone := DigitsOf(value);
    }

    method OnEmailChanged(value: string)
      modifies this`email
      ensures email == value
    {
      email := value;
    }

    method OnPasswordChanged(value: string)
      modifies this`password
      ensures password == value
    {
      password := value;
    }

    method OnConfirmPasswordChanged(value: string)
      modifies this`confirmPassword
      ensures confirmPassword == value
    {
      confirmPassword := value;
    }

    method OnDniFrontImageSelected(uri: string)
      modifies this`dniFrontImageUri
      ensures dniFrontImageUri == uri
    {
      dniFrontImageUri := uri;
    }

    method OnDniBackImageSelected(uri: string)
      modifies this`dniBackImageUri
      ensures dniBackImageUri == uri
    {
      dniBackImageUri := uri;
    }

    /** One of the required text fields is blank (the phone is not required). */
    predicate RequiredFieldBlank()
      reads this
    {
      IsBlank(email) || IsBlank(password) || IsBlank(firstName) || IsBlank(lastName) || IsBlank(dni)
    }

    /** One of the two identity-document photos is missing. */
    predicate ImageMissing()
      reads this
    {
      IsBlank(dniFrontImageUri) || IsBlank(dniBackImageUri)
    }

    /** All three input guards of the register button pass. */
    predicate FormComplete()
      reads this
    {
      password == confirmPassword && !RequiredFieldBlank() && !ImageMissing()
    }

    /**
     * `onRegisterClicked()` up to the upload: an incomplete form changes
     * nothing; without network only the error message is set; otherwise
     * loading starts (`started`).
     */
    method OnRegisterClicked(networkAvailable: bool) returns (started: bool)
      modifies this`uiState
      ensures started <==> FormComplete() && networkAvailable
      ensures !FormComplete() ==> uiState == old(uiState)
      ensures FormComplete() && !networkAvailable ==> uiState == old(uiState).(errorMessage := Some(NoConnectionMessage))
      ensures started ==> uiState == old(uiState).(isLoading := true, errorMessage := None)
    {
      if password != confirmPassword { return false; }
      if IsBlank(email) || IsBlank(password) || IsBlank(firstName) || IsBlank(lastName) || IsBlank(dni) { return false; }
      if IsBlank(dniFrontImageUri) || IsBlank(dniBackImageUri) { return false; }
      if !networkAvailable {
        uiState := uiState.(errorMessage := Some(NoConnectionMessage));
        return false;
      }
      uiState := uiState.(isLoading := true, errorMessage := None);
      started := true;
    }

    /** The end of the upload-and-register coroutine. */
    method OnRegistrationFinished(outcome: RegistrationOutcome)
      modifies this`uiState
      ensures !uiState.isLoading
      ensures uiState == match outcome
        case Finished(Success(_)) => old(uiState).(isLoading := false, isRegistrationSuccessful := true)
        case Finished(Error(m)) => old(uiState).(isLoading := false, errorMessage := Some(m))
        case Finished(_) => old(uiState).(isLoading := false)
        case TimedOut => old(uiState).(isLoading := false, errorMessage := Some(TimeoutMessage))
        case Failed(m) => old(uiState).(isLoading := false, errorMessage := Some(UploadErrorPrefix + m))
    {
      match outcome
      case Finished(result) =>
        match result {
          case Success(_) =>
            uiState := uiState.(isLoading := false, isRegistrationSuccessful := true);
          case Error(m) =>
            uiState := uiState.(isLoading := false, errorMessage := Some(m));
          case _ =>
            uiState := uiState.(isLoading := false);
        }
      case TimedOut =>
        uiState := uiState.(isLoading := false, errorMessage := Some(TimeoutMessage));
      case Failed(m) =>
        uiState := uiState.(isLoading := false, errorMessage := Some(UploadErrorPrefix + m));
    }

    method ClearErrorMessage()
      modifies this`uiState
      ensures uiState == old(uiState).(errorMessage := None)
    {
      uiState := uiState.(errorMessage := None);
    }
  }

  /** Mismatched passwords stop registration before any other guard is looked at. */
  method MismatchedPasswordsBlockRegistration(vm: RegisterViewModel, networkAvailable: bool) returns (started: bool)
    requires vm.password != vm.confirmPassword
    modifies vm
    ensures !started && vm.uiState == old(vm.uiState)
  {
    started := vm.OnRegisterClicked(networkAvailable);
  }
}
