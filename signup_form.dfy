/** The account-creation form of src/app/components/auth/SignupForm.tsx: the checks made before anything
    is sent, and the form state around the `signup` call. The call itself is split in two steps: `Submit`
    produces the request, and `Settle` records how the call ended. */
module SignupForm {
  import opened Wrappers
  import opened Types
  import Strings

  const ShortPassword: string := "Password must be at least 6 characters long."
  const PasswordMismatch: string := "Passwords do not match."
  const MissingName: string := "Please enter your full name."
  const SignupFailed: string := "Signup failed. Please try again."

  /** The checks of `handleSubmit`, in order; the first failing one gives the message. */
  function Validate(password: string, confirmPassword: string, name: string): (error: Option<string>)
    ensures error == Some(ShortPassword) <==> |password| < 6
    ensures error == Some(PasswordMismatch) <==> |password| >= 6 && password != confirmPassword
    ensures error == Some(MissingName) <==> |password| >= 6 && password == confirmPassword && Strings.Trim(name) == ""
  {
    if |password| < 6 then Some(ShortPassword)
    else if password != confirmPassword then Some(PasswordMismatch)
    else if Strings.Trim(name) == "" then Some(MissingName)
    else None
  }

  /** The form lets a submission through exactly when the password has at least six characters, the
      confirmation repeats it, and the name has a character that is not white space. */
  lemma ValidateAccepts(password: string, confirmPassword: string, name: string)
    ensures Validate(password, confirmPassword, name) == None <==>
      |password| >= 6 && password == confirmPassword && exists i :: 0 <= i < |name| && !Strings.IsSpace(name[i])
  {
    Strings.TrimEmptyIff(name);
  }

  /** What `signup` is called with. */
  datatype SignupRequest = SignupRequest(email: string, password: string, name: string, role: Role)

  /** How the awaited `signup` call ended: resolved, rejected with an `Error`, or rejected with anything else. */
  datatype SignupResult = Resolved | RejectedWithError(message: string) | RejectedOther

  /** The component's state: the five inputs, the error text, the success flag and the loading flag. */
  class Form {
    var name: string
    var email: string
    var password: string
    var confirmPassword: string
    var role: Role
    var error: string
    var success: bool
    var loading: bool

    /** Empty inputs, the role preset to 'viewer', no error, not yet submitted. */
    constructor()
      ensures name == "" && email == "" && password == "" && confirmPassword == ""
      ensures role == "viewer" && error == "" && !success && !loading
    {
      name, email, password, confirmPassword := "", "", "", "";
      role := "viewer";
      error, success, loading := "", false, false;
    }

    /** `handleSubmit` up to the `signup` call. The old error is cleared; a failing check shows its message
        and sends nothing; otherwise the form starts loading and sends the inputs as typed. */
    method Submit() returns (request: Option<SignupRequest>)
      modifies this
      ensures var check := Validate(password, confirmPassword, name);
        && (check.Some? ==> error == check.value && loading == old(loading) && request == None)
        && (check.None? ==> error == "" && loading && request == Some(SignupRequest(email, password, name, role)))
      ensures name == old(name) && email == old(email) && password == old(password)
      ensures confirmPassword == old(confirmPassword) && role == old(role) && success == old(success)
    {
      error := "";
      var check := Validate(password, confirmPassword, name);
      if check.Some? {
        error := check.value;
        return None;
      }
      loading := true;
      request := Some(SignupRequest(email, password, name, role));
    }

    /** The end of `handleSubmit`: success on resolution, the error's message or the fallback text on
        rejection, and loading cleared either way. */
    method Settle(result: SignupResult)
      modifies this
      ensures !loading
      ensures result.Resolved? ==> success && error == old(error)
      ensures result.RejectedWithError? ==> error == result.message && success == old(success)
      ensures result.RejectedOther? ==> error == SignupFailed && success == old(success)
      ensures name == old(name) && email == old(email) && password == old(password)
      ensures confirmPassword == old(confirmPassword) && role == old(role)
    {
      match result {
        case Resolved => success := true;
        case RejectedWithError(message) => error := message;
        case RejectedOther => error := SignupFailed;
      }
      loading := false;
    }
  }

  /** On a fresh form, a password shorter than six characters is refused before anything is sent, whatever
      the name, email and confirmation typed, and the form does not start loading. */
  method ShortPasswordSubmission(name: string, email: string, password: string, confirmPassword: string)
      returns (request: Option<SignupRequest>, loading: bool, error: string)
    requires |password| < 6
    ensures request == None && !loading && error == ShortPassword
  {
    var form := new Form();
    form.name := name;
    form.email := email;
    form.password := password;
    form.confirmPassword := confirmPassword;
    request := form.Submit();
    loading, error := form.loading, form.error;
  }

  /** On a fresh form, a long enough password typed twice and a name that is not blank once trimmed are sent
      exactly as typed with the preset role, and a resolved call ends in success with no error. */
  method AcceptedSubmission(name: string, email: string, password: string)
      returns (request: Option<SignupRequest>, success: bool, error: string)
    requires |password| >= 6 && Strings.Trim(name) != ""
    ensures request == Some(SignupRequest(email, password, name, "viewer")) && success && error == ""
  {
    var form := new Form();
    form.name := name;
    form.email := email;
    form.password := password;
    form.confirmPassword := password;
    assert form.email == email && form.password == password && form.name == name && form.role == "viewer";
    request := SubmitResolved(form);
    success, error := form.success, form.error;
  }

  /** A submission that passes the checks, followed by a resolved `signup` call: the inputs are sent as they
      stand, and the form ends in success, with no error and not loading. */
  method SubmitResolved(form: Form) returns (request: Option<SignupRequest>)
    requires Validate(form.password, form.confirmPassword, form.name) == None
    modifies form
    ensures request == Some(SignupRequest(old(form.email), old(form.password), old(form.name), old(form.role)))
    ensures form.success && form.error == "" && !form.loading
  {
    request := form.Submit();
    form.Settle(Resolved);
  }

}
