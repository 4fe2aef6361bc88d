/**
 * app/auth/register.tsx: the registration form's validation chain, the sign-up payload, and the
 * handling of signUp's result.
 */
module Register {
  import opened Wrappers
  import opened Text
  import opened Types
  import PhoneMask
  import AuthContext
  import StoreApi

  const FIELDS_REQUIRED: string := "Preencha todos os campos obrigatórios"
  const PASSWORD_MISMATCH: string := "As senhas não coincidem"
  const PASSWORD_TOO_SHORT: string := "A senha deve ter pelo menos 6 caracteres"
  const REGISTER_FALLBACK: string := "Erro ao criar conta"
  const MIN_PASSWORD_LENGTH: nat := 6

  /** The body of the registration request. */
  datatype SignUpData = SignUpData(
    email: string,
    password: string,
    firstName: string,
    lastName: string,
    phone: Option<string>)

  /** The first failing check of handleRegister: a blank required field, then a confirmation
      that differs from the password character for character, then a password under six
      characters. */
  function RegisterError(firstName: string, lastName: string, email: string, password: string,
                         confirmPassword: string): (r: Option<string>)
    ensures (Blank(firstName) || Blank(lastName) || Blank(email) || Blank(password)) ==>
              r == Some(FIELDS_REQUIRED)
    ensures (!Blank(firstName) && !Blank(lastName) && !Blank(email) && !Blank(password) &&
             password != confirmPassword) ==> r == Some(PASSWORD_MISMATCH)
    ensures (!Blank(firstName) && !Blank(lastName) && !Blank(email) && !Blank(password) &&
             password == confirmPassword && |password| < MIN_PASSWORD_LENGTH) ==> r == Some(PASSWORD_TOO_SHORT)
  {
    if Blank(firstName) || Blank(lastName) || Blank(email) || Blank(password) then Some(FIELDS_REQUIRED)
    else if password != confirmPassword then Some(PASSWORD_MISMATCH)
    else if |password| < MIN_PASSWORD_LENGTH then Some(PASSWORD_TOO_SHORT)
    else None
  }

  /** The form passes exactly when every required field holds something other than whitespace,
      the confirmation equals the password, and the password has at least six characters. The
      phone is optional. */
  lemma RegisterErrorNoneIff(firstName: string, lastName: string, email: string, password: string,
                             confirmPassword: string)
    ensures RegisterError(firstName, lastName, email, password, confirmPassword).None? <==>
              !AllSpace(firstName) && !AllSpace(lastName) && !AllSpace(email) && !AllSpace(password) &&
              password == confirmPassword && |password| >= MIN_PASSWORD_LENGTH
  {
  }

  /** With the required fields filled, the length rule is checked on the password as typed and
      the comparison with the confirmation is exact: any password padded with five spaces passes
      whatever its trimmed length, and a confirmation with one extra space is a mismatch. */
  lemma PasswordLengthUntrimmed(firstName: string, lastName: string, email: string, password: string)
    requires !AllSpace(firstName) && !AllSpace(lastName) && !AllSpace(email) && !AllSpace(password)
    ensures RegisterError(firstName, lastName, email, password + "     ", password + "     ").None?
    ensures RegisterError(firstName, lastName, email, password, password + " ") == Some(PASSWORD_MISMATCH)
  {
    var padded := password + "     ";
    assert !AllSpace(padded) by {
      var i :| 0 <= i < |password| && !IsSpace(password[i]);
      assert padded[i] == password[i];
    }
    assert |password| != |password + " "|;
  }

  /** The sign-up payload: trimmed names and e-mail, the raw password, and the phone's digits
      when there are any. */
  function SignUpPayload(firstName: string, lastName: string, email: string, password: string,
                         phone: string): (d: SignUpData)
    ensures d.email == Trim(email) && d.firstName == Trim(firstName) && d.lastName == Trim(lastName)
    ensures d.password == password
    ensures d.phone.None? <==> Digits(phone) == ""
    ensures d.phone.Some? ==> d.phone.value == Digits(phone) && AllDigits(d.phone.value)
  {
    var digits := Digits(phone);
    SignUpData(Trim(email), password, Trim(firstName), Trim(lastName), if digits == "" then None else Some(digits))
  }

  /** The registration screen's form state. */
  class RegisterForm {
    var firstName: string
    var lastName: string
    var email: string
    var phone: string
    var password: string
    var confirmPassword: string
    var isLoading: bool
    var error: string

    constructor ()
      ensures firstName == "" && lastName == "" && email == "" && phone == ""
      ensures password == "" && confirmPassword == "" && !isLoading && error == ""
    {
      firstName, lastName, email, phone := "", "", "", "";
      password, confirmPassword, isLoading, error := "", "", false, "";
    }

    function Error(): Option<string>
      reads this`firstName, this`lastName, this`email, this`password, this`confirmPassword
    {
      RegisterError(firstName, lastName, email, password, confirmPassword)
    }

    function Payload(): SignUpData
      reads this`firstName, this`lastName, this`email, this`password, this`phone
    {
      SignUpPayload(firstName, lastName, email, password, phone)
    }

    /** handlePhoneChange: the same typing mask as the checkout screen. */
    method HandlePhoneChange(text: string)
      modifies this`phone
      ensures phone == PhoneMask.Mask(Digits(text)) && |phone| <= PhoneMask.MAX_LENGTH
    {
      phone := PhoneMask.FormatPhoneNumber(text);
    }

    /** handleRegister: an invalid form only shows its message and signUp is not called.
        Otherwise signUp runs with the payload; success navigates back, failure shows signUp's
        message. Because that message is never empty, the screen's own fallback never shows. */
    method HandleRegister(auth: AuthContext.AuthState, response: Remote<StoreApi.LoginResponse>)
      returns (sent: Option<SignUpData>, navigatedBack: bool)
      requires auth.tokens.Valid()
      modifies this`isLoading, this`error, auth`user, auth`cachedUser, auth.tokens
      ensures auth.tokens.Valid()
      ensures sent.Some? <==> old(Error()).None?
      ensures sent.None? ==>
                error == old(Error()).value && isLoading == old(isLoading) && !navigatedBack &&
                auth.user == old(auth.user) && auth.tokens.Stored() == old(auth.tokens.Stored())
      ensures sent.Some? ==> sent.value == old(Payload()) && !isLoading
      ensures sent.Some? ==> (navigatedBack <==> response.Ok?)
      ensures sent.Some? && response.Ok? ==> error == "" && auth.user == Some(response.value.user)
      ensures sent.Some? && response.Err? ==>
                error == AuthContext.SignUpErrorMessage(response.error) && auth.user == old(auth.user)
    {
      var data := Payload();
      var e := Error();
      if e.Some? {
        error := e.value;
        sent, navigatedBack := None, false;
      } else {
        isLoading := true;
        error := "";
        sent := Some(data);
        navigatedBack := SubmitSignUp(auth, response);
        isLoading := false;
      }
    }

    /** The part of handleRegister after validation: signUp's outcome becomes the navigation or
        the message shown. */
    method SubmitSignUp(auth: AuthContext.AuthState, response: Remote<StoreApi.LoginResponse>)
      returns (navigatedBack: bool)
      requires auth.tokens.Valid()
      modifies this`error, auth`user, auth`cachedUser, auth.tokens
      ensures auth.tokens.Valid()
      ensures navigatedBack <==> response.Ok?
      ensures response.Ok? ==> error == old(error) && auth.user == Some(response.value.user)
      ensures response.Err? ==>
                error == AuthContext.SignUpErrorMessage(response.error) && auth.user == old(auth.user)
    {
      var result := auth.SignUp(response);
      if result.success {
        navigatedBack := true;
      } else {
        navigatedBack := false;
        error := if result.error.Some? && result.error.value != "" then result.error.value else REGISTER_FALLBACK;
      }
    }
  }
}
