/**
 * The login and registration form schemas. A field is `None` when it is
 * undefined; lengths are JavaScript lengths, counted in UTF-16 code units.
 */
module AuthSchemas {
  import opened Wrappers

  /** `s.length` in JavaScript: a character outside the Basic Multilingual Plane counts twice. */
  function Utf16Length(s: string): (n: nat)
    ensures |s| <= n <= 2 * |s|
  {
    if s == [] then 0 else (if s[0] as int > 0xFFFF then 2 else 1) + Utf16Length(s[1..])
  }

  /** For text in the Basic Multilingual Plane (all of Latin and Cyrillic), the length is the character count. */
  lemma {:induction false} Utf16LengthBmp(s: string)
    requires forall i :: 0 <= i < |s| ==> s[i] as int <= 0xFFFF
    ensures Utf16Length(s) == |s|
  {
    if s != [] {
      Utf16LengthBmp(s[1..]);
    }
  }

  /** `.required()`: defined and not the empty string. */
  predicate Required(v: Option<string>)
  {
    v.Some? && v.value != ""
  }

  /** `.min(n)`: an undefined value is left to `required`. */
  predicate MinLength(v: Option<string>, n: nat)
  {
    v.None? || Utf16Length(v.value) >= n
  }

  /** `.max(n)`. */
  predicate MaxLength(v: Option<string>, n: nat)
  {
    v.None? || Utf16Length(v.value) <= n
  }

  /** `.oneOf([yup.ref(other)])`: an undefined value is left to `required`. */
  predicate OneOf(v: Option<string>, other: Option<string>)
  {
    v.None? || v == other
  }

  predicate UsernameValid(username: Option<string>)
  {
    Required(username) && MinLength(username, 3) && MaxLength(username, 20)
  }

  predicate PasswordValid(password: Option<string>)
  {
    Required(password) && MinLength(password, 6) && MaxLength(password, 50)
  }

  /** `loginSchema`. */
  predicate LoginValid(username: Option<string>, password: Option<string>)
  {
    UsernameValid(username) && PasswordValid(password)
  }

  /** `registerSchema`: `loginSchema` concatenated with the `confirmPassword` rule. */
  predicate RegisterValid(username: Option<string>, password: Option<string>, confirmPassword: Option<string>)
  {
    LoginValid(username, password) && Required(confirmPassword) && OneOf(confirmPassword, password)
  }

  /** A login form is valid exactly when both fields are present with 3–20 and 6–50 characters. */
  lemma LoginValidIff(username: Option<string>, password: Option<string>)
    ensures LoginValid(username, password) <==>
            username.Some? && 3 <= Utf16Length(username.value) <= 20 &&
            password.Some? && 6 <= Utf16Length(password.value) <= 50
  {
    if username.Some? && username.value == "" { assert Utf16Length(username.value) == 0; }
    if password.Some? && password.value == "" { assert Utf16Length(password.value) == 0; }
  }

  /** A registration form is valid exactly when the login rules hold and the confirmation is present and equal. */
  lemma RegisterValidIff(username: Option<string>, password: Option<string>, confirmPassword: Option<string>)
    ensures RegisterValid(username, password, confirmPassword) <==>
            LoginValid(username, password) && confirmPassword.Some? && confirmPassword == password
  {
  }

  /** Every valid registration form passes the login schema too. */
  lemma RegisterImpliesLogin(username: Option<string>, password: Option<string>, confirmPassword: Option<string>)
    ensures RegisterValid(username, password, confirmPassword) ==> LoginValid(username, password)
  {
  }

  /** For Latin or Cyrillic input the username rule is a character count from 3 to 20, inclusive. */
  lemma UsernameBoundsBmp(username: string)
    requires forall i :: 0 <= i < |username| ==> username[i] as int <= 0xFFFF
    ensures UsernameValid(Some(username)) <==> 3 <= |username| <= 20
  {
    Utf16LengthBmp(username);
  }

  /** For Latin or Cyrillic input the password rule is a character count from 6 to 50, inclusive. */
  lemma PasswordBoundsBmp(password: string)
    requires forall i :: 0 <= i < |password| ==> password[i] as int <= 0xFFFF
    ensures PasswordValid(Some(password)) <==> 6 <= |password| <= 50
  {
    Utf16LengthBmp(password);
  }

  /** A field that is undefined or empty fails its schema, whatever the other fields hold. */
  lemma AbsentFieldsFail(username: Option<string>, password: Option<string>, confirmPassword: Option<string>)
    ensures !UsernameValid(None) && !UsernameValid(Some(""))
    ensures !PasswordValid(None) && !PasswordValid(Some(""))
    ensures !Required(username) ==>
              !LoginValid(username, password) && !RegisterValid(username, password, confirmPassword)
    ensures !Required(password) ==>
              !LoginValid(username, password) && !RegisterValid(username, password, confirmPassword)
    ensures !Required(confirmPassword) ==> !RegisterValid(username, password, confirmPassword)
  {
  }
}
