/**
  `update_auth_section` (app.py:328-342): the header shows the signed-in
  user's email with a sign-out button, or the Google sign-in button.
  `json.loads` is not modelled: `decoded` is what it returns for the raw
  text, None when it raises.
 */
module Auth {
  import opened Wrappers
  import opened Json

  datatype AuthSection = SignedIn(email: Json) | SignInButton

  /** The payload parsed from the raw text; `json.loads` is only tried on non-empty text. */
  function Payload(raw: Option<string>, decoded: Option<Json>): Option<Json> {
    if raw.Some? && raw.value != "" then decoded else None
  }

  /**
    Signed in exactly when the non-empty raw text parses to a dict whose
    "email" is truthy; the badge then shows that email.
   */
  function UpdateAuthSection(raw: Option<string>, decoded: Option<Json>): (section: AuthSection)
    ensures section.SignedIn? <==>
      && raw.Some? && raw.value != ""
      && decoded.Some? && decoded.value.JObj?
      && "email" in decoded.value.fields && Truthy(decoded.value.fields["email"])
    ensures section.SignedIn? ==> section.email == decoded.value.fields["email"]
  {
    var payload := Payload(raw, decoded);
    if payload.Some? && Truthy(payload.value) && payload.value.JObj?
       && "email" in payload.value.fields && Truthy(payload.value.fields["email"])
    then SignedIn(payload.value.fields["email"])
    else SignInButton
  }

  /** Empty or missing text, or text that does not parse, shows the sign-in button. */
  lemma NoUserSignInButton(raw: Option<string>, decoded: Option<Json>)
    requires raw.None? || raw.value == "" || decoded.None?
    ensures UpdateAuthSection(raw, decoded) == SignInButton
  {
  }
}
