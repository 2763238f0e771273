/** The validators of the profile-update schema: the e-mail check and the language whitelist.
    Both pass a missing or empty value through unchanged. */
module UserSchemas {
  import opened Wrappers
  import AuthSchemas

  const InvalidEmailFormat: string := "Invalid email format"
  const InvalidLanguageCode: string := "Invalid language code"
  const SupportedLanguages: seq<string> := ["hi", "en", "pa"]

  /** `UserUpdate.validate_email` */
  function ValidateEmail(v: Option<string>): (r: Result<Option<string>, string>)
    ensures r.Success? <==> (v.None? || v.value == "" || '@' in v.value)
    ensures r.Success? ==> r.value == v
    ensures r.Failure? ==> r.error == InvalidEmailFormat
  {
    if v.Some? && v.value != "" && '@' !in v.value then Failure(InvalidEmailFormat) else Success(v)
  }

  /** The profile-update e-mail check and the registration one agree on every input. */
  lemma EmailChecksAgree(v: Option<string>)
    ensures ValidateEmail(v) == AuthSchemas.ValidateEmail(v)
  {
  }

  /** `UserUpdate.validate_language`: a missing or empty value passes; a non-empty one must
      be one of hi, en, pa; accepted values are returned unchanged. */
  function ValidateLanguage(v: Option<string>): (r: Result<Option<string>, string>)
    ensures r.Success? <==> (v.None? || v.value == "" || v.value in {"hi", "en", "pa"})
    ensures r.Success? ==> r.value == v
    ensures r.Failure? ==> r.error == InvalidLanguageCode
  {
    if v.Some? && v.value != "" && v.value !in SupportedLanguages then Failure(InvalidLanguageCode) else Success(v)
  }

  /** The whitelist is exact: upper-case or regional variants are refused. */
  lemma LanguageExamples()
    ensures ValidateLanguage(Some("pa")) == Success(Some("pa"))
    ensures ValidateLanguage(Some("HI")).Failure?
    ensures ValidateLanguage(Some("en-IN")).Failure?
    ensures ValidateLanguage(None) == Success(None)
  {
  }
}
