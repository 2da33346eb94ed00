/** The `getUsername` helper of src/config/uiStrings.js. */
module UiStrings {
  import opened Wrappers

  /** The text shown for a user without an email (GENERAL.ANONYMOUS). */
  const Anonymous: string := "Anonymous"

  /**
   * The first field of `s.split('@')`: the text before the first '@',
   * or all of `s` when it holds none.
   */
  function BeforeFirstAt(s: string): (r: string)
    ensures |r| <= |s| && r == s[..|r|]
    ensures '@' !in r
    ensures |r| == |s| || s[|r|] == '@'
  {
    if s == [] || s[0] == '@' then "" else [s[0]] + BeforeFirstAt(s[1..])
  }

  /** `getUsername(email)`: `null`, `undefined` and `""` are the falsy emails. */
  function GetUsername(email: Option<string>): string {
    if email.None? || email.value == "" then Anonymous else BeforeFirstAt(email.value)
  }

  /** A falsy email reads as the anonymous name. */
  lemma FalsyEmailIsAnonymous(email: Option<string>)
    requires email.None? || email.value == ""
    ensures GetUsername(email) == Anonymous
  {
  }

  /** For a truthy email the name is the part before the first '@', and the email splits there. */
  lemma UsernameIsLocalPart(email: string)
    requires email != ""
    ensures var r := GetUsername(Some(email));
      && '@' !in r
      && (r == email || email == r + "@" + email[|r| + 1..])
  {
    var r := BeforeFirstAt(email);
    if |r| < |email| {
      assert email == email[..|r|] + [email[|r|]] + email[|r| + 1..];
    }
  }

  /** An email without '@' is its own username. */
  lemma NoAtKeepsEmail(email: string)
    requires email != "" && '@' !in email
    ensures GetUsername(Some(email)) == email
  {
  }

  /** An email that starts with '@' yields the empty name, not the anonymous one. */
  lemma LeadingAtYieldsEmpty(email: string)
    requires |email| > 0 && email[0] == '@'
    ensures GetUsername(Some(email)) == ""
    ensures GetUsername(Some(email)) != Anonymous
  {
  }
}
