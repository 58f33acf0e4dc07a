/**
 * What the routes and pages read from a caller's identity: the bearer token
 * in the Authorization header and the claims (subject and namespaced role
 * claim, "https://studentstarter.com/role") of an identity-provider profile.
 */
module Identity {
  import opened Wrappers
  import opened Text

  /** The two claims the application reads; a missing claim is None. */
  datatype Claims = Claims(sub: Option<string>, role: Option<string>)

  /**
   * A parsed JSON profile: an object with claims, or `null`, whose
   * properties cannot be read at all.
   */
  datatype Profile = NullProfile | Object(claims: Claims)

  /** JavaScript truthiness of an optional string: present and not "". */
  predicate Present(s: Option<string>) {
    s.Some? && s.value != ""
  }

  /**
   * `header?.split(" ")[1]`: the second space-separated piece of the
   * Authorization header, `undefined` when there is none.
   */
  function BearerToken(header: Option<string>): (token: Option<string>)
    ensures token.Some? <==> header.Some? && ' ' in header.value
    ensures token.Some? ==> ' ' !in token.value
    ensures token.Some? ==> exists a, b :: SeparatedAt(header.value, ' ', a, token.value, b)
  {
    match header
    case None => None
    case Some(h) =>
      if ' ' !in h then None
      else
        SecondPiece(h, ' ');
        Some(Split(h, ' ')[1])
  }

  /** The token as a template string prints it: "undefined" when missing. */
  function TokenText(token: Option<string>): string {
    if token.Some? then token.value else "undefined"
  }

  /** `claims[role claim] || "student"`: never empty, "student" by default. */
  function ClaimedRole(c: Claims): (role: string)
    ensures role != ""
    ensures Present(c.role) ==> role == c.role.value
    ensures !Present(c.role) ==> role == "student"
  {
    if Present(c.role) then c.role.value else "student"
  }
}
