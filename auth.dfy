/** The admin check: an email is the administrator's when it equals the
    configured admin address exactly. The configuration is passed in. */
module Auth {
  import opened Records

  /** The two environment variables that may name the admin address. */
  datatype Env = Env(publicAdminEmail: Option<string>, adminEmail: Option<string>)

  const DefaultAdminEmail := "admin@example.com"

  /** An unset or empty variable counts as absent (`||` skips both). */
  predicate IsSet(v: Option<string>)
  {
    v.Some? && v.value != ""
  }

  /** `NEXT_PUBLIC_ADMIN_EMAIL || ADMIN_EMAIL || 'admin@example.com'`. */
  function ConfiguredAdminEmail(env: Env): (r: string)
    ensures r != ""
    ensures IsSet(env.publicAdminEmail) ==> r == env.publicAdminEmail.value
    ensures !IsSet(env.publicAdminEmail) && IsSet(env.adminEmail) ==> r == env.adminEmail.value
    ensures !IsSet(env.publicAdminEmail) && !IsSet(env.adminEmail) ==> r == DefaultAdminEmail
  {
    if IsSet(env.publicAdminEmail) then env.publicAdminEmail.value
    else if IsSet(env.adminEmail) then env.adminEmail.value
    else DefaultAdminEmail
  }

  /** Exact, case-sensitive comparison with the configured address. */
  function IsAdminEmail(email: string, env: Env): (r: bool)
    ensures r ==> email != ""
  {
    email == ConfiguredAdminEmail(env)
  }

  /** The configured address is never empty, so a user without an email
      (checked as '') is never the administrator. */
  lemma EmptyEmailIsNotAdmin(env: Env)
    ensures !IsAdminEmail("", env)
  {
  }

  /** One configuration admits exactly one address: two admin emails are
      the same string, and the configured one is admitted. */
  lemma OneAdminAddress(a: string, b: string, env: Env)
    ensures IsAdminEmail(a, env) && IsAdminEmail(b, env) ==> a == b
    ensures IsAdminEmail(ConfiguredAdminEmail(env), env)
  {
  }
}
