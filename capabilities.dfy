/** The premium capability rule (`src/lib/capabilities.ts`). */
module Capabilities {
  import opened Wrappers

  /** The roles the rule is written against. */
  const Free := "FREE"
  const Premium := "PREMIUM"
  const Admin := "ADMIN"

  /** `hasPremium(role)`: `role === "PREMIUM"`; `None` is a null or absent role. Any other
      text, including a role the type does not list, is not premium. */
  function HasPremium(role: Option<string>): (premium: bool)
    ensures premium ==> role.Some?
    ensures premium <==> role == Some(Premium)
  {
    role == Some(Premium)
  }

  /** Only the premium role passes: the free and admin roles, a missing role, and the
      "PRO" role the payment webhook writes are all refused. */
  lemma OnlyPremiumPasses()
    ensures HasPremium(Some(Premium))
    ensures !HasPremium(Some(Free)) && !HasPremium(Some(Admin))
    ensures !HasPremium(None)
    ensures !HasPremium(Some("PRO"))
  {
  }
}
