/** services/EntitlementService.js: the fixed plan -> feature table. */
module EntitlementService {

  const BASIC_FEATURES: seq<string> := ["article_preview", "daily_digest"]
  const PREMIUM_FEATURES: seq<string> := BASIC_FEATURES + ["markets_data", "podcasts"]
  const FAMILY_FEATURES: seq<string> := PREMIUM_FEATURES + ["shared_accounts"]

  const PLAN_ENTITLEMENTS: map<string, seq<string>> :=
    map["basic" := BASIC_FEATURES, "premium" := PREMIUM_FEATURES, "family" := FAMILY_FEATURES]

  /** `getEntitlements(plan)`: the table entry, or `[]` for a plan not in it. */
  function GetEntitlements(plan: string): (r: seq<string>)
    ensures plan == "basic" ==> r == ["article_preview", "daily_digest"]
    ensures plan == "premium" ==> r == ["article_preview", "daily_digest", "markets_data", "podcasts"]
    ensures plan == "family" ==> r == ["article_preview", "daily_digest", "markets_data", "podcasts", "shared_accounts"]
    ensures plan !in {"basic", "premium", "family"} ==> r == []
  {
    if plan in PLAN_ENTITLEMENTS then PLAN_ENTITLEMENTS[plan] else []
  }

  /** `hasEntitlement(plan, entitlement)`: only the three plans unlock
      anything; every plan has the basic features, only family shares. */
  predicate HasEntitlement(plan: string, entitlement: string)
    ensures HasEntitlement(plan, entitlement) ==> plan in {"basic", "premium", "family"}
    ensures entitlement == "article_preview" ==> (HasEntitlement(plan, entitlement) <==> plan in {"basic", "premium", "family"})
    ensures entitlement == "markets_data" ==> (HasEntitlement(plan, entitlement) <==> plan in {"premium", "family"})
    ensures entitlement == "shared_accounts" ==> (HasEntitlement(plan, entitlement) <==> plan == "family")
  {
    entitlement in GetEntitlements(plan)
  }

  /** A plan outside the table unlocks nothing. */
  lemma UnknownPlanHasNothing(plan: string, entitlement: string)
    requires plan !in PLAN_ENTITLEMENTS
    ensures !HasEntitlement(plan, entitlement)
  {
  }

  /** Each tier includes every feature of the tier below it. */
  lemma TiersAreNested(entitlement: string)
    ensures HasEntitlement("basic", entitlement) ==> HasEntitlement("premium", entitlement)
    ensures HasEntitlement("premium", entitlement) ==> HasEntitlement("family", entitlement)
  {
  }
}
