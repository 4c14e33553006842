/**
 The plan tiers of the broker (the `Caffeine` enum) and the resolution of a
 plan id to a tier: upper-case the id, then look it up by exact name as
 `Enum.valueOf` does.
 */
module Plans {
  import opened Results
  import opened Text

  /** The tiers, each with its idle expiry in seconds and its entry-count cap. */
  datatype Tier = Strong | Weak {

    /** `name()`: the constant's name as declared. */
    function Name(): (n: string)
      ensures IsUpperWord(n) && |n| > 0
    {
      match this
      case Strong => "STRONG"
      case Weak => "WEAK"
    }

    function ExpireSeconds(): nat {
      match this
      case Strong => 600
      case Weak => 60
    }

    function MaximumSize(): nat {
      match this
      case Strong => 1000
      case Weak => 100
    }
  }

  /** `Caffeine.values()`: every tier, in declaration order. */
  function Tiers(): (ts: seq<Tier>)
    ensures forall i, j :: 0 <= i < j < |ts| ==> ts[i] != ts[j]
  {
    [Strong, Weak]
  }

  /** Every tier is among `values()`. */
  lemma TierListed(t: Tier)
    ensures t in Tiers()
  {
  }

  /** Why a plan could not be resolved: `valueOf` found no constant with this name. */
  datatype PlanError = NoEnumConstant(name: string)

  /** `Caffeine.valueOf(name)`: exact, case-sensitive match on the constant's name. */
  function ValueOf(name: string): (r: Result<Tier, PlanError>)
    ensures r.Ok? ==> r.value.Name() == name
    ensures r.Err? ==> r.error == NoEnumConstant(name) && forall t: Tier :: t.Name() != name
  {
    if name == "STRONG" then Ok(Strong)
    else if name == "WEAK" then Ok(Weak)
    else Err(NoEnumConstant(name))
  }

  /** `Caffeine.valueOf(planId.toUpperCase())`. */
  function ResolvePlan(planId: string): (r: Result<Tier, PlanError>)
    ensures r.Ok? ==> r.value.Name() == ToUpper(planId)
    ensures r.Err? ==> r.error == NoEnumConstant(ToUpper(planId)) && forall t: Tier :: t.Name() != ToUpper(planId)
  {
    ValueOf(ToUpper(planId))
  }

  /**
   A plan id resolves to a tier exactly when it spells the tier's name in any
   mix of cases; every other id fails, naming the upper-cased id, and never
   falls back to a default tier.
   */
  lemma ResolvePlanSpec(planId: string, t: Tier)
    ensures ResolvePlan(planId) == Ok(t) <==> ToUpper(planId) == t.Name()
    ensures ResolvePlan(planId).Err? <==> forall u: Tier :: ToUpper(planId) != u.Name()
    ensures ResolvePlan(planId).Err? ==> ResolvePlan(planId).error == NoEnumConstant(ToUpper(planId))
  {
  }

  /** The lower-case name of a tier (the catalog's plan id) resolves back to that tier. */
  lemma ResolveLowerName(t: Tier)
    ensures ResolvePlan(ToLower(t.Name())) == Ok(t)
  {
  }

  /** Resolution ignores case: ids that agree letter by letter up to case resolve alike. */
  lemma ResolveIgnoresCase(a: string, b: string)
    requires |a| == |b|
    requires forall i :: 0 <= i < |a| ==> UpperChar(a[i]) == UpperChar(b[i])
    ensures ResolvePlan(a) == ResolvePlan(b)
  {
    UpperIgnoresCase(a, b);
  }

  /** The plan ids a platform is offered, in either case, with the sizing each selects. */
  lemma KnownPlanIds()
    ensures ResolvePlan("weak") == Ok(Weak) && ResolvePlan("WEAK") == Ok(Weak)
    ensures ResolvePlan("strong") == Ok(Strong) && ResolvePlan("Strong") == Ok(Strong)
    ensures Weak.ExpireSeconds() == 60 && Weak.MaximumSize() == 100
    ensures Strong.ExpireSeconds() == 600 && Strong.MaximumSize() == 1000
  {
  }

  /** An id that is no tier's name in any case fails rather than picking a default tier. */
  lemma UnknownPlanIds()
    ensures ResolvePlan("medium") == Err(NoEnumConstant("MEDIUM"))
    ensures ResolvePlan("") == Err(NoEnumConstant(""))
  {
    UpperIs("medium", "MEDIUM");
  }
}
