/**
 The catalog the broker advertises: one service definition whose plans are
 generated from the tiers, one plan per tier in declaration order.
 */
module Catalog {
  import opened Results
  import opened Text
  import opened Plans

  /** A plan of the service: id, name, description, the bullet lines of its metadata, and whether it is free. */
  datatype Plan = Plan(id: string, name: string, description: string, bullets: seq<string>, free: bool)

  datatype ServiceDefinition = ServiceDefinition(
    id: string, name: string, description: string,
    bindable: bool, planUpdateable: bool,
    plans: seq<Plan>, tags: seq<string>)

  /**
   `"<tier> caffeine plan (<maximumSize> elements, expires <expireSeconds> seconds after last access)"`:
   the description says what the three bullets say.
   */
  function Description(t: Tier): (d: string)
    ensures d == Bullets(t)[0] + " plan (" + Bullets(t)[1] + ", " + Bullets(t)[2] + ")"
  {
    DescriptionOfBullets(ToLower(t.Name()), Decimal(t.MaximumSize()), Decimal(t.ExpireSeconds()));
    ToLower(t.Name()) + " caffeine plan (" + Decimal(t.MaximumSize()) + " elements, expires "
      + Decimal(t.ExpireSeconds()) + " seconds after last access)"
  }

  /** The description template, cut where the bullets begin and end. */
  lemma DescriptionOfBullets(name: string, m: string, e: string)
    ensures name + " caffeine plan (" + m + " elements, expires " + e + " seconds after last access)"
            == (name + " caffeine") + " plan (" + (m + " elements") + ", " + ("expires " + e + " seconds after last access") + ")"
  {
    assert " caffeine plan (" == " caffeine" + " plan (";
    assert " elements, expires " == " elements" + ", " + "expires ";
    assert " seconds after last access)" == " seconds after last access" + ")";
  }

  /**
   The bullets: the plan, its size and its expiry. The size and expiry are
   written as decimal numbers that a reader of the catalog reads back as the
   tier's.
   */
  function Bullets(t: Tier): (bs: seq<string>)
    ensures |bs| == 3
    ensures var b := bs[1]; var n := |b| - |" elements"|;
      && n > 0 && b[n..] == " elements" && IsDigits(b[..n]) && ParseDecimal(b[..n]) == t.MaximumSize()
    ensures var b := bs[2]; var n := |b| - |" seconds after last access"|;
      && n > |"expires "| && b[..|"expires "|] == "expires " && b[n..] == " seconds after last access"
      && IsDigits(b[|"expires "|..n]) && ParseDecimal(b[|"expires "|..n]) == t.ExpireSeconds()
  {
    var m, e := Decimal(t.MaximumSize()), Decimal(t.ExpireSeconds());
    assert (m + " elements")[..|m|] == m;
    assert ("expires " + e + " seconds after last access")[|"expires "|..|"expires "| + |e|] == e;
    ParseDecimalOfDecimal(t.MaximumSize());
    ParseDecimalOfDecimal(t.ExpireSeconds());
    [ToLower(t.Name()) + " caffeine", m + " elements", "expires " + e + " seconds after last access"]
  }

  /** The plan generated for one tier: named by its id, free, and described by its own bullets. */
  function PlanOf(t: Tier): (p: Plan)
    ensures p.name == p.id && p.free
    ensures |p.bullets| == 3 && p.bullets[0] == p.id + " caffeine"
    ensures p.description == p.bullets[0] + " plan (" + p.bullets[1] + ", " + p.bullets[2] + ")"
  {
    Plan(ToLower(t.Name()), ToLower(t.Name()), Description(t), Bullets(t), true)
  }

  /** The stream `map` over the tiers. */
  function PlansOf(ts: seq<Tier>): (ps: seq<Plan>)
    ensures |ps| == |ts|
    ensures forall i :: 0 <= i < |ts| ==> ps[i] == PlanOf(ts[i])
  {
    if ts == [] then [] else [PlanOf(ts[0])] + PlansOf(ts[1..])
  }

  /** `catalog()`: a single service definition, bindable, without plan updates. */
  function TheCatalog(): (c: seq<ServiceDefinition>)
    ensures |c| == 1 && |c[0].plans| == |Tiers()|
  {
    [ServiceDefinition("caffeine-broker", "p-caffeine", "A caffeine service broker",
                       true, false, PlansOf(Tiers()), ["caffeine"])]
  }

  /**
   Each plan follows its tier, in enum order: id and name are the lower-case
   tier name, description and bullets follow the templates, and it is free.
   */
  lemma CatalogPlans(i: nat)
    requires i < |Tiers()|
    ensures var p := TheCatalog()[0].plans[i]; var t := Tiers()[i];
      && p.id == ToLower(t.Name()) && p.name == p.id
      && p.description == p.id + " caffeine plan (" + Decimal(t.MaximumSize()) + " elements, expires "
                                + Decimal(t.ExpireSeconds()) + " seconds after last access)"
      && p.bullets == [p.id + " caffeine", Decimal(t.MaximumSize()) + " elements",
                       "expires " + Decimal(t.ExpireSeconds()) + " seconds after last access"]
      && p.free
  {
  }

  /** The plan generated for a tier provisions that very tier when a platform asks for it by id. */
  lemma PlanProvisionsTier(t: Tier)
    ensures ResolvePlan(PlanOf(t).id) == Ok(t)
  {
    ResolveLowerName(t);
  }

  /** Every tier is offered by exactly one plan, and a plan's id provisions its own tier. */
  lemma PlanIdsResolve(i: nat, j: nat)
    requires i < |Tiers()| && j < |Tiers()|
    ensures ResolvePlan(TheCatalog()[0].plans[i].id) == Ok(Tiers()[i])
    ensures TheCatalog()[0].plans[i].id == TheCatalog()[0].plans[j].id <==> i == j
  {
    PlanProvisionsTier(Tiers()[i]);
    PlanProvisionsTier(Tiers()[j]);
  }

  /** The strong tier's plan as a platform displays it. */
  lemma StrongPlan()
    ensures PlanOf(Strong).id == "strong"
    ensures PlanOf(Strong).description
            == "strong" + " caffeine plan (" + "1000" + " elements, expires " + "600" + " seconds after last access)"
    ensures PlanOf(Strong).bullets == ["strong" + " caffeine", "1000" + " elements", "expires " + "600" + " seconds after last access"]
  {
    assert ToLower("STRONG") == "strong";
    assert Decimal(1000) == "1000" by { assert Decimal(1) == "1"; assert Decimal(10) == "10"; assert Decimal(100) == "100"; }
    assert Decimal(600) == "600" by { assert Decimal(6) == "6"; assert Decimal(60) == "60"; }
  }
}
