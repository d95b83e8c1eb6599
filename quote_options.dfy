/**
 * The static option catalog: five website types, six add-ons, three hosting
 * plans, three urgency levels and two builder types. The descriptive text of
 * the website types (purpose, includes, client fit, tech options) is not part
 * of this model; ids, names, prices, multipliers and recommended add-ons are.
 */
module QuoteOptions {
  import opened Wrappers
  import opened Lookup
  import opened QuoteTypes

  const WebsiteTypes: seq<WebsiteType> := [
    WebsiteType("landing", "Landing Page", 10000.0, ["whatsapp", "seo", "logo"]),
    WebsiteType("business", "Business Website", 20000.0, ["whatsapp", "logo", "seo", "social"]),
    WebsiteType("ecommerce", "E-Commerce Website", 50000.0, ["payment", "whatsapp", "custom"]),
    WebsiteType("blog", "Blog/Portfolio", 15000.0, ["seo", "logo"]),
    WebsiteType("lms", "LMS / Membership Site", 75000.0, ["payment", "custom"])
  ]

  const AddOns: seq<AddOn> := [
    AddOn("seo", "SEO Optimization", 3500.0,
      "Improve your website's search engine rankings with keyword optimization, meta tags, and technical SEO"),
    AddOn("whatsapp", "WhatsApp Chat", 2000.0,
      "Add a WhatsApp chat widget for instant customer communication and support"),
    AddOn("payment", "Payment Integration", 6000.0,
      "Integrate M-Pesa, PayPal, Stripe and other payment gateways for online transactions"),
    AddOn("logo", "Logo Design", 3000.0,
      "Professional logo design with multiple concepts, revisions, and brand guidelines"),
    AddOn("social", "Social Media Setup", 3500.0,
      "Setup and optimize your social media profiles with consistent branding and linking"),
    AddOn("custom", "Custom Feature", 10000.0,
      "Any custom functionality or integration specific to your business needs")
  ]

  const HostingPlans: seq<HostingPlan> := [
    HostingPlan("none", "None", 0.0),
    HostingPlan("standard", "Standard Hosting Annual (Domain + Hosting(To Include Maintenance=>750)", 6000.0),
    HostingPlan("premium", "Annual Premium (Hosting + Maintenance)", 12000.0)
  ]

  const UrgencyLevels: seq<UrgencyLevel> := [
    UrgencyLevel("flexible", "Flexible (2–4 weeks)", 1.0),
    UrgencyLevel("fast", "Fast (1–2 weeks)", 1.2),
    UrgencyLevel("urgent", "Urgent (<7 days)", 1.5)
  ]

  const BuilderTypes: seq<BuilderType> := [
    BuilderType("freelancer", "Freelancer", 1.0),
    BuilderType("agency", "Agency", 1.3)
  ]

  /** The five option lists the pricing engine resolves selections against. */
  datatype Catalog = Catalog(
    websiteTypes: seq<WebsiteType>,
    addOns: seq<AddOn>,
    hostingPlans: seq<HostingPlan>,
    urgencyLevels: seq<UrgencyLevel>,
    builderTypes: seq<BuilderType>)

  /** The catalog the application ships with. */
  const Static: Catalog := Catalog(WebsiteTypes, AddOns, HostingPlans, UrgencyLevels, BuilderTypes)

  /** Prices are non-negative. */
  predicate NonNegativePrices(c: Catalog)
  {
    && (forall i :: 0 <= i < |c.websiteTypes| ==> c.websiteTypes[i].price >= 0.0)
    && (forall i :: 0 <= i < |c.addOns| ==> c.addOns[i].price >= 0.0)
    && (forall i :: 0 <= i < |c.hostingPlans| ==> c.hostingPlans[i].price >= 0.0)
  }

  /** Multipliers never discount. */
  predicate MarkupMultipliers(c: Catalog)
  {
    && (forall i :: 0 <= i < |c.urgencyLevels| ==> c.urgencyLevels[i].multiplier >= 1.0)
    && (forall i :: 0 <= i < |c.builderTypes| ==> c.builderTypes[i].multiplier >= 1.0)
  }

  /** Ids are unique within each list. */
  predicate UniqueIds(c: Catalog)
  {
    && UniqueKeys(c.websiteTypes, WebsiteTypeId)
    && UniqueKeys(c.addOns, AddOnId)
    && UniqueKeys(c.hostingPlans, HostingPlanId)
    && UniqueKeys(c.urgencyLevels, UrgencyLevelId)
    && UniqueKeys(c.builderTypes, BuilderTypeId)
  }

  /** No entry has the empty id (the "nothing chosen yet" value). */
  predicate NonEmptyIds(c: Catalog)
  {
    && (forall i :: 0 <= i < |c.websiteTypes| ==> c.websiteTypes[i].id != "")
    && (forall i :: 0 <= i < |c.hostingPlans| ==> c.hostingPlans[i].id != "")
    && (forall i :: 0 <= i < |c.urgencyLevels| ==> c.urgencyLevels[i].id != "")
    && (forall i :: 0 <= i < |c.builderTypes| ==> c.builderTypes[i].id != "")
  }

  /** Every recommended add-on id names an add-on of the catalog. */
  predicate RecommendationsResolve(c: Catalog)
  {
    forall i, k :: 0 <= i < |c.websiteTypes| && 0 <= k < |c.websiteTypes[i].recommendedAddOns| ==>
      HasKey(c.addOns, AddOnId, c.websiteTypes[i].recommendedAddOns[k])
  }

  predicate WellFormed(c: Catalog)
  {
    NonNegativePrices(c) && MarkupMultipliers(c) && UniqueIds(c) && NonEmptyIds(c) && RecommendationsResolve(c)
  }

  lemma StaticSizes()
    ensures |Static.websiteTypes| == 5 && |Static.addOns| == 6 && |Static.hostingPlans| == 3
    ensures |Static.urgencyLevels| == 3 && |Static.builderTypes| == 2
  {
  }

  lemma StaticWellFormed()
    ensures WellFormed(Static)
  {
    StaticUniqueIds();
    StaticRecommendationsResolve();
  }

  lemma StaticUniqueIds()
    ensures UniqueIds(Static)
  {
    assert UniqueKeys(WebsiteTypes, WebsiteTypeId) by {
      forall i, j | 0 <= i < j < |WebsiteTypes| ensures WebsiteTypes[i].id != WebsiteTypes[j].id {
        assert |WebsiteTypes[i].id| != |WebsiteTypes[j].id|;
      }
    }
    assert UniqueKeys(AddOns, AddOnId) by {
      forall i, j | 0 <= i < j < |AddOns| ensures AddOns[i].id != AddOns[j].id {
        assert AddOns[i].id[0] != AddOns[j].id[0] || |AddOns[i].id| != |AddOns[j].id|;
      }
    }
    assert UniqueKeys(HostingPlans, HostingPlanId) by {
      forall i, j | 0 <= i < j < |HostingPlans| ensures HostingPlans[i].id != HostingPlans[j].id {
        assert HostingPlans[i].id[0] != HostingPlans[j].id[0];
      }
    }
    assert UniqueKeys(UrgencyLevels, UrgencyLevelId) by {
      forall i, j | 0 <= i < j < |UrgencyLevels| ensures UrgencyLevels[i].id != UrgencyLevels[j].id {
        assert UrgencyLevels[i].id[1] != UrgencyLevels[j].id[1];
      }
    }
    assert UniqueKeys(BuilderTypes, BuilderTypeId) by {
      assert BuilderTypes[0].id[0] != BuilderTypes[1].id[0];
    }
  }

  lemma StaticRecommendationsResolve()
    ensures RecommendationsResolve(Static)
  {
    forall i, k | 0 <= i < |WebsiteTypes| && 0 <= k < |WebsiteTypes[i].recommendedAddOns|
      ensures HasKey(AddOns, AddOnId, WebsiteTypes[i].recommendedAddOns[k])
    {
      var id := WebsiteTypes[i].recommendedAddOns[k];
      if id == "seo" { assert AddOnId(AddOns[0]) == id; }
      else if id == "whatsapp" { assert AddOnId(AddOns[1]) == id; }
      else if id == "payment" { assert AddOnId(AddOns[2]) == id; }
      else if id == "logo" { assert AddOnId(AddOns[3]) == id; }
      else if id == "social" { assert AddOnId(AddOns[4]) == id; }
      else { assert AddOnId(AddOns[5]) == id; }
    }
  }

  /** The calculator's default hosting, urgency and builder ids resolve, and add nothing. */
  lemma StaticDefaultsAreNeutral()
    ensures Find(HostingPlans, HostingPlanId, "none") == Some(HostingPlans[0]) && HostingPlans[0].price == 0.0
    ensures Find(UrgencyLevels, UrgencyLevelId, "flexible") == Some(UrgencyLevels[0]) && UrgencyLevels[0].multiplier == 1.0
    ensures Find(BuilderTypes, BuilderTypeId, "freelancer") == Some(BuilderTypes[0]) && BuilderTypes[0].multiplier == 1.0
  {
  }
}
