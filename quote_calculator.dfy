/**
 * The pricing engine: resolves the five selections against the catalog and
 * either reports that the quote is not ready or returns the resolved options,
 * the itemised breakdown and the total, with the urgency markup applied to the
 * subtotal first and the agency markup compounding on top of it.
 */
module QuoteCalculator {
  import opened Wrappers
  import opened Lookup
  import opened QuoteTypes
  import opened QuoteOptions
  import AddOnsSelector

  /** A snapshot of the calculator's five selections. */
  datatype Selections = Selections(
    websiteTypeId: string,
    addOnIds: seq<string>,
    hostingId: string,
    urgencyId: string,
    builderId: string)

  /** No website type yet, no add-ons, no hosting, flexible timeline, freelancer. */
  const InitialSelections: Selections := Selections("", [], "none", "flexible", "freelancer")

  /** `null` in the source becomes `NotReady`. */
  datatype CalcResult = NotReady | Ready(calculation: QuoteCalculation)

  /** Every id of `ids` occurs in `ids'` (set inclusion, ignoring order and repeats). */
  predicate IdsWithin(ids: seq<string>, ids': seq<string>)
  {
    forall x :: x in ids ==> x in ids'
  }

  /**
   * `addOns.filter(a => selected.includes(a.id))`: the catalog entries whose id
   * was selected, in catalog order.
   */
  function SelectAddOns(catalog: seq<AddOn>, selected: seq<string>): (r: seq<AddOn>)
    ensures forall a {:trigger a in r} :: a in r <==> a in catalog && a.id in selected
    ensures |r| <= |catalog|
    decreases |catalog|
  {
    if |catalog| == 0 then []
    else
      var rest := SelectAddOns(catalog[1..], selected);
      assert forall a :: a in catalog <==> a == catalog[0] || a in catalog[1..];
      if catalog[0].id in selected then [catalog[0]] + rest else rest
  }

  /** `addOns.reduce((sum, a) => sum + a.price, 0)`, a left fold. */
  function AddOnsTotal(addOns: seq<AddOn>): (r: real)
    ensures (forall i :: 0 <= i < |addOns| ==> addOns[i].price >= 0.0) ==> r >= 0.0
    decreases |addOns|
  {
    if |addOns| == 0 then 0.0
    else AddOnsTotal(addOns[..|addOns| - 1]) + addOns[|addOns| - 1].price
  }

  /** Base price plus add-ons plus hosting: the amount the markups apply to. */
  function Subtotal(b: Breakdown): real
  {
    b.basePrice + b.addOnsTotal + b.hostingCost
  }

  /** The five breakdown lines added up. */
  function BreakdownSum(b: Breakdown): real
  {
    b.basePrice + b.addOnsTotal + b.hostingCost + b.urgencyMarkup + b.agencyMarkup
  }

  /** The four single-choice ids each name an entry of their list. */
  predicate Resolves(cat: Catalog, sel: Selections)
  {
    && HasKey(cat.websiteTypes, WebsiteTypeId, sel.websiteTypeId)
    && HasKey(cat.hostingPlans, HostingPlanId, sel.hostingId)
    && HasKey(cat.urgencyLevels, UrgencyLevelId, sel.urgencyId)
    && HasKey(cat.builderTypes, BuilderTypeId, sel.builderId)
  }

  /** The two markups and the resulting total. */
  datatype Markup = Markup(urgencyMarkup: real, agencyMarkup: real, total: real)

  /**
   * Urgency markup on the subtotal, then agency markup on the subtotal plus
   * the urgency markup: the two multipliers compound.
   */
  function ApplyMarkups(subtotal: real, urgency: real, builder: real): (m: Markup)
    ensures m.urgencyMarkup == subtotal * (urgency - 1.0)
    ensures m.agencyMarkup == (subtotal + m.urgencyMarkup) * (builder - 1.0)
    ensures m.total == subtotal + m.urgencyMarkup + m.agencyMarkup
    ensures m.total == subtotal * urgency * builder
  {
    var urgencyMarkup := subtotal * (urgency - 1.0);
    var afterUrgency := subtotal + urgencyMarkup;
    var agencyMarkup := afterUrgency * (builder - 1.0);
    assert afterUrgency == subtotal * urgency;
    Markup(urgencyMarkup, agencyMarkup, afterUrgency + agencyMarkup)
  }

  /** `calculateTotal`. */
  function CalculateTotal(cat: Catalog, sel: Selections): (r: CalcResult)
    ensures r.NotReady? <==> !Resolves(cat, sel)
    ensures r.Ready? ==>
      && IsFirstMatch(cat.websiteTypes, WebsiteTypeId, sel.websiteTypeId, r.calculation.websiteType)
      && IsFirstMatch(cat.hostingPlans, HostingPlanId, sel.hostingId, r.calculation.hostingPlan)
      && IsFirstMatch(cat.urgencyLevels, UrgencyLevelId, sel.urgencyId, r.calculation.urgencyLevel)
      && IsFirstMatch(cat.builderTypes, BuilderTypeId, sel.builderId, r.calculation.builderType)
      && r.calculation.addOns == SelectAddOns(cat.addOns, sel.addOnIds)
    ensures r.Ready? ==>
      var c := r.calculation;
      var b := c.breakdown;
      && b.basePrice == c.websiteType.price
      && b.addOnsTotal == AddOnsTotal(c.addOns)
      && b.hostingCost == c.hostingPlan.price
      && Markup(b.urgencyMarkup, b.agencyMarkup, c.total)
         == ApplyMarkups(Subtotal(b), c.urgencyLevel.multiplier, c.builderType.multiplier)
      && c.total == BreakdownSum(b)
  {
    var websiteType := Find(cat.websiteTypes, WebsiteTypeId, sel.websiteTypeId);
    var selectedAddOns := SelectAddOns(cat.addOns, sel.addOnIds);
    var hostingPlan := Find(cat.hostingPlans, HostingPlanId, sel.hostingId);
    var urgencyLevel := Find(cat.urgencyLevels, UrgencyLevelId, sel.urgencyId);
    var builderType := Find(cat.builderTypes, BuilderTypeId, sel.builderId);
    if websiteType.None? || hostingPlan.None? || urgencyLevel.None? || builderType.None? then
      NotReady
    else
      var basePrice := websiteType.value.price;
      var addOnsTotal := AddOnsTotal(selectedAddOns);
      var hostingCost := hostingPlan.value.price;
      var subtotal := basePrice + addOnsTotal + hostingCost;
      var m := ApplyMarkups(subtotal, urgencyLevel.value.multiplier, builderType.value.multiplier);
      Ready(QuoteCalculation(
        websiteType.value, selectedAddOns, hostingPlan.value, urgencyLevel.value, builderType.value,
        m.total, Breakdown(basePrice, addOnsTotal, hostingCost, m.urgencyMarkup, m.agencyMarkup)))
  }

  // ---- Add-on resolution and the add-ons total ----

  /** Filtering a concatenated catalog filters each part: catalog order is kept. */
  lemma {:induction false} SelectAddOnsAppend(c1: seq<AddOn>, c2: seq<AddOn>, selected: seq<string>)
    ensures SelectAddOns(c1 + c2, selected) == SelectAddOns(c1, selected) + SelectAddOns(c2, selected)
    decreases |c1|
  {
    if |c1| > 0 {
      assert (c1 + c2)[1..] == c1[1..] + c2;
      SelectAddOnsAppend(c1[1..], c2, selected);
    } else {
      assert c1 + c2 == c2;
    }
  }

  /** Only the set of selected ids matters: order and repeats of the selection do not. */
  lemma {:induction false} SelectAddOnsSameIds(catalog: seq<AddOn>, s1: seq<string>, s2: seq<string>)
    requires IdsWithin(s1, s2) && IdsWithin(s2, s1)
    ensures SelectAddOns(catalog, s1) == SelectAddOns(catalog, s2)
    decreases |catalog|
  {
    if |catalog| > 0 {
      SelectAddOnsSameIds(catalog[1..], s1, s2);
    }
  }

  /** With unique catalog ids no add-on is resolved (and so charged) twice. */
  lemma {:induction false} SelectAddOnsUniqueIds(catalog: seq<AddOn>, selected: seq<string>)
    requires UniqueKeys(catalog, AddOnId)
    ensures UniqueKeys(SelectAddOns(catalog, selected), AddOnId)
    decreases |catalog|
  {
    if |catalog| > 0 {
      var rest := SelectAddOns(catalog[1..], selected);
      assert UniqueKeys(catalog[1..], AddOnId) by {
        forall i, j | 0 <= i < j < |catalog[1..]| ensures catalog[1..][i].id != catalog[1..][j].id {
          assert catalog[1..][i] == catalog[i + 1] && catalog[1..][j] == catalog[j + 1];
        }
      }
      SelectAddOnsUniqueIds(catalog[1..], selected);
      if catalog[0].id in selected {
        var r := [catalog[0]] + rest;
        forall i, j | 0 <= i < j < |r| ensures r[i].id != r[j].id {
          if i == 0 {
            assert r[j] == rest[j - 1] && r[j] in rest;
            assert r[j] in catalog[1..];
            var k :| 0 <= k < |catalog[1..]| && catalog[1..][k] == r[j];
            assert catalog[k + 1] == r[j];
          } else {
            assert r[i] == rest[i - 1] && r[j] == rest[j - 1];
          }
        }
      }
    }
  }

  /** The add-ons total of two lists back to back is the sum of their totals. */
  lemma {:induction false} AddOnsTotalAppend(a: seq<AddOn>, b: seq<AddOn>)
    ensures AddOnsTotal(a + b) == AddOnsTotal(a) + AddOnsTotal(b)
    decreases |b|
  {
    if |b| == 0 {
      assert a + b == a;
    } else {
      var b' := b[..|b| - 1];
      assert (a + b)[..|a + b| - 1] == a + b';
      AddOnsTotalAppend(a, b');
    }
  }

  /** Selecting more add-ons never lowers the add-ons total (prices are non-negative). */
  lemma {:induction false} AddOnsTotalMonotone(catalog: seq<AddOn>, s1: seq<string>, s2: seq<string>)
    requires forall i :: 0 <= i < |catalog| ==> catalog[i].price >= 0.0
    requires IdsWithin(s1, s2)
    ensures AddOnsTotal(SelectAddOns(catalog, s1)) <= AddOnsTotal(SelectAddOns(catalog, s2))
    decreases |catalog|
  {
    if |catalog| > 0 {
      var head1 := if catalog[0].id in s1 then [catalog[0]] else [];
      var head2 := if catalog[0].id in s2 then [catalog[0]] else [];
      var rest1 := SelectAddOns(catalog[1..], s1);
      var rest2 := SelectAddOns(catalog[1..], s2);
      assert SelectAddOns(catalog, s1) == head1 + rest1;
      assert SelectAddOns(catalog, s2) == head2 + rest2;
      AddOnsTotalAppend(head1, rest1);
      AddOnsTotalAppend(head2, rest2);
      assert AddOnsTotal([catalog[0]]) == catalog[0].price;
      AddOnsTotalMonotone(catalog[1..], s1, s2);
    }
  }

  // ---- Markups ----

  /** A resolved option is an entry of its catalog list. */
  lemma FirstMatchIsMember<T>(xs: seq<T>, key: T -> string, id: string, x: T)
    requires IsFirstMatch(xs, key, id, x)
    ensures exists i :: 0 <= i < |xs| && xs[i] == x
  {
  }

  lemma MulNonNegative(x: real, y: real)
    requires x >= 0.0 && y >= 0.0
    ensures x * y >= 0.0
  {
  }

  lemma MulMonotone(x: real, x': real, y: real, y': real)
    requires 0.0 <= x <= x' && 0.0 <= y <= y'
    ensures x * y <= x' * y'
  {
    MulNonNegative(x' - x, y);
    assert (x' - x) * y == x' * y - x * y;
    MulNonNegative(x', y' - y);
    assert x' * (y' - y) == x' * y' - x' * y;
  }

  /** Multipliers of 1.0 add nothing. */
  lemma MarkupsNeutral(subtotal: real)
    ensures ApplyMarkups(subtotal, 1.0, 1.0) == Markup(0.0, 0.0, subtotal)
  {
  }

  /** With a non-negative subtotal and multipliers of at least 1.0, markups only add. */
  lemma MarkupsNonNegative(subtotal: real, urgency: real, builder: real)
    requires subtotal >= 0.0 && urgency >= 1.0 && builder >= 1.0
    ensures var m := ApplyMarkups(subtotal, urgency, builder);
      m.urgencyMarkup >= 0.0 && m.agencyMarkup >= 0.0 && m.total >= subtotal
  {
    var m := ApplyMarkups(subtotal, urgency, builder);
    MulNonNegative(subtotal, urgency - 1.0);
    MulNonNegative(subtotal + m.urgencyMarkup, builder - 1.0);
  }

  /** The total grows with the subtotal and with either multiplier. */
  lemma MarkupsMonotone(subtotal: real, urgency: real, builder: real, subtotal': real, urgency': real, builder': real)
    requires 0.0 <= subtotal <= subtotal'
    requires 1.0 <= urgency <= urgency' && 1.0 <= builder <= builder'
    ensures ApplyMarkups(subtotal, urgency, builder).total <= ApplyMarkups(subtotal', urgency', builder').total
  {
    MulMonotone(subtotal, subtotal', urgency, urgency');
    MulNonNegative(subtotal, urgency);
    MulMonotone(subtotal * urgency, subtotal' * urgency', builder, builder');
  }

  /** With a well-formed catalog no breakdown line is negative. */
  lemma BreakdownNonNegative(cat: Catalog, sel: Selections)
    requires NonNegativePrices(cat) && MarkupMultipliers(cat)
    requires Resolves(cat, sel)
    ensures var c := CalculateTotal(cat, sel).calculation;
      && c.breakdown.basePrice >= 0.0 && c.breakdown.addOnsTotal >= 0.0 && c.breakdown.hostingCost >= 0.0
      && c.breakdown.urgencyMarkup >= 0.0 && c.breakdown.agencyMarkup >= 0.0
      && c.total >= Subtotal(c.breakdown) >= 0.0
  {
    var c := CalculateTotal(cat, sel).calculation;
    FirstMatchIsMember(cat.websiteTypes, WebsiteTypeId, sel.websiteTypeId, c.websiteType);
    FirstMatchIsMember(cat.hostingPlans, HostingPlanId, sel.hostingId, c.hostingPlan);
    FirstMatchIsMember(cat.urgencyLevels, UrgencyLevelId, sel.urgencyId, c.urgencyLevel);
    FirstMatchIsMember(cat.builderTypes, BuilderTypeId, sel.builderId, c.builderType);
    forall i | 0 <= i < |c.addOns| ensures c.addOns[i].price >= 0.0 {
      assert c.addOns[i] in c.addOns;
    }
    MarkupsNonNegative(Subtotal(c.breakdown), c.urgencyLevel.multiplier, c.builderType.multiplier);
  }

  /** Selecting more add-ons never lowers the total. */
  lemma TotalMonotoneInAddOns(cat: Catalog, sel: Selections, moreAddOnIds: seq<string>)
    requires NonNegativePrices(cat) && MarkupMultipliers(cat)
    requires IdsWithin(sel.addOnIds, moreAddOnIds)
    requires Resolves(cat, sel)
    ensures CalculateTotal(cat, sel.(addOnIds := moreAddOnIds)).Ready?
    ensures CalculateTotal(cat, sel).calculation.total <= CalculateTotal(cat, sel.(addOnIds := moreAddOnIds)).calculation.total
  {
    var sel' := sel.(addOnIds := moreAddOnIds);
    var c, c' := CalculateTotal(cat, sel).calculation, CalculateTotal(cat, sel').calculation;
    assert c.websiteType == c'.websiteType && c.hostingPlan == c'.hostingPlan;
    assert c.urgencyLevel == c'.urgencyLevel && c.builderType == c'.builderType;
    AddOnsTotalMonotone(cat.addOns, sel.addOnIds, moreAddOnIds);
    BreakdownNonNegative(cat, sel);
    FirstMatchIsMember(cat.urgencyLevels, UrgencyLevelId, sel.urgencyId, c.urgencyLevel);
    FirstMatchIsMember(cat.builderTypes, BuilderTypeId, sel.builderId, c.builderType);
    var u, g := c.urgencyLevel.multiplier, c.builderType.multiplier;
    MarkupsMonotone(Subtotal(c.breakdown), u, g, Subtotal(c'.breakdown), u, g);
  }

  /** Picking options with higher urgency or builder multipliers never lowers the total. */
  lemma TotalMonotoneInMultipliers(cat: Catalog, sel: Selections, urgencyId: string, builderId: string)
    requires NonNegativePrices(cat) && MarkupMultipliers(cat)
    requires CalculateTotal(cat, sel).Ready?
    requires CalculateTotal(cat, sel.(urgencyId := urgencyId, builderId := builderId)).Ready?
    requires CalculateTotal(cat, sel).calculation.urgencyLevel.multiplier
      <= CalculateTotal(cat, sel.(urgencyId := urgencyId, builderId := builderId)).calculation.urgencyLevel.multiplier
    requires CalculateTotal(cat, sel).calculation.builderType.multiplier
      <= CalculateTotal(cat, sel.(urgencyId := urgencyId, builderId := builderId)).calculation.builderType.multiplier
    ensures CalculateTotal(cat, sel).calculation.total
      <= CalculateTotal(cat, sel.(urgencyId := urgencyId, builderId := builderId)).calculation.total
  {
    var sel' := sel.(urgencyId := urgencyId, builderId := builderId);
    var c, c' := CalculateTotal(cat, sel).calculation, CalculateTotal(cat, sel').calculation;
    BreakdownNonNegative(cat, sel);
    assert Subtotal(c.breakdown) == Subtotal(c'.breakdown);
    FirstMatchIsMember(cat.urgencyLevels, UrgencyLevelId, sel.urgencyId, c.urgencyLevel);
    FirstMatchIsMember(cat.builderTypes, BuilderTypeId, sel.builderId, c.builderType);
    MarkupsMonotone(Subtotal(c.breakdown), c.urgencyLevel.multiplier, c.builderType.multiplier,
      Subtotal(c'.breakdown), c'.urgencyLevel.multiplier, c'.builderType.multiplier);
  }

  /** Ticking an add-on never lowers the total; unticking one never raises it. */
  lemma ToggleMovesTotalWithSelection(cat: Catalog, sel: Selections, id: string)
    requires NonNegativePrices(cat) && MarkupMultipliers(cat)
    requires Resolves(cat, sel)
    ensures var sel' := sel.(addOnIds := AddOnsSelector.Toggle(sel.addOnIds, id));
      && CalculateTotal(cat, sel').Ready?
      && (id !in sel.addOnIds ==> CalculateTotal(cat, sel).calculation.total <= CalculateTotal(cat, sel').calculation.total)
      && (id in sel.addOnIds ==> CalculateTotal(cat, sel').calculation.total <= CalculateTotal(cat, sel).calculation.total)
  {
    var toggled := AddOnsSelector.Toggle(sel.addOnIds, id);
    var sel' := sel.(addOnIds := toggled);
    if id !in sel.addOnIds {
      TotalMonotoneInAddOns(cat, sel, toggled);
    } else {
      assert Resolves(cat, sel');
      assert sel'.(addOnIds := sel.addOnIds) == sel;
      TotalMonotoneInAddOns(cat, sel', sel.addOnIds);
    }
  }

  // ---- The calculator component around the engine ----

  /**
   * `isComplete`: the four single-choice ids are non-empty strings. It does
   * not look the ids up, so it is implied by readiness but does not imply it.
   */
  predicate IsComplete(sel: Selections)
  {
    sel.websiteTypeId != "" && sel.hostingId != "" && sel.urgencyId != "" && sel.builderId != ""
  }

  lemma ReadyIsComplete(cat: Catalog, sel: Selections)
    requires NonEmptyIds(cat)
    requires CalculateTotal(cat, sel).Ready?
    ensures IsComplete(sel)
  {
    var c := CalculateTotal(cat, sel).calculation;
    FirstMatchIsMember(cat.websiteTypes, WebsiteTypeId, sel.websiteTypeId, c.websiteType);
    FirstMatchIsMember(cat.hostingPlans, HostingPlanId, sel.hostingId, c.hostingPlan);
    FirstMatchIsMember(cat.urgencyLevels, UrgencyLevelId, sel.urgencyId, c.urgencyLevel);
    FirstMatchIsMember(cat.builderTypes, BuilderTypeId, sel.builderId, c.builderType);
  }

  /** An unknown but non-empty website type id passes `isComplete` yet prices nothing. */
  lemma CompleteButNotReady()
    ensures IsComplete(InitialSelections.(websiteTypeId := "shop"))
    ensures CalculateTotal(Static, InitialSelections.(websiteTypeId := "shop")) == NotReady
  {
    assert !HasKey(WebsiteTypes, WebsiteTypeId, "shop") by {
      forall i | 0 <= i < |WebsiteTypes| ensures WebsiteTypes[i].id != "shop" {
        assert WebsiteTypes[i].id[0] != 's' || |WebsiteTypes[i].id| != 4;
      }
    }
  }

  /**
   * `handleGenerateQuote`: the calculation handed to `onGenerateQuote`, or
   * `None` when the callback is not called.
   */
  function GenerateQuote(r: CalcResult): (forwarded: Option<QuoteCalculation>)
    ensures forwarded.Some? <==> r.Ready?
    ensures forwarded.Some? ==> forwarded.value == r.calculation
  {
    match r
    case NotReady => None
    case Ready(c) => Some(c)
  }

  /** The calculator opens with no website type, so it shows no price. */
  lemma InitiallyNotReady()
    ensures CalculateTotal(Static, InitialSelections) == NotReady
    ensures !IsComplete(InitialSelections)
  {
    assert !HasKey(WebsiteTypes, WebsiteTypeId, "") by {
      forall i | 0 <= i < |WebsiteTypes| ensures WebsiteTypes[i].id != "" {
        assert |WebsiteTypes[i].id| > 0;
      }
    }
  }

  /** From the opening state, choosing any website type prices exactly its base price. */
  lemma ChoosingWebsiteTypePricesBase(i: nat)
    requires i < |WebsiteTypes|
    ensures var r := CalculateTotal(Static, InitialSelections.(websiteTypeId := WebsiteTypes[i].id));
      r.Ready? && r.calculation.websiteType == WebsiteTypes[i] && r.calculation.addOns == []
      && r.calculation.total == WebsiteTypes[i].price
  {
    StaticUniqueIds();
    StaticDefaultsAreNeutral();
    FindUnique(WebsiteTypes, WebsiteTypeId, i);
    MarkupsNeutral(WebsiteTypes[i].price);
  }

  // ---- Worked quotes over the shipped catalog ----

  /** Business site, WhatsApp and logo, standard hosting, fast, freelancer. */
  lemma WorkedBusinessFastFreelancer()
    ensures var r := CalculateTotal(Static, Selections("business", ["whatsapp", "logo"], "standard", "fast", "freelancer"));
      && r.Ready?
      && r.calculation.breakdown == Breakdown(20000.0, 5000.0, 6000.0, 6200.0, 0.0)
      && Subtotal(r.calculation.breakdown) == 31000.0
      && r.calculation.total == 37200.0
  {
    StaticUniqueIds();
    FindUnique(WebsiteTypes, WebsiteTypeId, 1);
    FindUnique(HostingPlans, HostingPlanId, 1);
    FindUnique(UrgencyLevels, UrgencyLevelId, 1);
    FindUnique(BuilderTypes, BuilderTypeId, 0);
    WhatsAppAndLogo();
    var r := CalculateTotal(Static, Selections("business", ["whatsapp", "logo"], "standard", "fast", "freelancer"));
    assert r.calculation.breakdown.addOnsTotal == 5000.0;
    assert Subtotal(r.calculation.breakdown) == 31000.0;
  }

  /** The add-ons part of the business worked quote. */
  lemma WhatsAppAndLogo()
    ensures SelectAddOns(AddOns, ["whatsapp", "logo"]) == [AddOns[1], AddOns[3]]
    ensures AddOnsTotal([AddOns[1], AddOns[3]]) == 5000.0
  {
    var sel := ["whatsapp", "logo"];
    LogoOnwards();
    assert "payment" !in sel && "seo" !in sel;
    assert AddOns[2..][1..] == AddOns[3..];
    assert AddOns[1..][1..] == AddOns[2..];
    assert SelectAddOns(AddOns[1..], sel) == [AddOns[1], AddOns[3]];
    AddOnsTotalAppend([AddOns[1]], [AddOns[3]]);
  }

  lemma LogoOnwards()
    ensures SelectAddOns(AddOns[3..], ["whatsapp", "logo"]) == [AddOns[3]]
  {
    var sel := ["whatsapp", "logo"];
    assert "social" !in sel && "custom" !in sel && sel[1] == "logo";
    assert AddOns[3..][1..] == AddOns[4..];
    assert AddOns[4..][1..] == AddOns[5..];
    assert AddOns[5..][1..] == [];
    assert SelectAddOns(AddOns[5..], sel) == [];
    assert SelectAddOns(AddOns[4..], sel) == [];
    assert AddOns[3..][0].id in sel;
  }

  /** E-commerce site, no add-ons, no hosting, flexible, agency. */
  lemma WorkedEcommerceAgency()
    ensures var r := CalculateTotal(Static, Selections("ecommerce", [], "none", "flexible", "agency"));
      && r.Ready?
      && r.calculation.breakdown == Breakdown(50000.0, 0.0, 0.0, 0.0, 15000.0)
      && r.calculation.total == 65000.0
  {
    StaticUniqueIds();
    FindUnique(WebsiteTypes, WebsiteTypeId, 2);
    FindUnique(HostingPlans, HostingPlanId, 0);
    FindUnique(UrgencyLevels, UrgencyLevelId, 0);
    FindUnique(BuilderTypes, BuilderTypeId, 1);
    assert SelectAddOns(AddOns, []) == [];
  }

  /** Landing page, no add-ons, premium hosting, urgent, agency: both markups compound. */
  lemma WorkedLandingUrgentAgency()
    ensures var r := CalculateTotal(Static, Selections("landing", [], "premium", "urgent", "agency"));
      && r.Ready?
      && r.calculation.breakdown == Breakdown(10000.0, 0.0, 12000.0, 11000.0, 9900.0)
      && r.calculation.total == 42900.0
  {
    StaticUniqueIds();
    FindUnique(WebsiteTypes, WebsiteTypeId, 0);
    FindUnique(HostingPlans, HostingPlanId, 2);
    FindUnique(UrgencyLevels, UrgencyLevelId, 2);
    FindUnique(BuilderTypes, BuilderTypeId, 1);
    assert SelectAddOns(AddOns, []) == [];
  }
}
