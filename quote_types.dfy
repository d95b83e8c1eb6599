/**
 * The record shapes of the quote builder. Prices are exact `real` amounts in
 * the single display currency; multipliers are exact reals (1.2 is 6/5).
 */
module QuoteTypes {

  /** A product tier; `recommendedAddOns` lists add-on ids shown as suggestions. */
  datatype WebsiteType = WebsiteType(id: string, name: string, price: real, recommendedAddOns: seq<string>)

  datatype AddOn = AddOn(id: string, name: string, price: real, description: string)

  datatype HostingPlan = HostingPlan(id: string, name: string, price: real)

  datatype UrgencyLevel = UrgencyLevel(id: string, name: string, multiplier: real)

  datatype BuilderType = BuilderType(id: string, name: string, multiplier: real)

  /** The itemised cost; every field is derived by the pricing engine. */
  datatype Breakdown = Breakdown(
    basePrice: real,
    addOnsTotal: real,
    hostingCost: real,
    urgencyMarkup: real,
    agencyMarkup: real)

  /** The pricing engine's output: the resolved options, the total and its breakdown. */
  datatype QuoteCalculation = QuoteCalculation(
    websiteType: WebsiteType,
    addOns: seq<AddOn>,
    hostingPlan: HostingPlan,
    urgencyLevel: UrgencyLevel,
    builderType: BuilderType,
    total: real,
    breakdown: Breakdown)

  /** Client contact details as held by the form (all four start as ""). */
  datatype ClientInfo = ClientInfo(fullName: string, email: string, companyName: string, phoneNumber: string)

  /** A calculation wrapped with client data, a quote number and two display dates. */
  datatype Quotation = Quotation(
    quoteNumber: string,
    date: string,
    client: ClientInfo,
    calculation: QuoteCalculation,
    validUntil: string)

  // The `.id` property of each catalog record, as a function value for `find`.
  function WebsiteTypeId(w: WebsiteType): string { w.id }
  function AddOnId(a: AddOn): string { a.id }
  function HostingPlanId(h: HostingPlan): string { h.id }
  function UrgencyLevelId(u: UrgencyLevel): string { u.id }
  function BuilderTypeId(b: BuilderType): string { b.id }
}
