/**
 * The three-step page: calculator, client form, quotation view. Its state is
 * the current step and two nullable slots, and four handlers overwrite them.
 */
module QuoteCalculatorPage {
  import opened Wrappers
  import opened QuoteTypes

  datatype PageStep = Calculator | Form | QuotationView

  /** What the page renders. */
  datatype Screen = CalculatorScreen | FormScreen(calculation: QuoteCalculation) | QuotationScreen(quotation: Quotation) | Blank

  class QuoteCalculatorPage {
    var currentStep: PageStep
    var calculation: Option<QuoteCalculation>
    var quotation: Option<Quotation>

    /** The quotation step always has a quotation to show. */
    predicate Valid()
      reads this
    {
      currentStep == QuotationView ==> quotation.Some?
    }

    /** The state the page starts in and returns to. */
    predicate AtStart()
      reads this
    {
      currentStep == Calculator && calculation == None && quotation == None
    }

    constructor ()
      ensures Valid() && AtStart()
    {
      currentStep := Calculator;
      calculation := None;
      quotation := None;
    }

    method HandleGenerateQuote(computed: QuoteCalculation)
      modifies this
      ensures Valid()
      ensures currentStep == Form && calculation == Some(computed) && quotation == old(quotation)
    {
      calculation := Some(computed);
      currentStep := Form;
    }

    method HandleFormSubmit(quote: Quotation)
      modifies this
      ensures Valid()
      ensures currentStep == QuotationView && quotation == Some(quote) && calculation == old(calculation)
    {
      quotation := Some(quote);
      currentStep := QuotationView;
    }

    method HandleBackToCalculator()
      modifies this
      ensures Valid() && AtStart()
    {
      currentStep := Calculator;
      calculation := None;
      quotation := None;
    }

    method HandleBackToForm()
      modifies this
      ensures Valid()
      ensures currentStep == Form && quotation == None && calculation == old(calculation)
    {
      currentStep := Form;
      quotation := None;
    }

    /** The render dispatch: the form needs a calculation, the view a quotation. */
    function Render(): (s: Screen)
      reads this
      ensures s == CalculatorScreen <==> currentStep == Calculator
      ensures s.FormScreen? <==> currentStep == Form && calculation.Some?
      ensures s.FormScreen? ==> s.calculation == calculation.value
      ensures s.QuotationScreen? <==> currentStep == QuotationView && quotation.Some?
      ensures s.QuotationScreen? ==> s.quotation == quotation.value
      ensures Valid() && currentStep != Form ==> s != Blank
    {
      if currentStep == Calculator then CalculatorScreen
      else if currentStep == Form && calculation.Some? then FormScreen(calculation.value)
      else if currentStep == QuotationView && quotation.Some? then QuotationScreen(quotation.value)
      else Blank
    }
  }

  /** Generate, submit, then go back: the page is exactly as it started. */
  method GenerateSubmitAndReturn(page: QuoteCalculatorPage, computed: QuoteCalculation, quote: Quotation)
    modifies page
    ensures page.Valid() && page.AtStart()
  {
    page.HandleGenerateQuote(computed);
    assert page.Render() == FormScreen(computed);
    page.HandleFormSubmit(quote);
    assert page.Render() == QuotationScreen(quote);
    page.HandleBackToCalculator();
    assert page.Render() == CalculatorScreen;
  }
}
