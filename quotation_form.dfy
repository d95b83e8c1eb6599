/**
 * The client-details form: its field updates, the submit guard on the full
 * name, the quote-number format and the assembly of the quotation. The clock,
 * the random draw and the locale-formatted dates are parameters.
 */
module QuotationForm {
  import opened Wrappers
  import opened QuoteTypes
  import opened JsStrings

  /**
   * `generateQuoteNumber`: "UW-", the year, the 1-based month and the day
   * (both zero-padded to two digits), "-", and the random draw padded to three.
   * `monthIndex` is `Date.getMonth()` (0 for January); `random` is
   * `Math.floor(Math.random() * 1000)`.
   */
  function QuoteNumber(year: nat, monthIndex: nat, day: nat, random: nat): (q: string)
    ensures |q| >= 12 && q[..3] == "UW-"
  {
    "UW-" + DecimalString(year) + PadStart(DecimalString(monthIndex + 1), 2, '0')
      + PadStart(DecimalString(day), 2, '0') + "-" + PadStart(DecimalString(random), 3, '0')
  }

  lemma {:induction false} Pow10Monotone(a: nat, b: nat)
    requires a <= b
    ensures Pow10(a) <= Pow10(b)
    decreases b
  {
    if a < b {
      Pow10Monotone(a, b - 1);
    }
  }

  /** A number below 10^k has at most k digits. */
  lemma DecimalLengthAtMost(n: nat, k: nat)
    requires 1 <= k && n < Pow10(k)
    ensures |DecimalString(n)| <= k
  {
  }

  /** A number in [10^(k-1), 10^k) has exactly k digits. */
  lemma DecimalLengthExactly(n: nat, k: nat)
    requires 1 <= k && Pow10(k - 1) <= n < Pow10(k)
    ensures |DecimalString(n)| == k
  {
    var s := DecimalString(n);
    DecimalLengthAtMost(n, k);
    if |s| < k {
      Pow10Monotone(|s|, k - 1);
    }
  }

  /** A value below 10^width, zero-padded to `width`, is exactly `width` digits reading back as itself. */
  lemma PaddedField(n: nat, width: nat)
    requires 1 <= width && n < Pow10(width)
    ensures |PadStart(DecimalString(n), width, '0')| == width
    ensures IsDigits(PadStart(DecimalString(n), width, '0'))
    ensures DecimalValue(PadStart(DecimalString(n), width, '0')) == n
  {
    DecimalLengthAtMost(n, width);
    PaddedDecimalValue(n, width);
  }

  /**
   * For a four-digit year and in-range month, day and draw, the quote number
   * is 15 characters, "UW-YYYYMMDD-RRR", and each field reads back.
   */
  lemma QuoteNumberLayout(year: nat, monthIndex: nat, day: nat, random: nat)
    requires 1000 <= year <= 9999 && monthIndex < 12 && 1 <= day <= 31 && random < 1000
    ensures var q := QuoteNumber(year, monthIndex, day, random);
      && |q| == 15 && q[..3] == "UW-" && q[11] == '-'
      && IsDigits(q[3..7]) && DecimalValue(q[3..7]) == year
      && IsDigits(q[7..9]) && DecimalValue(q[7..9]) == monthIndex + 1
      && IsDigits(q[9..11]) && DecimalValue(q[9..11]) == day
      && IsDigits(q[12..]) && DecimalValue(q[12..]) == random
  {
    var y := DecimalString(year);
    var m := PadStart(DecimalString(monthIndex + 1), 2, '0');
    var d := PadStart(DecimalString(day), 2, '0');
    var r := PadStart(DecimalString(random), 3, '0');
    assert Pow10(3) == 1000 && Pow10(4) == 10000;
    DecimalLengthExactly(year, 4);
    PaddedField(monthIndex + 1, 2);
    PaddedField(day, 2);
    PaddedField(random, 3);
    FieldSlices(y, m, d, r);
  }

  /** Where each field sits in "UW-" + y + m + d + "-" + r. */
  lemma FieldSlices(y: string, m: string, d: string, r: string)
    requires |y| == 4 && |m| == 2 && |d| == 2 && |r| == 3
    ensures var q := "UW-" + y + m + d + "-" + r;
      |q| == 15 && q[3..7] == y && q[7..9] == m && q[9..11] == d && q[11] == '-' && q[12..] == r
  {
  }

  /** Distinct in-range dates or draws never share a quote number. */
  lemma QuoteNumberInjective(year: nat, monthIndex: nat, day: nat, random: nat,
                             year': nat, monthIndex': nat, day': nat, random': nat)
    requires 1000 <= year <= 9999 && monthIndex < 12 && 1 <= day <= 31 && random < 1000
    requires 1000 <= year' <= 9999 && monthIndex' < 12 && 1 <= day' <= 31 && random' < 1000
    requires QuoteNumber(year, monthIndex, day, random) == QuoteNumber(year', monthIndex', day', random')
    ensures year == year' && monthIndex == monthIndex' && day == day' && random == random'
  {
    QuoteNumberLayout(year, monthIndex, day, random);
    QuoteNumberLayout(year', monthIndex', day', random');
  }

  /** The four inputs of the form. */
  datatype ClientField = FullName | Email | CompanyName | PhoneNumber

  function FieldOf(info: ClientInfo, field: ClientField): string
  {
    match field
    case FullName => info.fullName
    case Email => info.email
    case CompanyName => info.companyName
    case PhoneNumber => info.phoneNumber
  }

  /** `{ ...info, [field]: value }`. */
  function WithField(info: ClientInfo, field: ClientField, value: string): (r: ClientInfo)
    ensures FieldOf(r, field) == value
    ensures forall f :: f != field ==> FieldOf(r, f) == FieldOf(info, f)
  {
    match field
    case FullName => info.(fullName := value)
    case Email => info.(email := value)
    case CompanyName => info.(companyName := value)
    case PhoneNumber => info.(phoneNumber := value)
  }

  const EmptyClientInfo: ClientInfo := ClientInfo("", "", "", "")

  /** The form for one calculation; `formData` is its only changing state. */
  class QuotationForm {
    const calculation: QuoteCalculation
    var formData: ClientInfo

    constructor (calculation: QuoteCalculation)
      ensures this.calculation == calculation && formData == EmptyClientInfo
    {
      this.calculation := calculation;
      formData := EmptyClientInfo;
    }

    /** The submit button's `disabled`: the trimmed full name is empty. */
    function SubmitDisabled(): (disabled: bool)
      reads this
      ensures disabled <==> IsBlank(formData.fullName)
    {
      Trim(formData.fullName) == ""
    }

    /** `handleInputChange`: replaces one field and keeps the other three. */
    method HandleInputChange(field: ClientField, value: string)
      modifies this
      ensures formData == WithField(old(formData), field, value)
    {
      formData := WithField(formData, field, value);
    }

    /**
     * `handleSubmit`: the quotation handed to `onSubmit`, or `None` when the
     * guard returns early; the button and the guard agree.
     */
    method HandleSubmit(year: nat, monthIndex: nat, day: nat, random: nat, date: string, validUntil: string)
      returns (submitted: Option<Quotation>)
      ensures submitted.None? <==> IsBlank(formData.fullName)
      ensures submitted.None? <==> SubmitDisabled()
      ensures submitted.Some? ==>
        && submitted.value.client == formData
        && submitted.value.calculation == calculation
        && submitted.value.quoteNumber == QuoteNumber(year, monthIndex, day, random)
        && submitted.value.date == date && submitted.value.validUntil == validUntil
    {
      if Trim(formData.fullName) == "" {
        return None;
      }
      var quoteNumber := QuoteNumber(year, monthIndex, day, random);
      submitted := Some(Quotation(quoteNumber, date, formData, calculation, validUntil));
    }
  }
}
