/**
 * `validatePriceRequest`: presence and length checks on `base` and `quote`,
 * in a fixed order; the first failing check throws a `ValidationError`.
 */
module Validation {
  import opened Query

  const BaseRequired := "Base currency is required and must be a string"
  const QuoteRequired := "Quote currency is required and must be a string"
  const BaseLength := "Base currency must be between 1 and 10 characters"
  const QuoteLength := "Quote currency must be between 1 and 10 characters"

  /** `next()` is called, or a `ValidationError` with this message is thrown. */
  datatype Outcome = Next | Throws(message: string)

  /** `!v || typeof v !== 'string'`: missing, empty, or not a string. */
  predicate Absent(v: QueryValue) {
    !v.Text? || v.s == ""
  }

  /** `v.length < 1 || v.length > 10`, for a value already known to be a string. */
  predicate BadLength(v: QueryValue) {
    v.Text? && (|v.s| < 1 || |v.s| > 10)
  }

  function ValidatePriceRequest(q: PriceQuery): (r: Outcome)
    ensures r == Next <==> q.base.Text? && q.quote.Text? && 1 <= |q.base.s| <= 10 && 1 <= |q.quote.s| <= 10
    ensures r == Throws(BaseRequired) <==> Absent(q.base)
    ensures r == Throws(QuoteRequired) <==> !Absent(q.base) && Absent(q.quote)
    ensures r == Throws(BaseLength) <==> !Absent(q.base) && !Absent(q.quote) && |q.base.s| > 10
    ensures r == Throws(QuoteLength) <==> !Absent(q.base) && !Absent(q.quote) && |q.base.s| <= 10 && |q.quote.s| > 10
  {
    if Absent(q.base) then Throws(BaseRequired)
    else if Absent(q.quote) then Throws(QuoteRequired)
    else if BadLength(q.base) then Throws(BaseLength)
    else if BadLength(q.quote) then Throws(QuoteLength)
    else Next
  }

  /** Only presence and length are checked: any characters at all are let through. */
  lemma NoCharacterRestriction(base: string, quote: string)
    requires 1 <= |base| <= 10 && 1 <= |quote| <= 10
    ensures ValidatePriceRequest(PriceQuery(Text(base), Text(quote))) == Next
  {
  }
}
