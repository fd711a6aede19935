/**
 * `validateInput`: both `base` and `quote` must match the symbol schema (a
 * string of 1 to 10 characters from `[A-Za-z0-9]`); otherwise the request is
 * answered with 400 and one detail per schema issue.
 */
module ValidateInput {
  import opened Query
  import opened Symbols

  const InvalidInput := "Invalid input parameters"

  /** The schema checks that can fail; the issue messages are the schema library's own. */
  datatype IssueKind = InvalidType | TooShort | TooLong | PatternMismatch

  /** One entry of `details`: the field path and what went wrong. */
  datatype Issue = Issue(field: string, kind: IssueKind)

  datatype Body = Body(error: string, details: seq<Issue>)

  /** `next()` with no argument, or `res.status(status).json(body)`. */
  datatype Reply = Next | Respond(status: int, body: Body)

  /** A valid symbol, stated outright. */
  predicate IsValidSymbol(s: string) {
    1 <= |s| <= 10 && forall i :: 0 <= i < |s| ==> IsAlphanumeric(s[i])
  }

  /** Every character of s is in `[A-Za-z0-9]`, read left to right. */
  predicate AllAlphanumeric(s: string) {
    s == [] || (IsAlphanumeric(s[0]) && AllAlphanumeric(s[1..]))
  }

  lemma {:induction false} AllAlphanumericIff(s: string)
    ensures AllAlphanumeric(s) <==> forall i :: 0 <= i < |s| ==> IsAlphanumeric(s[i])
  {
    if s != [] {
      AllAlphanumericIff(s[1..]);
      assert forall i :: 1 <= i < |s| ==> s[i] == s[1..][i - 1];
    }
  }

  /** `/^[A-Za-z0-9]+$/.test(s)`: s is non-empty and every character is in the class. */
  function MatchesPattern(s: string): (r: bool)
    ensures r <==> |s| > 0 && forall i :: 0 <= i < |s| ==> IsAlphanumeric(s[i])
  {
    AllAlphanumericIff(s);
    |s| > 0 && AllAlphanumeric(s)
  }

  /**
   * The issues the symbol schema reports for one field: a wrong type alone,
   * or each of the length and pattern checks that fails, in that order.
   */
  function SymbolIssues(field: string, v: QueryValue): (issues: seq<Issue>)
    ensures issues == [] <==> v.Text? && IsValidSymbol(v.s)
    ensures forall i :: 0 <= i < |issues| ==> issues[i].field == field
  {
    match v
    case Missing => [Issue(field, InvalidType)]
    case NotText => [Issue(field, InvalidType)]
    case Text(s) =>
      AllAlphanumericIff(s);
      (if |s| < 1 then [Issue(field, TooShort)] else []) +
      (if |s| > 10 then [Issue(field, TooLong)] else []) +
      (if !MatchesPattern(s) then [Issue(field, PatternMismatch)] else [])
  }

  function ValidateInput(q: PriceQuery): (r: Reply)
    ensures r == Next <==> q.base.Text? && IsValidSymbol(q.base.s) && q.quote.Text? && IsValidSymbol(q.quote.s)
    ensures r.Respond? ==> r.status == 400 && r.body.error == InvalidInput && r.body.details != []
    ensures r.Respond? ==> forall i :: 0 <= i < |r.body.details| ==>
              r.body.details[i].field == "base" || r.body.details[i].field == "quote"
    ensures r.Respond? ==>
              ((exists i :: 0 <= i < |r.body.details| && r.body.details[i].field == "base")
                 <==> !(q.base.Text? && IsValidSymbol(q.base.s)))
    ensures r.Respond? ==>
              ((exists i :: 0 <= i < |r.body.details| && r.body.details[i].field == "quote")
                 <==> !(q.quote.Text? && IsValidSymbol(q.quote.s)))
  {
    var details := SymbolIssues("base", q.base) + SymbolIssues("quote", q.quote);
    if details == [] then Next
    else
      var b := SymbolIssues("base", q.base);
      assert forall i :: 0 <= i < |b| ==> details[i] == b[i];
      assert forall i :: |b| <= i < |details| ==> details[i] == SymbolIssues("quote", q.quote)[i - |b|];
      assert "base" != "quote" by { assert "base"[0] != "quote"[0]; }
      assert b != [] ==> details[0].field == "base";
      assert |details| > |b| ==> details[|b|].field == "quote";
      Respond(400, Body(InvalidInput, details))
  }
}
