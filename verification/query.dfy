/** The two query parameters of a price request, as the HTTP layer parses them. */
module Query {

  /** A query parameter: absent, a single string, or something else (a repeated parameter gives an array). */
  datatype QueryValue = Missing | Text(s: string) | NotText

  datatype PriceQuery = PriceQuery(base: QueryValue, quote: QueryValue)
}
