/** The request-scoped records the AI service and the two handlers pass
    around. Optional text is `Option<string>`: `None` stands for `null`
    or `undefined`. */
module Records {
  import opened Wrappers

  /** JavaScript truthiness of an optional string: present and non-empty. */
  predicate Truthy(o: Option<string>) {
    o.Some? && o.value != ""
  }

  /** A sold listing returned by the similar-products lookup
      (`select('title price condition sold')`). */
  datatype Listing = Listing(title: string, price: int, condition: Option<string>, sold: bool)

  /** The structured search parameters: either the object the model
      returned, or the keyword-split fallback. */
  datatype SearchIntent = SearchIntent(
    keywords: seq<string>,
    category: Option<string>,
    priceContext: Option<string>,
    condition: Option<string>,
    intent: string)

  /** A price recommendation, from the model or from an average band. */
  datatype PriceSuggestion = PriceSuggestion(
    suggestedPrice: int,
    minPrice: int,
    maxPrice: int,
    reasoning: string,
    confidence: string)

  /** Improved listing copy, from the model or echoed back. */
  datatype Enhancement = Enhancement(
    improvedTitle: string,
    improvedDescription: Option<string>,
    suggestedKeywords: seq<string>)
}
