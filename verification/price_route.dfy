/** The `POST /ai-price-suggestion` handler: title validation, the
    similar-products lookup, the choice between the AI service's price
    suggestion, a category-average band and null, and the response body. */
module PriceRoute {
  import opened Wrappers
  import opened Text
  import opened Records
  import opened Pricing
  import opened Store
  import opened Handler
  import opened AiService

  /** The request body `{ title, category, condition, description }`. */
  datatype PriceRequest = PriceRequest(
    title: Option<string>,
    category: Option<string>,
    condition: Option<string>,
    description: Option<string>)

  /** The success body; `msg: 'success'` is carried by the response. */
  datatype PriceBody = PriceBody(
    priceSuggestion: Option<PriceSuggestion>,
    enhancedDetails: Enhancement,
    similarProductsCount: nat)

  const TitleRequired := "Product title is required"
  const CategoryAverageReasoning := "Based on category average (limited similar products)"

  /** At most this many comparables are fetched. */
  const SimilarLimit: nat := 10

  /** The similar-products filter `{ $or: [title ~ first word, category ~
      category], sold: true }`: a product passes exactly when it is sold and
      its title matches the title's first word or its category matches the
      requested category. */
  function SimilarFilter(title: string, category: Option<string>): (c: Clause)
    ensures forall p, matches :: Holds(c, p, matches) <==>
      && p.sold
      && (matches(Some(FirstWord(title)), p.title) || matches(category, p.category))
  {
    var alts := [Matches(Title, Some(FirstWord(title))), Matches(Category, category)];
    var cs := [AnyOf(alts), SoldIs(true)];
    assert forall p, matches :: Holds(AnyOf(alts), p, matches) <==> Holds(alts[0], p, matches) || Holds(alts[1], p, matches);
    assert forall p, matches :: Holds(AllOf(cs), p, matches) <==> Holds(cs[0], p, matches) && Holds(cs[1], p, matches);
    AllOf(cs)
  }

  /** The whole-category lookup `Product.find({ category })`: a product
      passes exactly when its category equals the requested one. */
  function CategoryFilter(category: Option<string>): (c: Clause)
    ensures forall p, matches :: Holds(c, p, matches) <==> category == Some(p.category)
  {
    Equals(Category, category)
  }

  /** The category-average record: the rounded mean price with a 15% band
      either side and confidence `medium`. */
  function CategoryAverage(prices: seq<int>): (s: PriceSuggestion)
    requires |prices| > 0
    ensures s.suggestedPrice == Mean(prices)
    ensures s.minPrice == RoundDiv(17 * s.suggestedPrice, 20)
    ensures s.maxPrice == RoundDiv(23 * s.suggestedPrice, 20)
    ensures s.reasoning == CategoryAverageReasoning && s.confidence == "medium"
  {
    Band(Mean(prices), 17, 23, 20, CategoryAverageReasoning)
  }

  /** With non-negative prices the category band is ordered and its centre
      lies within the range of the category's prices. */
  lemma CategoryAverageOrdered(prices: seq<int>, lo: int, hi: int)
    requires |prices| > 0 && 0 <= lo
    requires forall i :: 0 <= i < |prices| ==> lo <= prices[i] <= hi
    ensures var s := CategoryAverage(prices);
      0 <= s.minPrice <= s.suggestedPrice <= s.maxPrice && lo <= s.suggestedPrice <= hi
  {
    MeanWithinRange(prices, lo, hi);
  }

  /** The handler. `similarFound` is what the similar-products lookup
      returned before `.limit(10)`, `categoryPrices` the prices the category
      lookup returned; the replies and parsers stand for the two AI-service
      calls. */
  function HandlePriceSuggestion(
    req: PriceRequest,
    similarFound: seq<Listing>,
    categoryPrices: seq<int>,
    priceReply: Option<string>, parsePrice: string -> Option<PriceSuggestion>,
    enhanceReply: Option<string>, parseEnhance: string -> Option<Enhancement>): (h: Handled<PriceBody>)
    // A falsy title is rejected before any lookup or model call.
    ensures !Truthy(req.title) ==>
      h.response == ValidationError(TitleRequired) && h.response.Status() == 400 && h.calls == []
    ensures Truthy(req.title) ==> h.response.Success? && h.response.Status() == 200
    ensures Truthy(req.title) ==>
      var title := req.title.value;
      var similar := Limit(similarFound, SimilarLimit);
      var body := h.response.body;
      && body.similarProductsCount == |similar| <= SimilarLimit
      && body.enhancedDetails == EnhanceProductDetails(title, req.description, enhanceReply, parseEnhance)
      && |h.calls| == 3
      && h.calls[0] == Find(SimilarFilter(title, req.category), Some(SimilarLimit))
      && h.calls[|h.calls| - 1] == Generate(EnhanceTask)
      && (|similar| > 0 ==>
            && body.priceSuggestion == SuggestPrice(similar, priceReply, parsePrice)
            && body.priceSuggestion.Some?
            && h.calls == [h.calls[0], Generate(PriceTask), Generate(EnhanceTask)])
      && (|similar| == 0 ==>
            && body.priceSuggestion == (if |categoryPrices| > 0 then Some(CategoryAverage(categoryPrices)) else None)
            && h.calls == [h.calls[0], Find(CategoryFilter(req.category), None), Generate(EnhanceTask)])
  {
    if !Truthy(req.title) then
      Handled(ValidationError(TitleRequired), [])
    else
      var title := req.title.value;
      var similar := Limit(similarFound, SimilarLimit);
      var lookup := Find(SimilarFilter(title, req.category), Some(SimilarLimit));
      var enhanced := EnhanceProductDetails(title, req.description, enhanceReply, parseEnhance);
      if |similar| > 0 then
        var suggestion := SuggestPrice(similar, priceReply, parsePrice);
        Handled(Success(PriceBody(suggestion, enhanced, |similar|)),
                [lookup, Generate(PriceTask), Generate(EnhanceTask)])
      else
        var suggestion := if |categoryPrices| > 0 then Some(CategoryAverage(categoryPrices)) else None;
        Handled(Success(PriceBody(suggestion, enhanced, |similar|)),
                [lookup, Find(CategoryFilter(req.category), None), Generate(EnhanceTask)])
  }

  /** When the model gives no usable price, every suggestion the handler
      returns over non-negative prices is ordered
      `0 <= minPrice <= suggestedPrice <= maxPrice` with the suggestion no
      dearer than the dearest price seen; and a suggestion is absent only
      when both lookups found nothing. */
  lemma FallbackSuggestionOrdered(
    req: PriceRequest,
    similarFound: seq<Listing>,
    categoryPrices: seq<int>,
    priceReply: Option<string>, parsePrice: string -> Option<PriceSuggestion>,
    enhanceReply: Option<string>, parseEnhance: string -> Option<Enhancement>,
    hi: int)
    requires Truthy(req.title) && !Parses(priceReply, parsePrice)
    requires forall i :: 0 <= i < |similarFound| ==> 0 <= similarFound[i].price <= hi
    requires forall i :: 0 <= i < |categoryPrices| ==> 0 <= categoryPrices[i] <= hi
    ensures var body := HandlePriceSuggestion(req, similarFound, categoryPrices, priceReply, parsePrice, enhanceReply, parseEnhance).response.body;
      && (body.priceSuggestion.None? <==> |similarFound| == 0 && |categoryPrices| == 0)
      && (body.priceSuggestion.Some? ==>
            var s := body.priceSuggestion.value;
            0 <= s.minPrice <= s.suggestedPrice <= s.maxPrice && s.suggestedPrice <= hi)
  {
    var similar := Limit(similarFound, SimilarLimit);
    if |similar| > 0 {
      SuggestPriceFallbackOrdered(similar, priceReply, parsePrice, 0, hi);
    } else if |categoryPrices| > 0 {
      CategoryAverageOrdered(categoryPrices, 0, hi);
    }
  }
}
