# Marketplace AI assistant: response interpretation, price fallbacks and search filters

This project models, in Dafny, the deterministic logic of a marketplace
listing assistant's two AI endpoints:

- the AI service (`server/services/aiService.js`): extracting the JSON span
  from a language-model reply with the greedy pattern `/\{[\s\S]*\}/`, and
  the fallbacks of `extractSearchIntent`, `suggestPrice` and
  `enhanceProductDetails` when the model call, the match or `JSON.parse`
  fails;
- the `POST /ai-price-suggestion` handler (`server/routers/aiPriceSuggestion.js`):
  title validation, the similar-products lookup, the choice between the
  service's suggestion, a category-average band and `null`, and the response
  body;
- the `POST /ai-search` handler (`server/routers/aiSearch.js`): query
  validation, the `$and`/`$or` filter built from a search intent, the
  price-context bound around an average defaulting to 30000, and the
  response body.

External results are parameters. The model's reply is an `Option<string>`
(`None` when the call or `response.text()` throws). `JSON.parse` is a
function `parse: string -> Option<T>` applied to the extracted span, where
`None` is a parse error and `T` is the record shape the caller reads. Store
results are sequences. The price aggregation is an `Option<int>`, with
`None` for an empty result or a null average. The handlers are pure
functions. Each returns a `Handled` value that pairs the response (status
200 or 400) with the ordered list of collaborator calls it makes. This is
how the model states that a rejected request makes no lookup and no model
call. Regular-expression matching is also a parameter,
`matches(pattern, text)`. With it, `Store.Holds` gives a filter document its
meaning, and the search filter is proved equal to a direct description of
the products the search intent asks for.

Modules: `Wrappers` (Option), `Text` (JavaScript `trim`, `split(' ')`,
`join(' ')`, index scans), `Records` (the entities), `Pricing`
(`Math.round` of a quotient, averages, price bands), `Store` (filter
documents, products, `.limit`), `Handler` (responses and calls),
`AiService`, `PriceRoute`, `SearchRoute`.

Arithmetic: prices are integers. `Math.round(p / q)` is
`floor((2p + q) / (2q))`. The factors 0.7, 0.85, 0.9, 1.1, 1.15 and 1.3 are
exact rationals (7/10, 17/20, 9/10, 11/10, 23/20, 13/10). This approximates
the IEEE double arithmetic of the JavaScript code.

Three behaviours of the code are worth stating plainly:

- the fallback keywords come from `split(' ')` on a single space, so
  `"a  b"` gives `["a", "", "b"]`;
- a parsed reply is returned unchanged: no field is checked, and
  `minPrice <= suggestedPrice <= maxPrice` is not enforced on it;
- the enhancement fallback echoes the description as given, so a missing
  description stays absent (`None`).

## Model

| member | source | states |
|---|---|---|
| `Text.Trim` | server/routers/aiSearch.js:15 | `query.trim()` is empty exactly when every character of the query is whitespace that `trim` removes; otherwise the trimmed text starts and ends with non-whitespace |
| `Text.TrimStart` | server/routers/aiSearch.js:15 | the result is a suffix of the input, everything dropped is whitespace, and the result does not start with whitespace |
| `Text.TrimEnd` | server/routers/aiSearch.js:15 | the result is a prefix of the input, everything dropped is whitespace, and the result does not end with whitespace |
| `Text.Split` | server/services/aiService.js:46 | `split(' ')` yields at least one piece, and no piece contains a space |
| `Text.JoinSplit` | server/services/aiService.js:46 | joining the pieces of `s.split(' ')` with a space gives back `s` |
| `Text.SplitJoin` | server/services/aiService.js:161 | a non-empty list of space-free pieces is recovered by splitting its join |
| `Text.SplitLength` | server/services/aiService.js:46 | a split has one more piece than the string has spaces |
| `Text.FirstWord` | server/routers/aiPriceSuggestion.js:31 | `title.split(' ')[0]` is the prefix of the title up to its first space, or the whole title when it has none |
| `Text.FirstWordIsPrefix` | server/routers/aiPriceSuggestion.js:31 | the first piece of a split is a prefix of the string, ending at its end or at a space |
| `Text.FirstIndexOf` | server/services/aiService.js:35 | the index found holds the character and none before it does; no index means the character does not occur |
| `Text.LastIndexOf` | server/services/aiService.js:35 | the index found holds the character and none after it does; no index means the character does not occur |
| `AiService.SpanBounds` | server/services/aiService.js:35-38 | the match runs from the first `{` to the last `}`; there is none exactly when no `}` follows any `{` |
| `AiService.ExtractSpan` | server/services/aiService.js:98-101 | a span exists iff some `}` follows a `{`, and a span begins with `{` and ends with `}` |
| `AiService.SpanEnclosesEveryMatch` | server/services/aiService.js:150 | the span encloses every candidate match, so it is the leftmost and then the longest match of the greedy pattern |
| `AiService.NoBracesNoParse` | server/services/aiService.js:36-38 | a reply with no `{` followed by `}` never parses, whatever `JSON.parse` does, so the fallback runs |
| `AiService.ExtractSearchIntent` | server/services/aiService.js:31-51 | a parsed object is returned unchanged; otherwise the keywords are `query.split(' ')`, category, priceContext and condition are null, and the intent is the query |
| `AiService.IntentFallbackKeywords` | server/services/aiService.js:45-51 | the fallback keywords join back to the query, contain no space, and number one more than the query's spaces |
| `AiService.SuggestPrice` | server/services/aiService.js:98-122 | a parsed object is returned unchanged; otherwise, with comparables, the rounded average with bounds `round(0.9·avg)` and `round(1.1·avg)` and confidence `medium`; with none, `null` |
| `AiService.SuggestPriceFallbackOrdered` | server/services/aiService.js:110-117 | for non-negative prices the fallback satisfies `0 <= minPrice <= suggestedPrice <= maxPrice`, with the suggestion between the cheapest and the dearest comparable |
| `AiService.EnhanceProductDetails` | server/services/aiService.js:147-162 | a parsed object is returned unchanged; otherwise title and description are echoed and the keywords are `title.split(' ')`, which join back to the title |
| `AiService.PriceFallbackExample` | server/services/aiService.js:110-120 | comparables priced 100, 200 and 300 give the suggestion 200 with bounds 180 and 220 |
| `AiService.IntentFallbackExamples` | server/services/aiService.js:45-51 | `"cheap used phone"` falls back to the keywords `cheap`, `used`, `phone`; `"a  b"` gives `["a", "", "b"]` |
| `AiService.EnhanceFallbackExample` | server/services/aiService.js:158-162 | the title `"iPhone 8"` without a description falls back to keywords `iPhone`, `8` and an absent description |
| `Pricing.Sum` | server/services/aiService.js:112 | the `reduce` sum of non-negative prices is non-negative |
| `Pricing.SumFromFront` | server/services/aiService.js:112 | the left fold of `reduce` equals the first price plus the sum of the rest |
| `Pricing.Mean` | server/services/aiService.js:111-113 | the rounded average is the integer nearest to `sum / length`, with halves rounded up |
| `Pricing.RoundDiv` | server/services/aiService.js:111-113 | the result is the integer nearest to `p/q`, with halves rounded up as `Math.round` does |
| `Pricing.MeanWithinRange` | server/routers/aiPriceSuggestion.js:59-61 | the rounded average of the prices lies between their lower and upper bounds |
| `Pricing.RoundedQuotientBetween` | server/services/aiService.js:111-113 | a nearest-integer quotient of a sum lying in `[n·lo, n·hi]` lies in `[lo, hi]` |
| `Pricing.SumBounds` | server/services/aiService.js:112 | the reduced sum lies between `n·lo` and `n·hi` for prices within `[lo, hi]` |
| `Pricing.Band` | server/services/aiService.js:114-120 | the band is centred on the average with confidence `medium`, and for a non-negative average with factors around 1 it is ordered `0 <= min <= suggested <= max` |
| `Pricing.RoundDivMonotone` | server/services/aiService.js:116-117 | rounding a quotient is monotone in the numerator |
| `Pricing.RoundDivExact` | server/services/aiService.js:116-117 | rounding an exact multiple returns the multiplier |
| `Store.Holds` | server/routers/aiSearch.js:29-45 | the meaning of a filter document; an empty `$and` accepts every product, an empty `$or` none, and a one-element `$and` or `$or` means its element |
| `Store.Limit` | server/routers/aiSearch.js:72 | `.limit(n)` keeps a prefix of the results whose length is `n` or the whole list, whichever is shorter |
| `PriceRoute.SimilarFilter` | server/routers/aiPriceSuggestion.js:29-35 | a product passes the similar-products filter iff it is sold and its title matches the title's first word or its category matches the category |
| `PriceRoute.CategoryFilter` | server/routers/aiPriceSuggestion.js:54 | a product passes the category lookup iff its category equals the requested one |
| `PriceRoute.CategoryAverage` | server/routers/aiPriceSuggestion.js:58-69 | the category record is the rounded mean with bounds `round(0.85·avg)` and `round(1.15·avg)`, the category reasoning and confidence `medium` |
| `PriceRoute.CategoryAverageOrdered` | server/routers/aiPriceSuggestion.js:59-65 | for non-negative prices the category band is ordered and its centre lies within the range of the category's prices |
| `PriceRoute.HandlePriceSuggestion` | server/routers/aiPriceSuggestion.js:18-82 | a falsy title gives 400 `Product title is required` with no call made; otherwise 200 with at most 10 comparables counted, the enhancement always computed, the service's suggestion when comparables exist, else the category band or `null`, and the calls in order |
| `PriceRoute.FallbackSuggestionOrdered` | server/routers/aiPriceSuggestion.js:43-69 | when the model gives no price, a suggestion is absent only when both lookups found nothing, and any suggestion over non-negative prices is ordered |
| `SearchRoute.TextClause` | server/routers/aiSearch.js:29-45 | the text alternative has `2 + |keywords|` disjuncts: the intent against the title, the intent against the description, then one title/description alternative per keyword, in keyword order |
| `SearchRoute.TermClause` | server/routers/aiSearch.js:36-41 | a keyword alternative holds iff the title or description matches the keyword |
| `SearchRoute.CategoryClause` | server/routers/aiSearch.js:48-52 | the category conjunct is present iff the category is truthy, and a product passes it iff its category matches |
| `SearchRoute.TextClauseMeaning` | server/routers/aiSearch.js:29-45 | the text alternative holds iff the intent or some keyword matches the title or description |
| `SearchRoute.EffectiveAverage` | server/routers/aiSearch.js:60 | a non-zero aggregated average is used as is; an absent or zero one gives 30000; the result is never 0 |
| `SearchRoute.PriceClause` | server/routers/aiSearch.js:55-66 | `budget`/`low` bound the price by `0.7·average` from above, `premium`/`high` by `1.3·average` from below, and every other value, `medium` included, adds nothing |
| `SearchRoute.PriceClauseSidesOfAverage` | server/routers/aiSearch.js:62-66 | with a positive average, the budget bound admits only products cheaper than the average and the premium bound only dearer ones |
| `SearchRoute.BuildFilter` | server/routers/aiSearch.js:29-66 | `$and` has one to three conjuncts in the order text, category, price; the text conjunct is first, the category conjunct appears iff the category is truthy, and the price bound is last iff the context is recognised |
| `SearchRoute.FilterMeaning` | server/routers/aiSearch.js:29-66 | a product satisfies the filter iff it mentions the intent or a keyword, matches a truthy category, and respects the bound of a recognised price context |
| `SearchRoute.HandleSearch` | server/routers/aiSearch.js:15-79 | a missing or blank query gives 400 `Search query is required` with no call made; otherwise 200 with the extracted intent, at most 20 products, `count` equal to their number, and the calls in order |
| `SearchRoute.ReturnedProductsWanted` | server/routers/aiSearch.js:72-78 | if the store honours the filter, every returned product is one the search intent asks for |

## Left out

- The Gemini client and `generateContent` are a network call. Their outcome is the `reply` parameter.
- `JSON.parse` and arbitrary JSON shapes are library behaviour. `parse` stands for them, typed to the shape the caller reads. A parsed object of another shape passes through the service and the price handler unchanged, and the search handler echoes extra fields; such objects are not modelled. The search handler throws only when `keywords` is not an array, and that 500 path is not modelled either.
- Prompt templates are left out. They are string formatting, and nothing is promised about their text.
- MongoDB execution is left out: regular-expression semantics, `.select`, `.lean` and `aggregate`. Regex matching is the `matches` parameter. Store results are input sequences. The unescaped use of keywords as patterns is not modelled.
- Store.Holds: an `Equals` filter with an absent value is taken to match nothing. The store's real handling of an undefined value is not modelled. No proved property depends on it.
- Prices are integers, and the aggregated average is an integer. IEEE double rounding of the 0.7 to 1.3 factors and of `Math.round` is approximated by exact rationals. The difference shows at ordinary prices: for an average of 50 the double product `50 * 1.15` is `57.49999999999999`, which `Math.round` takes to 57, while the exact `57.5` rounds to 58 here.
- Request-body fields are absent or strings. A non-string `title` or `query`, such as a number, is not modelled.
- Strings are sequences of Unicode scalar values. JavaScript's UTF-16 code units are not modelled.
- Express `req`/`res`, async/await, console logging and environment variables are left out.
- The 500 responses that carry `error.message` and `error.stack` are left out. So is every exception other than the model call, the failed match and the parse error, which the service catches.
- Idempotence is left out as a separate statement. Every operation here is a pure function, so equal inputs give equal outputs.
