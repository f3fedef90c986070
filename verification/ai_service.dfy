/** The AI service: interpretation of the model's raw reply and the three
    pipelines with their deterministic fallbacks.

    The model call and `JSON.parse` are not modelled. Each pipeline receives
    the reply as `Option<string>` (`None` when `generateContent` or
    `response.text()` threw) and `JSON.parse` as `parse`, whose `None`
    stands for a parse error. A parsed object is typed with the shape its
    caller reads. */
module AiService {
  import opened Wrappers
  import opened Text
  import opened Records
  import opened Pricing

  /** `t[i]` opens and `t[j]` closes a candidate match of `/\{[\s\S]*\}/`. */
  predicate IsBraceMatch(t: string, i: int, j: int) {
    0 <= i < j < |t| && t[i] == '{' && t[j] == '}'
  }

  /** The bounds of the regular-expression match: the first `{` of the
      text and the last `}`, provided that `}` comes after that `{`. */
  function SpanBounds(t: string): (r: Option<(nat, nat)>)
    ensures r.Some? ==> IsBraceMatch(t, r.value.0, r.value.1)
    ensures r.Some? ==> forall k :: 0 <= k < r.value.0 ==> t[k] != '{'
    ensures r.Some? ==> forall k :: r.value.1 < k < |t| ==> t[k] != '}'
    ensures r.None? <==> forall i, j :: !IsBraceMatch(t, i, j)
  {
    match FirstIndexOf(t, '{')
    case None => None
    case Some(i) =>
      match LastIndexOf(t, '}')
      case None => None
      case Some(j) =>
        if i < j then
          assert IsBraceMatch(t, i, j);
          Some((i, j))
        else None
  }

  /** `responseText.match(/\{[\s\S]*\}/)`, yielding `jsonMatch[0]` or the
      failed match. */
  function ExtractSpan(t: string): (r: Option<string>)
    ensures r.Some? <==> exists i, j :: IsBraceMatch(t, i, j)
    ensures r.Some? ==> |r.value| >= 2 && r.value[0] == '{' && r.value[|r.value| - 1] == '}'
  {
    match SpanBounds(t)
    case None => None
    case Some((i, j)) => Some(t[i..j + 1])
  }

  /** The greedy match starts at the first `{` and ends at the last `}`:
      it encloses every candidate match of the pattern, so it is the
      leftmost match and, among those, the longest. */
  lemma SpanEnclosesEveryMatch(t: string, i': int, j': int)
    requires IsBraceMatch(t, i', j')
    ensures SpanBounds(t).Some?
    ensures SpanBounds(t).value.0 <= i' && j' <= SpanBounds(t).value.1
    ensures ExtractSpan(t) == Some(t[SpanBounds(t).value.0..SpanBounds(t).value.1 + 1])
  {
  }

  /** The reply exists, contains a match, and the match parses. */
  predicate Parses<T>(reply: Option<string>, parse: string -> Option<T>) {
    reply.Some? && ExtractSpan(reply.value).Some? && parse(ExtractSpan(reply.value).value).Some?
  }

  /** The object `JSON.parse(jsonMatch[0])` returned. */
  function Parsed<T>(reply: Option<string>, parse: string -> Option<T>): T
    requires Parses(reply, parse)
  {
    parse(ExtractSpan(reply.value).value).value
  }

  /** A reply without any `{` followed later by `}` never parses, whatever
      `JSON.parse` would do: the pipeline takes its fallback. */
  lemma NoBracesNoParse<T>(reply: Option<string>, parse: string -> Option<T>)
    requires reply.Some? ==> forall i, j :: !IsBraceMatch(reply.value, i, j)
    ensures !Parses(reply, parse)
  {
  }

  const SimilarAverageReasoning := "Based on average of similar products (AI call failed)"

  /** `extractSearchIntent(query)`: the parsed object unchanged, with no
      field checked, or else the keyword split of the query with every
      other field null and the query itself as the intent. */
  function ExtractSearchIntent(query: string, reply: Option<string>, parse: string -> Option<SearchIntent>): (r: SearchIntent)
    ensures Parses(reply, parse) ==> r == Parsed(reply, parse)
    ensures !Parses(reply, parse) ==>
      && r.keywords == Split(query)
      && r.category == None && r.priceContext == None && r.condition == None
      && r.intent == query
  {
    if Parses(reply, parse) then Parsed(reply, parse)
    else SearchIntent(Split(query), None, None, None, query)
  }

  /** The fallback keywords are the space-separated pieces of the query:
      none contains a space, there is one more than the query has spaces,
      and joining them with a space gives the query back. */
  lemma {:induction false} IntentFallbackKeywords(query: string, reply: Option<string>, parse: string -> Option<SearchIntent>)
    requires !Parses(reply, parse)
    ensures var ks := ExtractSearchIntent(query, reply, parse).keywords;
      && Join(ks) == query
      && |ks| == Count(query, ' ') + 1
      && forall i :: 0 <= i < |ks| ==> ' ' !in ks[i]
  {
    JoinSplit(query);
    SplitLength(query);
  }

  /** `suggestPrice(productInfo, similarProducts)`: the parsed object
      unchanged, or else the rounded average of the comparable prices with
      a 10% band either side and confidence `medium`, or null when there
      are no comparables. */
  function SuggestPrice(similar: seq<Listing>, reply: Option<string>, parse: string -> Option<PriceSuggestion>): (r: Option<PriceSuggestion>)
    ensures Parses(reply, parse) ==> r == Some(Parsed(reply, parse))
    ensures !Parses(reply, parse) && |similar| == 0 ==> r == None
    ensures !Parses(reply, parse) && |similar| > 0 ==>
      var avg := Mean(Prices(similar));
      r == Some(PriceSuggestion(avg, RoundDiv(9 * avg, 10), RoundDiv(11 * avg, 10), SimilarAverageReasoning, "medium"))
  {
    if Parses(reply, parse) then Some(Parsed(reply, parse))
    else if |similar| > 0 then Some(Band(Mean(Prices(similar)), 9, 11, 10, SimilarAverageReasoning))
    else None
  }

  /** With non-negative comparable prices the fallback is ordered
      `0 <= minPrice <= suggestedPrice <= maxPrice`, and the suggestion lies
      between the cheapest and the dearest comparable. */
  lemma SuggestPriceFallbackOrdered(similar: seq<Listing>, reply: Option<string>, parse: string -> Option<PriceSuggestion>, lo: int, hi: int)
    requires !Parses(reply, parse) && |similar| > 0
    requires 0 <= lo
    requires forall i :: 0 <= i < |similar| ==> lo <= similar[i].price <= hi
    ensures var r := SuggestPrice(similar, reply, parse);
      && r.Some?
      && 0 <= r.value.minPrice <= r.value.suggestedPrice <= r.value.maxPrice
      && lo <= r.value.suggestedPrice <= hi
  {
    MeanWithinRange(Prices(similar), lo, hi);
  }

  /** `enhanceProductDetails(title, description)`: the parsed object
      unchanged, or else the title and description echoed back with the
      title's space-separated pieces as the keywords. */
  function EnhanceProductDetails(title: string, description: Option<string>, reply: Option<string>, parse: string -> Option<Enhancement>): (r: Enhancement)
    ensures Parses(reply, parse) ==> r == Parsed(reply, parse)
    ensures !Parses(reply, parse) ==>
      && r.improvedTitle == title
      && r.improvedDescription == description
      && r.suggestedKeywords == Split(title)
      && Join(r.suggestedKeywords) == title
  {
    JoinSplit(title);
    if Parses(reply, parse) then Parsed(reply, parse)
    else Enhancement(title, description, Split(title))
  }

  /** The price fallback for three comparables at 100, 200 and 300. */
  lemma PriceFallbackExample(reply: Option<string>, parse: string -> Option<PriceSuggestion>)
    requires !Parses(reply, parse)
    ensures SuggestPrice([Listing("a", 100, None, true), Listing("b", 200, None, true), Listing("c", 300, None, true)], reply, parse)
      == Some(PriceSuggestion(200, 180, 220, SimilarAverageReasoning, "medium"))
  {
    var ls := [Listing("a", 100, None, true), Listing("b", 200, None, true), Listing("c", 300, None, true)];
    assert Prices(ls) == [100, 200, 300];
    assert Sum([100, 200, 300]) == 600 by {
      assert [100, 200, 300][..2] == [100, 200];
      assert [100, 200][..1] == [100];
      assert [100][..0] == [];
    }
  }

  /** The intent fallback for "cheap used phone", and for a double space,
      which yields an empty keyword. */
  lemma IntentFallbackExamples(reply: Option<string>, parse: string -> Option<SearchIntent>)
    requires !Parses(reply, parse)
    ensures ExtractSearchIntent("cheap used phone", reply, parse)
      == SearchIntent(["cheap", "used", "phone"], None, None, None, "cheap used phone")
    ensures ExtractSearchIntent("a  b", reply, parse).keywords == ["a", "", "b"]
  {
    SplitJoin(["cheap", "used", "phone"]);
    assert Join(["cheap", "used", "phone"]) == "cheap used phone";
    SplitJoin(["a", "", "b"]);
    assert Join(["a", "", "b"]) == "a  b";
  }

  /** The enhancement fallback for the title "iPhone 8" without a
      description. */
  lemma EnhanceFallbackExample(reply: Option<string>, parse: string -> Option<Enhancement>)
    requires !Parses(reply, parse)
    ensures EnhanceProductDetails("iPhone 8", None, reply, parse) == Enhancement("iPhone 8", None, ["iPhone", "8"])
  {
    SplitJoin(["iPhone", "8"]);
    assert Join(["iPhone", "8"]) == "iPhone 8";
  }
}
