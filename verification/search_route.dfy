/** The `POST /ai-search` handler: query validation, the filter built from
    the search intent (text, then category, then price), and the response
    body. */
module SearchRoute {
  import opened Wrappers
  import opened Text
  import opened Records
  import opened Store
  import opened Handler
  import opened AiService

  /** The success body; `msg: 'success'` is carried by the response. */
  datatype SearchBody = SearchBody(count: nat, searchIntent: SearchIntent, products: seq<Product>)

  const QueryRequired := "Search query is required"

  /** The average price used when the aggregation yields nothing or a
      falsy average. */
  const DefaultAverage := 30000

  /** At most this many products are returned. */
  const ResultLimit: nat := 20

  /** The title or description of `p` matches `term`. */
  predicate Mentions(p: Product, term: string, matches: (Option<string>, string) -> bool) {
    matches(Some(term), p.title) || matches(Some(term), p.description)
  }

  /** `{ $or: [title ~ term, description ~ term] }`: a product passes
      exactly when its title or description matches the term. */
  function TermClause(term: string): (c: Clause)
    ensures forall p, matches :: Holds(c, p, matches) <==> Mentions(p, term, matches)
  {
    var alts := [Matches(Title, Some(term)), Matches(Description, Some(term))];
    assert forall p, matches :: Holds(AnyOf(alts), p, matches) <==> Holds(alts[0], p, matches) || Holds(alts[1], p, matches);
    AnyOf(alts)
  }

  /** The first conjunct: the intent against title and description, then
      one nested title/description alternative per keyword, in order. */
  function TextClause(si: SearchIntent): (c: Clause)
    ensures c.AnyOf? && |c.alternatives| == 2 + |si.keywords|
    ensures c.alternatives[0] == Matches(Title, Some(si.intent))
    ensures c.alternatives[1] == Matches(Description, Some(si.intent))
    ensures forall i :: 0 <= i < |si.keywords| ==> c.alternatives[2 + i] == TermClause(si.keywords[i])
  {
    var ks := si.keywords;
    AnyOf([Matches(Title, Some(si.intent)), Matches(Description, Some(si.intent))]
          + seq(|ks|, i requires 0 <= i < |ks| => TermClause(ks[i])))
  }

  /** `avgPrice[0]?.avgPrice || 30000`: `aggregate` is `None` when the
      aggregation returned no group or a null average. */
  function EffectiveAverage(aggregate: Option<int>): (a: int)
    ensures a != 0
    ensures aggregate.Some? && aggregate.value != 0 ==> a == aggregate.value
    ensures a == DefaultAverage <==> aggregate.None? || aggregate.value in {0, DefaultAverage}
  {
    match aggregate
    case Some(v) => if v != 0 then v else DefaultAverage
    case None => DefaultAverage
  }

  predicate IsLowContext(pc: Option<string>) {
    pc == Some("budget") || pc == Some("low")
  }

  predicate IsHighContext(pc: Option<string>) {
    pc == Some("premium") || pc == Some("high")
  }

  /** The price conjunct: at most 0.7 of the average for `budget`/`low`,
      at least 1.3 of it for `premium`/`high`, and nothing for any other
      value, `medium` included. */
  function PriceClause(pc: Option<string>, aggregate: Option<int>): (r: Option<Clause>)
    ensures r.Some? <==> IsLowContext(pc) || IsHighContext(pc)
    ensures IsLowContext(pc) ==> r == Some(PriceAtMost(Ratio(7 * EffectiveAverage(aggregate), 10)))
    ensures IsHighContext(pc) ==> r == Some(PriceAtLeast(Ratio(13 * EffectiveAverage(aggregate), 10)))
  {
    if !Truthy(pc) then None
    else
      var average := EffectiveAverage(aggregate);
      if IsLowContext(pc) then Some(PriceAtMost(Ratio(7 * average, 10)))
      else if IsHighContext(pc) then Some(PriceAtLeast(Ratio(13 * average, 10)))
      else None
  }

  /** With a positive average, the budget bound admits only products
      cheaper than the average and the premium bound only dearer ones. */
  lemma PriceClauseSidesOfAverage(pc: Option<string>, aggregate: Option<int>, p: Product, matches: (Option<string>, string) -> bool)
    requires EffectiveAverage(aggregate) > 0
    requires PriceClause(pc, aggregate).Some? && Holds(PriceClause(pc, aggregate).value, p, matches)
    ensures IsLowContext(pc) ==> p.price < EffectiveAverage(aggregate)
    ensures IsHighContext(pc) ==> p.price > EffectiveAverage(aggregate)
  {
  }

  /** The category conjunct, present iff the category is truthy; a product
      passes it exactly when its category matches the category. */
  function CategoryClause(category: Option<string>): (r: Option<Clause>)
    ensures r.Some? <==> Truthy(category)
    ensures r.Some? ==> r.value == Matches(Category, category)
    ensures r.Some? ==> forall p, matches :: Holds(r.value, p, matches) <==> matches(category, p.category)
  {
    if Truthy(category) then Some(Matches(Category, category)) else None
  }

  function AsSeq<T>(o: Option<T>): (s: seq<T>)
    ensures |s| <= 1 && (|s| == 1 <==> o.Some?) && (o.Some? ==> s[0] == o.value)
  {
    if o.Some? then [o.value] else []
  }

  /** Position of a conjunct kind in the `$and` list. */
  function Rank(c: Clause): nat {
    match c
    case AnyOf(_) => 0
    case Matches(_, _) => 1
    case PriceAtMost(_) => 2
    case PriceAtLeast(_) => 2
    case _ => 3
  }

  /** The `$and` filter for a search intent: the text conjunct always comes
      first, a category conjunct follows iff the category is truthy, and a
      price conjunct comes last iff the price context is one of the four
      recognised values. */
  function BuildFilter(si: SearchIntent, aggregate: Option<int>): (f: Clause)
    ensures f.AllOf? && 1 <= |f.conjuncts| <= 3
    ensures f.conjuncts[0] == TextClause(si)
    ensures |f.conjuncts| == 1 + (if Truthy(si.category) then 1 else 0)
                               + (if IsLowContext(si.priceContext) || IsHighContext(si.priceContext) then 1 else 0)
    ensures Truthy(si.category) ==> f.conjuncts[1] == Matches(Category, si.category)
    ensures !Truthy(si.category) ==> forall i :: 1 <= i < |f.conjuncts| ==> !f.conjuncts[i].Matches?
    ensures IsLowContext(si.priceContext) || IsHighContext(si.priceContext) ==>
      f.conjuncts[|f.conjuncts| - 1] == PriceClause(si.priceContext, aggregate).value
    ensures forall i, j :: 0 <= i < j < |f.conjuncts| ==> Rank(f.conjuncts[i]) < Rank(f.conjuncts[j])
  {
    AllOf([TextClause(si)] + AsSeq(CategoryClause(si.category)) + AsSeq(PriceClause(si.priceContext, aggregate)))
  }

  /** What the filter asks of a product, stated without the clause tree. */
  predicate Wanted(si: SearchIntent, aggregate: Option<int>, p: Product, matches: (Option<string>, string) -> bool) {
    var average := EffectiveAverage(aggregate);
    && (Mentions(p, si.intent, matches) || MentionsKeyword(p, si.keywords, matches))
    && (Truthy(si.category) ==> matches(si.category, p.category))
    && (IsLowContext(si.priceContext) ==> 10 * p.price <= 7 * average)
    && (IsHighContext(si.priceContext) ==> 10 * p.price >= 13 * average)
  }

  /** Some keyword of `ks` is mentioned by `p`. */
  predicate MentionsKeyword(p: Product, ks: seq<string>, matches: (Option<string>, string) -> bool) {
    exists i :: 0 <= i < |ks| && Mentions(p, ks[i], matches)
  }

  /** A product satisfies the text conjunct exactly when its title or
      description matches the intent or one of the keywords. */
  lemma TextClauseMeaning(si: SearchIntent, p: Product, matches: (Option<string>, string) -> bool)
    ensures Holds(TextClause(si), p, matches) <==>
      Mentions(p, si.intent, matches) || MentionsKeyword(p, si.keywords, matches)
  {
    var alts := TextClause(si).alternatives;
    if MentionsKeyword(p, si.keywords, matches) {
      var i :| 0 <= i < |si.keywords| && Mentions(p, si.keywords[i], matches);
      assert Holds(alts[2 + i], p, matches);
    }
  }

  /** A product satisfies the built filter exactly when it is wanted: it
      mentions the intent or a keyword, matches a truthy category, and
      respects the price bound of a recognised price context. */
  lemma FilterMeaning(si: SearchIntent, aggregate: Option<int>, p: Product, matches: (Option<string>, string) -> bool)
    ensures Holds(BuildFilter(si, aggregate), p, matches) <==> Wanted(si, aggregate, p, matches)
  {
    var cs := BuildFilter(si, aggregate).conjuncts;
    TextClauseMeaning(si, p, matches);
    var cat := AsSeq(CategoryClause(si.category));
    var price := AsSeq(PriceClause(si.priceContext, aggregate));
    assert cs == [TextClause(si)] + cat + price;
    assert Holds(AllOf(cs), p, matches) <==> forall i :: 0 <= i < |cs| ==> Holds(cs[i], p, matches);
    if |cat| == 1 {
      assert cs[1] == cat[0];
    }
    if |price| == 1 {
      assert cs[|cs| - 1] == price[0];
    }
  }

  /** The handler. `aggregate` is the outcome of the average-price
      aggregation and `found` what `Product.find` returned before
      `.limit(20)`; the reply and parser stand for the intent extraction's
      model call. */
  function HandleSearch(
    query: Option<string>,
    reply: Option<string>, parse: string -> Option<SearchIntent>,
    aggregate: Option<int>,
    found: seq<Product>): (h: Handled<SearchBody>)
    // A missing query, or one that trims to nothing, is rejected before any call.
    ensures query.None? || IsBlank(query.value) ==>
      h.response == ValidationError(QueryRequired) && h.response.Status() == 400 && h.calls == []
    ensures query.Some? && !IsBlank(query.value) ==>
      var si := ExtractSearchIntent(query.value, reply, parse);
      && h.response.Success? && h.response.Status() == 200
      && h.response.body.searchIntent == si
      && h.response.body.products == Limit(found, ResultLimit)
      && h.response.body.count == |h.response.body.products| <= ResultLimit
      && h.calls == [Generate(IntentTask)]
                    + (if Truthy(si.priceContext) then [AverageAllPrices] else [])
                    + [Find(BuildFilter(si, aggregate), Some(ResultLimit))]
  {
    if query.None? || query.value == "" || Trim(query.value) == "" then
      Handled(ValidationError(QueryRequired), [])
    else
      var si := ExtractSearchIntent(query.value, reply, parse);
      var filter := BuildFilter(si, aggregate);
      var products := Limit(found, ResultLimit);
      var aggregation := if Truthy(si.priceContext) then [AverageAllPrices] else [];
      Handled(Success(SearchBody(|products|, si, products)),
              [Generate(IntentTask)] + aggregation + [Find(filter, Some(ResultLimit))])
  }

  /** If the store honours the filter, every product the handler returns is
      one the search intent wants. */
  lemma ReturnedProductsWanted(
    query: Option<string>,
    reply: Option<string>, parse: string -> Option<SearchIntent>,
    aggregate: Option<int>,
    found: seq<Product>,
    matches: (Option<string>, string) -> bool)
    requires query.Some? && !IsBlank(query.value)
    requires forall i :: 0 <= i < |found| ==>
      Holds(BuildFilter(ExtractSearchIntent(query.value, reply, parse), aggregate), found[i], matches)
    ensures var body := HandleSearch(query, reply, parse, aggregate, found).response.body;
      forall i :: 0 <= i < |body.products| ==> Wanted(body.searchIntent, aggregate, body.products[i], matches)
  {
    var si := ExtractSearchIntent(query.value, reply, parse);
    var body := HandleSearch(query, reply, parse, aggregate, found).response.body;
    forall i | 0 <= i < |body.products|
      ensures Wanted(si, aggregate, body.products[i], matches)
    {
      assert body.products[i] == found[i];
      FilterMeaning(si, aggregate, found[i], matches);
    }
  }
}
