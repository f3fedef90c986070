/** The document-store side of the handlers: the filter documents they
    build, the product records they read back, and `.limit(n)`. Query
    execution is not modelled; `Holds` gives the filter's meaning with
    regular-expression matching supplied by the caller. */
module Store {
  import opened Wrappers

  type Pos = n: int | n > 0 witness 1

  /** The exact rational `num / den`, standing for a double such as
      `average * 0.7`. */
  datatype Ratio = Ratio(num: int, den: Pos)

  datatype Field = Title | Description | Category

  /** A filter document. Every regular expression the handlers build uses
      the case-insensitive option `'i'`, so the option is left implicit. */
  datatype Clause =
    | Matches(field: Field, pattern: Option<string>)  // { field: { $regex: pattern, $options: 'i' } }
    | Equals(field: Field, value: Option<string>)     // { field: value }
    | SoldIs(sold: bool)                              // { sold: b }
    | PriceAtMost(bound: Ratio)                       // { price: { $lte: bound } }
    | PriceAtLeast(bound: Ratio)                      // { price: { $gte: bound } }
    | AnyOf(alternatives: seq<Clause>)                // { $or: [...] }
    | AllOf(conjuncts: seq<Clause>)                   // { $and: [...] }, or several top-level keys

  /** A catalog product as the filters see it. */
  datatype Product = Product(title: string, description: string, category: string, price: int, sold: bool)

  function FieldText(p: Product, f: Field): string {
    match f
    case Title => p.title
    case Description => p.description
    case Category => p.category
  }

  /** Whether product `p` satisfies filter `c`. `matches(pattern, text)`
      stands for the store's case-insensitive regular-expression test,
      including whatever it does with an absent pattern; an `Equals` with an
      absent value is taken to match nothing. */
  predicate Holds(c: Clause, p: Product, matches: (Option<string>, string) -> bool)
    // An empty `$and` accepts every product and an empty `$or` none; a
    // one-element `$and` or `$or` means its element.
    ensures c == AllOf([]) ==> Holds(c, p, matches)
    ensures c == AnyOf([]) ==> !Holds(c, p, matches)
    ensures c.AllOf? && |c.conjuncts| == 1 ==> (Holds(c, p, matches) <==> Holds(c.conjuncts[0], p, matches))
    ensures c.AnyOf? && |c.alternatives| == 1 ==> (Holds(c, p, matches) <==> Holds(c.alternatives[0], p, matches))
    decreases c
  {
    match c
    case Matches(f, pattern) => matches(pattern, FieldText(p, f))
    case Equals(f, v) => v == Some(FieldText(p, f))
    case SoldIs(b) => p.sold == b
    case PriceAtMost(r) => p.price * r.den <= r.num
    case PriceAtLeast(r) => p.price * r.den >= r.num
    case AnyOf(cs) => exists i :: 0 <= i < |cs| && Holds(cs[i], p, matches)
    case AllOf(cs) => forall i :: 0 <= i < |cs| ==> Holds(cs[i], p, matches)
  }

  /** `.limit(n)` on a result list: its first `n` entries. */
  function Limit<T>(xs: seq<T>, n: nat): (r: seq<T>)
    ensures |r| <= n && |r| <= |xs|
    ensures |r| == n || |r| == |xs|
    ensures r == xs[..|r|]
  {
    if |xs| <= n then xs else xs[..n]
  }
}
