/**
 * The product catalog as the page script sees it: the product record, the
 * projection a product card hands to the cart, and the live search filter.
 */
module Catalog {
  import opened Wrappers
  import opened Seqs
  import opened JsString
  import opened Cart

  /**
   * A catalog product. `dbId` is the optional `_id` field of the record;
   * `price` is the current (discounted) price, `regularPrice` the struck-out one.
   */
  datatype Product = Product(
    dbId: Option<string>, id: string,
    name: string, description: string, category: string, image: string,
    price: int, regularPrice: int, sales: int)

  /** JavaScript truthiness of the optional `_id`: present and not the empty string. */
  predicate IsTruthy(v: Option<string>) {
    v.Some? && v.value != ""
  }

  /**
   * The projection built by the card's add-to-cart action: `_id || id` as the
   * cart key, the current price, and the name, image and description.
   */
  function ToCartProduct(p: Product): (r: CartProduct)
  {
    CartProduct(if IsTruthy(p.dbId) then p.dbId.value else p.id, p.name, p.price, p.image, p.description)
  }

  /**
   * Adding a product from its card to a cart without its key appends one line
   * with the product's name, description, image and current price and a
   * quantity of one.
   */
  lemma CardAddsLine(cart: seq<CartLine>, p: Product)
    requires !HasId(cart, ToCartProduct(p).id)
    ensures WithProductAdded(cart, ToCartProduct(p))
      == cart + [CartLine(ToCartProduct(p).id, p.name, p.description, p.image, p.price, 1)]
  {
  }

  /**
   * Two products with the same truthy `_id` land on one cart line, whatever
   * their `id` fields say: the line keeps the first product's fields and holds
   * two units.
   */
  lemma SameDbIdSharesLine(cart: seq<CartLine>, p1: Product, p2: Product)
    requires IsTruthy(p1.dbId) && p2.dbId == p1.dbId
    requires !HasId(cart, p1.dbId.value)
    ensures WithProductAdded(WithProductAdded(cart, ToCartProduct(p1)), ToCartProduct(p2))
      == cart + [NewLine(ToCartProduct(p1)).(quantity := 2)]
  {
    var once := WithProductAdded(cart, ToCartProduct(p1));
    AddNew(cart, ToCartProduct(p1));
    AddExisting(once, ToCartProduct(p2), |cart|);
  }

  /**
   * A product without a truthy `_id` is keyed in the cart by its `id`: a line
   * with that id gains one unit, otherwise a line with that id is appended.
   */
  lemma FallbackIdKeysLine(cart: seq<CartLine>, p: Product)
    requires !IsTruthy(p.dbId)
    ensures HasId(cart, p.id) ==>
      var i := FindLine(cart, p.id).value;
      WithProductAdded(cart, ToCartProduct(p))[i].quantity == cart[i].quantity + 1
    ensures !HasId(cart, p.id) ==>
      WithProductAdded(cart, ToCartProduct(p))[|cart|].id == p.id
  {
    var added := WithProductAdded(cart, ToCartProduct(p));
    match FindLine(cart, p.id)
    case Some(i) =>
      assert added[i].quantity == cart[i].quantity + 1;
    case None =>
      assert added[|cart|].id == p.id;
  }

  // ---------------------------------------------------------------------------
  // Live search

  /** The search input as the filter uses it: trimmed, then lower-cased. */
  function NormalizeQuery(input: string): string {
    ToLower(Trim(input))
  }

  /** A product matches when its lower-cased name, description or category includes the query. */
  predicate Matches(p: Product, q: string) {
    Includes(ToLower(p.name), q) || Includes(ToLower(p.description), q) || Includes(ToLower(p.category), q)
  }

  function MatchesQuery(q: string): Product -> bool {
    (p: Product) => Matches(p, q)
  }

  /**
   * handleLiveSearch: an empty or all-whitespace input shows the whole
   * catalog; any other input yields the order-preserving subsequence of the
   * catalog made of the matching products, every copy of each and nothing else.
   */
  function LiveSearch(catalog: seq<Product>, input: string): (r: seq<Product>)
    ensures AllWhitespace(input) ==> r == catalog
    ensures !AllWhitespace(input) ==>
      && IsSubsequence(r, catalog)
      && (forall i :: 0 <= i < |r| ==> Matches(r[i], NormalizeQuery(input)))
      && (forall p :: multiset(r)[p] == if Matches(p, NormalizeQuery(input)) then multiset(catalog)[p] else 0)
  {
    NormalizeQueryEmptyIff(input);
    var q := NormalizeQuery(input);
    if q == "" then catalog
    else
      FilterIsSubsequence(catalog, MatchesQuery(q));
      FilterMultiset(catalog, MatchesQuery(q));
      Filter(catalog, MatchesQuery(q))
  }

  /** The normalised query is empty exactly when the input is all whitespace. */
  lemma NormalizeQueryEmptyIff(input: string)
    ensures NormalizeQuery(input) == "" <==> AllWhitespace(input)
  {
    TrimEmptyIff(input);
  }

  /** Matching is substring occurrence of the query in one of the three lower-cased fields. */
  lemma MatchesIffOccurs(p: Product, q: string)
    ensures Matches(p, q) <==> exists k :: OccursIn(p, q, k)
  {
    var name, description, category := ToLower(p.name), ToLower(p.description), ToLower(p.category);
    IncludesIffOccurs(name, q);
    IncludesIffOccurs(description, q);
    IncludesIffOccurs(category, q);
    if Includes(name, q) {
      var k :| OccursAt(name, q, k);
      assert OccursIn(p, q, k);
    } else if Includes(description, q) {
      var k :| OccursAt(description, q, k);
      assert OccursIn(p, q, k);
    } else if Includes(category, q) {
      var k :| OccursAt(category, q, k);
      assert OccursIn(p, q, k);
    }
  }

  /** The query occurs at index `k` of the lower-cased name, description or category. */
  predicate OccursIn(p: Product, q: string, k: int) {
    OccursAt(ToLower(p.name), q, k) || OccursAt(ToLower(p.description), q, k) || OccursAt(ToLower(p.category), q, k)
  }

  /** A query that no product matches yields an empty result. */
  lemma SearchNoMatch(catalog: seq<Product>, input: string)
    requires !AllWhitespace(input)
    requires forall i :: 0 <= i < |catalog| ==> !Matches(catalog[i], NormalizeQuery(input))
    ensures LiveSearch(catalog, input) == []
  {
    NormalizeQueryEmptyIff(input);
    FilterKeepsNone(catalog, MatchesQuery(NormalizeQuery(input)));
  }

  /** The case of the letters typed does not change the result. */
  lemma SearchIgnoresQueryCase(catalog: seq<Product>, input: string)
    ensures LiveSearch(catalog, ToLower(input)) == LiveSearch(catalog, input)
  {
    TrimLowerCommute(input);
    ToLowerIdempotent(Trim(input));
  }

  /** Whitespace typed around the query does not change the result. */
  lemma SearchIgnoresPadding(catalog: seq<Product>, pre: string, input: string, post: string)
    requires AllWhitespace(pre) && AllWhitespace(post)
    ensures LiveSearch(catalog, pre + input + post) == LiveSearch(catalog, input)
  {
    TrimIgnoresPadding(pre, input, post);
  }
}
