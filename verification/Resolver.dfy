/** Product resolution (app/ai/product_resolver.py, app/services/product_service.py): a margin
    check on the first two rows of a thresholded, sorted and limited query. */
module Resolver {
  import opened Text

  type Uuid = nat

  const NIL: Uuid := 0

  datatype Product = Product(shopId: Uuid, name: string, price: int)

  datatype ScoredProductMatch =
    ScoredProductMatch(id: Uuid, shopId: Uuid, name: string, price: int, score: real)

  datatype ProductResolution =
    | NotFound
    | ExactMatch(product: ScoredProductMatch)
    | Ambiguous(candidates: seq<ScoredProductMatch>)

  /** `similarity(name_lower, term)` for the term being searched. */
  type Similarity = string -> real

  /** What pg_trgm guarantees: a score in [0, 1], and 0 for an empty name. */
  ghost predicate IsSimilarity(sim: Similarity) {
    (forall name :: 0.0 <= sim(name) <= 1.0) && sim("") == 0.0
  }

  datatype Thresholds = Thresholds(listed: real, confident: real, margin: real)

  const DEFAULTS := Thresholds(0.55, 0.75, 0.15)

  function Row(id: Uuid, p: Product, sim: Similarity): ScoredProductMatch {
    ScoredProductMatch(id, p.shopId, p.name, p.price, sim(p.name))
  }

  predicate InShop(products: map<Uuid, Product>, shop: Uuid, id: Uuid) {
    id in products && products[id].shopId == shop
  }

  // ---------------------------------------------------------------- the query

  /** WHERE shop_id = :shop_id AND similarity(...) >= :min_threshold */
  function Eligible(products: map<Uuid, Product>, shop: Uuid, sim: Similarity, listed: real)
    : set<ScoredProductMatch>
  {
    set id | id in products && products[id].shopId == shop && sim(products[id].name) >= listed
      :: Row(id, products[id], sim)
  }

  predicate Descending(rows: seq<ScoredProductMatch>) {
    forall i, j :: 0 <= i < j < |rows| ==> rows[i].score >= rows[j].score
  }

  predicate Distinct<T(==)>(rows: seq<T>) {
    forall i, j :: 0 <= i < j < |rows| ==> rows[i] != rows[j]
  }

  /** An order that ORDER BY ... DESC may produce for a set of rows: ties may fall either way. */
  predicate Orders(ordered: seq<ScoredProductMatch>, rows: set<ScoredProductMatch>) {
    Distinct(ordered) && Descending(ordered) && (set r | r in ordered) == rows
  }

  function Limit<T>(rows: seq<T>, limit: nat): seq<T> {
    if |rows| <= limit then rows else rows[..limit]
  }

  /** `rows` is a possible answer of find_products_by_fuzzy_search.sql. */
  ghost predicate FuzzyRows(
    rows: seq<ScoredProductMatch>, products: map<Uuid, Product>, shop: Uuid,
    sim: Similarity, listed: real, limit: nat)
  {
    exists ordered: seq<ScoredProductMatch> ::
      Orders(ordered, Eligible(products, shop, sim, listed)) && rows == Limit(ordered, limit)
  }

  // ------------------------------------------------------------- the resolvers

  /** ProductResolver.resolve_product, on the rows that the query returned. */
  function ResolveProduct(term: string, rows: seq<ScoredProductMatch>, t: Thresholds): ProductResolution {
    if Strip(term) == "" || rows == [] then NotFound
    else if rows[0].score >= t.confident
            && (|rows| == 1 || rows[0].score - rows[1].score >= t.margin) then ExactMatch(rows[0])
    else Ambiguous(rows)
  }

  /** ProductService.find_products_by_fuzzy_name: the chat flows ask for no margin. */
  function FindByFuzzyName(rows: seq<ScoredProductMatch>, t: Thresholds): ProductResolution {
    if rows == [] then NotFound
    else if rows[0].score >= t.confident then ExactMatch(rows[0])
    else Ambiguous(rows)
  }

  // ---------------------------------------------------------------- properties

  /** `id` scores confidently and beats every other product of the shop by the margin. */
  ghost predicate ClearWinner(
    id: Uuid, products: map<Uuid, Product>, shop: Uuid, sim: Similarity, t: Thresholds)
  {
    && InShop(products, shop, id)
    && sim(products[id].name) >= t.confident
    && forall other :: InShop(products, shop, other) && other != id ==>
         sim(products[id].name) - sim(products[other].name) >= t.margin
  }

  lemma FirstRowIsBest(
    rows: seq<ScoredProductMatch>, products: map<Uuid, Product>, shop: Uuid,
    sim: Similarity, listed: real, limit: nat)
    requires limit >= 1 && FuzzyRows(rows, products, shop, sim, listed, limit)
    ensures rows == [] ==> forall id :: InShop(products, shop, id) ==> sim(products[id].name) < listed
    ensures forall i :: 0 <= i < |rows| ==>
      InShop(products, shop, rows[i].id) && rows[i] == Row(rows[i].id, products[rows[i].id], sim)
    ensures rows != [] ==> forall id :: InShop(products, shop, id) ==>
      sim(products[id].name) <= rows[0].score || sim(products[id].name) < listed
    ensures limit >= 2 && rows != [] ==>
      forall id :: InShop(products, shop, id) && id != rows[0].id ==>
        || sim(products[id].name) < listed
        || (|rows| >= 2 && sim(products[id].name) <= rows[1].score)
    ensures |rows| >= 2 ==> rows[1].id != rows[0].id
  {
    var eligible := Eligible(products, shop, sim, listed);
    var ordered: seq<ScoredProductMatch> :| Orders(ordered, eligible) && rows == Limit(ordered, limit);
    forall i | 0 <= i < |rows|
      ensures InShop(products, shop, rows[i].id) && rows[i] == Row(rows[i].id, products[rows[i].id], sim)
    {
      assert rows[i] == ordered[i] && rows[i] in eligible;
    }
    forall id | InShop(products, shop, id) && sim(products[id].name) >= listed
      ensures ordered != [] && sim(products[id].name) <= ordered[0].score
      ensures id != ordered[0].id ==> |ordered| >= 2 && sim(products[id].name) <= ordered[1].score
    {
      assert Row(id, products[id], sim) in eligible;
      var k :| 0 <= k < |ordered| && ordered[k] == Row(id, products[id], sim);
      assert id != ordered[0].id ==> k >= 1;
    }
  }

  /** The answer is EXACT_MATCH(p) exactly when p wins clearly over every other product of the
      shop, whether or not the threshold or the limit kept that product out of the rows. The
      right-hand side does not mention the rows, so no ordering of ties can change the verdict. */
  lemma ExactMatchIffClearWinner(
    term: string, rows: seq<ScoredProductMatch>, products: map<Uuid, Product>, shop: Uuid,
    sim: Similarity, t: Thresholds, limit: nat, id: Uuid)
    requires Strip(term) != "" && limit >= 2 && 0.0 < t.margin <= t.confident - t.listed
    requires FuzzyRows(rows, products, shop, sim, t.listed, limit)
    ensures var answer := ResolveProduct(term, rows, t);
            (answer.ExactMatch? && answer.product.id == id) <==> ClearWinner(id, products, shop, sim, t)
  {
    FirstRowIsBest(rows, products, shop, sim, t.listed, limit);
    if ClearWinner(id, products, shop, sim, t) {
      assert rows != [] && rows[0].id == id;
    }
  }

  /** Under any other setting the answer can be wrong: with one row fetched, or with a margin wider
      than the gap between the two thresholds, there is a shop in which the resolver accepts a
      product that has no clear lead (a tie, or a runner-up just below the listing threshold). */
  lemma OtherSettingsMislead(term: string, t: Thresholds, limit: nat)
    returns (sim: Similarity, products: map<Uuid, Product>, rows: seq<ScoredProductMatch>)
    requires Strip(term) != "" && limit >= 1
    requires 0.0 < t.listed <= t.confident <= 1.0 && 0.0 < t.margin
    requires limit < 2 || t.margin > t.confident - t.listed
    ensures IsSimilarity(sim) && FuzzyRows(rows, products, 1, sim, t.listed, limit)
    ensures ResolveProduct(term, rows, t).ExactMatch?
    ensures !ClearWinner(rows[0].id, products, 1, sim, t)
  {
    var floor := if t.confident > t.margin then t.confident - t.margin else 0.0;
    var runnerUp := if limit < 2 then t.confident else (floor + t.listed) / 2.0;
    sim := name => if name == "soap" then t.confident else if name == "soup" then runnerUp else 0.0;
    var soap, soup := Product(1, "soap", 100), Product(1, "soup", 100);
    products := map[7 := soap, 8 := soup];
    rows := [Row(7, soap, sim)];
    var ordered := if limit < 2 then [Row(7, soap, sim), Row(8, soup, sim)] else rows;
    var eligible := Eligible(products, 1, sim, t.listed);
    assert eligible == (set r | r in ordered) by {
      assert limit < 2 ==> ordered[1] == Row(8, soup, sim);
      assert forall r :: r in eligible ==> r == Row(7, soap, sim) || r == Row(8, soup, sim);
      assert ordered[0] == Row(7, soap, sim);
      assert Row(7, products[7], sim) in eligible;
      assert limit < 2 ==> Row(8, products[8], sim) in eligible;
    }
    assert Orders(ordered, eligible) && rows == Limit(ordered, limit);
    assert InShop(products, 1, 8);
  }

  /** The two resolvers read the same shop: whenever the analytics resolver is sure, the chat
      resolver, with its own limit and its own order of ties, is sure of the same product. */
  lemma ResolversAgreeWhenSure(
    term: string, rows: seq<ScoredProductMatch>, chatRows: seq<ScoredProductMatch>,
    products: map<Uuid, Product>, shop: Uuid, sim: Similarity, t: Thresholds, limit: nat, chatLimit: nat)
    requires limit >= 2 && chatLimit >= 1 && 0.0 < t.margin <= t.confident - t.listed
    requires FuzzyRows(rows, products, shop, sim, t.listed, limit)
    requires FuzzyRows(chatRows, products, shop, sim, t.listed, chatLimit)
    requires ResolveProduct(term, rows, t).ExactMatch?
    ensures FindByFuzzyName(chatRows, t) == ResolveProduct(term, rows, t)
  {
    var id := rows[0].id;
    ExactMatchIffClearWinner(term, rows, products, shop, sim, t, limit, id);
    FirstRowIsBest(rows, products, shop, sim, t.listed, limit);
    FirstRowIsBest(chatRows, products, shop, sim, t.listed, chatLimit);
    assert chatRows != [] && chatRows[0].id == id;
  }

  /** The chat resolver asks for no margin. It is sure exactly when some product of the shop is confident,
      and then of one that no other product beats; it offers choices exactly when products are listed and
      none is confident; it finds nothing exactly when none is listed. */
  lemma ChatAnswerIsTopScorer(
    rows: seq<ScoredProductMatch>, products: map<Uuid, Product>, shop: Uuid,
    sim: Similarity, t: Thresholds, limit: nat)
    requires limit >= 1 && t.listed <= t.confident
    requires FuzzyRows(rows, products, shop, sim, t.listed, limit)
    ensures var answer := FindByFuzzyName(rows, t);
            && (answer.ExactMatch? <==>
                  exists id :: InShop(products, shop, id) && sim(products[id].name) >= t.confident)
            && (answer.ExactMatch? ==>
                  var id := answer.product.id;
                  && InShop(products, shop, id) && answer.product == Row(id, products[id], sim)
                  && sim(products[id].name) >= t.confident
                  && forall other :: InShop(products, shop, other) ==>
                       sim(products[other].name) <= sim(products[id].name))
            && (answer.NotFound? <==>
                  forall id :: InShop(products, shop, id) ==> sim(products[id].name) < t.listed)
            && (answer.Ambiguous? ==> answer.candidates == rows)
  {
    FirstRowIsBest(rows, products, shop, sim, t.listed, limit);
    if rows != [] {
      FirstRowIsListed(rows, products, shop, sim, t.listed, limit);
    }
  }

  lemma FirstRowIsListed(
    rows: seq<ScoredProductMatch>, products: map<Uuid, Product>, shop: Uuid,
    sim: Similarity, listed: real, limit: nat)
    requires rows != [] && FuzzyRows(rows, products, shop, sim, listed, limit)
    ensures InShop(products, shop, rows[0].id) && sim(products[rows[0].id].name) >= listed
  {
    var eligible := Eligible(products, shop, sim, listed);
    var ordered: seq<ScoredProductMatch> :| Orders(ordered, eligible) && rows == Limit(ordered, limit);
    assert rows[0] == ordered[0] && rows[0] in eligible;
  }

  /** What the flows may rely on: candidates of the shop, at most `limit`, and none without a name. */
  predicate CandidateOf(m: ScoredProductMatch, shop: Uuid) {
    m.shopId == shop && m.name != ""
  }

  lemma RowsAreNamedCandidates(
    rows: seq<ScoredProductMatch>, products: map<Uuid, Product>, shop: Uuid,
    sim: Similarity, listed: real, limit: nat)
    requires IsSimilarity(sim) && listed > 0.0
    requires FuzzyRows(rows, products, shop, sim, listed, limit)
    ensures |rows| <= limit
    ensures forall i :: 0 <= i < |rows| ==> CandidateOf(rows[i], shop) && rows[i].id in products
  {
    var eligible := Eligible(products, shop, sim, listed);
    var ordered: seq<ScoredProductMatch> :| Orders(ordered, eligible) && rows == Limit(ordered, limit);
    forall i | 0 <= i < |rows| ensures CandidateOf(rows[i], shop) && rows[i].id in products {
      assert rows[i] == ordered[i] && rows[i] in eligible;
    }
  }
}
