/** Whole conversations: what several messages together leave in the database, in terms of what the
    merchant typed (app/fsm/flows/add_product.py, app/fsm/flows/record_sale.py). */
module Journeys {
  import opened Text
  import opened Inputs
  import opened Resolver
  import opened Ledger
  import opened Analytics
  import opened Conversation
  import opened SessionInvariant
  import opened Worker
  import opened Disambiguation
  import opened SaleAlerts

  /** One message as the worker serves it: its text, and the database and environment it meets. */
  datatype Visit = Visit(text: string, db: DbState, env: Env)

  function Visited(s: Session, v: Visit): Service {
    Serve(s, v.db, v.text, v.env)
  }

  /** A message that is no command, served without failures. */
  predicate Plain(v: Visit) {
    !IsOverride(v.text) && v.env.faults == {}
  }

  // --------------------------------------------------------- adding a product

  lemma NameStep(s: Session, v: Visit, name: string)
    requires Plain(v) && s.state == ADD_PRODUCT_NAME && ParseProductName(v.text) == Good(name)
    ensures var r := Visited(s, v);
            && r.db == v.db && r.session.Some? && r.reply == Done(AskPrice)
            && r.session.value.phone == s.phone && r.session.value.state == ADD_PRODUCT_PRICE
            && r.session.value.context.productName == Some(name)
            && r.session.value.context.shopId == s.context.shopId
  {
    hide ParseProductName, IsOverride;
  }

  lemma PriceStep(s: Session, v: Visit, price: int)
    requires Plain(v) && s.state == ADD_PRODUCT_PRICE && ParsePrice(v.text) == Good(price)
    ensures var r := Visited(s, v);
            && r.db == v.db && r.session.Some? && r.reply == Done(AskStockQuantity)
            && r.session.value.phone == s.phone && r.session.value.state == ADD_PRODUCT_QTY
            && r.session.value.context.productName == s.context.productName
            && r.session.value.context.productPrice == Some(price)
            && r.session.value.context.shopId == s.context.shopId
  {
    hide ParsePrice, IsOverride;
  }

  lemma QuantityStep(s: Session, v: Visit, quantity: int)
    requires Plain(v) && s.state == ADD_PRODUCT_QTY && ParseQuantity(v.text) == Good(quantity)
    requires s.context.productName.Some? && s.context.productPrice.Some?
    ensures var r := Visited(s, v);
            && r.db == v.db && r.session.Some? && r.reply == Done(ConfirmProduct)
            && r.session.value.phone == s.phone && r.session.value.state == CONFIRM_ADD_PRODUCT
            && r.session.value.context == s.context.(
                 productQty := Some(quantity), errorCount := 0,
                 history := r.session.value.context.history, lastActivity := Some(v.env.now))
  {
    hide ParseQuantity, IsOverride;
  }

  /** The database once a product has been added with its opening stock. */
  function WithProductAdded(
    db: DbState, shops: map<string, Uuid>, shop: Uuid, id: Uuid, name: string, price: int, quantity: int): DbState
  {
    DbState(
      shops, db.products[id := Product(shop, name, price)],
      if quantity > 0 then db.inventory[id := Inventory(quantity, DEFAULT_THRESHOLD)] else db.inventory,
      db.sales)
  }

  /** The shops once the session knows its shop: a shop is created only for an unknown phone. */
  function WithShop(db: DbState, s: Session, shop: Uuid): map<string, Uuid> {
    if s.context.shopId.Some? then db.shops else db.shops[s.phone := shop]
  }

  /** The shop of the session, as it is known, stored, or about to be created. */
  predicate ShopIs(s: Session, v: Visit, shop: Uuid) {
    if s.context.shopId.Some? then s.context.shopId.value == shop
    else if s.phone in v.db.shops then v.db.shops[s.phone] == shop
    else v.env.newShopId == shop
  }

  lemma PersistStep(s: Session, v: Visit, shop: Uuid)
    requires v.env.faults == {} && ShopIs(s, v, shop)
    requires s.context.productName.Some? && s.context.productPrice.Some? && s.context.productQty.Some?
    requires 0 < s.context.productPrice.value <= NUMERIC_MAX && 0 <= s.context.productQty.value <= INTEGER_MAX
    requires v.env.newProductId !in v.db.inventory
    ensures var c, id := s.context, v.env.newProductId;
            var after := WithProductAdded(v.db, WithShop(v.db, s, shop), shop, id,
                                          c.productName.value, c.productPrice.value, c.productQty.value);
            PersistProduct(c, World(v.db, v.db, []), s.phone, v.env) == (World(after, after, []), None, shop)
  {
    assert s.phone in v.db.shops ==> v.db.shops == v.db.shops[s.phone := v.db.shops[s.phone]];
  }

  lemma ConfirmAddStep(s: Session, v: Visit, shop: Uuid, name: string, price: int, quantity: int)
    requires Plain(v) && s.state == CONFIRM_ADD_PRODUCT && ParseConfirmation(v.text) == Parsed.Good(true)
    requires s.context.productName == Some(name) && s.context.productPrice == Some(price)
    requires s.context.productQty == Some(quantity) && ShopIs(s, v, shop)
    requires 0 < price <= NUMERIC_MAX && 0 <= quantity <= INTEGER_MAX
    requires v.env.newProductId !in v.db.inventory
    ensures var r := Visited(s, v);
            && r.reply == Done(ProductAdded)
            && r.db == WithProductAdded(v.db, WithShop(v.db, s, shop), shop, v.env.newProductId, name, price, quantity)
            && r.session.Some? && r.session.value.state == IDLE && EmptyDraft(r.session.value.context)
  {
    hide ParseConfirmation, IsOverride, PersistProduct, WithProductAdded, WithShop, ShopIs;
    PersistStep(s, v, shop);
    var w := World(v.db, v.db, []);
    assert Handle(s, w, v.text, v.env) == AddConfirmed(s, w, Parsed.Good(true), v.env);
  }

  /** The product goes into its table: its price fits the column and nothing fails. */
  predicate Inserts(price: int, env: Env) {
    price <= NUMERIC_MAX && ProductInsert !in env.faults
  }

  /** There is opening stock, it fits its column, and its own commit does not fail. */
  predicate Stocks(price: int, quantity: int, env: Env) {
    Inserts(price, env) && 0 < quantity <= INTEGER_MAX && StockCommit !in env.faults
  }

  predicate AddsAll(price: int, quantity: int, env: Env) {
    Inserts(price, env) && (quantity > 0 ==> Stocks(price, quantity, env) && StockRefresh !in env.faults)
  }

  /** Adding a product is not one transaction. From a complete draft and a yes, the product is stored exactly
      when its own insert goes through, and its opening stock exactly when that is committed as well; the
      merchant hears of success exactly when nothing at all fails, so that a failed task may leave a product
      without its stock, or with it. Whatever fails, no other row changes. */
  lemma AddingIsNotAtomic(s: Session, v: Visit, shop: Uuid, name: string, price: int, quantity: int)
    requires s.state == CONFIRM_ADD_PRODUCT && ParseConfirmation(v.text) == Parsed.Good(true)
    requires s.context.productName == Some(name) && s.context.productPrice == Some(price)
    requires s.context.productQty == Some(quantity) && ShopIs(s, v, shop) && price > 0 && quantity >= 0
    requires v.env.newProductId !in v.db.products && v.env.newProductId !in v.db.inventory
    requires s.context.shopId.Some? || ShopLookup !in v.env.faults
    ensures var r, id := Visited(s, v), v.env.newProductId;
            && r.db == v.db.(
                 shops := WithShop(v.db, s, shop),
                 products := if Inserts(price, v.env) then v.db.products[id := Product(shop, name, price)]
                             else v.db.products,
                 inventory := if Stocks(price, quantity, v.env)
                              then v.db.inventory[id := Inventory(quantity, DEFAULT_THRESHOLD)] else v.db.inventory)
            && (id in r.db.products <==> Inserts(price, v.env))
            && (id in r.db.inventory <==> Stocks(price, quantity, v.env))
            && r.tasks == [] && (r.reply == Done(ProductAdded) <==> AddsAll(price, quantity, v.env))
            && (r.session.Some? <==>
                  AddsAll(price, quantity, v.env) && LocaleRead !in v.env.faults && FinalCommit !in v.env.faults)
  {
    hide ParseConfirmation, IsOverride, PersistProduct, WithShop, ShopIs, NoSale, Inserts, Stocks, AddsAll;
    AnswerIsNoOverride(v.text);
    PersistingStops(s, v, shop, name, price, quantity);
    var w := World(v.db, v.db, []);
    assert Handle(s, w, v.text, v.env) == AddConfirmed(s, w, Parsed.Good(true), v.env);
  }

  lemma PersistingStops(s: Session, v: Visit, shop: Uuid, name: string, price: int, quantity: int)
    requires s.context.productName == Some(name) && s.context.productPrice == Some(price)
    requires s.context.productQty == Some(quantity) && ShopIs(s, v, shop) && price > 0 && quantity >= 0
    requires v.env.newProductId !in v.db.products && v.env.newProductId !in v.db.inventory
    requires s.context.shopId.Some? || ShopLookup !in v.env.faults
    ensures var id := v.env.newProductId;
            var (after, problem, _) := PersistProduct(s.context, World(v.db, v.db, []), s.phone, v.env);
            && after.committed == after.working && after.tasks == []
            && after.committed.shops == WithShop(v.db, s, shop) && after.committed.sales == v.db.sales
            && after.committed.products
               == (if Inserts(price, v.env) then v.db.products[id := Product(shop, name, price)] else v.db.products)
            && after.committed.inventory
               == (if Stocks(price, quantity, v.env) then v.db.inventory[id := Inventory(quantity, DEFAULT_THRESHOLD)]
                   else v.db.inventory)
            && (problem.None? <==> AddsAll(price, quantity, v.env))
  {
    assert s.phone in v.db.shops ==> v.db.shops == v.db.shops[s.phone := v.db.shops[s.phone]];
  }

  /** A no adds nothing: not even the shop of an unknown phone is created. */
  lemma NoCancelsProduct(s: Session, v: Visit)
    requires s.state == CONFIRM_ADD_PRODUCT && ParseConfirmation(v.text) == Parsed.Good(false)
    ensures var r := Visited(s, v);
            && r.db == v.db && r.tasks == [] && r.reply == Done(ProductCancelled)
            && (r.session.Some? <==> LocaleRead !in v.env.faults && FinalCommit !in v.env.faults)
            && (r.session.Some? ==> ResetFrom(s, r.session.value, v.env.now))
  {
    hide ParseConfirmation, IsOverride;
    AnswerIsNoOverride(v.text);
    var w := World(v.db, v.db, []);
    assert Handle(s, w, v.text, v.env) == AddConfirmed(s, w, Parsed.Good(false), v.env);
  }

  /** Four messages that name, price, count and confirm a product leave it in the merchant's own shop
      with just that name, price and opening stock, and change nothing else; the shop itself is
      created on the way if the phone has none. The database may change between the messages. */
  lemma AddingAProduct(
    s: Session, named: Visit, priced: Visit, counted: Visit, confirmed: Visit,
    u: Universe, name: string, price: int, quantity: int)
    requires WellFormed(s, u, named.env.maxErrors) && s.state == ADD_PRODUCT_NAME
    requires Plain(named) && Plain(priced) && Plain(counted) && Plain(confirmed)
    requires ParseProductName(named.text) == Good(name) && ParsePrice(priced.text) == Good(price)
    requires ParseQuantity(counted.text) == Good(quantity) && ParseConfirmation(confirmed.text) == Parsed.Good(true)
    requires price <= NUMERIC_MAX && quantity <= INTEGER_MAX
    requires DbOk(confirmed.db, u) && confirmed.env.newShopId == u.shopOf(s.phone)
    requires confirmed.env.newProductId !in confirmed.db.inventory
    ensures var r1 := Visited(s, named);
            && r1.session.Some? && r1.db == named.db
            && var r2 := Visited(r1.session.value, priced);
            && r2.session.Some? && r2.db == priced.db
            && var r3 := Visited(r2.session.value, counted);
            && r3.session.Some? && r3.db == counted.db
            && var r4 := Visited(r3.session.value, confirmed);
            && r4.reply == Done(ProductAdded) && r4.session.Some?
            && r4.session.value.state == IDLE && EmptyDraft(r4.session.value.context)
            && r4.db == WithProductAdded(
                 confirmed.db, WithShop(confirmed.db, s, u.shopOf(s.phone)), u.shopOf(s.phone),
                 confirmed.env.newProductId, name, price, quantity)
  {
    hide Visited, Plain, ParseProductName, ParsePrice, ParseQuantity, ParseConfirmation, WithProductAdded, Path, Walk;
    assert ParsePrice(priced.text).value > 0 && ParseQuantity(counted.text).value >= 0;
    NameStep(s, named, name);
    var s1 := Visited(s, named).session.value;
    PriceStep(s1, priced, price);
    var s2 := Visited(s1, priced).session.value;
    QuantityStep(s2, counted, quantity);
    var s3 := Visited(s2, counted).session.value;
    ConfirmAddStep(s3, confirmed, u.shopOf(s.phone), name, price, quantity);
  }

  // --------------------------------------------------------- recording a sale

  /** The shop of a phone number: the one that is stored, or else a new one. */
  function ShopOf(phone: string, v: Visit): Uuid {
    if phone in v.db.shops then v.db.shops[phone] else v.env.newShopId
  }

  /** The database once that shop is stored; the shops of other numbers, and all else, stay as they are. */
  function WithShopOf(phone: string, v: Visit): DbState {
    v.db.(shops := v.db.shops[phone := ShopOf(phone, v)])
  }

  /** The draft holds this product, as the query found it. */
  predicate Holds(c: Context, m: ScoredProductMatch) {
    c.productId == Some(m.id) && c.productName == Some(m.name) && c.productPrice == Some(m.price)
  }

  lemma ProductStep(s: Session, v: Visit)
    requires Plain(v) && s.state == RECORD_SALE_PRODUCT
    ensures var r := Visited(s, v);
            && r.session.Some? && r.db == WithShopOf(s.phone, v) && (s.phone in v.db.shops ==> r.db == v.db)
            && r.session.value.phone == s.phone
            && r.session.value.context.shopId == Some(ShopOf(s.phone, v))
            && match FindByFuzzyName(v.env.rows, DEFAULTS)
               case ExactMatch(m) =>
                 r.reply == Done(AskSaleQuantity) && r.session.value.state == RECORD_SALE_QTY
                 && Holds(r.session.value.context, m)
               case Ambiguous(candidates) =>
                 r.reply == Done(ProductChoices) && r.session.value.state == RECORD_SALE_PRODUCT_SELECTION
                 && r.session.value.context.candidates == candidates
               case NotFound => r.reply == Done(ProductNotFound) && r.session.value.state == RECORD_SALE_PRODUCT
  {
    hide IsOverride, FindByFuzzyName;
    if s.phone in v.db.shops {
      KnownShopStays(s.phone, v);
    }
  }

  lemma KnownShopStays(phone: string, v: Visit)
    requires phone in v.db.shops
    ensures WithShopOf(phone, v) == v.db
  {
    assert v.db.shops[phone := v.db.shops[phone]] == v.db.shops;
  }

  lemma SelectionStep(s: Session, v: Visit, k: nat, priceText: PriceText)
    requires v.env.faults == {} && s.state == RECORD_SALE_PRODUCT_SELECTION
    requires k < |s.context.candidates| && Readable(k + 1)
    requires v.text == NumberOf(ChoiceLines(s.context.candidates, priceText)[k])
    ensures var r := Visited(s, v);
            && r.db == v.db && r.session.Some? && r.session.value.state == RECORD_SALE_QTY
            && r.reply == Done(AskQuantity)
            && r.session.value.context.shopId == s.context.shopId
            && Holds(r.session.value.context, s.context.candidates[k])
  {
    hide IsOverride, ResolveChoice;
    TypedNumberSelectsItsLine(s.context, k, priceText);
    TextIsNumber(s, k, priceText);
    NumbersOverrideNothing(k + 1);
    var w := World(v.db, v.db, []);
    assert Handle(s, w, v.text, v.env) == SaleSelected(s, w, Chosen(s.context.candidates[k]), v.env);
  }

  /** A name that fits several products and the number of one of them lead to the quantity question for just
      that product, of the merchant's own shop. */
  lemma ChoosingAProduct(s: Session, asked: Visit, chosen: Visit, u: Universe, k: nat, priceText: PriceText)
    requires WellFormed(s, u, asked.env.maxErrors) && s.state == RECORD_SALE_PRODUCT && Plain(asked)
    requires DbOk(asked.db, u) && EnvOk(s.phone, World(asked.db, asked.db, []), asked.env, u)
    requires FindByFuzzyName(asked.env.rows, DEFAULTS).Ambiguous? && k < |asked.env.rows|
    requires chosen.env.faults == {} && chosen.text == NumberOf(ChoiceLines(asked.env.rows, priceText)[k])
    ensures var r1 := Visited(s, asked);
            && r1.session.Some?
            && var r2 := Visited(r1.session.value, chosen);
            && r2.session.Some? && r2.session.value.state == RECORD_SALE_QTY && r2.db == chosen.db
            && var c := r2.session.value.context;
            && HasProduct(c) && Holds(c, asked.env.rows[k])
            && c.shopId == Some(u.shopOf(s.phone)) && u.home(c.productId.value) == u.shopOf(s.phone)
  {
    hide Visited, Plain, NumberOf, ChoiceLines, PossibleRows, Path, Walk;
    RowsAreChoosable(asked.env.rows, asked.db, u.shopOf(s.phone), CHAT_LIMIT, u);
    ProductStep(s, asked);
    ShortListsAreReadable(k + 1);
    SelectionStep(Visited(s, asked).session.value, chosen, k, priceText);
  }

  lemma SaleQuantityStep(s: Session, v: Visit, quantity: int)
    requires Plain(v) && s.state == RECORD_SALE_QTY && ParseQuantity(v.text) == Good(quantity)
    requires HasProduct(s.context) && s.context.productPrice.Some?
    requires s.context.productId.value in v.db.inventory
    requires 0 < quantity <= v.db.inventory[s.context.productId.value].quantity
    ensures var r := Visited(s, v);
            && r.db == v.db && r.session.Some? && r.session.value.phone == s.phone
            && r.reply == Done(ConfirmSale) && r.session.value.state == SessionState.CONFIRM_SALE
            && HasProduct(r.session.value.context)
            && r.session.value.context.productId == s.context.productId
            && r.session.value.context.shopId == s.context.shopId
            && r.session.value.context.productQty == Some(quantity)
  {
    hide ParseQuantity, IsOverride;
  }

  /** What is wrong with a text that cannot be read as its state wants it. */
  function Complaint(s: Session, text: string): Option<MessageKey> {
    match s.state
    case ADD_PRODUCT_NAME => KeyOf(ParseProductName(text))
    case ADD_PRODUCT_PRICE => KeyOf(ParsePrice(text))
    case ADD_PRODUCT_QTY => if s.context.productName.Some? && s.context.productPrice.Some?
                            then KeyOf(ParseQuantity(text)) else Some(SessionContextLost)
    case CONFIRM_ADD_PRODUCT => KeyOf(ParseConfirmation(text))
    case RECORD_SALE_QTY => KeyOf(ParseQuantity(text))
    case CONFIRM_SALE => KeyOf(ParseConfirmation(text))
    case CHECK_STOCK_PRODUCT => KeyOf(ParseProductName(text))
    case RECORD_SALE_PRODUCT_SELECTION => KeyOfChoice(ResolveChoice(s.context, text))
    case CHECK_STOCK_PRODUCT_SELECTION => KeyOfChoice(ResolveChoice(s.context, text))
    case ANALYTICS_PRODUCT_SELECTION => KeyOfChoice(ResolveChoice(s.context, text))
    case _ => None
  }

  function KeyOf<T>(parsed: Parsed<T>): Option<MessageKey> {
    if parsed.Bad? then Some(parsed.key) else None
  }

  function KeyOfChoice(choice: Choice): Option<MessageKey> {
    if choice.NotChosen? then Some(choice.key) else None
  }

  /** In every state a text that cannot be read is answered with what is wrong with it and changes nothing but
      the error count; the one that reaches the limit ends the conversation instead. */
  lemma UnreadableTextIsRefused(s: Session, v: Visit)
    requires Plain(v) && Complaint(s, v.text).Some?
    ensures var r := Visited(s, v);
            && r.db == v.db && r.tasks == [] && r.session.Some?
            && if s.context.errorCount + 1 < v.env.maxErrors then
                 && r.reply == Invalid(Complaint(s, v.text).value, None)
                 && r.session.value == s.(context := s.context.(errorCount := s.context.errorCount + 1))
               else r.reply == Done(TooManyInvalid) && ResetFrom(s, r.session.value, v.env.now)
  {
    hide ParseProductName, ParsePrice, ParseQuantity, ParseConfirmation, ResolveChoice, IsOverride, NoSale;
    hide HandleSaleName, HandleIdle, PersistProduct, GetShopId, RecordedSale;
  }

  /** A quantity of zero, and one that the stock does not cover, are refused, the latter with the quantity in
      stock; the merchant may try again until the error limit. */
  lemma WrongQuantityIsRefused(s: Session, v: Visit, quantity: int)
    requires Plain(v) && s.state == RECORD_SALE_QTY && ParseQuantity(v.text) == Good(quantity)
    requires HasProduct(s.context) && s.context.productPrice.Some?
    requires s.context.productId.value in v.db.inventory
    requires quantity <= 0 || quantity > v.db.inventory[s.context.productId.value].quantity
    ensures var r := Visited(s, v);
            var available := v.db.inventory[s.context.productId.value].quantity;
            && r.db == v.db && r.tasks == [] && r.session.Some?
            && if s.context.errorCount + 1 < v.env.maxErrors then
                 && r.reply == Invalid(if quantity <= 0 then QuantityTooLow else InsufficientStock(available), None)
                 && r.session.value == s.(context := s.context.(errorCount := s.context.errorCount + 1))
               else r.reply == Done(TooManyInvalid) && ResetFrom(s, r.session.value, v.env.now)
  {
    hide ParseQuantity, IsOverride;
  }

  /** From a chosen product: a quantity that the stock covers and a yes record exactly that sale, at
      the price that the database holds when the merchant confirms, and take exactly that stock. */
  lemma SellingAProduct(s: Session, counted: Visit, confirmed: Visit, quantity: int)
    requires s.state == RECORD_SALE_QTY && HasProduct(s.context) && s.context.productPrice.Some?
    requires s.context.shopId.Some?
    requires Plain(counted) && ParseQuantity(counted.text) == Good(quantity)
    requires ParseConfirmation(confirmed.text) == Parsed.Good(true) && confirmed.env.faults == {}
    requires var id := s.context.productId.value;
             && id in counted.db.inventory && 0 < quantity <= counted.db.inventory[id].quantity
             && InShop(confirmed.db.products, s.context.shopId.value, id)
             && id in confirmed.db.inventory && quantity <= confirmed.db.inventory[id].quantity <= INTEGER_MAX
             && quantity * confirmed.db.products[id].price <= NUMERIC_MAX
    ensures var id, shop := s.context.productId.value, s.context.shopId.value;
            var r1 := Visited(s, counted);
            && r1.session.Some? && r1.db == counted.db
            && var r2 := Visited(r1.session.value, confirmed);
            var stock, price := confirmed.db.inventory[id], confirmed.db.products[id].price;
            && r2.reply == Done(SaleRecorded) && r2.session.Some? && r2.session.value.state == IDLE
            && r2.db == confirmed.db.(
                 inventory := confirmed.db.inventory[id := stock.(quantity := stock.quantity - quantity)],
                 sales := confirmed.db.sales + [Sale(shop, id, quantity, price, confirmed.env.now)])
  {
    hide Visited, Plain, ParseQuantity, ParseConfirmation;
    SaleQuantityStep(s, counted, quantity);
    ConfirmSaleStep(Visited(s, counted).session.value, confirmed);
  }

  lemma ConfirmSaleStep(s: Session, v: Visit)
    requires s.state == SessionState.CONFIRM_SALE && HasProduct(s.context)
    requires s.context.productQty.Some? && s.context.shopId.Some?
    requires ParseConfirmation(v.text) == Parsed.Good(true) && v.env.faults == {}
    requires var id, quantity := s.context.productId.value, s.context.productQty.value;
             && InShop(v.db.products, s.context.shopId.value, id) && id in v.db.inventory
             && 0 < quantity <= v.db.inventory[id].quantity <= INTEGER_MAX
             && quantity * v.db.products[id].price <= NUMERIC_MAX
    ensures var id, quantity := s.context.productId.value, s.context.productQty.value;
            var stock, r := v.db.inventory[id], Visited(s, v);
            && r.reply == Done(SaleRecorded) && r.session.Some? && r.session.value.state == IDLE
            && r.db == v.db.(
                 inventory := v.db.inventory[id := stock.(quantity := stock.quantity - quantity)],
                 sales := v.db.sales + [Sale(s.context.shopId.value, id, quantity, v.db.products[id].price, v.env.now)])
  {
    hide ParseConfirmation, IsOverride;
    AnswerIsNoOverride(v.text);
    var w := World(v.db, v.db, []);
    assert Handle(s, w, v.text, v.env) == SaleConfirmed(s, w, Parsed.Good(true), v.env);
  }

  /** Four messages, the name, the number, the quantity and a yes, sell just the product behind that number:
      as many as were typed, from the merchant's own shop, at the price stored at the end. */
  lemma SellingAChosenProduct(
    s: Session, asked: Visit, chosen: Visit, counted: Visit, confirmed: Visit,
    u: Universe, k: nat, priceText: PriceText, quantity: int)
    requires WellFormed(s, u, asked.env.maxErrors) && s.state == RECORD_SALE_PRODUCT && Plain(asked)
    requires DbOk(asked.db, u) && EnvOk(s.phone, World(asked.db, asked.db, []), asked.env, u)
    requires FindByFuzzyName(asked.env.rows, DEFAULTS).Ambiguous? && k < |asked.env.rows|
    requires chosen.env.faults == {} && chosen.text == NumberOf(ChoiceLines(asked.env.rows, priceText)[k])
    requires Plain(counted) && ParseQuantity(counted.text) == Good(quantity)
    requires ParseConfirmation(confirmed.text) == Parsed.Good(true) && confirmed.env.faults == {}
    requires DbOk(confirmed.db, u)
    requires var id := asked.env.rows[k].id;
             && id in counted.db.inventory && 0 < quantity <= counted.db.inventory[id].quantity
             && id in confirmed.db.products && id in confirmed.db.inventory
             && quantity <= confirmed.db.inventory[id].quantity <= INTEGER_MAX
             && quantity * confirmed.db.products[id].price <= NUMERIC_MAX
    ensures var r1 := Visited(s, asked);
            && r1.session.Some?
            && var r2 := Visited(r1.session.value, chosen);
            && r2.session.Some? && r2.db == chosen.db
            && var r3 := Visited(r2.session.value, counted);
            && r3.session.Some? && r3.db == counted.db
            && var r4 := Visited(r3.session.value, confirmed);
            && var id := asked.env.rows[k].id;
            var stock, price := confirmed.db.inventory[id], confirmed.db.products[id].price;
            && r4.reply == Done(SaleRecorded) && r4.session.Some? && r4.session.value.state == IDLE
            && r4.db == confirmed.db.(
                 inventory := confirmed.db.inventory[id := stock.(quantity := stock.quantity - quantity)],
                 sales := confirmed.db.sales + [Sale(u.shopOf(s.phone), id, quantity, price, confirmed.env.now)])
  {
    hide Visited, Plain, WellFormed, EnvOk, NumberOf, ChoiceLines, ParseQuantity, ParseConfirmation, FindByFuzzyName;
    ChoosingAProduct(s, asked, chosen, u, k, priceText);
    SellingAProduct(Visited(Visited(s, asked).session.value, chosen).session.value, counted, confirmed, quantity);
  }

  /** A message whose state reads the database, and whose reading fails: the shop, the products by name, or the
      stock of the product. */
  predicate ReadingFails(s: Session, v: Visit) {
    match s.state
    case RECORD_SALE_PRODUCT => ShopLookup in v.env.faults || FuzzyQuery in v.env.faults
    case CHECK_STOCK_PRODUCT =>
      ParseProductName(v.text).Good? && (ShopLookup in v.env.faults || FuzzyQuery in v.env.faults)
    case RECORD_SALE_QTY =>
      && ParseQuantity(v.text).Good? && ParseQuantity(v.text).value > 0
      && HasProduct(s.context) && s.context.productPrice.Some? && StockRead in v.env.faults
    case CHECK_STOCK_PRODUCT_SELECTION => ResolveChoice(s.context, v.text).Chosen? && StockRead in v.env.faults
    case _ => false
  }

  /** Such a message fails as a whole and saves nothing; the shop of an unknown number is stored all the same
      once it has been found to be missing. */
  lemma FailedReadingsBreakOff(s: Session, v: Visit)
    requires !IsOverride(v.text) && ReadingFails(s, v)
    ensures var r := Visited(s, v);
            && r.reply == Escaped(Infrastructure) && r.session.None? && r.tasks == []
            && r.db == (if s.state in {RECORD_SALE_PRODUCT, CHECK_STOCK_PRODUCT} && ShopLookup !in v.env.faults
                        then WithShopOf(s.phone, v) else v.db)
  {
    hide ParseProductName, ParseQuantity, ResolveChoice, IsOverride, NoSale, FindByFuzzyName;
    hide HandleIdle, HandleProductSelection, HandleConfirmAdd, HandleConfirmSale, HandleSaleSelection;
    if s.phone in v.db.shops {
      KnownShopStays(s.phone, v);
    }
  }

  predicate LostProduct(s: Session, text: string) {
    var c := s.context;
    match s.state
    case ADD_PRODUCT_QTY => c.productName.None? || c.productPrice.None?
    case CONFIRM_ADD_PRODUCT =>
      && ParseConfirmation(text) == Parsed.Good(true)
      && (c.productName.None? || c.productPrice.None? || c.productQty.None?)
    case RECORD_SALE_PRODUCT_SELECTION => c.candidates == []
    case CHECK_STOCK_PRODUCT_SELECTION => c.candidates == []
    case _ => false
  }

  predicate LostSale(s: Session, text: string) {
    var c := s.context;
    match s.state
    case RECORD_SALE_QTY =>
      && ParseQuantity(text).Good? && ParseQuantity(text).value > 0
      && !(HasProduct(c) && c.productPrice.Some?)
    case CONFIRM_SALE =>
      ParseConfirmation(text) == Parsed.Good(true) && !(HasProduct(c) && c.productQty.Some? && c.shopId.Some?)
    case _ => false
  }

  /** A draft that has lost a field that its state needs, which no run leads to, is refused where the merchant
      can start again, and breaks a sale off; nothing is stored either way. */
  lemma LostDrafts(s: Session, v: Visit)
    requires Plain(v) && s.context.errorCount + 1 < v.env.maxErrors
    ensures var r, c := Visited(s, v), s.context;
            && (LostProduct(s, v.text) ==> r.reply == Invalid(SessionContextLost, None) && r.db == v.db)
            && (LostSale(s, v.text) ==>
                  r.reply == Escaped(CorruptedSession) && r.db == v.db && r.session.None?)
  {
    hide ParseConfirmation, ParseQuantity, IsOverride, ParseInt, NoSale, PersistProduct, RecordedSale;
    hide HandleName, HandlePrice, HandleSaleName, HandleStockName, HandleProductSelection, HandleIdle;
  }

  // ------------------------------------------------------------ stock look-up

  /** The stored quantity of the product is told, and the conversation is over; a product without an
      inventory row fails the task. Nothing but the shop of an unknown number is stored. */
  predicate TellsStock(s: Session, v: Visit, m: ScoredProductMatch, r: Service, db: DbState, shop: Option<Uuid>) {
    && r.db == db && r.tasks == []
    && if m.id in v.db.inventory then
         && r.reply == Done(StockRemaining(m.name, v.db.inventory[m.id].quantity)) && r.session.Some?
         && ResetFrom(s.(context := s.context.(shopId := shop)), r.session.value, v.env.now)
       else r.reply == Escaped(DbEscape(InventoryMissing)) && r.session.None?
  }

  /** A name that is found tells the stock at once; one that fits several products gives the choice, and one
      that fits none may be tried again. */
  lemma StockStep(s: Session, v: Visit, name: string)
    requires Plain(v) && s.state == CHECK_STOCK_PRODUCT && ParseProductName(v.text) == Good(name)
    ensures var r := Visited(s, v);
            match FindByFuzzyName(v.env.rows, DEFAULTS)
            case ExactMatch(m) => TellsStock(s, v, m, r, WithShopOf(s.phone, v), Some(ShopOf(s.phone, v)))
            case Ambiguous(candidates) =>
              && r.reply == Done(ProductChoices) && r.db == WithShopOf(s.phone, v) && r.session.Some?
              && r.session.value.phone == s.phone && r.session.value.state == CHECK_STOCK_PRODUCT_SELECTION
              && r.session.value.context.candidates == candidates
              && r.session.value.context.shopId == Some(ShopOf(s.phone, v))
            case NotFound =>
              && r.reply == Done(StockNotFound) && r.db == WithShopOf(s.phone, v) && r.session.Some?
              && r.session.value.state == CHECK_STOCK_PRODUCT
  {
    hide IsOverride, FindByFuzzyName, ParseProductName, NoSale;
    hide HandleName, HandlePrice, HandleQty, HandleConfirmAdd, HandleSaleName, HandleSaleSelection, HandleSaleQty;
    hide HandleConfirmSale, HandleStockSelection, HandleProductSelection, HandleIdle;
    if s.phone in v.db.shops {
      KnownShopStays(s.phone, v);
    }
  }

  lemma StockChoiceStep(s: Session, v: Visit, k: nat, priceText: PriceText)
    requires v.env.faults == {} && s.state == CHECK_STOCK_PRODUCT_SELECTION
    requires k < |s.context.candidates| && Readable(k + 1)
    requires v.text == NumberOf(ChoiceLines(s.context.candidates, priceText)[k])
    ensures TellsStock(s, v, s.context.candidates[k], Visited(s, v), v.db, s.context.shopId)
  {
    hide IsOverride, ResolveChoice;
    TypedNumberSelectsItsLine(s.context, k, priceText);
    TextIsNumber(s, k, priceText);
    NumbersOverrideNothing(k + 1);
    var w := World(v.db, v.db, []);
    assert Handle(s, w, v.text, v.env) == StockSelected(s, w, Chosen(s.context.candidates[k]), v.env);
  }

  /** A name that fits several products and the number of one of them tell the stock of just that product, as
      stored when the number comes in. */
  lemma CheckingStock(s: Session, asked: Visit, chosen: Visit, u: Universe, name: string, k: nat, priceText: PriceText)
    requires WellFormed(s, u, asked.env.maxErrors) && s.state == CHECK_STOCK_PRODUCT && Plain(asked)
    requires DbOk(asked.db, u) && EnvOk(s.phone, World(asked.db, asked.db, []), asked.env, u)
    requires ParseProductName(asked.text) == Good(name)
    requires FindByFuzzyName(asked.env.rows, DEFAULTS).Ambiguous? && k < |asked.env.rows|
    requires chosen.env.faults == {} && chosen.text == NumberOf(ChoiceLines(asked.env.rows, priceText)[k])
    ensures var r1 := Visited(s, asked);
            && r1.session.Some? && r1.reply == Done(ProductChoices)
            && var m := asked.env.rows[k];
            && u.home(m.id) == u.shopOf(s.phone)
            && TellsStock(r1.session.value, chosen, m, Visited(r1.session.value, chosen), chosen.db,
                          Some(u.shopOf(s.phone)))
  {
    hide Visited, Plain, NumberOf, ChoiceLines, PossibleRows, Path, Walk, ParseProductName, TellsStock;
    RowsAreChoosable(asked.env.rows, asked.db, u.shopOf(s.phone), CHAT_LIMIT, u);
    StockStep(s, asked, name);
    ShortListsAreReadable(k + 1);
    StockChoiceStep(Visited(s, asked).session.value, chosen, k, priceText);
  }
}
