/** Stock rows, sales and the services that change them (app/services/inventory_service.py,
    app/services/sales_service.py, app/sql/inventory/add_stock.sql, app/core/database.py). */
module Ledger {
  import opened Text
  import opened Resolver

  datatype Inventory = Inventory(quantity: int, threshold: int)

  datatype Sale = Sale(shopId: Uuid, productId: Uuid, quantity: int, unitPrice: int, createdAt: int) {
    function Total(): int { quantity * unitPrice }
  }

  datatype DbState = DbState(
    shops: map<string, Uuid>,
    products: map<Uuid, Product>,
    inventory: map<Uuid, Inventory>,
    sales: seq<Sale>)

  /** The exceptions of the services; `StorageError` is any refusal by the database itself. */
  datatype DbError = ProductMissing | ShopConflict | InventoryMissing | NotEnoughStock | StorageError

  datatype Outcome<+T> = Ok(value: T) | Failed(error: DbError)

  const INTEGER_MAX := 0x7FFF_FFFF
  const NUMERIC_MAX := 99_9999_9999 // NUMERIC(10, 2), in cents
  const DEFAULT_THRESHOLD := 5
  const MAX_THRESHOLD := 1000

  // ----------------------------------------------------------- one stock row

  datatype StockOp = Restock(quantity: int) | Deduct(quantity: int) | SetThreshold(threshold: int)

  datatype RowResult = Applied(row: Inventory, alert: bool) | Rejected(error: DbError)

  predicate IsLow(row: Inventory) {
    row.quantity <= row.threshold
  }

  predicate ShouldSendLowStockAlert(oldIsLow: bool, newIsLow: bool) {
    (oldIsLow, newIsLow) == (false, true)
  }

  /** The effect of one service call on the row that its row lock protects. The upsert checks the
      proposed quantity before it looks for a conflict. */
  function ApplyToRow(row: Option<Inventory>, op: StockOp): RowResult {
    match op
    case Restock(q) =>
      var total := if row.Some? then row.value.quantity + q else q;
      if q < 0 || q > INTEGER_MAX || total > INTEGER_MAX then Rejected(StorageError)
      else Applied(Inventory(total, if row.Some? then row.value.threshold else DEFAULT_THRESHOLD), false)
    case Deduct(q) =>
      if row.None? then Rejected(InventoryMissing)
      else if q > row.value.quantity then Rejected(NotEnoughStock)
      else
        var next := row.value.(quantity := row.value.quantity - q);
        if next.quantity > INTEGER_MAX then Rejected(StorageError)
        else Applied(next, ShouldSendLowStockAlert(IsLow(row.value), IsLow(next)))
    case SetThreshold(t) =>
      if row.None? then Rejected(InventoryMissing)
      else if t < 0 || t > MAX_THRESHOLD then Rejected(StorageError)
      else Applied(row.value.(threshold := t), false)
  }

  /** `entered_low_stock`, from the row that the call locked and the row that it read at the end. */
  function Answer(before: Option<Inventory>, op: StockOp, seen: Inventory): bool {
    op.Deduct? && before.Some? && ShouldSendLowStockAlert(IsLow(before.value), IsLow(seen))
  }

  function Stocked(inventory: map<Uuid, Inventory>, p: Uuid): Option<Inventory> {
    if p in inventory then Some(inventory[p]) else None
  }

  /** What an accepted call makes of the row, field by field: a restock and a deduction move the quantity
      and keep the threshold, a threshold change keeps the quantity. A first restock creates the row with
      the default threshold. */
  predicate RowChanges(before: Option<Inventory>, op: StockOp, after: Inventory) {
    match op
    case Restock(q) =>
      if before.Some? then after.quantity - before.value.quantity == q && after.threshold == before.value.threshold
      else after.quantity == q && after.threshold == 5
    case Deduct(q) =>
      && before.Some?
      && before.value.quantity - after.quantity == q && after.threshold == before.value.threshold
    case SetThreshold(t) =>
      before.Some? && after.quantity == before.value.quantity && after.threshold == t
  }

  /** When a call is accepted: the constraints of the table and the integer range of its columns. */
  predicate RowAccepts(before: Option<Inventory>, op: StockOp) {
    match op
    case Restock(q) =>
      && 0 <= q < 0x8000_0000
      && (before.Some? ==> before.value.quantity + q < 0x8000_0000)
    case Deduct(q) => before.Some? && q <= before.value.quantity && before.value.quantity - q < 0x8000_0000
    case SetThreshold(t) => before.Some? && 0 <= t <= 1000
  }

  lemma StockCallLaw(before: Option<Inventory>, op: StockOp)
    ensures ApplyToRow(before, op).Applied? <==> RowAccepts(before, op)
    ensures ApplyToRow(before, op).Applied? ==> RowChanges(before, op, ApplyToRow(before, op).row)
    ensures ApplyToRow(before, op).Rejected? ==>
      ApplyToRow(before, op).error ==
        if before.None? && !op.Restock? then InventoryMissing
        else if op.Deduct? && op.quantity > before.value.quantity then NotEnoughStock
        else StorageError
  {
  }

  // ---------------------------------------------------- whole service calls

  datatype StockDeduction = StockDeduction(remaining: int, enteredLowStock: bool)

  function UpdatedStock(db: DbState, p: Uuid, op: StockOp): (r: Outcome<(DbState, StockDeduction)>)
    ensures r.Ok? ==>
      var after := r.value.0;
      && after.shops == db.shops && after.products == db.products && after.sales == db.sales
      && after.inventory - {p} == db.inventory - {p}
      && p in after.inventory && RowChanges(Stocked(db.inventory, p), op, after.inventory[p])
      && r.value.1.remaining == after.inventory[p].quantity
    ensures r.Ok? <==> RowAccepts(Stocked(db.inventory, p), op) && (op.Restock? ==> p in db.products)
  {
    if op.Restock? && p !in db.products then Failed(StorageError) // foreign key
    else
      match ApplyToRow(Stocked(db.inventory, p), op)
      case Rejected(error) => Failed(error)
      case Applied(row, alert) =>
        Ok((db.(inventory := db.inventory[p := row]), StockDeduction(row.quantity, alert)))
  }

  /** The whole of SalesService.record_sale: deduction and sale row, or nothing. */
  function RecordedSale(db: DbState, shop: Uuid, p: Uuid, q: int, now: int)
    : (r: Outcome<(DbState, StockDeduction)>)
    ensures r.Ok? ==>
      var after := r.value.0;
      && p in db.products && db.products[p].shopId == shop && q > 0
      && p in db.inventory && p in after.inventory
      && after.inventory[p].quantity == db.inventory[p].quantity - q >= 0
      && after.inventory[p].threshold == db.inventory[p].threshold
      && after.sales == db.sales + [Sale(shop, p, q, db.products[p].price, now)]
      && after.shops == db.shops && after.products == db.products
      && after.inventory - {p} == db.inventory - {p}
  {
    if p !in db.products then Failed(ProductMissing)
    else if db.products[p].shopId != shop then Failed(ShopConflict)
    else
      match UpdatedStock(db, p, Deduct(q))
      case Failed(error) => Failed(error)
      case Ok((deducted, result)) =>
        var sale := Sale(shop, p, q, db.products[p].price, now);
        if q <= 0 || q > INTEGER_MAX || sale.Total() > NUMERIC_MAX then Failed(StorageError)
        else Ok((deducted.(sales := deducted.sales + [sale]), result))
  }

  /** How a call ends: with what other sessions have made of the database between its commit and its last
      reading, or with a failure of either. */
  datatype Finish = CommitFails | RefreshFails | Finishes(others: DbState -> DbState)

  /** What the tables take: a positive quantity that the row covers, within the range of its column, and an
      amount within that of its own. */
  predicate Sellable(db: DbState, shop: Uuid, p: Uuid, q: int) {
    && p in db.products && db.products[p].shopId == shop && p in db.inventory
    && 0 < q < 0x8000_0000 && q <= db.inventory[p].quantity && db.inventory[p].quantity - q < 0x8000_0000
    && q * db.products[p].price < 10_000_000_000
  }

  /** When a sale goes through, and why it is refused. */
  lemma SaleRefusals(db: DbState, shop: Uuid, p: Uuid, q: int, now: int)
    ensures var r := RecordedSale(db, shop, p, q, now);
            && (r.Ok? <==> Sellable(db, shop, p, q))
            && (r.Failed? && r.error == StorageError <==>
                  && InShop(db.products, shop, p) && p in db.inventory && q <= db.inventory[p].quantity
                  && !Sellable(db, shop, p, q))
            && (r == Failed(ProductMissing) <==> p !in db.products)
            && (r == Failed(ShopConflict) <==> p in db.products && db.products[p].shopId != shop)
            && (r == Failed(InventoryMissing) <==> InShop(db.products, shop, p) && p !in db.inventory)
            && (r == Failed(NotEnoughStock) <==>
                  InShop(db.products, shop, p) && p in db.inventory && q > db.inventory[p].quantity)
  {
  }

  /** One database session: what the transaction sees, and what the last commit left. */
  class Database {
    var committed: DbState
    var working: DbState

    constructor (state: DbState)
      ensures committed == working == state
    {
      committed, working := state, state;
    }

    method Commit()
      modifies this
      ensures committed == working == old(working)
    {
      committed := working;
    }

    method Rollback()
      modifies this
      ensures working == committed == old(committed)
    {
      working := committed;
    }

    /** InventoryService._finalize_inventory: commit or flush, then read the row again. After a commit the
        row lock is gone, so the second reading sees what `others` have committed by then. */
    method FinalizeInventory(p: Uuid, commit: bool, finish: Finish) returns (row: Option<Inventory>)
      modifies this
      ensures if !commit then
                && committed == old(committed) && working == old(working)
                && row == if finish.Finishes? then Stocked(old(working).inventory, p) else None
              else if finish.CommitFails? then
                row == None && working == committed == old(committed)
              else if finish.RefreshFails? then
                row == None && committed == working == old(working)
              else
                committed == working == finish.others(old(working)) && row == Stocked(committed.inventory, p)
    {
      if commit {
        if finish.CommitFails? {
          Rollback();
          return None;
        }
        Commit();
        if finish.Finishes? {
          committed := finish.others(committed);
          working := committed;
        }
      }
      if !finish.Finishes? {
        return None;
      }
      row := if p in working.inventory then Some(working.inventory[p]) else None;
    }

    /** InventoryService.add_stock, deduct_stock and update_threshold share this shape. What a deduction
        answers compares the row it locked with the row it reads at the end. */
    method UpdateStock(p: Uuid, op: StockOp, commit: bool, finish: Finish)
      returns (r: Outcome<StockDeduction>)
      modifies this
      ensures match UpdatedStock(old(working), p, op)
              case Failed(error) =>
                r == Failed(error) && committed == old(committed) && working == old(working)
              case Ok((next, result)) =>
                if !commit then
                  && working == next && committed == old(committed)
                  && r == if finish.Finishes? then Ok(result) else Failed(StorageError)
                else if finish.CommitFails? then
                  r == Failed(StorageError) && working == committed == old(committed)
                else if finish.RefreshFails? then
                  r == Failed(StorageError) && committed == working == next
                else
                  && committed == working == finish.others(next)
                  && r == match Stocked(committed.inventory, p)
                          case None => Failed(StorageError)
                          case Some(seen) =>
                            Ok(StockDeduction(seen.quantity, Answer(Stocked(old(working).inventory, p), op, seen)))
    {
      if op.Restock? && p !in working.products {
        return Failed(StorageError);
      }
      var row := if p in working.inventory then Some(working.inventory[p]) else None;
      match ApplyToRow(row, op)
      case Rejected(error) =>
        return Failed(error);
      case Applied(next, _) =>
        working := working.(inventory := working.inventory[p := next]);
        var seen := FinalizeInventory(p, commit, finish);
        r := if seen.Some? then Ok(StockDeduction(seen.value.quantity, Answer(row, op, seen.value)))
             else Failed(StorageError);
    }

    /** SalesService.record_sale: the savepoint takes the deduction back when the sale row fails. */
    method RecordSale(shop: Uuid, p: Uuid, q: int, now: int) returns (r: Outcome<StockDeduction>)
      modifies this
      ensures committed == old(committed)
      ensures match RecordedSale(old(working), shop, p, q, now)
              case Failed(error) => r == Failed(error) && working == old(working)
              case Ok((next, result)) => r == Ok(result) && working == next
    {
      var savepoint := working;
      if p !in working.products {
        return Failed(ProductMissing);
      }
      var product := working.products[p];
      if product.shopId != shop {
        return Failed(ShopConflict);
      }
      r := UpdateStock(p, Deduct(q), false, Finishes(db => db));
      if r.Failed? {
        return;
      }
      var sale := Sale(shop, p, q, product.price, now);
      if q <= 0 || q > INTEGER_MAX || sale.Total() > NUMERIC_MAX {
        working := savepoint;
        return Failed(StorageError);
      }
      working := working.(sales := working.sales + [sale]);
    }
  }

  // ---------------------------------------------- low-stock alerts of one row

  function Bit(b: bool): int {
    if b then 1 else 0
  }

  function LowBit(row: Option<Inventory>): int {
    Bit(row.Some? && IsLow(row.value))
  }

  /** Every call of the sequence succeeds. */
  predicate Accepts(row: Option<Inventory>, ops: seq<StockOp>)
    decreases ops
  {
    ops == [] ||
    var first := ApplyToRow(row, ops[0]);
    first.Applied? && Accepts(Some(first.row), ops[1..])
  }

  function AfterOps(row: Option<Inventory>, ops: seq<StockOp>): Option<Inventory>
    requires Accepts(row, ops)
    decreases ops
  {
    if ops == [] then row else AfterOps(Some(ApplyToRow(row, ops[0]).row), ops[1..])
  }

  /** Which calls answered `entered_low_stock`. */
  function AlertFlags(row: Option<Inventory>, ops: seq<StockOp>): (flags: seq<bool>)
    requires Accepts(row, ops)
    ensures |flags| == |ops|
    decreases ops
  {
    if ops == [] then []
    else
      var first := ApplyToRow(row, ops[0]);
      [first.alert] + AlertFlags(Some(first.row), ops[1..])
  }

  /** The number of deductions that answered `entered_low_stock`. */
  function Alerts(row: Option<Inventory>, ops: seq<StockOp>): nat
    requires Accepts(row, ops)
    decreases ops
  {
    if ops == [] then 0
    else
      var first := ApplyToRow(row, ops[0]);
      (if first.alert then 1 else 0) + Alerts(Some(first.row), ops[1..])
  }

  /** The number of calls that took the row from low to not low. */
  function Lifts(row: Option<Inventory>, ops: seq<StockOp>): nat
    requires Accepts(row, ops)
    decreases ops
  {
    if ops == [] then 0
    else
      var next := Some(ApplyToRow(row, ops[0]).row);
      (if LowBit(row) == 1 && LowBit(next) == 0 then 1 else 0) + Lifts(next, ops[1..])
  }

  /** The number of calls other than deductions that made the row low: a creation at or below the default
      threshold, or a threshold raised to the quantity or above. */
  function Drops(row: Option<Inventory>, ops: seq<StockOp>): nat
    requires Accepts(row, ops)
    decreases ops
  {
    if ops == [] then 0
    else
      var next := Some(ApplyToRow(row, ops[0]).row);
      (if !ops[0].Deduct? && LowBit(row) == 0 && LowBit(next) == 1 then 1 else 0) + Drops(next, ops[1..])
  }

  predicate Positive(ops: seq<StockOp>) {
    forall i :: 0 <= i < |ops| && !ops[i].SetThreshold? ==> ops[i].quantity > 0
  }

  predicate FixedThreshold(ops: seq<StockOp>) {
    forall i :: 0 <= i < |ops| ==> !ops[i].SetThreshold?
  }

  /** Alerts, and the other ways into low stock, less the ways out of it are the change of lowness: no
      deduction enters low stock without its alert, and no alert comes without an entry. */
  lemma {:induction false} AlertBalance(row: Option<Inventory>, ops: seq<StockOp>)
    requires Accepts(row, ops)
    ensures Alerts(row, ops) + Drops(row, ops) - Lifts(row, ops) == LowBit(AfterOps(row, ops)) - LowBit(row)
    decreases ops
  {
    if ops != [] {
      AlertBalance(Some(ApplyToRow(row, ops[0]).row), ops[1..]);
    }
  }

  /** While the threshold of a stored row is left alone, alerts are the only way in. */
  lemma {:induction false} FixedThresholdNeverDrops(row: Inventory, ops: seq<StockOp>)
    requires Accepts(Some(row), ops) && FixedThreshold(ops)
    ensures Drops(Some(row), ops) == 0
    decreases ops
  {
    if ops != [] {
      FixedThresholdNeverDrops(ApplyToRow(Some(row), ops[0]).row, ops[1..]);
    }
  }

  lemma OneStep(row: Option<Inventory>, op: StockOp)
    ensures Accepts(row, [op]) <==> ApplyToRow(row, op).Applied?
    ensures Accepts(row, [op]) ==> AfterOps(row, [op]) == Some(ApplyToRow(row, op).row)
  {
    assert [op][1..] == [];
  }

  lemma {:induction false} AcceptsSplit(row: Option<Inventory>, ops: seq<StockOp>, more: seq<StockOp>)
    ensures Accepts(row, ops + more) <==> Accepts(row, ops) && Accepts(AfterOps(row, ops), more)
    ensures Accepts(row, ops + more) ==> AfterOps(row, ops + more) == AfterOps(AfterOps(row, ops), more)
    decreases ops
  {
    if ops == [] {
      assert ops + more == more;
    } else {
      assert (ops + more)[1..] == ops[1..] + more;
      if ApplyToRow(row, ops[0]).Applied? {
        AcceptsSplit(Some(ApplyToRow(row, ops[0]).row), ops[1..], more);
      }
    }
  }

  lemma AcceptsPrefix(row: Option<Inventory>, ops: seq<StockOp>, k: nat)
    requires Accepts(row, ops) && k <= |ops|
    ensures Accepts(row, ops[..k])
  {
    assert ops == ops[..k] + ops[k..];
    AcceptsSplit(row, ops[..k], ops[k..]);
  }

  function RowBefore(row: Option<Inventory>, ops: seq<StockOp>, k: nat): Option<Inventory>
    requires Accepts(row, ops) && k <= |ops|
  {
    AcceptsPrefix(row, ops, k);
    AfterOps(row, ops[..k])
  }

  lemma RowSteps(row: Option<Inventory>, ops: seq<StockOp>, k: nat)
    requires Accepts(row, ops) && k < |ops|
    ensures var step := ApplyToRow(RowBefore(row, ops, k), ops[k]);
            step.Applied? && RowBefore(row, ops, k + 1) == Some(step.row)
  {
    AcceptsPrefix(row, ops, k + 1);
    assert ops[..k + 1] == ops[..k] + [ops[k]];
    AcceptsSplit(row, ops[..k], [ops[k]]);
  }

  lemma {:induction false} FlagsSplit(row: Option<Inventory>, ops: seq<StockOp>, more: seq<StockOp>)
    requires Accepts(row, ops + more)
    ensures Accepts(row, ops) && Accepts(AfterOps(row, ops), more)
    ensures AlertFlags(row, ops + more) == AlertFlags(row, ops) + AlertFlags(AfterOps(row, ops), more)
    decreases ops
  {
    AcceptsSplit(row, ops, more);
    if ops == [] {
      assert ops + more == more;
    } else {
      assert (ops + more)[1..] == ops[1..] + more;
      FlagsSplit(Some(ApplyToRow(row, ops[0]).row), ops[1..], more);
    }
  }

  predicate AlertAt(row: Option<Inventory>, ops: seq<StockOp>, k: nat)
    requires Accepts(row, ops) && k < |ops|
  {
    var step := ApplyToRow(RowBefore(row, ops, k), ops[k]);
    step.Applied? && step.alert
  }

  /** A flag of a sequence of calls is the answer of its call. */
  lemma FlagsAreAlerts(row: Option<Inventory>, ops: seq<StockOp>, k: nat)
    requires Accepts(row, ops) && k < |ops|
    ensures AlertFlags(row, ops)[k] == AlertAt(row, ops, k)
  {
    AcceptsPrefix(row, ops, k);
    assert ops == ops[..k] + ops[k..];
    FlagsSplit(row, ops[..k], ops[k..]);
    assert ops[k..][0] == ops[k];
  }

  /** Call `k` takes the row from low to not low. */
  predicate LiftAt(row: Option<Inventory>, ops: seq<StockOp>, k: nat)
    requires Accepts(row, ops) && k < |ops|
  {
    LowBit(RowBefore(row, ops, k)) == 1 && LowBit(RowBefore(row, ops, k + 1)) == 0
  }

  lemma {:induction false} LeavingLow(row: Option<Inventory>, ops: seq<StockOp>, i: nat, j: nat) returns (k: nat)
    requires Accepts(row, ops) && i < j < |ops|
    requires LowBit(RowBefore(row, ops, i)) == 1 && LowBit(RowBefore(row, ops, j)) == 0
    ensures i <= k < j && LiftAt(row, ops, k)
    decreases j - i
  {
    if LowBit(RowBefore(row, ops, i + 1)) == 0 {
      k := i;
    } else {
      k := LeavingLow(row, ops, i + 1, j);
    }
  }

  /** Between two alerts for a product, some call lifted it above its threshold: with positive quantities,
      a restock or a threshold change. */
  lemma LiftBetweenAlerts(row: Option<Inventory>, ops: seq<StockOp>, i: nat, j: nat) returns (k: nat)
    requires Accepts(row, ops) && i < j < |ops|
    requires AlertAt(row, ops, i) && AlertAt(row, ops, j)
    ensures i < k < j && LiftAt(row, ops, k) && (Positive(ops) ==> !ops[k].Deduct?)
  {
    RowSteps(row, ops, i);
    assert LowBit(RowBefore(row, ops, j)) == 0;
    assert LowBit(RowBefore(row, ops, i + 1)) == 1;
    k := LeavingLow(row, ops, i + 1, j);
    RowSteps(row, ops, k);
  }
}
