/** The stock views (app/dashboard/estoque/estoque-client.tsx and
    components/InventoryTable.tsx, which classify alike): a product with its
    batches, the three-way stock label, the two expiry tests with their
    precedence, the lot label, and the set of expanded rows. Timestamps are
    milliseconds and `now` is a parameter. */
module Inventory {
  import opened Base
  import opened Db
  import Clock

  /** A batch as the views see it: `lotCode` is absent in the mock types. */
  datatype Lot = Lot(id: string, lotCode: Option<string>, quantity: int, expiry: int)

  /** A product with its batches; prices are integer cents. */
  datatype Item = Item(id: string, category: string, price: int, minStockLevel: int, lots: seq<Lot>)

  function LotOf(b: BatchRow): (r: Lot) {
    Lot(b.id, b.lotCode, b.quantity, b.expirationDate)
  }

  function BatchQuantity(b: BatchRow): (r: int) {
    b.quantity
  }

  /** A product row with `include: { batches: true }`: its lots are exactly
      its own batches, in table order, and their quantities add up to the
      quantities of those batches. */
  function ItemOf(p: ProductRow, batches: seq<BatchRow>): (r: Item)
    ensures r.id == p.id && r.category == p.category && r.price == p.price && r.minStockLevel == p.minStockLevel
    ensures |r.lots| == |Filter(batches, (b: BatchRow) => b.productId == p.id)|
    ensures forall i :: 0 <= i < |batches| && batches[i].productId == p.id ==> LotOf(batches[i]) in r.lots
    ensures forall l :: l in r.lots ==> exists b :: b in batches && b.productId == p.id && l == LotOf(b)
    ensures TotalQuantity(r.lots) == SumOf(Filter(batches, (b: BatchRow) => b.productId == p.id), BatchQuantity)
  {
    var own := Filter(batches, (b: BatchRow) => b.productId == p.id);
    FilterMembers(batches, (b: BatchRow) => b.productId == p.id);
    var lots := seq(|own|, i requires 0 <= i < |own| => LotOf(own[i]));
    assert forall i :: 0 <= i < |batches| && batches[i].productId == p.id ==> LotOf(batches[i]) in lots by {
      forall i | 0 <= i < |batches| && batches[i].productId == p.id ensures LotOf(batches[i]) in lots {
        var k :| 0 <= k < |own| && own[k] == batches[i];
        assert lots[k] == LotOf(batches[i]);
      }
    }
    LotsQuantity(own);
    Item(p.id, p.category, p.price, p.minStockLevel, lots)
  }

  lemma {:induction false} LotsQuantity(own: seq<BatchRow>)
    ensures TotalQuantity(seq(|own|, i requires 0 <= i < |own| => LotOf(own[i]))) == SumOf(own, BatchQuantity)
  {
    if own != [] {
      var lots := seq(|own|, i requires 0 <= i < |own| => LotOf(own[i]));
      assert lots[1..] == seq(|own[1..]|, i requires 0 <= i < |own[1..]| => LotOf(own[1..][i]));
      LotsQuantity(own[1..]);
    }
  }

  /** `batches.reduce((acc, b) => acc + b.quantity, 0)`. */
  function TotalQuantity(lots: seq<Lot>): (r: int) {
    SumOf(lots, (l: Lot) => l.quantity)
  }

  /** A further batch adds its quantity to the total. */
  lemma TotalQuantityAppend(lots: seq<Lot>, l: Lot)
    ensures TotalQuantity(lots + [l]) == TotalQuantity(lots) + l.quantity
  {
    SumOfConcat(lots, [l], (x: Lot) => x.quantity);
  }

  datatype StockStatus = OutOfStock | LowStock | InStock

  function StockLabel(s: StockStatus): (r: string) {
    match s
    case OutOfStock => "Sem Estoque"
    case LowStock => "Baixo Estoque"
    case InStock => "Normal"
  }

  /** `getStockStatus`: a total of 0 is out of stock whatever the minimum; a
      non-zero total at or below the minimum is low; anything else is normal. */
  function GetStockStatus(item: Item): (s: StockStatus)
    ensures s == OutOfStock <==> TotalQuantity(item.lots) == 0
    ensures s == LowStock <==> TotalQuantity(item.lots) != 0 && TotalQuantity(item.lots) <= item.minStockLevel
    ensures s == InStock <==> TotalQuantity(item.lots) != 0 && TotalQuantity(item.lots) > item.minStockLevel
  {
    var total := TotalQuantity(item.lots);
    if total == 0 then OutOfStock
    else if total <= item.minStockLevel then LowStock
    else InStock
  }

  /** The three labels are distinct, so the label tells the status. */
  lemma StockLabelInjective(a: StockStatus, b: StockStatus)
    requires StockLabel(a) == StockLabel(b)
    ensures a == b
  {
    assert StockLabel(OutOfStock)[0] == 'S' && StockLabel(LowStock)[0] == 'B' && StockLabel(InStock)[0] == 'N';
  }

  /** A product whose batches all hold zero units is out of stock, whatever
      its minimum. */
  lemma EmptyBatchesOutOfStock(item: Item)
    requires forall i :: 0 <= i < |item.lots| ==> item.lots[i].quantity == 0
    ensures GetStockStatus(item) == OutOfStock
  {
    ZeroQuantities(item.lots);
  }

  lemma {:induction false} ZeroQuantities(lots: seq<Lot>)
    requires forall i :: 0 <= i < |lots| ==> lots[i].quantity == 0
    ensures TotalQuantity(lots) == 0
  {
    if lots != [] {
      assert forall i :: 0 <= i < |lots[1..]| ==> lots[1..][i] == lots[i + 1];
      ZeroQuantities(lots[1..]);
    }
  }

  /** `new Date(date) < new Date()`. */
  predicate IsExpired(expiry: int, now: int) {
    expiry < now
  }

  /** `diffDays > 0 && diffDays <= 60` with the day count rounded up: the
      expiry lies after now and at most 60 whole days ahead. */
  function IsExpiringSoon(expiry: int, now: int): (r: bool)
    ensures r <==> now < expiry <= now + 60 * Clock.DayMs
  {
    var days := Clock.DaysUntil(expiry, now);
    days > 0 && days <= 60
  }

  datatype LotStatus = Expired | ExpiringSoon | Valid

  function LotStatusLabel(s: LotStatus): (r: string) {
    match s
    case Expired => "VENCIDO"
    case ExpiringSoon => "VENCE EM BREVE"
    case Valid => "VIGENTE"
  }

  /** `expired ? VENCIDO : soon ? VENCE EM BREVE : VIGENTE`. */
  function GetLotStatus(expiry: int, now: int): (s: LotStatus)
    ensures s == Expired <==> expiry < now
    ensures s == ExpiringSoon <==> now < expiry <= now + 60 * Clock.DayMs
    ensures s == Valid <==> expiry == now || expiry > now + 60 * Clock.DayMs
  {
    if IsExpired(expiry, now) then Expired
    else if IsExpiringSoon(expiry, now) then ExpiringSoon
    else Valid
  }

  /** The two tests never hold together, so the precedence never hides a
      warning; a batch expiring at this very moment counts as valid. */
  lemma ExpiryTestsExclusive(expiry: int, now: int)
    ensures !(IsExpired(expiry, now) && IsExpiringSoon(expiry, now))
    ensures GetLotStatus(now, now) == Valid
  {
  }

  /** `batch.lotCode || batch.id.slice(0, 8)`. */
  function LotLabel(l: Lot): (r: string)
    ensures Truthy(l.lotCode) ==> r == l.lotCode.value
    ensures !Truthy(l.lotCode) ==> |r| <= 8 && r <= l.id && (|l.id| >= 8 ==> |r| == 8) && (|l.id| < 8 ==> r == l.id)
  {
    if Truthy(l.lotCode) then l.lotCode.value
    else if |l.id| <= 8 then l.id
    else l.id[..8]
  }

  /** Flipping one id in a set: the partner of `toggleRow`. */
  function Toggled(rows: set<string>, id: string): (r: set<string>) {
    if id in rows then rows - {id} else rows + {id}
  }

  /** Toggling changes the given id's membership and no other, and toggling
      twice restores the set. */
  lemma ToggleProperties(rows: set<string>, id: string)
    ensures id in Toggled(rows, id) <==> id !in rows
    ensures forall other :: other != id ==> (other in Toggled(rows, id) <==> other in rows)
    ensures Toggled(Toggled(rows, id), id) == rows
  {
  }

  /** The `expandedRows` state of either table. */
  class ExpandedRows {
    var rows: set<string>

    constructor ()
      ensures rows == {}
    {
      rows := {};
    }

    predicate IsExpanded(id: string)
      reads this
    {
      id in rows
    }

    /** `toggleRow`: copies the set, adds or deletes the id in the copy, and
        installs the copy. */
    method ToggleRow(id: string)
      modifies this
      ensures rows == Toggled(old(rows), id)
      ensures IsExpanded(id) <==> !old(IsExpanded(id))
    {
      var newSet := rows;
      if id in newSet {
        newSet := newSet - {id};
      } else {
        newSet := newSet + {id};
      }
      rows := newSet;
    }
  }
}
