/** The dashboard figures, in the two versions the repository holds: the
    server page (app/dashboard/page.tsx) over the session tenant's products,
    and the client component (components/Dashboard.tsx) of the mock app.
    Both add up stock value, count low-stock products and expiring and
    expired batches, and group stock value by category with an accumulator
    that is updated in place. They differ at the boundaries: the page counts a
    batch as expiring from `now` on, the component from the day count 0 on,
    which takes in batches that expired less than a day ago; and only the
    component keeps categories whose value is 0. Money is integer cents. */
module Dashboard {
  import opened Base
  import opened Db
  import opened Inventory
  import Clock

  /** `price * totalQty`. */
  function ItemValue(p: Item): (r: int) {
    p.price * TotalQuantity(p.lots)
  }

  /** `totalValue`. */
  function TotalValue(items: seq<Item>): (r: int) {
    SumOf(items, ItemValue)
  }

  predicate IsLowStock(p: Item) {
    TotalQuantity(p.lots) <= p.minStockLevel
  }

  /** `lowStockCount`. */
  function LowStockCount(items: seq<Item>): (r: nat) {
    |Filter(items, IsLowStock)|
  }

  /** Products without stock count as low whenever their minimum is not
      negative, and the count never exceeds the number of products. */
  lemma ZeroStockCountsAsLow(items: seq<Item>, i: nat)
    requires i < |items| && TotalQuantity(items[i].lots) == 0 && items[i].minStockLevel >= 0
    ensures items[i] in Filter(items, IsLowStock)
    ensures LowStockCount(items) <= |items|
  {
    FilterMembers(items, IsLowStock);
  }

  function LotsOf(p: Item): (r: seq<Lot>) {
    p.lots
  }

  /** `products.flatMap((p) => p.batches)`. */
  function AllLots(items: seq<Item>): (r: seq<Lot>) {
    FlatMap(items, LotsOf)
  }

  /** `products.reduce((acc, p) => acc + p.batches.length, 0)`, the batch
      total both versions display. */
  function TotalBatches(items: seq<Item>): (n: int)
    ensures n == |AllLots(items)|
  {
    FlatMapLength(items, LotsOf, LotCount);
    SumOf(items, LotCount)
  }

  function LotCount(p: Item): (r: int) {
    |p.lots|
  }

  /** The page's window: `expDate >= now && expDate <= sixtyDays`. */
  predicate ExpiringOnPage(now: int, l: Lot) {
    now <= l.expiry <= now + 60 * Clock.DayMs
  }

  /** The component's window: `days <= 60 && days >= 0` on the rounded-up
      day count. */
  predicate ExpiringInComponent(now: int, l: Lot) {
    0 <= Clock.DaysUntil(l.expiry, now) <= 60
  }

  /** Both versions: `expiry < now`. */
  predicate ExpiredLot(now: int, l: Lot) {
    l.expiry < now
  }

  /** Expired less than a day ago. */
  predicate JustExpired(now: int, l: Lot) {
    now - Clock.DayMs < l.expiry < now
  }

  function PageExpiringCount(items: seq<Item>, now: int): (r: nat) {
    |Filter(AllLots(items), (l: Lot) => ExpiringOnPage(now, l))|
  }

  function ComponentExpiringCount(items: seq<Item>, now: int): (r: nat) {
    |Filter(AllLots(items), (l: Lot) => ExpiringInComponent(now, l))|
  }

  function ExpiredCount(items: seq<Item>, now: int): (r: nat) {
    |Filter(AllLots(items), (l: Lot) => ExpiredLot(now, l))|
  }

  /** On the page a batch is never both expiring and expired, so the two
      counts together do not exceed the number of batches. */
  lemma PageCountsDisjoint(items: seq<Item>, now: int)
    ensures PageExpiringCount(items, now) + ExpiredCount(items, now) <= TotalBatches(items)
  {
    FilterDisjointLengths(AllLots(items), (l: Lot) => ExpiringOnPage(now, l), (l: Lot) => ExpiredLot(now, l));
  }

  /** The component's window is the page's window widened by the batches
      that expired less than a day ago, and those are also counted as
      expired. */
  lemma ComponentWindow(now: int, l: Lot)
    ensures ExpiringInComponent(now, l) <==> ExpiringOnPage(now, l) || JustExpired(now, l)
    ensures JustExpired(now, l) ==> ExpiringInComponent(now, l) && ExpiredLot(now, l) && !ExpiringOnPage(now, l)
  {
  }

  /** Hence the component reports exactly the just-expired batches more. */
  lemma ComponentCountsJustExpiredTwice(items: seq<Item>, now: int)
    ensures ComponentExpiringCount(items, now)
         == PageExpiringCount(items, now) + |Filter(AllLots(items), (l: Lot) => JustExpired(now, l))|
  {
    forall l: Lot
      ensures ExpiringInComponent(now, l) <==> ExpiringOnPage(now, l) || JustExpired(now, l)
    {
      ComponentWindow(now, l);
    }
    FilterSplitLength(AllLots(items), (l: Lot) => ExpiringInComponent(now, l),
                      (l: Lot) => ExpiringOnPage(now, l), (l: Lot) => JustExpired(now, l));
  }

  // ---------------------------------------------------------------------
  // categoryData

  datatype Category = Category(name: string, value: int)

  /** `acc.find((i) => i.name === name)`: the first entry with that name. */
  function FindCategory(acc: seq<Category>, name: string): (r: Option<nat>)
    ensures r.Some? ==> r.value < |acc| && acc[r.value].name == name
    ensures r.Some? ==> forall k :: 0 <= k < r.value ==> acc[k].name != name
    ensures r.None? <==> forall k :: 0 <= k < |acc| ==> acc[k].name != name
  {
    if acc == [] then None
    else if acc[0].name == name then Some(0)
    else
      match FindCategory(acc[1..], name)
      case None => None
      case Some(k) => Some(k + 1)
  }

  /** One step of the reduce: add the product's value to its category's
      entry, or push a new entry (on the page only when the value is
      positive). */
  function Step(acc: seq<Category>, p: Item, onlyPositive: bool): (r: seq<Category>) {
    var v := ItemValue(p);
    var found := FindCategory(acc, p.category);
    if found.Some? then
      var j := found.value;
      acc[j := acc[j].(value := acc[j].value + v)]
    else if !onlyPositive || v > 0 then acc + [Category(p.category, v)]
    else acc
  }

  /** The reduce from `[]`: the value `categoryData` ends with. */
  function Categories(items: seq<Item>, onlyPositive: bool): (r: seq<Category>) {
    if items == [] then []
    else Step(Categories(items[..|items| - 1], onlyPositive), items[|items| - 1], onlyPositive)
  }

  /** The reduce as written: a loop over the products that updates an
      existing entry's value or pushes a new entry. */
  method CategoryData(items: seq<Item>, onlyPositive: bool) returns (acc: seq<Category>)
    ensures acc == Categories(items, onlyPositive)
  {
    acc := [];
    var i := 0;
    while i < |items|
      invariant 0 <= i <= |items|
      invariant acc == Categories(items[..i], onlyPositive)
    {
      CategoriesSnoc(items, i, onlyPositive);
      acc := Accumulate(acc, items[i], onlyPositive);
      i := i + 1;
    }
    assert items[..|items|] == items;
  }

  /** The reduce's callback: `existing.value += value` on the entry found,
      or `acc.push(...)`. */
  method Accumulate(acc: seq<Category>, curr: Item, onlyPositive: bool) returns (next: seq<Category>)
    ensures next == Step(acc, curr, onlyPositive)
  {
    var existing := FindCategory(acc, curr.category);
    var value := ItemValue(curr);
    next := acc;
    if existing.Some? {
      var j := existing.value;
      next := next[j := next[j].(value := next[j].value + value)];
    } else if !onlyPositive || value > 0 {
      next := next + [Category(curr.category, value)];
    }
  }

  /** The reduce over one more product is one more step. */
  lemma CategoriesSnoc(items: seq<Item>, i: nat, onlyPositive: bool)
    requires i < |items|
    ensures Categories(items[..i + 1], onlyPositive) == Step(Categories(items[..i], onlyPositive), items[i], onlyPositive)
  {
    assert items[..i + 1][..i] == items[..i];
  }

  /** The value of all products of one category. */
  function CategoryTotal(items: seq<Item>, c: string): (r: int) {
    if items == [] then 0
    else CategoryTotal(items[..|items| - 1], c) + (if items[|items| - 1].category == c then ItemValue(items[|items| - 1]) else 0)
  }

  function EntryValue(c: Category): (r: int) {
    c.value
  }

  predicate UniqueNames(acc: seq<Category>) {
    forall i, j :: 0 <= i < j < |acc| ==> acc[i].name != acc[j].name
  }

  function EntryNames(acc: seq<Category>): (r: seq<string>) {
    seq(|acc|, i requires 0 <= i < |acc| => acc[i].name)
  }

  /** Every entry holds its category's total. */
  predicate ValuedAtTotals(items: seq<Item>, acc: seq<Category>) {
    forall i :: 0 <= i < |acc| ==> acc[i].value == CategoryTotal(items, acc[i].name)
  }

  /** A product whose category has no entry is worth nothing. */
  predicate UnlistedWorthNothing(items: seq<Item>, acc: seq<Category>) {
    forall i :: 0 <= i < |items| && items[i].category !in EntryNames(acc) ==> ItemValue(items[i]) == 0
  }

  predicate PositiveEntries(acc: seq<Category>) {
    forall i :: 0 <= i < |acc| ==> acc[i].value > 0
  }

  /** What the accumulator holds after a prefix of the products: distinct
      names, each entry valued at its category's total, unlisted products
      worth nothing, positive entries on the page, and the same grand total. */
  predicate Summarises(items: seq<Item>, acc: seq<Category>, onlyPositive: bool) {
    && UniqueNames(acc)
    && ValuedAtTotals(items, acc)
    && UnlistedWorthNothing(items, acc)
    && (onlyPositive ==> PositiveEntries(acc))
    && SumOf(acc, EntryValue) == TotalValue(items)
  }

  predicate NonNegativeValues(items: seq<Item>) {
    forall i :: 0 <= i < |items| ==> ItemValue(items[i]) >= 0
  }

  lemma {:induction false} CategoriesSummarise(items: seq<Item>, onlyPositive: bool)
    requires onlyPositive ==> NonNegativeValues(items)
    ensures Summarises(items, Categories(items, onlyPositive), onlyPositive)
  {
    if items != [] {
      var prefix := items[..|items| - 1];
      var x := items[|items| - 1];
      assert items == prefix + [x];
      CategoriesSummarise(prefix, onlyPositive);
      StepSummarises(prefix, x, Categories(prefix, onlyPositive), onlyPositive);
    }
  }

  /** An entry is found exactly when its name is listed. */
  lemma FindListed(acc: seq<Category>, c: string)
    ensures FindCategory(acc, c).Some? <==> c in EntryNames(acc)
  {
    if c in EntryNames(acc) {
      var k :| 0 <= k < |acc| && EntryNames(acc)[k] == c;
      assert acc[k].name == c;
    }
    if FindCategory(acc, c).Some? {
      assert EntryNames(acc)[FindCategory(acc, c).value] == c;
    }
  }

  lemma StepSummarises(prefix: seq<Item>, x: Item, acc: seq<Category>, onlyPositive: bool)
    requires Summarises(prefix, acc, onlyPositive)
    requires onlyPositive ==> ItemValue(x) >= 0
    ensures Summarises(prefix + [x], Step(acc, x, onlyPositive), onlyPositive)
  {
    FindListed(acc, x.category);
    match FindCategory(acc, x.category)
    case Some(j) =>
      StepUpdates(prefix, x, acc, onlyPositive, j);
    case None =>
      if !onlyPositive || ItemValue(x) > 0 {
        StepPushes(prefix, x, acc, onlyPositive);
      } else {
        assert Step(acc, x, onlyPositive) == acc;
        TotalAfter(prefix, x, x.category);
        SkipKeepsValues(prefix, x, acc);
        SkipKeepsUnlisted(prefix, x, acc);
      }
  }

  /** The step that adds to the entry of the product's category. */
  lemma StepUpdates(prefix: seq<Item>, x: Item, acc: seq<Category>, onlyPositive: bool, j: nat)
    requires Summarises(prefix, acc, onlyPositive)
    requires onlyPositive ==> ItemValue(x) >= 0
    requires FindCategory(acc, x.category) == Some(j)
    ensures Summarises(prefix + [x], Step(acc, x, onlyPositive), onlyPositive)
  {
    var next := acc[j := acc[j].(value := acc[j].value + ItemValue(x))];
    StepFound(acc, x, onlyPositive, j);
    TotalAfter(prefix, x, x.category);
    UpdateKeepsValues(prefix, x, acc, j);
    UpdateKeepsUnlisted(prefix, x, acc, j);
    SumOfUpdate(acc, j, next[j], EntryValue);
    assert UniqueNames(next);
  }

  lemma StepFound(acc: seq<Category>, x: Item, onlyPositive: bool, j: nat)
    requires FindCategory(acc, x.category).Some? && FindCategory(acc, x.category).value == j
    ensures j < |acc| && Step(acc, x, onlyPositive) == acc[j := acc[j].(value := acc[j].value + ItemValue(x))]
  {
    var r := Step(acc, x, onlyPositive);
    var t := acc[j := acc[j].(value := acc[j].value + ItemValue(x))];
    assert |r| == |t|;
    forall k | 0 <= k < |r| ensures r[k] == t[k] {
    }
  }

  lemma StepPushed(acc: seq<Category>, x: Item, onlyPositive: bool)
    requires FindCategory(acc, x.category).None? && (!onlyPositive || ItemValue(x) > 0)
    ensures Step(acc, x, onlyPositive) == acc + [Category(x.category, ItemValue(x))]
  {
  }

  /** The step that pushes a new entry for the product's category. */
  lemma StepPushes(prefix: seq<Item>, x: Item, acc: seq<Category>, onlyPositive: bool)
    requires Summarises(prefix, acc, onlyPositive)
    requires FindCategory(acc, x.category).None? && x.category !in EntryNames(acc)
    requires !onlyPositive || ItemValue(x) > 0
    ensures Summarises(prefix + [x], Step(acc, x, onlyPositive), onlyPositive)
  {
    var e := Category(x.category, ItemValue(x));
    var next := acc + [e];
    StepPushed(acc, x, onlyPositive);
    TotalAfter(prefix, x, x.category);
    UnlistedTotalZero(prefix, acc, x.category);
    PushKeepsValues(prefix, x, acc);
    PushKeepsUnlisted(prefix, x, acc);
    SumOfConcat(acc, [e], EntryValue);
    PushKeepsUnique(acc, e);
  }

  /** The total of a category after one more product. */
  lemma TotalAfter(prefix: seq<Item>, x: Item, c: string)
    ensures CategoryTotal(prefix + [x], c) == CategoryTotal(prefix, c) + (if x.category == c then ItemValue(x) else 0)
    ensures TotalValue(prefix + [x]) == TotalValue(prefix) + ItemValue(x)
  {
    var items := prefix + [x];
    assert items[..|items| - 1] == prefix;
    SumOfConcat(prefix, [x], ItemValue);
  }

  /** A category without an entry has no value in all. */
  lemma {:induction false} UnlistedTotalZero(items: seq<Item>, acc: seq<Category>, c: string)
    requires UnlistedWorthNothing(items, acc) && c !in EntryNames(acc)
    ensures CategoryTotal(items, c) == 0
  {
    if items != [] {
      var prefix := items[..|items| - 1];
      assert forall i :: 0 <= i < |prefix| ==> prefix[i] == items[i];
      UnlistedTotalZero(prefix, acc, c);
    }
  }

  lemma UpdateKeepsValues(prefix: seq<Item>, x: Item, acc: seq<Category>, j: nat)
    requires UniqueNames(acc) && ValuedAtTotals(prefix, acc)
    requires j < |acc| && acc[j].name == x.category
    ensures ValuedAtTotals(prefix + [x], acc[j := acc[j].(value := acc[j].value + ItemValue(x))])
  {
    var next := acc[j := acc[j].(value := acc[j].value + ItemValue(x))];
    forall i | 0 <= i < |next|
      ensures next[i].value == CategoryTotal(prefix + [x], next[i].name)
    {
      TotalAfter(prefix, x, acc[i].name);
    }
  }

  lemma UpdateKeepsUnlisted(prefix: seq<Item>, x: Item, acc: seq<Category>, j: nat)
    requires UnlistedWorthNothing(prefix, acc)
    requires j < |acc| && acc[j].name == x.category
    ensures UnlistedWorthNothing(prefix + [x], acc[j := acc[j].(value := acc[j].value + ItemValue(x))])
  {
    var next := acc[j := acc[j].(value := acc[j].value + ItemValue(x))];
    assert EntryNames(next) == EntryNames(acc);
    assert EntryNames(acc)[j] == x.category;
    var items := prefix + [x];
    assert forall i :: 0 <= i < |prefix| ==> items[i] == prefix[i];
  }

  lemma PushKeepsUnique(acc: seq<Category>, e: Category)
    requires UniqueNames(acc) && e.name !in EntryNames(acc)
    ensures UniqueNames(acc + [e])
  {
    var next := acc + [e];
    forall i | 0 <= i < |acc| ensures next[i].name != e.name {
      assert EntryNames(acc)[i] == acc[i].name;
    }
  }

  lemma PushKeepsValues(prefix: seq<Item>, x: Item, acc: seq<Category>)
    requires ValuedAtTotals(prefix, acc) && x.category !in EntryNames(acc)
    requires CategoryTotal(prefix, x.category) == 0
    ensures ValuedAtTotals(prefix + [x], acc + [Category(x.category, ItemValue(x))])
  {
    var next := acc + [Category(x.category, ItemValue(x))];
    forall i | 0 <= i < |next|
      ensures next[i].value == CategoryTotal(prefix + [x], next[i].name)
    {
      TotalAfter(prefix, x, next[i].name);
      if i < |acc| {
        assert EntryNames(acc)[i] == acc[i].name;
      }
    }
  }

  lemma PushKeepsUnlisted(prefix: seq<Item>, x: Item, acc: seq<Category>)
    requires UnlistedWorthNothing(prefix, acc)
    ensures UnlistedWorthNothing(prefix + [x], acc + [Category(x.category, ItemValue(x))])
  {
    var next := acc + [Category(x.category, ItemValue(x))];
    assert EntryNames(next) == EntryNames(acc) + [x.category];
    var items := prefix + [x];
    assert forall i :: 0 <= i < |prefix| ==> items[i] == prefix[i];
  }

  lemma SkipKeepsValues(prefix: seq<Item>, x: Item, acc: seq<Category>)
    requires ValuedAtTotals(prefix, acc) && x.category !in EntryNames(acc)
    ensures ValuedAtTotals(prefix + [x], acc)
  {
    forall i | 0 <= i < |acc|
      ensures acc[i].value == CategoryTotal(prefix + [x], acc[i].name)
    {
      TotalAfter(prefix, x, acc[i].name);
      assert EntryNames(acc)[i] == acc[i].name;
    }
  }

  lemma SkipKeepsUnlisted(prefix: seq<Item>, x: Item, acc: seq<Category>)
    requires UnlistedWorthNothing(prefix, acc) && ItemValue(x) == 0
    ensures UnlistedWorthNothing(prefix + [x], acc)
  {
    var items := prefix + [x];
    assert forall i :: 0 <= i < |prefix| ==> items[i] == prefix[i];
  }

  /** On the page, with no product of negative value, a category is listed
      exactly when its products are worth something, at their total value,
      names are unique, and the listed values add up to the total stock value. */
  lemma PageCategories(items: seq<Item>, c: string)
    requires NonNegativeValues(items)
    ensures var acc := Categories(items, true);
      && UniqueNames(acc)
      && (FindCategory(acc, c).Some? <==> CategoryTotal(items, c) > 0)
      && (FindCategory(acc, c).Some? ==> acc[FindCategory(acc, c).value].value == CategoryTotal(items, c))
      && SumOf(acc, EntryValue) == TotalValue(items)
  {
    var acc := Categories(items, true);
    CategoriesSummarise(items, true);
    FindListed(acc, c);
    if FindCategory(acc, c).None? {
      UnlistedTotalZero(items, acc, c);
    }
  }

  /** The category names of the products, in order. */
  function CategoryNames(items: seq<Item>): (r: seq<string>) {
    seq(|items|, i requires 0 <= i < |items| => items[i].category)
  }

  /** Each name once, at its first appearance. */
  function FirstAppearances(names: seq<string>): (r: seq<string>)
    ensures forall i :: 0 <= i < |r| ==> r[i] in names
  {
    if names == [] then []
    else
      var d := FirstAppearances(names[..|names| - 1]);
      if names[|names| - 1] in d then d else d + [names[|names| - 1]]
  }

  /** In the component every category gets one entry, in order of first
      appearance, zero-valued ones included, valued at its total; and the
      entries add up to the total stock value whatever the signs. */
  lemma ComponentCategories(items: seq<Item>, c: string)
    ensures var acc := Categories(items, false);
      && EntryNames(acc) == FirstAppearances(CategoryNames(items))
      && (FindCategory(acc, c).Some? ==> acc[FindCategory(acc, c).value].value == CategoryTotal(items, c))
      && SumOf(acc, EntryValue) == TotalValue(items)
  {
    CategoriesSummarise(items, false);
    ComponentOrder(items);
  }

  lemma {:induction false} ComponentOrder(items: seq<Item>)
    ensures EntryNames(Categories(items, false)) == FirstAppearances(CategoryNames(items))
  {
    if items != [] {
      var prefix := items[..|items| - 1];
      var x := items[|items| - 1];
      ComponentOrder(prefix);
      var acc := Categories(prefix, false);
      assert CategoryNames(items)[..|items| - 1] == CategoryNames(prefix);
      assert CategoryNames(items)[|items| - 1] == x.category;
      FindListed(acc, x.category);
      match FindCategory(acc, x.category)
      case Some(j) =>
        assert EntryNames(Categories(items, false)) == EntryNames(acc);
      case None =>
        assert EntryNames(Categories(items, false)) == EntryNames(acc) + [x.category];
    }
  }

  // ---------------------------------------------------------------------
  // The two versions

  /** The figures a dashboard shows. */
  datatype Stats = Stats(
    totalValue: int,
    lowStockCount: nat,
    expiringBatches: nat,
    expiredBatches: nat,
    totalBatches: int,
    categoryData: seq<Category>)

  /** The page's query: the session tenant's products with their batches.
      Every product of the tenant appears, with its own batches, and every
      item shown is one of the tenant's products. */
  function TenantItems(products: seq<ProductRow>, batches: seq<BatchRow>, tenantId: string): (r: seq<Item>)
    ensures |r| == |Filter(products, (p: ProductRow) => p.tenantId == tenantId)|
    ensures forall i :: 0 <= i < |products| && products[i].tenantId == tenantId ==> ItemOf(products[i], batches) in r
    ensures forall it :: it in r ==> exists q :: q in products && q.tenantId == tenantId && it == ItemOf(q, batches)
  {
    var own := Filter(products, (p: ProductRow) => p.tenantId == tenantId);
    FilterMembers(products, (p: ProductRow) => p.tenantId == tenantId);
    var items := seq(|own|, i requires 0 <= i < |own| => ItemOf(own[i], batches));
    assert forall i :: 0 <= i < |products| && products[i].tenantId == tenantId ==> ItemOf(products[i], batches) in items by {
      forall i | 0 <= i < |products| && products[i].tenantId == tenantId ensures ItemOf(products[i], batches) in items {
        var k :| 0 <= k < |own| && own[k] == products[i];
        assert items[k] == ItemOf(products[i], batches);
      }
    }
    items
  }

  /** Another tenant's product changes nothing on the page. */
  lemma OtherTenantsIgnored(products: seq<ProductRow>, batches: seq<BatchRow>, tenantId: string, p: ProductRow)
    requires p.tenantId != tenantId
    ensures TenantItems(products + [p], batches, tenantId) == TenantItems(products, batches, tenantId)
  {
    FilterConcat(products, [p], (q: ProductRow) => q.tenantId == tenantId);
    assert Filter([p], (q: ProductRow) => q.tenantId == tenantId) == [];
  }

  /** app/dashboard/page.tsx. The category total shown beside the chart is
      the sum of the listed values. */
  method PageStats(products: seq<ProductRow>, batches: seq<BatchRow>, tenantId: string, now: int)
    returns (s: Stats, totalCategoryValue: int)
    ensures var items := TenantItems(products, batches, tenantId);
      s == Stats(TotalValue(items), LowStockCount(items), PageExpiringCount(items, now),
                 ExpiredCount(items, now), TotalBatches(items), Categories(items, true))
    ensures totalCategoryValue == SumOf(s.categoryData, EntryValue)
    ensures NonNegativeValues(TenantItems(products, batches, tenantId)) ==> totalCategoryValue == s.totalValue
  {
    var items := TenantItems(products, batches, tenantId);
    var categoryData := CategoryData(items, true);
    s := Stats(TotalValue(items), LowStockCount(items), PageExpiringCount(items, now),
               ExpiredCount(items, now), TotalBatches(items), categoryData);
    totalCategoryValue := SumOf(categoryData, EntryValue);
    if NonNegativeValues(items) {
      CategoriesSummarise(items, true);
    }
  }

  /** components/Dashboard.tsx, over the products it is given. */
  method ComponentStats(items: seq<Item>, now: int) returns (s: Stats)
    ensures s == Stats(TotalValue(items), LowStockCount(items), ComponentExpiringCount(items, now),
                       ExpiredCount(items, now), TotalBatches(items), Categories(items, false))
  {
    var categoryData := CategoryData(items, false);
    s := Stats(TotalValue(items), LowStockCount(items), ComponentExpiringCount(items, now),
               ExpiredCount(items, now), TotalBatches(items), categoryData);
  }
}
