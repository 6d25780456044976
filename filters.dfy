/**
 * The dashboard's derived columns and row filters. Every filter is a boolean
 * mask over a table, so its result keeps exactly the rows that pass, in their
 * original order. A missing value (`None`, the coerced "not a number") fails
 * every comparison, so it never passes a range test.
 */
module Filters {
  import opened Wrappers
  import opened Rows
  import opened Tables

  // ---------------------------------------------------------------- derived columns

  /** Age in whole years: whole days since the birth day, floor-divided by 365
      (a 365-day year, not a calendar computation). */
  function AgeYears(birthDay: int, today: int): (age: int)
    ensures 365 * age <= today - birthDay < 365 * (age + 1)
    ensures birthDay <= today ==> age >= 0
  {
    (today - birthDay) / 365
  }

  /** The `Age` column of a customer: missing when the birth date is missing. */
  function AgeOf(c: CustomerRecord, today: int): (age: Option<int>)
    ensures age.Some? <==> c.birthDay.Some?
    ensures age.Some? ==> 365 * age.value <= today - c.birthDay.value < 365 * (age.value + 1)
  {
    match c.birthDay
    case Some(b) => Some(AgeYears(b, today))
    case None => None
  }

  function AgeColumn(rows: seq<CustomerRecord>, today: int): (col: seq<Option<int>>)
    ensures |col| == |rows|
    ensures forall i :: 0 <= i < |rows| ==> col[i] == AgeOf(rows[i], today)
  {
    seq(|rows|, i requires 0 <= i < |rows| => AgeOf(rows[i], today))
  }

  // ---------------------------------------------------------------- slider bounds

  /** The smallest and largest present value of a column, skipping missing
      values; `None` when no value is present. */
  function MinMaxInt(col: seq<Option<int>>): (r: Option<(int, int)>)
    ensures r.None? <==> forall i :: 0 <= i < |col| ==> col[i].None?
    ensures r.Some? ==> forall i :: 0 <= i < |col| && col[i].Some? ==>
                          r.value.0 <= col[i].value <= r.value.1
    ensures r.Some? ==> Some(r.value.0) in col && Some(r.value.1) in col
  {
    if col == [] then None
    else
      var rest := MinMaxInt(col[1..]);
      match col[0]
      case None => rest
      case Some(v) =>
        match rest
        case None => Some((v, v))
        case Some((lo, hi)) => Some((if v < lo then v else lo, if v > hi then v else hi))
  }

  /** As `MinMaxInt`, for a money column. */
  function MinMaxReal(col: seq<Option<real>>): (r: Option<(real, real)>)
    ensures r.None? <==> forall i :: 0 <= i < |col| ==> col[i].None?
    ensures r.Some? ==> forall i :: 0 <= i < |col| && col[i].Some? ==>
                          r.value.0 <= col[i].value <= r.value.1
    ensures r.Some? ==> Some(r.value.0) in col && Some(r.value.1) in col
  {
    if col == [] then None
    else
      var rest := MinMaxReal(col[1..]);
      match col[0]
      case None => rest
      case Some(v) =>
        match rest
        case None => Some((v, v))
        case Some((lo, hi)) => Some((if v < lo then v else lo, if v > hi then v else hi))
  }

  /** Integer slider bounds: when the maximum does not exceed the minimum it
      becomes the minimum plus one, so the slider's maximum is strictly larger. */
  function WidenInt(lo: int, hi: int): (r: (int, int))
    ensures r.0 == lo && r.0 < r.1 && hi <= r.1
    ensures lo < hi ==> r.1 == hi
    ensures hi <= lo ==> r.1 == lo + 1
  {
    if hi <= lo then (lo, lo + 1) else (lo, hi)
  }

  /** Money slider bounds: the same widening, by 1000. */
  function WidenReal(lo: real, hi: real): (r: (real, real))
    ensures r.0 == lo && r.0 < r.1 && hi <= r.1
    ensures lo < hi ==> r.1 == hi
    ensures hi <= lo ==> r.1 == lo + 1000.0
  {
    if hi <= lo then (lo, lo + 1000.0) else (lo, hi)
  }

  /** The range an integer slider offers and starts at (age, stock, quantity).
      `None` when the column has no value: converting the missing minimum to
      an integer raises there, and the page stops. */
  function IntSliderBounds(col: seq<Option<int>>): (r: Option<(int, int)>)
    ensures r.None? <==> forall i :: 0 <= i < |col| ==> col[i].None?
    ensures r.Some? ==> r.value.0 < r.value.1
    ensures r.Some? ==> forall i :: 0 <= i < |col| && col[i].Some? ==>
                          r.value.0 <= col[i].value <= r.value.1
    ensures r.Some? ==> Some(r.value.0) in col
    ensures r.Some? ==>
              (Some(r.value.1) in col && r.value.0 < r.value.1)
              || (r.value.1 == r.value.0 + 1
                  && forall i :: 0 <= i < |col| && col[i].Some? ==> col[i].value == r.value.0)
  {
    match MinMaxInt(col)
    case None => None
    case Some((lo, hi)) => Some(WidenInt(lo, hi))
  }

  /** The range a money slider offers and starts at (price, total amount,
      subtotal); `None` when the column has no value. */
  function RealSliderBounds(col: seq<Option<real>>): (r: Option<(real, real)>)
    ensures r.None? <==> forall i :: 0 <= i < |col| ==> col[i].None?
    ensures r.Some? ==> r.value.0 < r.value.1
    ensures r.Some? ==> forall i :: 0 <= i < |col| && col[i].Some? ==>
                          r.value.0 <= col[i].value <= r.value.1
    ensures r.Some? ==> Some(r.value.0) in col
    ensures r.Some? ==>
              (Some(r.value.1) in col && r.value.0 < r.value.1)
              || (r.value.1 == r.value.0 + 1000.0
                  && forall i :: 0 <= i < |col| && col[i].Some? ==> col[i].value == r.value.0)
  {
    match MinMaxReal(col)
    case None => None
    case Some((lo, hi)) => Some(WidenReal(lo, hi))
  }

  // ---------------------------------------------------------------- masks

  /** An inclusive range test on a possibly missing value. */
  predicate InIntRange(v: Option<int>, lo: int, hi: int) {
    v.Some? && lo <= v.value <= hi
  }

  predicate InRealRange(v: Option<real>, lo: real, hi: real) {
    v.Some? && lo <= v.value <= hi
  }

  /** A date-range selection applies only once both endpoints are picked. */
  predicate InDateSelection(time: int, dates: seq<int>) {
    |dates| == 2 ==> dates[0] <= Day(time) <= dates[1]
  }

  /** A product-name selection applies only when it is non-empty. */
  predicate InProductSelection(name: string, products: seq<string>) {
    |products| > 0 ==> name in products
  }

  // ---------------------------------------------------------------- customers

  function AgeMask(today: int, lo: int, hi: int): CustomerRecord -> bool {
    (c: CustomerRecord) => InIntRange(AgeOf(c, today), lo, hi)
  }

  /** Customers whose age lies in the slider range, bounds included. */
  function FilterCustomersByAge(rows: seq<CustomerRecord>, today: int, lo: int, hi: int): seq<CustomerRecord> {
    Filter(rows, AgeMask(today, lo, hi))
  }

  lemma AgeFilterSpec(rows: seq<CustomerRecord>, today: int, lo: int, hi: int, c: CustomerRecord)
    ensures c in FilterCustomersByAge(rows, today, lo, hi) <==>
              c in rows && c.birthDay.Some? && lo <= AgeYears(c.birthDay.value, today) <= hi
    ensures SubsequenceOf(FilterCustomersByAge(rows, today, lo, hi), rows)
  {
    FilterMembership(rows, AgeMask(today, lo, hi), c);
    FilterIsSubsequence(rows, AgeMask(today, lo, hi));
  }

  function DatedMask(): CustomerRecord -> bool {
    (c: CustomerRecord) => c.birthDay.Some?
  }

  /** With the age slider at its initial full range, exactly the customers
      whose birth date is present are kept, in order: the range is computed
      over present ages only, and a missing age fails the range test. */
  lemma {:induction false} FullAgeRangeKeepsDated(rows: seq<CustomerRecord>, today: int, ages: (int, int))
    requires IntSliderBounds(AgeColumn(rows, today)) == Some(ages)
    ensures FilterCustomersByAge(rows, today, ages.0, ages.1) == Filter(rows, DatedMask())
  {
    var col := AgeColumn(rows, today);
    forall i | 0 <= i < |rows|
      ensures AgeMask(today, ages.0, ages.1)(rows[i]) == DatedMask()(rows[i])
    {
      assert col[i] == AgeOf(rows[i], today);
      if col[i].Some? {
        assert ages.0 <= col[i].value <= ages.1;
      }
    }
    FilterExtensional(rows, AgeMask(today, ages.0, ages.1), DatedMask());
  }

  // ---------------------------------------------------------------- products

  predicate InProductRanges(p: ProductRecord, priceLo: real, priceHi: real, stockLo: int, stockHi: int) {
    InRealRange(p.price, priceLo, priceHi) && InIntRange(p.stock, stockLo, stockHi)
  }

  function ProductMask(priceLo: real, priceHi: real, stockLo: int, stockHi: int): ProductRecord -> bool {
    (p: ProductRecord) => InProductRanges(p, priceLo, priceHi, stockLo, stockHi)
  }

  /** Products whose price and stock both lie in their slider ranges. */
  function FilterProducts(rows: seq<ProductRecord>, priceLo: real, priceHi: real, stockLo: int, stockHi: int)
    : seq<ProductRecord>
  {
    Filter(rows, ProductMask(priceLo, priceHi, stockLo, stockHi))
  }

  lemma ProductFilterSpec(rows: seq<ProductRecord>, priceLo: real, priceHi: real, stockLo: int, stockHi: int,
                          p: ProductRecord)
    ensures p in FilterProducts(rows, priceLo, priceHi, stockLo, stockHi) <==>
              p in rows && p.price.Some? && priceLo <= p.price.value <= priceHi
              && p.stock.Some? && stockLo <= p.stock.value <= stockHi
    ensures SubsequenceOf(FilterProducts(rows, priceLo, priceHi, stockLo, stockHi), rows)
  {
    FilterMembership(rows, ProductMask(priceLo, priceHi, stockLo, stockHi), p);
    FilterIsSubsequence(rows, ProductMask(priceLo, priceHi, stockLo, stockHi));
  }

  predicate IsLowStock(p: ProductRecord, threshold: int) {
    p.stock.Some? && p.stock.value < threshold
  }

  function LowStockMask(threshold: int): ProductRecord -> bool {
    (p: ProductRecord) => IsLowStock(p, threshold)
  }

  /** The low-stock products among the filtered ones: stock strictly below the threshold. */
  function LowStock(filtered: seq<ProductRecord>, threshold: int): seq<ProductRecord> {
    Filter(filtered, LowStockMask(threshold))
  }

  function LowStockInRangesMask(priceLo: real, priceHi: real, stockLo: int, stockHi: int, threshold: int)
    : ProductRecord -> bool
  {
    (p: ProductRecord) => InProductRanges(p, priceLo, priceHi, stockLo, stockHi) && IsLowStock(p, threshold)
  }

  const LowLabel: string := "⚠️ Rendah"
  const NormalLabel: string := "✅ Normal"

  /** The stock status column: low exactly when the stock is below the threshold. */
  function StockStatus(stock: Option<int>, threshold: int): (status: string)
    ensures status == LowLabel <==> stock.Some? && stock.value < threshold
    ensures status != LowLabel ==> status == NormalLabel
  {
    if stock.Some? && stock.value < threshold then LowLabel else NormalLabel
  }

  /** The low-stock set is exactly the products passing both range filters
      whose stock is below the threshold, in their original order; a filtered
      product is in it exactly when its status reads "Rendah". */
  lemma {:induction false} LowStockSpec(rows: seq<ProductRecord>, priceLo: real, priceHi: real,
                                        stockLo: int, stockHi: int, threshold: int)
    ensures LowStock(FilterProducts(rows, priceLo, priceHi, stockLo, stockHi), threshold)
            == Filter(rows, LowStockInRangesMask(priceLo, priceHi, stockLo, stockHi, threshold))
    ensures forall p :: p in FilterProducts(rows, priceLo, priceHi, stockLo, stockHi) ==>
              (StockStatus(p.stock, threshold) == LowLabel <==>
               p in LowStock(FilterProducts(rows, priceLo, priceHi, stockLo, stockHi), threshold))
  {
    FilterFilter(rows, ProductMask(priceLo, priceHi, stockLo, stockHi), LowStockMask(threshold),
                 LowStockInRangesMask(priceLo, priceHi, stockLo, stockHi, threshold));
    var filtered := FilterProducts(rows, priceLo, priceHi, stockLo, stockHi);
    forall p | p in filtered
      ensures StockStatus(p.stock, threshold) == LowLabel <==> p in LowStock(filtered, threshold)
    {
      FilterMembership(filtered, LowStockMask(threshold), p);
    }
  }

  // ---------------------------------------------------------------- orders

  function OrderDateMask(dates: seq<int>): OrderRecord -> bool {
    (o: OrderRecord) => InDateSelection(o.orderTime, dates)
  }

  function OrderAmountMask(amountLo: real, amountHi: real): OrderRecord -> bool {
    (o: OrderRecord) => InRealRange(o.totalAmount, amountLo, amountHi)
  }

  /** Orders in the picked date range (when both ends are picked) whose total
      lies in the slider range; the two masks are applied one after the other. */
  function FilterOrders(rows: seq<OrderRecord>, dates: seq<int>, amountLo: real, amountHi: real)
    : seq<OrderRecord>
  {
    var byDate := if |dates| == 2 then Filter(rows, OrderDateMask(dates)) else rows;
    Filter(byDate, OrderAmountMask(amountLo, amountHi))
  }

  predicate OrderMatches(o: OrderRecord, dates: seq<int>, amountLo: real, amountHi: real) {
    InDateSelection(o.orderTime, dates) && InRealRange(o.totalAmount, amountLo, amountHi)
  }

  function OrderMask(dates: seq<int>, amountLo: real, amountHi: real): OrderRecord -> bool {
    (o: OrderRecord) => OrderMatches(o, dates, amountLo, amountHi)
  }

  /** The order filter is the single mask "date selection and amount range". */
  lemma {:induction false} OrderFilterSpec(rows: seq<OrderRecord>, dates: seq<int>, amountLo: real, amountHi: real)
    ensures FilterOrders(rows, dates, amountLo, amountHi) == Filter(rows, OrderMask(dates, amountLo, amountHi))
    ensures SubsequenceOf(FilterOrders(rows, dates, amountLo, amountHi), rows)
    ensures forall o :: o in FilterOrders(rows, dates, amountLo, amountHi) <==>
              o in rows && OrderMatches(o, dates, amountLo, amountHi)
  {
    var matches := OrderMask(dates, amountLo, amountHi);
    if |dates| != 2 {
      FilterKeepsAll(rows, OrderDateMask(dates));
    }
    FilterFilter(rows, OrderDateMask(dates), OrderAmountMask(amountLo, amountHi), matches);
    FilterIsSubsequence(rows, matches);
    forall o ensures o in Filter(rows, matches) <==> o in rows && matches(o) {
      FilterMembership(rows, matches, o);
    }
  }

  // ---------------------------------------------------------------- order details

  function DetailProductMask(products: seq<string>): OrderDetailRecord -> bool {
    (d: OrderDetailRecord) => InProductSelection(d.productName, products)
  }

  function DetailDateMask(dates: seq<int>): OrderDetailRecord -> bool {
    (d: OrderDetailRecord) => InDateSelection(d.orderTime, dates)
  }

  function DetailQuantityMask(qtyLo: int, qtyHi: int): OrderDetailRecord -> bool {
    (d: OrderDetailRecord) => InIntRange(d.quantity, qtyLo, qtyHi)
  }

  function DetailSubtotalMask(subtotalLo: real, subtotalHi: real): OrderDetailRecord -> bool {
    (d: OrderDetailRecord) => InRealRange(d.subtotal, subtotalLo, subtotalHi)
  }

  /** Line items narrowed by product selection (when non-empty), date range
      (when both ends are picked), quantity range and subtotal range, in that
      order. */
  function FilterOrderDetails(rows: seq<OrderDetailRecord>, products: seq<string>, dates: seq<int>,
                              qtyLo: int, qtyHi: int, subtotalLo: real, subtotalHi: real)
    : seq<OrderDetailRecord>
  {
    var byProduct := if |products| > 0 then Filter(rows, DetailProductMask(products)) else rows;
    var byDate := if |dates| == 2 then Filter(byProduct, DetailDateMask(dates)) else byProduct;
    var byQuantity := Filter(byDate, DetailQuantityMask(qtyLo, qtyHi));
    Filter(byQuantity, DetailSubtotalMask(subtotalLo, subtotalHi))
  }

  predicate DetailMatches(d: OrderDetailRecord, products: seq<string>, dates: seq<int>,
                          qtyLo: int, qtyHi: int, subtotalLo: real, subtotalHi: real) {
    InProductSelection(d.productName, products)
    && InDateSelection(d.orderTime, dates)
    && InIntRange(d.quantity, qtyLo, qtyHi)
    && InRealRange(d.subtotal, subtotalLo, subtotalHi)
  }

  function DetailMask(products: seq<string>, dates: seq<int>,
                      qtyLo: int, qtyHi: int, subtotalLo: real, subtotalHi: real): OrderDetailRecord -> bool {
    (d: OrderDetailRecord) => DetailMatches(d, products, dates, qtyLo, qtyHi, subtotalLo, subtotalHi)
  }

  /** The four successive masks amount to one mask: their conjunction. */
  lemma {:induction false} OrderDetailsSinglePass(rows: seq<OrderDetailRecord>, products: seq<string>, dates: seq<int>,
                                                  qtyLo: int, qtyHi: int, subtotalLo: real, subtotalHi: real)
    ensures FilterOrderDetails(rows, products, dates, qtyLo, qtyHi, subtotalLo, subtotalHi)
            == Filter(rows, DetailMask(products, dates, qtyLo, qtyHi, subtotalLo, subtotalHi))
  {
    var byProduct := DetailProductMask(products);
    var byDate := DetailDateMask(dates);
    var byQuantity := DetailQuantityMask(qtyLo, qtyHi);
    var bySubtotal := DetailSubtotalMask(subtotalLo, subtotalHi);
    var matches := DetailMask(products, dates, qtyLo, qtyHi, subtotalLo, subtotalHi);
    var f12 := (d: OrderDetailRecord) => byProduct(d) && byDate(d);
    var f123 := (d: OrderDetailRecord) => f12(d) && byQuantity(d);
    var s1 := if |products| > 0 then Filter(rows, byProduct) else rows;
    assert s1 == Filter(rows, byProduct) by {
      if |products| == 0 {
        FilterKeepsAll(rows, byProduct);
      }
    }
    var s2 := if |dates| == 2 then Filter(s1, byDate) else s1;
    assert s2 == Filter(s1, byDate) by {
      if |dates| != 2 {
        FilterKeepsAll(s1, byDate);
      }
    }
    FilterFilter(rows, byProduct, byDate, f12);
    var s3 := Filter(s2, byQuantity);
    FilterFilter(rows, f12, byQuantity, f123);
    FilterFilter(rows, f123, bySubtotal, matches);
  }

  /** A line item survives the order-details filter iff it satisfies all four
      conditions; the survivors keep their original order. */
  lemma OrderDetailsFilterSpec(rows: seq<OrderDetailRecord>, products: seq<string>, dates: seq<int>,
                               qtyLo: int, qtyHi: int, subtotalLo: real, subtotalHi: real, d: OrderDetailRecord)
    ensures d in FilterOrderDetails(rows, products, dates, qtyLo, qtyHi, subtotalLo, subtotalHi) <==>
              d in rows && DetailMatches(d, products, dates, qtyLo, qtyHi, subtotalLo, subtotalHi)
    ensures SubsequenceOf(FilterOrderDetails(rows, products, dates, qtyLo, qtyHi, subtotalLo, subtotalHi), rows)
  {
    OrderDetailsSinglePass(rows, products, dates, qtyLo, qtyHi, subtotalLo, subtotalHi);
    FilterMembership(rows, DetailMask(products, dates, qtyLo, qtyHi, subtotalLo, subtotalHi), d);
    FilterIsSubsequence(rows, DetailMask(products, dates, qtyLo, qtyHi, subtotalLo, subtotalHi));
  }

  function QuantityColumn(rows: seq<OrderDetailRecord>): (col: seq<Option<int>>)
    ensures |col| == |rows| && forall i :: 0 <= i < |rows| ==> col[i] == rows[i].quantity
  {
    seq(|rows|, i requires 0 <= i < |rows| => rows[i].quantity)
  }

  function SubtotalColumn(rows: seq<OrderDetailRecord>): (col: seq<Option<real>>)
    ensures |col| == |rows| && forall i :: 0 <= i < |rows| ==> col[i] == rows[i].subtotal
  {
    seq(|rows|, i requires 0 <= i < |rows| => rows[i].subtotal)
  }

  function MeasuredMask(): OrderDetailRecord -> bool {
    (d: OrderDetailRecord) => d.quantity.Some? && d.subtotal.Some?
  }

  /** With no product selected, a date selection covering every row (or not
      yet complete) and the quantity and subtotal sliders at their initial
      full ranges, exactly the line items whose quantity and subtotal are both
      present are kept, in order: a missing value fails its range test. */
  lemma {:induction false} FullRangesKeepMeasured(rows: seq<OrderDetailRecord>, dates: seq<int>,
                                                  qty: (int, int), subtotal: (real, real))
    requires forall i :: 0 <= i < |rows| ==> InDateSelection(rows[i].orderTime, dates)
    requires IntSliderBounds(QuantityColumn(rows)) == Some(qty)
    requires RealSliderBounds(SubtotalColumn(rows)) == Some(subtotal)
    ensures FilterOrderDetails(rows, [], dates, qty.0, qty.1, subtotal.0, subtotal.1) == Filter(rows, MeasuredMask())
  {
    var matches := DetailMask([], dates, qty.0, qty.1, subtotal.0, subtotal.1);
    OrderDetailsSinglePass(rows, [], dates, qty.0, qty.1, subtotal.0, subtotal.1);
    var quantities, subtotals := QuantityColumn(rows), SubtotalColumn(rows);
    forall i | 0 <= i < |rows| ensures matches(rows[i]) == MeasuredMask()(rows[i]) {
      assert quantities[i] == rows[i].quantity;
      assert subtotals[i] == rows[i].subtotal;
      if rows[i].quantity.Some? && rows[i].subtotal.Some? {
        assert qty.0 <= rows[i].quantity.value <= qty.1;
        assert subtotal.0 <= rows[i].subtotal.value <= subtotal.1;
        assert DetailMatches(rows[i], [], dates, qty.0, qty.1, subtotal.0, subtotal.1);
      }
    }
    FilterExtensional(rows, matches, MeasuredMask());
  }
}
