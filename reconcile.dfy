/**
 * Reconciliation: turning the untrusted JSON reply of the model into an
 * ExtractedData. Every field is coerced or defaulted; the reconciled amount is
 * the sum of the item amounts only, rounded once at the end, and the accuracy
 * compares it with the stated bill total. Any coercion that raises makes the
 * whole reconciliation fail.
 */
module Reconciliation {
  import opened Wrappers
  import opened PyJson
  import opened Money
  import opened Models

  /**
   * Converts every element with `f`, failing as the first failing element fails:
   * the list a `for` loop builds when an exception in its body ends the loop.
   */
  function CollectAll<A>(xs: seq<Json>, f: Json -> Outcome<A>): Outcome<seq<A>>
    decreases |xs|
  {
    if xs == [] then Ok([])
    else
      var init :- CollectAll(xs[..|xs| - 1], f);
      var last :- f(xs[|xs| - 1]);
      Ok(init + [last])
  }

  /**
   * The loop succeeds exactly when every element converts, and then holds each
   * element's conversion at that element's position.
   */
  lemma {:induction false} CollectAllElementwise<A>(xs: seq<Json>, f: Json -> Outcome<A>)
    ensures CollectAll(xs, f).Ok? <==> forall i :: 0 <= i < |xs| ==> f(xs[i]).Ok?
    ensures CollectAll(xs, f).Ok? ==> var r := CollectAll(xs, f).value;
      |r| == |xs| && forall i :: 0 <= i < |xs| ==> f(xs[i]) == Ok(r[i])
    decreases |xs|
  {
    if xs != [] {
      var init := xs[..|xs| - 1];
      CollectAllElementwise(init, f);
      assert forall i :: 0 <= i < |init| ==> xs[i] == init[i];
    }
  }

  /** Once a prefix has failed, the whole list fails with the same error. */
  lemma {:induction false} CollectAllFailsEarly<A>(xs: seq<Json>, f: Json -> Outcome<A>, n: nat)
    requires n <= |xs| && CollectAll(xs[..n], f).Err?
    ensures CollectAll(xs, f) == CollectAll(xs[..n], f)
    decreases |xs| - n
  {
    if n < |xs| {
      assert xs[..n + 1][..n] == xs[..n];
      CollectAllFailsEarly(xs, f, n + 1);
    } else {
      assert xs[..n] == xs;
    }
  }

  /** One more element that converts extends the converted prefix by its value. */
  lemma CollectAllStep<A>(xs: seq<Json>, f: Json -> Outcome<A>, k: nat, done: seq<A>)
    requires k < |xs| && CollectAll(xs[..k], f) == Ok(done) && f(xs[k]).Ok?
    ensures CollectAll(xs[..k + 1], f) == Ok(done + [f(xs[k]).value])
  {
    assert xs[..k + 1][..k] == xs[..k];
  }

  /**
   * One line item. A missing name is "Unknown" and a missing amount 0; a null
   * amount raises. Rate and quantity are None exactly when absent or null, and
   * otherwise their coerced number, 0 included. The item converts exactly when
   * it is a dict, its amount, rate and quantity coerce and its name is a string.
   */
  function CoerceItem(j: Json, rt: Runtime): (r: Outcome<BillItem>)
    ensures r.Ok? <==> && j.JObj?
                       && NumberOrDefault(j.fields, "item_amount", 0.0, rt).Ok?
                       && NumberOrNone(j.fields, "item_rate", rt).Ok?
                       && NumberOrNone(j.fields, "item_quantity", rt).Ok?
                       && ("item_name" in j.fields ==> j.fields["item_name"].JStr?)
    ensures j.JObj? && "item_amount" in j.fields && j.fields["item_amount"].JNull? ==> r.Err?
    ensures j.JObj? && "item_name" in j.fields && !j.fields["item_name"].JStr? ==> r.Err?
    ensures r.Ok? ==> var m := j.fields;
      && r.value.itemName == (if "item_name" in m then m["item_name"].s else "Unknown")
      && ("item_amount" in m ==> ToFloat(m["item_amount"], rt) == Ok(r.value.itemAmount))
      && ("item_amount" !in m ==> r.value.itemAmount == 0.0)
      && (r.value.itemRate.None? <==> "item_rate" !in m || m["item_rate"].JNull?)
      && (r.value.itemQuantity.None? <==> "item_quantity" !in m || m["item_quantity"].JNull?)
      && r.value.itemRate == NumberOrNone(m, "item_rate", rt).value
      && r.value.itemQuantity == NumberOrNone(m, "item_quantity", rt).value
  {
    match j
    case JObj(m) =>
      var name := Lookup(m, "item_name", JStr("Unknown"));
      var amount :- NumberOrDefault(m, "item_amount", 0.0, rt);
      var rate :- NumberOrNone(m, "item_rate", rt);
      var quantity :- NumberOrNone(m, "item_quantity", rt);
      if name.JStr? then Ok(BillItem(name.s, amount, rate, quantity)) else Err(NotAString)
    case _ => Err(NotAnObject)
  }

  /** The raw `bill_items` of a page: absent means an empty list. */
  function RawItems(m: map<string, Json>): Outcome<seq<Json>> {
    Iterate(Lookup(m, "bill_items", JArr([])))
  }

  /**
   * One page: its items in order, its page number stringified ("1" when absent,
   * "None" when null), its sub-total None exactly when absent or null and
   * otherwise the coerced number.
   */
  function CoercePage(j: Json, rt: Runtime): (r: Outcome<PageWiseLineItems>)
    ensures r.Ok? ==> j.JObj? && RawItems(j.fields).Ok?
    ensures r.Ok? ==> var raw := RawItems(j.fields).value;
      && |r.value.billItems| == |raw|
      && forall k :: 0 <= k < |raw| ==> CoerceItem(raw[k], rt) == Ok(r.value.billItems[k])
    ensures r.Ok? ==> var m := j.fields;
      && ("page_no" !in m ==> r.value.pageNo == "1")
      && ("page_no" in m ==> r.value.pageNo == PyStr(m["page_no"], rt))
      && ("page_no" in m && m["page_no"].JStr? ==> r.value.pageNo == m["page_no"].s)
      && ("page_no" in m && m["page_no"].JNull? ==> r.value.pageNo == "None")
      && (r.value.subTotal.None? <==> "sub_total" !in m || m["sub_total"].JNull?)
      && NumberOrNone(m, "sub_total", rt) == Ok(r.value.subTotal)
  {
    match j
    case JObj(m) =>
      var raw :- RawItems(m);
      CollectAllElementwise(raw, (x: Json) => CoerceItem(x, rt));
      var items :- CollectAll(raw, x => CoerceItem(x, rt));
      var subTotal :- NumberOrNone(m, "sub_total", rt);
      Ok(PageWiseLineItems(PyStr(Lookup(m, "page_no", JStr("1")), rt), items, subTotal))
    case _ => Err(NotAnObject)
  }

  /**
   * `round(100 * (1 - abs(sum - total) / total), 2)`, given only when the stated
   * total is truthy and positive.
   */
  function Accuracy(sum: real, total: Option<real>): (a: Option<real>)
    ensures a.Some? <==> total.Some? && total.value > 0.0
  {
    if total.Some? && total.value != 0.0 && total.value > 0.0 then
      Some(Round2(100.0 * (1.0 - Abs(sum - total.value) / total.value)))
    else
      None
  }

  /** The stated total as reported: rounded when truthy, so a total of 0 is None. */
  function StatedTotal(total: Option<real>): (r: Option<real>)
    ensures r.Some? <==> total.Some? && total.value != 0.0
  {
    if total.Some? && total.value != 0.0 then Some(Round2(total.value)) else None
  }

  /** The raw pages of the reply: absent means an empty list. */
  function RawPages(m: map<string, Json>): Outcome<seq<Json>> {
    Iterate(Lookup(m, "pagewise_line_items", JArr([])))
  }

  /** The whole reconciliation, as a function of the reply. */
  function ReconcileSpec(data: Json, rt: Runtime): (r: Outcome<ExtractedData>)
    ensures !data.JObj? ==> r == Err(NotAnObject)
    ensures r.Ok? ==> RawPages(data.fields).Ok? && NumberOrNone(data.fields, "actual_bill_total", rt).Ok?
    ensures r.Ok? ==> var total := NumberOrNone(data.fields, "actual_bill_total", rt).value;
      && |r.value.pagewiseLineItems| == |RawPages(data.fields).value|
      && (r.value.actualBillTotal.Some? <==> total.Some? && total.value != 0.0)
      && (r.value.accuracyPercentage.Some? <==> total.Some? && total.value > 0.0)
  {
    match data
    case JObj(m) =>
      var raw :- RawPages(m);
      CollectAllElementwise(raw, (p: Json) => CoercePage(p, rt));
      var pages :- CollectAll(raw, p => CoercePage(p, rt));
      var total :- NumberOrNone(m, "actual_bill_total", rt);
      var sum := AmountSum(pages);
      Ok(ExtractedData(pages, ItemCount(pages), Round2(sum), StatedTotal(total), Accuracy(sum, total)))
    case _ => Err(NotAnObject)
  }

  /**
   * The inner loop over one page's items: builds each item in turn, adding its
   * amount to the running sum and counting it.
   */
  method ReconcileItems(items: seq<Json>, rt: Runtime, count: nat, sum: real)
    returns (r: Outcome<seq<BillItem>>, count': nat, sum': real)
    ensures r == CollectAll(items, x => CoerceItem(x, rt))
    ensures r.Ok? ==> count' == count + |r.value|
    ensures r.Ok? ==> sum' == sum + SumAmounts(r.value)
  {
    var itemSpec := (x: Json) => CoerceItem(x, rt);
    count', sum' := count, sum;
    var billItems: seq<BillItem> := [];
    var k := 0;
    while k < |items|
      invariant 0 <= k <= |items|
      invariant CollectAll(items[..k], itemSpec) == Ok(billItems)
      invariant count' == count + |billItems|
      invariant sum' == sum + SumAmounts(billItems)
    {
      var item := itemSpec(items[k]);
      if item.Err? {
        assert items[..k + 1][..k] == items[..k];
        CollectAllFailsEarly(items, itemSpec, k + 1);
        return Err(item.error), count', sum';
      }
      CollectAllStep(items, itemSpec, k, billItems);
      var done := billItems;
      billItems := done + [item.value];
      assert billItems[..|billItems| - 1] == done;
      sum' := sum' + item.value.itemAmount;
      count' := count' + 1;
      k := k + 1;
    }
    assert items[..k] == items;
    r := Ok(billItems);
  }

  /**
   * The body of the outer loop for one page: its items (through the inner
   * loop), then its page number and sub-total.
   */
  method ReconcilePage(pageData: Json, rt: Runtime, count: nat, sum: real)
    returns (r: Outcome<PageWiseLineItems>, count': nat, sum': real)
    ensures r == CoercePage(pageData, rt)
    ensures r.Ok? ==> count' == count + |r.value.billItems|
    ensures r.Ok? ==> sum' == sum + SumAmounts(r.value.billItems)
  {
    count', sum' := count, sum;
    if !pageData.JObj? {
      return Err(NotAnObject), count', sum';
    }
    var pm := pageData.fields;
    var rawItems := RawItems(pm);
    if rawItems.Err? {
      return Err(rawItems.error), count', sum';
    }
    var billItems;
    billItems, count', sum' := ReconcileItems(rawItems.value, rt, count, sum);
    if billItems.Err? {
      return Err(billItems.error), count', sum';
    }
    var subTotal := NumberOrNone(pm, "sub_total", rt);
    if subTotal.Err? {
      return Err(subTotal.error), count', sum';
    }
    r := Ok(PageWiseLineItems(PyStr(Lookup(pm, "page_no", JStr("1")), rt), billItems.value, subTotal.value));
  }

  /**
   * The outer loop over the pages: appends one typed page per raw page and keeps
   * the running item count and amount sum across all of them.
   */
  method ReconcilePages(ps: seq<Json>, rt: Runtime)
    returns (r: Outcome<seq<PageWiseLineItems>>, totalItems: nat, reconciledAmount: real)
    ensures r == CollectAll(ps, p => CoercePage(p, rt))
    ensures r.Ok? ==> totalItems == ItemCount(r.value)
    ensures r.Ok? ==> reconciledAmount == AmountSum(r.value)
  {
    var pageSpec := (p: Json) => CoercePage(p, rt);
    var pagewiseItems: seq<PageWiseLineItems> := [];
    totalItems, reconciledAmount := 0, 0.0;
    var i := 0;
    while i < |ps|
      invariant 0 <= i <= |ps|
      invariant CollectAll(ps[..i], pageSpec) == Ok(pagewiseItems)
      invariant totalItems == ItemCount(pagewiseItems)
      invariant reconciledAmount == AmountSum(pagewiseItems)
    {
      var page;
      page, totalItems, reconciledAmount := ReconcilePage(ps[i], rt, totalItems, reconciledAmount);
      if page.Err? {
        assert ps[..i + 1][..i] == ps[..i];
        CollectAllFailsEarly(ps, pageSpec, i + 1);
        return Err(page.error), totalItems, reconciledAmount;
      }
      CollectAllStep(ps, pageSpec, i, pagewiseItems);
      var before := pagewiseItems;
      pagewiseItems := before + [page.value];
      assert pagewiseItems[..|pagewiseItems| - 1] == before;
      i := i + 1;
    }
    assert ps[..i] == ps;
    r := Ok(pagewiseItems);
  }

  /**
   * The reconciliation as the service runs it: the pages with their running
   * count and sum, then the stated total and the accuracy, rounding only here.
   */
  method Reconcile(data: Json, rt: Runtime) returns (r: Outcome<ExtractedData>)
    ensures r == ReconcileSpec(data, rt)
  {
    if !data.JObj? {
      return Err(NotAnObject);
    }
    var m := data.fields;
    var rawPages := RawPages(m);
    if rawPages.Err? {
      return Err(rawPages.error);
    }
    var pages, totalItems, reconciledAmount := ReconcilePages(rawPages.value, rt);
    if pages.Err? {
      return Err(pages.error);
    }
    var total := NumberOrNone(m, "actual_bill_total", rt);
    if total.Err? {
      return Err(total.error);
    }
    var accuracy := Accuracy(reconciledAmount, total.value);
    r := Ok(ExtractedData(pages.value, totalItems, Round2(reconciledAmount), StatedTotal(total.value), accuracy));
  }
}
