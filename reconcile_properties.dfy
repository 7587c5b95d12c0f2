/**
 * What reconciliation guarantees: the invariants of the ExtractedData it builds,
 * that pages and items keep their order, that sub-totals and the stated total
 * never enter the reconciled amount, that one failing coercion fails the whole
 * call, and how the accuracy behaves.
 */
module ReconciliationProperties {
  import opened Wrappers
  import opened PyJson
  import opened Money
  import opened Models
  import opened Reconciliation

  /**
   * The count is the number of items over all pages, the reconciled amount is
   * the sum of their amounts rounded once, and an accuracy comes with a total.
   */
  lemma ReconcileEstablishesInvariants(data: Json, rt: Runtime)
    requires ReconcileSpec(data, rt).Ok?
    ensures Reconciled(ReconcileSpec(data, rt).value)
  {
    var m := data.fields;
    var pages := CollectAll(RawPages(m).value, p => CoercePage(p, rt)).value;
    FlattenCountsEveryItemOnce(pages);
  }

  /** One typed page per raw page, in order, each built from its own raw page. */
  lemma ReconcileKeepsPageOrder(data: Json, rt: Runtime)
    requires ReconcileSpec(data, rt).Ok?
    ensures data.JObj? && RawPages(data.fields).Ok?
    ensures var raw := RawPages(data.fields).value;
      var pages := ReconcileSpec(data, rt).value.pagewiseLineItems;
      && |pages| == |raw|
      && forall i :: 0 <= i < |raw| ==> CoercePage(raw[i], rt) == Ok(pages[i])
  {
    CollectAllElementwise(RawPages(data.fields).value, (p: Json) => CoercePage(p, rt));
  }

  /**
   * Reconciliation succeeds exactly when the reply is a dict, its pages can be
   * iterated, every page converts and the stated total coerces.
   */
  lemma ReconcileFailsOnAnyBadPage(data: Json, rt: Runtime)
    ensures ReconcileSpec(data, rt).Ok? <==>
      && data.JObj?
      && RawPages(data.fields).Ok?
      && (forall i :: 0 <= i < |RawPages(data.fields).value| ==> CoercePage(RawPages(data.fields).value[i], rt).Ok?)
      && NumberOrNone(data.fields, "actual_bill_total", rt).Ok?
  {
    if data.JObj? && RawPages(data.fields).Ok? {
      CollectAllElementwise(RawPages(data.fields).value, (p: Json) => CoercePage(p, rt));
    }
  }

  /**
   * A page converts exactly when it is a dict, its items can be iterated, every
   * item converts and its sub-total coerces: one bad item fails the page.
   */
  lemma PageFailsOnAnyBadItem(page: Json, rt: Runtime)
    ensures CoercePage(page, rt).Ok? <==>
      && page.JObj?
      && RawItems(page.fields).Ok?
      && (forall k :: 0 <= k < |RawItems(page.fields).value| ==> CoerceItem(RawItems(page.fields).value[k], rt).Ok?)
      && NumberOrNone(page.fields, "sub_total", rt).Ok?
  {
    if page.JObj? && RawItems(page.fields).Ok? {
      CollectAllElementwise(RawItems(page.fields).value, (x: Json) => CoerceItem(x, rt));
    }
  }

  /** An item whose "item_amount" is null fails every reconciliation that reaches it. */
  lemma NullAmountIsFatal(data: Json, rt: Runtime, i: nat, k: nat)
    requires data.JObj? && RawPages(data.fields).Ok? && i < |RawPages(data.fields).value|
    requires var page := RawPages(data.fields).value[i];
      page.JObj? && RawItems(page.fields).Ok? && k < |RawItems(page.fields).value|
      && var item := RawItems(page.fields).value[k];
      item.JObj? && "item_amount" in item.fields && item.fields["item_amount"] == JNull
    ensures ReconcileSpec(data, rt).Err?
  {
    var page := RawPages(data.fields).value[i];
    assert CoerceItem(RawItems(page.fields).value[k], rt).Err?;
    PageFailsOnAnyBadItem(page, rt);
    ReconcileFailsOnAnyBadPage(data, rt);
  }

  /** `j` without the key `key`, when it is a dict. */
  function WithoutKey(j: Json, key: string): Json {
    match j
    case JObj(m) => JObj(m - {key})
    case _ => j
  }

  /** The reply with its stated total and every page's sub-total removed. */
  function WithoutTotals(data: Json): Json {
    match data
    case JObj(m) =>
      var rest := m - {"actual_bill_total"};
      var pages := Lookup(m, "pagewise_line_items", JNull);
      if pages.JArr? then
        var ps := pages.elems;
        JObj(rest["pagewise_line_items" := JArr(seq(|ps|, i requires 0 <= i < |ps| => WithoutKey(ps[i], "sub_total")))])
      else
        JObj(rest)
    case _ => data
  }

  /** Removing a page's sub-total changes nothing about the page but the sub-total. */
  lemma PageWithoutSubtotal(page: Json, rt: Runtime)
    requires CoercePage(page, rt).Ok?
    ensures CoercePage(WithoutKey(page, "sub_total"), rt) == Ok(CoercePage(page, rt).value.(subTotal := None))
  {
    var pm := page.fields;
    var qm := pm - {"sub_total"};
    assert Lookup(qm, "bill_items", JArr([])) == Lookup(pm, "bill_items", JArr([]));
    assert Lookup(qm, "page_no", JStr("1")) == Lookup(pm, "page_no", JStr("1"));
  }

  /**
   * The double-counting guard: with the stated total and all sub-totals removed
   * the same items are found and the count and reconciled amount are the same,
   * so neither the sub-totals nor the stated total ever contribute to them.
   */
  lemma SubtotalsNeverCounted(data: Json, rt: Runtime)
    requires ReconcileSpec(data, rt).Ok?
    ensures var d := ReconcileSpec(data, rt).value;
      var e := ReconcileSpec(WithoutTotals(data), rt);
      && e.Ok?
      && e.value.totalItemCount == d.totalItemCount
      && e.value.reconciledAmount == d.reconciledAmount
      && |e.value.pagewiseLineItems| == |d.pagewiseLineItems|
      && (forall i :: 0 <= i < |d.pagewiseLineItems| ==>
            && e.value.pagewiseLineItems[i].billItems == d.pagewiseLineItems[i].billItems
            && e.value.pagewiseLineItems[i].subTotal.None?)
      && e.value.actualBillTotal.None?
      && e.value.accuracyPercentage.None?
  {
    var pageSpec := (p: Json) => CoercePage(p, rt);
    var m := data.fields;
    var raw := RawPages(m).value;
    var pages := CollectAll(raw, pageSpec).value;
    assert pages == ReconcileSpec(data, rt).value.pagewiseLineItems;
    var m' := WithoutTotals(data).fields;
    assert WithoutTotals(data).JObj? && RawPages(m').Ok? by {
      StrippedRawPages(data);
    }
    var raw' := RawPages(m').value;
    assert CollectAll(raw', pageSpec).Ok? by {
      StrippedRawPages(data);
      StrippedPagesConvert(raw, raw', rt);
    }
    var pages' := CollectAll(raw', pageSpec).value;
    assert |pages'| == |pages| && forall i :: 0 <= i < |pages| ==> pages'[i] == pages[i].(subTotal := None) by {
      StrippedRawPages(data);
      StrippedPagesConvert(raw, raw', rt);
    }
    assert ItemCount(pages') == ItemCount(pages) && AmountSum(pages') == AmountSum(pages) by {
      TotalsDependOnItemsOnly(pages, pages');
    }
    assert NumberOrNone(m', "actual_bill_total", rt) == Ok(None);
  }

  /** The pages of the stripped reply are the original pages without their sub-totals. */
  lemma StrippedRawPages(data: Json)
    requires data.JObj? && RawPages(data.fields).Ok?
    ensures WithoutTotals(data).JObj? && RawPages(WithoutTotals(data).fields).Ok?
    ensures var raw := RawPages(data.fields).value;
      var raw' := RawPages(WithoutTotals(data).fields).value;
      |raw'| == |raw| && forall i :: 0 <= i < |raw| ==> raw'[i] == WithoutKey(raw[i], "sub_total")
  {
    var m := data.fields;
    var m' := WithoutTotals(data).fields;
    var value := Lookup(m, "pagewise_line_items", JNull);
    if !value.JArr? {
      assert Lookup(m', "pagewise_line_items", JArr([])) == Lookup(m, "pagewise_line_items", JArr([]));
    }
  }

  /** Pages without sub-totals convert to the same pages with no sub-total. */
  lemma StrippedPagesConvert(raw: seq<Json>, raw': seq<Json>, rt: Runtime)
    requires CollectAll(raw, (p: Json) => CoercePage(p, rt)).Ok?
    requires |raw'| == |raw| && forall i :: 0 <= i < |raw| ==> raw'[i] == WithoutKey(raw[i], "sub_total")
    ensures var pages := CollectAll(raw, (p: Json) => CoercePage(p, rt)).value;
      var e := CollectAll(raw', (p: Json) => CoercePage(p, rt));
      && e.Ok? && |e.value| == |pages|
      && forall i :: 0 <= i < |pages| ==> e.value[i] == pages[i].(subTotal := None)
  {
    var pageSpec := (p: Json) => CoercePage(p, rt);
    CollectAllElementwise(raw, pageSpec);
    var pages := CollectAll(raw, pageSpec).value;
    forall i | 0 <= i < |raw'|
      ensures pageSpec(raw'[i]) == Ok(pages[i].(subTotal := None))
    {
      PageWithoutSubtotal(raw[i], rt);
    }
    CollectAllElementwise(raw', pageSpec);
  }

  /** The accuracy is 100 when the items add up to the stated total. */
  lemma AccuracyOfExactMatch(total: real)
    requires total > 0.0
    ensures Accuracy(total, Some(total)) == Some(100.0)
  {
    assert 100.0 * (1.0 - Abs(total - total) / total) == 10000 as real / 100.0;
    Round2Exact(10000);
  }

  /** Overshooting and undershooting the stated total by the same amount cost the same. */
  lemma AccuracyIsSymmetric(total: real, delta: real)
    ensures Accuracy(total + delta, Some(total)) == Accuracy(total - delta, Some(total))
  {
    assert Abs(total + delta - total) == Abs(total - delta - total);
  }

  /** The accuracy never exceeds 100. */
  lemma AccuracyAtMost100(sum: real, total: real)
    requires total > 0.0
    ensures Accuracy(sum, Some(total)).value <= 100.0
  {
    var x := 100.0 * (1.0 - Abs(sum - total) / total);
    assert Abs(sum - total) / total >= 0.0;
    Round2AtMost(x, 10000);
  }

  /**
   * The accuracy is not clamped: items adding up to the stated total plus twice
   * that total or more give -100 or less.
   */
  lemma AccuracyCanBeNegative(sum: real, total: real)
    requires total > 0.0 && Abs(sum - total) >= 2.0 * total
    ensures Accuracy(sum, Some(total)).value <= -100.0
  {
    var q := Abs(sum - total) / total;
    assert q >= 2.0 by {
      assert Abs(sum - total) >= 2.0 * total;
    }
    var x := 100.0 * (1.0 - q);
    assert x <= -100.0;
    Round2AtMost(x, -10000);
  }

  /** A negative stated total is reported but earns no accuracy; a zero one is not reported. */
  lemma StatedTotalWithoutAccuracy(sum: real, total: real)
    requires total <= 0.0
    ensures Accuracy(sum, Some(total)).None?
    ensures StatedTotal(Some(total)).Some? <==> total < 0.0
  {
  }

  /** A reply that is an empty dict reconciles to no pages, no items and an amount of 0. */
  lemma EmptyReplyReconcilesToZero(rt: Runtime)
    ensures ReconcileSpec(JObj(map[]), rt) == Ok(ExtractedData([], 0, 0.0, None, None))
  {
    Round2Exact(0);
    assert CollectAll([], (p: Json) => CoercePage(p, rt)) == Ok([]);
  }

  /** A one-page reply with items of the given amounts and the given stated total. */
  function OnePageReply(first: real, second: real, total: Option<real>): Json {
    var items := JArr([JObj(map["item_amount" := JNum(first)]), JObj(map["item_amount" := JNum(second)])]);
    var pages := JArr([JObj(map["bill_items" := items])]);
    if total.Some? then
      JObj(map["pagewise_line_items" := pages, "actual_bill_total" := JNum(total.value)])
    else
      JObj(map["pagewise_line_items" := pages])
  }

  /** The page OnePageReply reconciles to: page "1", two unnamed items. */
  function OnePage(first: real, second: real): PageWiseLineItems {
    PageWiseLineItems("1", [BillItem("Unknown", first), BillItem("Unknown", second)])
  }

  /** The items of the one-page reply convert to two unnamed items on page "1". */
  lemma OnePageReplyPages(first: real, second: real, total: Option<real>, rt: Runtime)
    ensures var raw := RawPages(OnePageReply(first, second, total).fields);
      && raw.Ok?
      && CollectAll(raw.value, (p: Json) => CoercePage(p, rt)) == Ok([OnePage(first, second)])
  {
    var data := OnePageReply(first, second, total);
    var raw := RawPages(data.fields).value;
    var page := raw[0];
    var items := RawItems(page.fields).value;
    var expected := OnePage(first, second).billItems;
    var itemSpec := (x: Json) => CoerceItem(x, rt);
    assert |items| == 2;
    assert itemSpec(items[0]) == Ok(expected[0]);
    assert itemSpec(items[1]) == Ok(expected[1]);
    CollectAllElementwise(items, itemSpec);
    var converted := CollectAll(items, itemSpec);
    assert converted.Ok?;
    assert converted.value == expected;
    assert CoercePage(page, rt) == Ok(OnePage(first, second));
    var pageSpec := (p: Json) => CoercePage(p, rt);
    assert pageSpec(raw[0]) == Ok(OnePage(first, second));
    CollectAllElementwise(raw, pageSpec);
    var pages := CollectAll(raw, pageSpec);
    assert pages.Ok? && pages.value == [OnePage(first, second)];
  }

  /** The one page holds two items whose amounts add up to `first + second`. */
  lemma OnePageTotals(first: real, second: real)
    ensures ItemCount([OnePage(first, second)]) == 2
    ensures AmountSum([OnePage(first, second)]) == first + second
  {
    var page := OnePage(first, second);
    assert [page][..0] == [];
    var items := page.billItems;
    assert items[..1][..0] == [];
    assert SumAmounts(items[..1]) == first;
  }

  /** Items of 100 and 50 against a stated total of 150: amount 150, accuracy 100. */
  lemma ScenarioTotalsAgree(rt: Runtime)
    ensures ReconcileSpec(OnePageReply(100.0, 50.0, Some(150.0)), rt)
      == Ok(ExtractedData([OnePage(100.0, 50.0)], 2, 150.0, Some(150.0), Some(100.0)))
  {
    OnePageReplyPages(100.0, 50.0, Some(150.0), rt);
    Round2Exact(15000);
    AccuracyOfExactMatch(150.0);
    OnePageTotals(100.0, 50.0);
  }

  /** Items of 100 and 50 against a stated total of 120: amount 150, accuracy 75. */
  lemma ScenarioTotalsDisagree(rt: Runtime)
    ensures ReconcileSpec(OnePageReply(100.0, 50.0, Some(120.0)), rt)
      == Ok(ExtractedData([OnePage(100.0, 50.0)], 2, 150.0, Some(120.0), Some(75.0)))
  {
    var data := OnePageReply(100.0, 50.0, Some(120.0));
    OnePageReplyPages(100.0, 50.0, Some(120.0), rt);
    OnePageTotals(100.0, 50.0);
    Round2Exact(15000);
    Round2Exact(12000);
    assert NumberOrNone(data.fields, "actual_bill_total", rt) == Ok(Some(120.0));
    AccuracyOfScenario();
  }

  /** 150 against a stated 120 is 75 per cent accurate. */
  lemma AccuracyOfScenario()
    ensures Accuracy(150.0, Some(120.0)) == Some(75.0)
  {
    assert 100.0 * (1.0 - Abs(150.0 - 120.0) / 120.0) == 7500 as real / 100.0;
    Round2Exact(7500);
  }

  /** Without a stated total the amount is still reconciled and no accuracy is given. */
  lemma ScenarioNoStatedTotal(rt: Runtime)
    ensures ReconcileSpec(OnePageReply(100.0, 50.0, None), rt)
      == Ok(ExtractedData([OnePage(100.0, 50.0)], 2, 150.0, None, None))
  {
    OnePageReplyPages(100.0, 50.0, None, rt);
    Round2Exact(15000);
    OnePageTotals(100.0, 50.0);
  }
}
