/**
 * The typed records the service returns (pydantic models): a line item, the
 * items of one page, the reconciled extraction, and the request and response of
 * the public endpoint. A field declared with `Field(None, ...)` is an Option
 * whose default is None.
 */
module Models {
  import opened Wrappers
  import opened PyJson
  import opened Money

  /** One line of a bill; the amount is always a number, rate and quantity may be unknown. */
  datatype BillItem = BillItem(
    itemName: string,
    itemAmount: real,
    itemRate: Option<real> := None,
    itemQuantity: Option<real> := None)

  /** The line items of one page, in the order they were extracted. */
  datatype PageWiseLineItems = PageWiseLineItems(
    pageNo: string,
    billItems: seq<BillItem>,
    subTotal: Option<real> := None)

  /** The reconciled result of one extraction. */
  datatype ExtractedData = ExtractedData(
    pagewiseLineItems: seq<PageWiseLineItems>,
    totalItemCount: int,
    reconciledAmount: real,
    actualBillTotal: Option<real> := None,
    accuracyPercentage: Option<real> := None)

  /** The body of a request: the URL or path of the document. */
  datatype BillExtractionRequest = BillExtractionRequest(document: string)

  /** The body of a response. */
  datatype BillExtractionResponse = BillExtractionResponse(
    isSuccess: bool,
    data: Option<ExtractedData> := None,
    error: Option<string> := None)

  /** The sum of the amounts of `items`. */
  function SumAmounts(items: seq<BillItem>): real {
    if items == [] then 0.0
    else SumAmounts(items[..|items| - 1]) + items[|items| - 1].itemAmount
  }

  /** The number of line items over all pages. */
  function ItemCount(pages: seq<PageWiseLineItems>): nat {
    if pages == [] then 0
    else ItemCount(pages[..|pages| - 1]) + |pages[|pages| - 1].billItems|
  }

  /** The sum of the item amounts over all pages; sub-totals take no part. */
  function AmountSum(pages: seq<PageWiseLineItems>): real {
    if pages == [] then 0.0
    else AmountSum(pages[..|pages| - 1]) + SumAmounts(pages[|pages| - 1].billItems)
  }

  /** Every item of every page, page after page, each page's items in order. */
  function Flatten(pages: seq<PageWiseLineItems>): seq<BillItem> {
    if pages == [] then []
    else Flatten(pages[..|pages| - 1]) + pages[|pages| - 1].billItems
  }

  lemma {:induction false} SumAmountsAppend(a: seq<BillItem>, b: seq<BillItem>)
    ensures SumAmounts(a + b) == SumAmounts(a) + SumAmounts(b)
    decreases |b|
  {
    if b != [] {
      assert (a + b)[..|a + b| - 1] == a + b[..|b| - 1];
      SumAmountsAppend(a, b[..|b| - 1]);
    } else {
      assert a + b == a;
    }
  }

  /**
   * The page-by-page count and sum are the count and sum of the flat list of
   * all items: each item is counted exactly once, and nothing else is added.
   */
  lemma {:induction false} FlattenCountsEveryItemOnce(pages: seq<PageWiseLineItems>)
    ensures ItemCount(pages) == |Flatten(pages)|
    ensures AmountSum(pages) == SumAmounts(Flatten(pages))
    decreases |pages|
  {
    if pages != [] {
      var init := pages[..|pages| - 1];
      FlattenCountsEveryItemOnce(init);
      SumAmountsAppend(Flatten(init), pages[|pages| - 1].billItems);
    }
  }

  /** Count and sum read only the items of each page, never its page number or sub-total. */
  lemma {:induction false} TotalsDependOnItemsOnly(pages: seq<PageWiseLineItems>, others: seq<PageWiseLineItems>)
    requires |pages| == |others|
    requires forall i :: 0 <= i < |pages| ==> pages[i].billItems == others[i].billItems
    ensures ItemCount(pages) == ItemCount(others)
    ensures AmountSum(pages) == AmountSum(others)
    decreases |pages|
  {
    if pages != [] {
      TotalsDependOnItemsOnly(pages[..|pages| - 1], others[..|others| - 1]);
    }
  }

  /**
   * What a well-formed ExtractedData promises: the count is the number of items,
   * the reconciled amount is the rounded sum of the item amounts, and an accuracy
   * is only given next to a stated total.
   */
  ghost predicate Reconciled(d: ExtractedData) {
    && d.totalItemCount == |Flatten(d.pagewiseLineItems)|
    && d.reconciledAmount == Round2(SumAmounts(Flatten(d.pagewiseLineItems)))
    && (d.accuracyPercentage.Some? ==> d.actualBillTotal.Some?)
  }

  /** pydantic's validation of a request body: a dict whose "document" is a string. */
  function ParseRequest(body: Json): (r: Option<BillExtractionRequest>)
    ensures r.Some? <==> body.JObj? && "document" in body.fields && body.fields["document"].JStr?
    ensures r.Some? ==> r.value.document == body.fields["document"].s
  {
    if body.JObj? && "document" in body.fields && body.fields["document"].JStr? then
      Some(BillExtractionRequest(body.fields["document"].s))
    else
      None
  }

  /** The JSON a client sends for a request. */
  function RequestJson(request: BillExtractionRequest): Json {
    JObj(map["document" := JStr(request.document)])
  }

  /** Every request survives a trip through its JSON form. */
  lemma RequestRoundTrip(request: BillExtractionRequest)
    ensures ParseRequest(RequestJson(request)) == Some(request)
  {
    var fields := RequestJson(request).fields;
    assert "document" in fields && fields["document"] == JStr(request.document);
  }
}
