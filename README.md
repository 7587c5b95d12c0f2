# Bill extraction service: a verified model

The service reads a bill page in one of two ways: an image plus its OCR text, or the OCR text
alone. It asks a large language model (OpenAI or Google Gemini, whichever is configured) for the
page's line items as JSON. It then reconciles the untrusted reply into a typed `ExtractedData`:
- every field is coerced or given its default;
- the reconciled amount is the sum of the individual item amounts only, so page sub-totals and
  the stated bill total are never counted a second time;
- an accuracy percentage compares that sum with the total the bill states.

This project models that core in Dafny:
- `Models` (`models.dfy`): the pydantic record types. It also holds the item count and amount
  sum over pages, and the invariant every reconciled result satisfies.
- `PyJson` (`json.dfy`): the reply as a JSON value, and the Python operations the
  reconciliation applies to it: `dict.get`, iterating with `for`, truthiness, `float()` and
  `str()`. Every way these can raise is an `Err`.
- `Money` (`money.dfy`): `abs` and `round(x, 2)`, modelled as round-half-to-even on exact
  reals.
- `Text` (`text.dfy`): `in`, `split(sep)[0]`, `split(sep)[1]`, `s[:n]` and `strip()`. It also
  holds the markdown fence stripping every strategy applies to a reply.
- `Prompts` (`prompts.dfy`): the extraction instructions, verbatim. It also builds the vision
  prompt (with at most 2000 characters of OCR text) and the fallback prompt (with all of it).
- `Reconciliation` (`reconcile.dfy`): `reconcile_amounts`.
  - `ReconcileSpec` is the function that specifies it.
  - The methods `ReconcileItems`, `ReconcilePage`, `ReconcilePages` and `Reconcile` are its
    loops, each proved equal to that function.
- `ReconciliationProperties` (`reconcile_properties.dfy`): what reconciliation guarantees.
  - The item count and the amount agree with the flat list of items.
  - Sub-totals and the stated total never change the count or the sum.
  - Any bad page or item fails the whole reconciliation.
  - Accuracy is symmetric, at most 100, and can go negative.
  - Worked scenarios.
- `ExtractionService` (`service.dfy`): the `BillExtractionService` class.
  - Its client handles are fixed once by its constructor.
  - It has the two vision strategies and the text-only fallback.
  - `ExtractBillData` runs at most one vision attempt and at most one fallback attempt, then
    reconciles the result. It gives back nothing when both attempts fail or reconciliation
    raises.

The vendor SDKs, the PNG encoding of the image, `json.loads`, `float(str)` and `str()` of
numbers, lists and dicts are code this model cannot see. They are parameters:
- `Vendors` is a record of functions, one per endpoint. Each maps a prompt (and an image) to
  the reply text, or to None when the call raises. It also holds `image_to_base64`, which
  gives None when saving the image as PNG raises. The OpenAI vision strategy runs it before
  its call, so a failed encoding means no OpenAI vision call is made.
- `Runtime` is a record of functions for parsing JSON, parsing a float from a string and
  printing a value.

`ExtractBillData` also returns the list of vendor calls it made, so its contract can say which
endpoints were called and with which prompts.

Where the code and the written description of the service differ, the model follows the code:
- A stated bill total of exactly 0 is reported as absent, because `round(actual_total, 2) if
  actual_total else None` tests truthiness (`StatedTotal`). It is not reported as 0.
- A missing `item_amount` defaults to 0, but an `item_amount` of JSON `null` raises in
  `float(None)`, which fails the whole reconciliation (`NullAmountIsFatal`).
- Only the first `` ```json `` fence (or the first pair of `` ``` `` fences) is used. Text after
  a later fence is dropped (`StripJsonFence`, `StripPlainFence`).

## Model

| member | source | states |
|---|---|---|
| Money.Abs | app/extraction_service.py:333 | `abs` is never negative and is the value or its negation |
| Money.RoundHalfEven | app/extraction_service.py:334 | the result is within one half of the argument, leaves integers unchanged, and sends an exact tie to the even neighbour, as Python's `round` does |
| Money.Round2 | app/extraction_service.py:339 | `round(x, 2)` is a whole number of hundredths within 0.005 of `x` |
| Money.Round2Exact | app/extraction_service.py:339 | a value already in whole hundredths is left unchanged by `round(x, 2)` |
| Money.Round2Error | app/extraction_service.py:339 | `round(x, 2)` moves a value by at most 0.005 |
| Money.Round2Idempotent | app/extraction_service.py:339-340 | rounding an already rounded amount changes nothing |
| Money.Round2AtMost | app/extraction_service.py:334 | rounding never lifts a value above a whole number of hundredths that it does not exceed |
| PyJson.Truthy | app/extraction_service.py:364 | the falsy values are exactly None, False, 0 and the empty string, list and dict |
| PyJson.Iterate | app/extraction_service.py:301 | a `for` loop over a list visits its elements in order; one over None, a number or a bool raises; one over a non-empty string or dict raises at the first `.get` |
| PyJson.ToFloat | app/extraction_service.py:308 | `float()` succeeds exactly on numbers, bools (as 1.0 or 0.0) and parsable strings, giving the parsed value for a string, and raises on None, lists and dicts |
| PyJson.NumberOrDefault | app/extraction_service.py:308 | an absent key gives the default; a present value, whatever its kind, gives exactly what `float()` of it gives, so null raises and a number is kept as it is |
| PyJson.NumberOrNone | app/extraction_service.py:309-310 | the result is None exactly when the key is absent or null; it raises exactly when `float()` of the present value raises; otherwise it is that value as a float |
| PyJson.PyStr | app/extraction_service.py:320 | `str()` returns a string unchanged, gives "None" for null, and gives "True" or "False" for bools |
| Text.Find | app/extraction_service.py:148 | returns the first occurrence at or after the start, or None exactly when there is no occurrence there |
| Text.Before | app/extraction_service.py:149 | `split(sep)[0]` is a prefix that holds no `sep`, no `sep` starts inside it, and it is the whole text or stops exactly at the first `sep` |
| Text.SplitSecond | app/extraction_service.py:149 | `split(sep)[1]` is the text after the first `sep` up to the start of the next `sep` (no `sep` starts earlier), or to the end when there is none |
| Text.StripFences | app/extraction_service.py:148-151 | after stripping, no fence remains when the reply had one, and a reply without a fence is unchanged |
| Text.StripJsonFence | app/extraction_service.py:148-149 | with a "```json" fence, the result is the text after the first one, up to a "```" or the end; the result ends at the first "```" of the segment before the next "```json", or is that whole segment |
| Text.StraddlingBacktickIsKept | app/extraction_service.py:148-149 | for "```jsonx````json" the result is "x`": a backtick run that reaches into the second "```json" is not cut, although the text after the first fence holds a "```" at index 1 |
| Text.StripPlainFence | app/extraction_service.py:150-151 | with only "```" fences, the result is the text after the first fence up to the start of the next one (no fence starts earlier), or to the end |
| Text.StripFencesIdempotent | app/extraction_service.py:219-222 | stripping the fences of an already stripped reply changes nothing |
| Text.StripFencesUnwraps | app/extraction_service.py:275-278 | a body without backticks wrapped in "```json" … "```" comes back exactly |
| Text.Take | app/extraction_service.py:141 | `s[:n]` is a prefix of `s` of length `min(len(s), n)` |
| Text.SpaceFrom | app/extraction_service.py:153 | the first index from a start that holds no white space; everything before it is white space |
| Text.SpaceBefore | app/extraction_service.py:153 | the end of the text once its trailing white space is cut, never before the given start |
| Text.Strip | app/extraction_service.py:153 | `strip()` returns the middle of the text: only white space lies before and after it, and it neither starts nor ends with white space |
| Text.NoBacktickNoFence | app/extraction_service.py:150 | a text without a backtick contains no fence, so stripping leaves it unchanged |
| Prompts.VisionPrompt | app/extraction_service.py:140-141 | a vision prompt starts with the instructions of `create_extraction_prompt` and the OCR header, and what follows is a prefix of the OCR text of at most 2000 characters |
| Prompts.FallbackPrompt | app/extraction_service.py:250-251 | the fallback prompt starts with the instructions and the "Bill Text" header, and what follows is the whole OCR text |
| Prompts.VisionPromptIsBounded | app/extraction_service.py:140-141 | a vision prompt is the instructions, the OCR header and at most the first 2000 characters of the OCR text |
| Prompts.VisionPromptIgnoresTail | app/extraction_service.py:187 | text past the first 2000 characters of the OCR text never changes the vision prompt |
| Prompts.FallbackPromptCarriesWholeText | app/extraction_service.py:250-251 | the fallback prompt ends with the whole OCR text, and different texts give different prompts |
| Models.FlattenCountsEveryItemOnce | app/models.py:21-25 | the page-by-page item count and amount sum equal the length and sum of the flat list of every item |
| Models.TotalsDependOnItemsOnly | app/extraction_service.py:314-316 | the count and the sum read only each page's items, never its page number or sub-total |
| Models.ParseRequest | app/models.py:30-32 | a request body is valid exactly when it is an object whose "document" is a string, and the request holds that string |
| Models.RequestRoundTrip | app/models.py:30-32 | every request survives a round trip through its JSON form |
| Reconciliation.CollectAllElementwise | app/extraction_service.py:301-324 | a loop that builds a list succeeds exactly when every element converts, and then holds each element's conversion at its position |
| Reconciliation.CollectAllStep | app/extraction_service.py:312 | one more element that converts appends its value to the list built so far |
| Reconciliation.CollectAllFailsEarly | app/extraction_service.py:304-312 | once an element fails, the loop ends with that failure whatever follows |
| Reconciliation.CoerceItem | app/extraction_service.py:306-311 | an item converts exactly when it is a dict, its amount, rate and quantity coerce with `float()` and its name, if present, is a string; the name defaults to "Unknown" and the amount to 0; rate and quantity are None exactly when absent or null and otherwise the coerced number, 0 included |
| Reconciliation.CoercePage | app/extraction_service.py:319-323 | a page keeps its items in order; its page number is `str()` of the value, "1" when absent and "None" when null; its sub-total is None exactly when absent or null and otherwise the coerced number |
| Reconciliation.Accuracy | app/extraction_service.py:330-334 | an accuracy is given exactly when the stated total is present and positive |
| Reconciliation.StatedTotal | app/extraction_service.py:340 | the stated total is reported exactly when it is present and non-zero |
| Reconciliation.ReconcileItems | app/extraction_service.py:304-316 | the inner loop equals the item-by-item conversion and adds each item's amount and a count of one |
| Reconciliation.ReconcilePage | app/extraction_service.py:302-324 | one pass of the outer loop equals the page conversion and carries the running count and sum over its items |
| Reconciliation.ReconcilePages | app/extraction_service.py:297-324 | the outer loop equals the page-by-page conversion, and its count and sum are those of the pages built |
| Reconciliation.Reconcile | app/extraction_service.py:287-342 | `reconcile_amounts` equals its specification `ReconcileSpec` on every reply, error cases included |
| Reconciliation.ReconcileSpec | app/extraction_service.py:287-342 | a reply that is not a dict raises at its first `.get`; a successful reconciliation has one page per raw page, reports the stated total exactly when it is present and non-zero, and an accuracy exactly when it is present and positive |
| ReconciliationProperties.ReconcileEstablishesInvariants | app/models.py:21-27 | a reconciled result counts every item once, its amount is the rounded sum of the item amounts, and an accuracy only appears with a stated total |
| ReconciliationProperties.ReconcileKeepsPageOrder | app/extraction_service.py:301-324 | the pages of the result are the raw pages, converted one by one in their order |
| ReconciliationProperties.ReconcileFailsOnAnyBadPage | app/extraction_service.py:301-328 | reconciliation succeeds exactly when the reply is an object, every page converts and the stated total converts |
| ReconciliationProperties.PageFailsOnAnyBadItem | app/extraction_service.py:304-323 | a page converts exactly when it is an object, every item converts and its sub-total converts |
| ReconciliationProperties.NullAmountIsFatal | app/extraction_service.py:308 | a single item whose amount is null fails the whole reconciliation |
| ReconciliationProperties.PageWithoutSubtotal | app/extraction_service.py:322 | removing a page's sub-total changes only the page's sub-total |
| ReconciliationProperties.SubtotalsNeverCounted | app/extraction_service.py:314-316 | removing every sub-total and the stated total leaves the item count and the reconciled amount unchanged |
| ReconciliationProperties.StrippedRawPages | app/extraction_service.py:301 | the reply without totals has the same pages, each without its sub-total |
| ReconciliationProperties.StrippedPagesConvert | app/extraction_service.py:319-323 | pages without sub-totals convert to the same pages with no sub-total |
| ReconciliationProperties.AccuracyOfExactMatch | app/extraction_service.py:333-334 | when the sum equals the stated total, the accuracy is 100 |
| ReconciliationProperties.AccuracyIsSymmetric | app/extraction_service.py:333 | overshooting and undershooting the stated total by the same amount give the same accuracy |
| ReconciliationProperties.AccuracyAtMost100 | app/extraction_service.py:333-334 | the accuracy never exceeds 100 |
| ReconciliationProperties.AccuracyCanBeNegative | app/extraction_service.py:333-334 | when the sum misses the stated total by twice the total or more, the accuracy is -100 or less; it is not clamped |
| ReconciliationProperties.StatedTotalWithoutAccuracy | app/extraction_service.py:332 | a stated total of zero or less gives no accuracy; a negative one is still reported |
| ReconciliationProperties.EmptyReplyReconcilesToZero | app/extraction_service.py:297-342 | an empty object reconciles to no pages, zero items, amount 0 and no totals |
| ReconciliationProperties.OnePageReplyPages | app/extraction_service.py:319-323 | two bare amounts on one page become two "Unknown" items on page "1" |
| ReconciliationProperties.OnePageTotals | app/extraction_service.py:315-316 | that page counts two items, and its sum is the sum of the two amounts |
| ReconciliationProperties.ScenarioTotalsAgree | app/extraction_service.py:326-342 | items of 100 and 50 with a stated total of 150 give amount 150 and accuracy 100 |
| ReconciliationProperties.ScenarioTotalsDisagree | app/extraction_service.py:326-342 | the same items with a stated total of 120 give amount 150 and accuracy 75 |
| ReconciliationProperties.AccuracyOfScenario | app/extraction_service.py:333-334 | a sum of 150 against a stated 120 is 75 per cent accurate |
| ReconciliationProperties.ScenarioNoStatedTotal | app/extraction_service.py:326-342 | the same items without a stated total give no total and no accuracy |
| ExtractionService.ParseReply | app/extraction_service.py:148-153 | a failed call gives nothing; a reply without a fence is parsed after `strip()` alone |
| ExtractionService.FencedReplyReadsAsBare | app/extraction_service.py:148-153 | a JSON reply wrapped in a "```json" fence parses as the bare reply would |
| ExtractionService.Lower | app/extraction_service.py:27 | the provider name is lowered character by character and keeps its length |
| ExtractionService.BillExtractionService.constructor | app/extraction_service.py:25-39 | an OpenAI client exists exactly when the provider is "openai" and its key is set; a Gemini model exists exactly when the provider is "gemini", its key is set and its library is installed; never both |
| ExtractionService.BillExtractionService.ExtractWithGemini | app/extraction_service.py:123-162 | without a Gemini model nothing is called and nothing is returned; with one, exactly one Gemini vision call with the bounded prompt and the image, whose parsed reply is the result |
| ExtractionService.BillExtractionService.ExtractWithVision | app/extraction_service.py:164-233 | without an OpenAI client, or when encoding the image raises, nothing is called and nothing is returned; otherwise exactly one OpenAI vision call with the bounded prompt and the base64 image, whose parsed reply is the result |
| ExtractionService.BillExtractionService.FallbackExtraction | app/extraction_service.py:235-285 | without a client nothing is called; otherwise one text call with the whole OCR text, to Gemini when its model exists and to OpenAI otherwise, whose parsed reply is the result |
| ExtractionService.BillExtractionService.ExtractBillData | app/extraction_service.py:344-378 | the configured provider's vision call comes first, except that OpenAI's is skipped when the image cannot be encoded and the text call is then the only one; the text fallback is called only when vision yields nothing usable; there are at most two calls and none without a client; the result is present exactly when the data chosen is usable and reconciles, and then it is that reconciliation and satisfies the reconciled invariant |

## Left out

- The vendor SDKs (OpenAI chat completions, `google.generativeai`) are parameters. Their model names, token limits and temperatures live in `config.py`, which is not part of this model.
- `json.loads` is a parameter of the model. Whether a reply parses is not modelled.
- `float()` of a string, including "nan" and "inf", is a parameter. So is `str()` of numbers, lists and dicts.
- Floating point is not modelled. Amounts are exact reals, so sums do not accumulate binary rounding error, and `round` rounds the exact value. NaN and infinities are not represented. The JSON number model does not tell integers from floats, and it does not model the `OverflowError` of huge integers.
- The PNG encoding inside `image_to_base64` is a parameter. The image is an opaque byte sequence, and only whether encoding succeeds, and the base64 text it gives, reach the model.
- Logging is left out; it has no effect on results.
- `ExtractionService.Lower`: lowers ASCII letters only. Python's `str.lower` also lowers other scripts, which only matters for provider names that could never equal "openai" or "gemini".
- `Reconciliation.CoerceItem`: a non-string item name is rejected, as pydantic 2 validation does. A version of pydantic that converts numbers to strings would accept it.
- `PyJson.Iterate`: looping over a non-empty string or dict is modelled as failing at once. In the source it yields strings on which the `.get` of the next step raises, so the outcome is the same.
- `ocr_service.py`, `main.py` (the HTTP endpoint, document download and PDF handling), `run.py`, `test_api.py` and `examples/api_examples.py` are not part of this model.
- The module-level singleton instance is not modelled; the constructor takes the configuration as arguments.
- `BillExtractionResponse` is declared but has no operation in this core.
