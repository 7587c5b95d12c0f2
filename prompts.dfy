/**
 * The instructions sent to the model. The base prompt is a fixed text; a vision
 * request appends at most the first 2000 characters of the OCR text, the
 * text-only fallback appends all of it.
 */
module Prompts {
  import opened Text

  /** The fixed extraction instructions, with the JSON shape the reply must take. */
  const BasePrompt: string := @"You are an expert at extracting structured data from bills and invoices.

Analyze this bill/invoice image and extract ALL line items with their details. Follow these instructions carefully:

1. **Extract ALL line items**: Don't miss any item. Look for:
   - Item names/descriptions
   - Quantities
   - Rates (price per unit)
   - Amounts (total for that line item)

2. **Page-wise extraction**: If this is a multi-page bill, note which page each item is on.

3. **Identify sub-totals**: If there are sub-totals on any page, include them.

4. **Calculate final total**: Sum all individual line item amounts WITHOUT double-counting:
   - Do NOT include sub-totals in the final sum
   - Do NOT include tax lines if they're already included in item amounts
   - Only sum the actual line item amounts

5. **Extract actual bill total**: Find the final total amount printed on the bill.

6. **Handle edge cases**:
   - Items that span multiple lines
   - Items with discounts
   - Items with taxes
   - Different currencies or units

Return the data in this EXACT JSON format:
```json
{
  ""pagewise_line_items"": [
    {
      ""page_no"": ""1"",
      ""bill_items"": [
        {
          ""item_name"": ""Item Name"",
          ""item_amount"": 100.00,
          ""item_rate"": 50.00,
          ""item_quantity"": 2
        }
      ],
      ""sub_total"": 100.00
    }
  ],
  ""actual_bill_total"": 100.00,
  ""extraction_notes"": ""Any important notes about the extraction""
}
```

Important:
- Use null for missing values (rate, quantity, sub_total)
- Ensure all amounts are numbers (not strings)
- Be precise with decimal values
- If you can't determine a value confidently, use null
- Include extraction_notes for any ambiguities or special cases

Return ONLY the JSON, no additional text."

  /** How much OCR text a vision request carries. */
  const OcrContextLength: nat := 2000

  const VisionHeader: string := "\n\nOCR Text (for reference):\n"
  const FallbackHeader: string := "\n\nBill Text:\n"

  /** The prompt of a vision request: the instructions and a bounded prefix of the OCR text. */
  function VisionPrompt(ocrText: string): (p: string)
    ensures BasePrompt + VisionHeader <= p
    ensures |p| <= |BasePrompt| + |VisionHeader| + OcrContextLength
    ensures p[|BasePrompt| + |VisionHeader|..] <= ocrText
  {
    BasePrompt + VisionHeader + Take(ocrText, OcrContextLength)
  }

  /** The prompt of the text-only fallback: the instructions and the whole OCR text. */
  function FallbackPrompt(ocrText: string): (p: string)
    ensures BasePrompt + FallbackHeader <= p
    ensures p[|BasePrompt| + |FallbackHeader|..] == ocrText
  {
    BasePrompt + FallbackHeader + ocrText
  }

  /**
   * A vision prompt carries at most 2000 characters of OCR text: all of a short
   * text, and the first 2000 characters of a longer one.
   */
  lemma VisionPromptIsBounded(ocrText: string)
    ensures |VisionPrompt(ocrText)| <= |BasePrompt| + |VisionHeader| + OcrContextLength
    ensures |ocrText| <= OcrContextLength ==> VisionPrompt(ocrText) == BasePrompt + VisionHeader + ocrText
    ensures |ocrText| > OcrContextLength ==> VisionPrompt(ocrText) == BasePrompt + VisionHeader + ocrText[..OcrContextLength]
  {
  }

  /** Whatever follows the first 2000 characters of the OCR text never reaches a vision prompt. */
  lemma VisionPromptIgnoresTail(ocrText: string, tail: string)
    requires |ocrText| >= OcrContextLength
    ensures VisionPrompt(ocrText + tail) == VisionPrompt(ocrText)
  {
    assert (ocrText + tail)[..OcrContextLength] == ocrText[..OcrContextLength];
  }

  /** The fallback prompt carries the whole OCR text: it ends with it, and different texts give different prompts. */
  lemma FallbackPromptCarriesWholeText(ocrText: string, other: string)
    ensures var p := FallbackPrompt(ocrText); |p| >= |ocrText| && p[|p| - |ocrText|..] == ocrText
    ensures FallbackPrompt(ocrText) == FallbackPrompt(other) ==> ocrText == other
  {
    var prefix := BasePrompt + FallbackHeader;
    assert FallbackPrompt(ocrText)[|prefix|..] == ocrText;
    assert FallbackPrompt(other)[|prefix|..] == other;
  }
}
