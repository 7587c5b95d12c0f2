/**
 * The extraction service: the client handles chosen once from configuration,
 * the vision strategies of the two providers, the text-only fallback, and the
 * dispatch that tries a vision strategy, falls back to text when it yields
 * nothing, and reconciles the result.
 */
module ExtractionService {
  import opened Wrappers
  import opened PyJson
  import opened Text
  import opened Prompts
  import opened Models
  import opened Reconciliation
  import opened ReconciliationProperties

  /** The page image a vision model is shown, by its encoded bytes. */
  datatype Image = Image(encoded: seq<bv8>)

  /**
   * A request made to a vendor's model: which endpoint, with what prompt. The
   * OpenAI vision endpoint is sent the page as base64-encoded PNG.
   */
  datatype VendorCall =
    | GeminiVision(prompt: string, image: Image)
    | OpenAIVision(prompt: string, imageBase64: string)
    | GeminiText(prompt: string)
    | OpenAIText(prompt: string)

  /**
   * The vendors' models, as the text of their reply to a request, or None where
   * the call (or reading its reply) raises; and `image_to_base64`, the PNG
   * encoding of a page in base64, None where saving the image as PNG raises.
   */
  datatype Vendors = Vendors(
    imageToBase64: Image -> Option<string>,
    geminiVision: (string, Image) -> Option<string>,
    openaiVision: (string, string) -> Option<string>,
    geminiText: string -> Option<string>,
    openaiText: string -> Option<string>)

  /** What one strategy produced, and the vendor calls it made. */
  datatype Attempt = Attempt(data: Option<Json>, calls: seq<VendorCall>)

  /**
   * Reading a reply: strip markdown fences, strip white space, parse JSON.
   * A failed call or a reply that does not parse gives None.
   */
  function ParseReply(reply: Option<string>, rt: Runtime): (r: Option<Json>)
    ensures reply.None? ==> r.None?
    ensures reply.Some? && !Contains(reply.value, Fence) ==> r == rt.loads(Strip(reply.value))
  {
    if reply.None? then None else rt.loads(Strip(StripFences(reply.value)))
  }

  /**
   * A reply whose JSON (without backticks) is wrapped in a "```json" fence
   * reads as the bare JSON would.
   */
  lemma FencedReplyReadsAsBare(body: string, rt: Runtime)
    requires forall k :: 0 <= k < |body| ==> body[k] != '`'
    ensures ParseReply(Some(JsonFence + body + Fence), rt) == ParseReply(Some(body), rt)
  {
    StripFencesUnwraps(body);
    NoBacktickNoFence(body);
  }

  /** `if not data`: a strategy result counts only when present and truthy. */
  predicate Usable(data: Option<Json>) {
    data.Some? && Truthy(data.value)
  }

  function LowerChar(c: char): char {
    if 'A' <= c <= 'Z' then (c as int + 32) as char else c
  }

  /** `str.lower()` on the ASCII letters, enough to compare with "openai" and "gemini". */
  function Lower(s: string): (r: string)
    ensures |r| == |s| && forall i :: 0 <= i < |s| ==> r[i] == LowerChar(s[i])
  {
    if s == [] then [] else [LowerChar(s[0])] + Lower(s[1..])
  }

  /**
   * The service. The provider name and which client exists are fixed when it
   * is built and never change afterwards.
   */
  class BillExtractionService {
    const provider: string
    const openaiClient: bool
    const geminiModel: bool

    /** At most one client exists, and it belongs to the configured provider. */
    predicate Valid() {
      && !(openaiClient && geminiModel)
      && (openaiClient ==> provider == "openai")
      && (geminiModel ==> provider == "gemini")
    }

    /**
     * Builds the client of the configured provider when its API key is set (and,
     * for Gemini, its library is installed); otherwise no client.
     */
    constructor (llmProvider: string, openaiApiKey: string, geminiApiKey: string, geminiAvailable: bool)
      ensures provider == Lower(llmProvider)
      ensures openaiClient <==> provider == "openai" && openaiApiKey != ""
      ensures geminiModel <==> provider == "gemini" && geminiApiKey != "" && geminiAvailable
      ensures Valid()
    {
      var p := Lower(llmProvider);
      provider := p;
      if p == "openai" && openaiApiKey != "" {
        openaiClient, geminiModel := true, false;
      } else if p == "gemini" && geminiApiKey != "" && geminiAvailable {
        openaiClient, geminiModel := false, true;
      } else {
        openaiClient, geminiModel := false, false;
      }
    }

    /** The Gemini vision strategy: instructions, bounded OCR text and the image. */
    function ExtractWithGemini(image: Image, ocrText: string, vendors: Vendors, rt: Runtime): (a: Attempt)
      ensures !geminiModel ==> a == Attempt(None, [])
      ensures geminiModel ==> a.calls == [GeminiVision(VisionPrompt(ocrText), image)]
      ensures Valid() ==> a.data == (if geminiModel then VisionData(image, ocrText, vendors, rt) else None)
    {
      if !geminiModel then Attempt(None, [])
      else
        var prompt := VisionPrompt(ocrText);
        Attempt(ParseReply(vendors.geminiVision(prompt, image), rt), [GeminiVision(prompt, image)])
    }

    /**
     * The OpenAI vision strategy: the image is encoded first, and an encoding
     * that raises ends the strategy before any call; then the instructions,
     * bounded OCR text and the encoded image.
     */
    function ExtractWithVision(image: Image, ocrText: string, vendors: Vendors, rt: Runtime): (a: Attempt)
      ensures !openaiClient || vendors.imageToBase64(image).None? ==> a == Attempt(None, [])
      ensures openaiClient && vendors.imageToBase64(image).Some? ==>
        a.calls == [OpenAIVision(VisionPrompt(ocrText), vendors.imageToBase64(image).value)]
      ensures Valid() ==> a.data == (if openaiClient then VisionData(image, ocrText, vendors, rt) else None)
    {
      if !openaiClient then Attempt(None, [])
      else
        var encoded := vendors.imageToBase64(image);
        if encoded.None? then Attempt(None, [])
        else
          var prompt := VisionPrompt(ocrText);
          Attempt(ParseReply(vendors.openaiVision(prompt, encoded.value), rt), [OpenAIVision(prompt, encoded.value)])
    }

    /** The text-only strategy: instructions and the whole OCR text, Gemini first. */
    function FallbackExtraction(ocrText: string, vendors: Vendors, rt: Runtime): (a: Attempt)
      ensures a.data == FallbackData(ocrText, vendors, rt)
      ensures !openaiClient && !geminiModel ==> a.calls == []
      ensures geminiModel ==> a.calls == [GeminiText(FallbackPrompt(ocrText))]
      ensures !geminiModel && openaiClient ==> a.calls == [OpenAIText(FallbackPrompt(ocrText))]
    {
      if !openaiClient && !geminiModel then Attempt(None, [])
      else
        var prompt := FallbackPrompt(ocrText);
        if geminiModel then Attempt(ParseReply(vendors.geminiText(prompt), rt), [GeminiText(prompt)])
        else Attempt(ParseReply(vendors.openaiText(prompt), rt), [OpenAIText(prompt)])
    }

    /**
     * Whether a vision model is called: Gemini's whenever it exists, OpenAI's
     * only once the image has been encoded.
     */
    predicate VisionCalled(image: Image, vendors: Vendors) {
      geminiModel || (openaiClient && vendors.imageToBase64(image).Some?)
    }

    /** What the configured provider's vision model yields (None when it is not called). */
    function VisionData(image: Image, ocrText: string, vendors: Vendors, rt: Runtime): Option<Json> {
      if geminiModel then ParseReply(vendors.geminiVision(VisionPrompt(ocrText), image), rt)
      else if openaiClient && vendors.imageToBase64(image).Some? then
        ParseReply(vendors.openaiVision(VisionPrompt(ocrText), vendors.imageToBase64(image).value), rt)
      else None
    }

    /** What the configured provider's text model yields (None without a client). */
    function FallbackData(ocrText: string, vendors: Vendors, rt: Runtime): Option<Json> {
      if geminiModel then ParseReply(vendors.geminiText(FallbackPrompt(ocrText)), rt)
      else if openaiClient then ParseReply(vendors.openaiText(FallbackPrompt(ocrText)), rt)
      else None
    }

    /**
     * Extracts and reconciles a bill: one vision attempt by the configured
     * provider, a text-only attempt only when that yields nothing usable, and
     * no third attempt. The result is None when both attempts yield nothing or
     * reconciliation raises; no partial result is returned.
     */
    method ExtractBillData(image: Image, ocrText: string, vendors: Vendors, rt: Runtime)
      returns (result: Option<ExtractedData>, calls: seq<VendorCall>)
      requires Valid()
      ensures |calls| <= 2
      ensures calls == [] <==> !openaiClient && !geminiModel
      ensures geminiModel ==> calls[0] == GeminiVision(VisionPrompt(ocrText), image)
      ensures openaiClient && vendors.imageToBase64(image).Some? ==>
        calls[0] == OpenAIVision(VisionPrompt(ocrText), vendors.imageToBase64(image).value)
      ensures openaiClient && vendors.imageToBase64(image).None? ==> calls == [OpenAIText(FallbackPrompt(ocrText))]
      ensures |calls| == 2 <==> VisionCalled(image, vendors) && !Usable(VisionData(image, ocrText, vendors, rt))
      ensures |calls| == 2 && geminiModel ==> calls[1] == GeminiText(FallbackPrompt(ocrText))
      ensures |calls| == 2 && openaiClient ==> calls[1] == OpenAIText(FallbackPrompt(ocrText))
      ensures var vision := VisionData(image, ocrText, vendors, rt);
        var data := if Usable(vision) then vision else FallbackData(ocrText, vendors, rt);
        && (result.Some? <==> Usable(data) && ReconcileSpec(data.value, rt).Ok?)
        && (result.Some? ==> ReconcileSpec(data.value, rt) == Ok(result.value))
      ensures result.Some? ==> Reconciled(result.value)
      ensures !openaiClient && !geminiModel ==> result.None?
    {
      var attempt: Attempt;
      if provider == "gemini" && geminiModel {
        attempt := ExtractWithGemini(image, ocrText, vendors, rt);
      } else if provider == "openai" && openaiClient {
        attempt := ExtractWithVision(image, ocrText, vendors, rt);
      } else {
        attempt := Attempt(None, []);
      }
      calls := attempt.calls;
      var data := attempt.data;
      if !Usable(data) {
        var fallback := FallbackExtraction(ocrText, vendors, rt);
        calls := calls + fallback.calls;
        data := fallback.data;
      }
      if !Usable(data) {
        return None, calls;
      }
      var reconciled := Reconcile(data.value, rt);
      if reconciled.Err? {
        return None, calls;
      }
      ReconcileEstablishesInvariants(data.value, rt);
      result := Some(reconciled.value);
    }
  }
}
