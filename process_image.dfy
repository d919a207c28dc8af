/** The `POST /api/process-image` handler: validate the `image` field, describe it with the
    vision model, generate a picture from the description, store one record, respond.
    The two model calls are inputs (what they answered), the calls the handler makes are
    returned as a trace, and the clock reading is a parameter. */
module ProcessImage {
  import opened JsValues
  import opened Schema
  import opened ErrorClassifier
  import opened Storage
  import opened Priority

  /** What differs between the copies of the handler: the two models, the instruction sent
      with the photo, the prompt template around the description, and whether the catch
      block runs the reduced two-condition chain. */
  datatype Config = Config(
    visionModel: string,
    instruction: string,
    generationModel: string,
    promptPrefix: string,
    promptSuffix: string,
    reducedClassifier: bool)

  const ApiInstruction := "Describe this image with extreme precision and detail. Focus on spatial relationships, colors, textures, lighting, and composition. The description will be used to recreate the image as accurately as possible."
  const ApiPromptPrefix := "Recreate this scene photorealistically: "
  const ApiPromptSuffix := ". Focus on precise details and maintain accurate proportions. The result should look as close as possible to a real photograph while capturing all the described elements perfectly."

  /** api/process-image.ts */
  const ApiTs := Config("gpt-4o", ApiInstruction, "dall-e-2", ApiPromptPrefix, ApiPromptSuffix, false)

  /** api/process-image.js */
  const ApiJs := Config("gpt-4o", ApiInstruction, "dall-e-3", ApiPromptPrefix, ApiPromptSuffix, false)

  /** The route in server/routes.ts. */
  const ServerRoutes := Config(
    "gpt-4-vision-preview",
    "Describe this image in extreme detail, focusing on capturing every visual element precisely. Include details about composition, colors, subjects, and any notable features.",
    "dall-e-3",
    "Create a photorealistic recreation of this scene: ",
    ". Maintain accurate proportions and realistic details.",
    true)

  /** The generation prompt: the template with the description spliced in. */
  function GenerationPrompt(v: Config, description: string): string {
    v.promptPrefix + description + v.promptSuffix
  }

  /** Reads the description back out of a prompt built from the variant's template. */
  function DescriptionIn(v: Config, prompt: string): (r: Option<string>)
    ensures r.Some? ==> GenerationPrompt(v, r.value) == prompt
  {
    var p, s := v.promptPrefix, v.promptSuffix;
    if |p| + |s| <= |prompt| && prompt[..|p|] == p && prompt[|prompt| - |s|..] == s then
      var d := prompt[|p|..|prompt| - |s|];
      assert p + d + s == prompt;
      Some(d)
    else None
  }

  /** The prompt carries the description verbatim: it can be read back unchanged. */
  lemma PromptCarriesDescription(v: Config, description: string)
    ensures DescriptionIn(v, GenerationPrompt(v, description)) == Some(description)
  {
    var p, s := v.promptPrefix, v.promptSuffix;
    var prompt := GenerationPrompt(v, description);
    assert prompt[..|p|] == p;
    assert prompt[|prompt| - |s|..] == s;
    assert prompt[|p|..|prompt| - |s|] == description;
  }

  /** Different descriptions give different prompts. */
  lemma PromptIsInjective(v: Config, d1: string, d2: string)
    requires GenerationPrompt(v, d1) == GenerationPrompt(v, d2)
    ensures d1 == d2
  {
    PromptCarriesDescription(v, d1);
    PromptCarriesDescription(v, d2);
  }

  /** The image URL sent to the vision model: the JPEG data-URL prefix, then the image as sent. */
  function DataUrl(image: string): (r: string)
    ensures StartsWith(r, JpegDataUrlPrefix) && r[|JpegDataUrlPrefix|..] == image
  {
    JpegDataUrlPrefix + image
  }

  /** An outbound request to one of the two models. */
  datatype Call =
    | VisionCall(model: string, instruction: string, imageUrl: string, maxTokens: int)
    | GenerationCall(model: string, prompt: string, n: int, size: string, quality: string)

  function VisionRequest(v: Config, image: string): Call {
    VisionCall(v.visionModel, v.instruction, DataUrl(image), 1000)
  }

  function GenerationRequest(v: Config, description: string): Call {
    GenerationCall(v.generationModel, GenerationPrompt(v, description), 1, "1024x1024", "standard")
  }

  /** What the vision call gave back: the content of its first choice, or the error it threw. */
  datatype VisionReply = Described(content: Option<string>) | VisionFailed(error: UpstreamError)

  /** What the generation call gave back: the URL of its first picture if any, or the error it threw. */
  datatype GenerationReply = Generated(url: Option<string>) | GenerationFailed(error: UpstreamError)

  /** Which chain the catch block runs: the first matching row of the variant's table. */
  function ClassifyFor(v: Config, e: UpstreamError): (r: Response)
    ensures r == FirstMatch(if v.reducedClassifier then ReducedRules else FullRules, e, Unknown)
  {
    if v.reducedClassifier then
      ClassifyReducedIsFirstMatch(e);
      ClassifyReduced(e)
    else
      ClassifyIsFirstMatch(e);
      Classify(e)
  }

  /** How a request ends: an error response, or a record to store. */
  datatype Verdict = Reject(response: Response) | Persist(description: string, url: string)

  /** The handler's decision for one request, given what the two models answered. */
  function Decide(v: Config, image: Field<string>, vision: VisionReply, generation: GenerationReply): (r: Verdict)
    ensures r.Reject? ==> r.response.status in {400, 402, 429, 500} && r.response.body.ErrorBody?
    ensures r == Reject(ErrorResponse(400, "Image is required")) <==> !Truthy(image)
    ensures r.Persist? <==>
      && Truthy(image)
      && vision.Described? && TruthyOpt(vision.content)
      && generation.Generated? && TruthyOpt(generation.url)
    ensures r.Persist? ==> r.description == vision.content.value && r.url == generation.url.value
    ensures Truthy(image) && vision.VisionFailed? ==> r == Reject(ClassifyFor(v, vision.error))
    ensures Truthy(image) && vision.Described? && !TruthyOpt(vision.content) ==>
      r == Reject(ClassifyFor(v, PlainError))
    ensures Truthy(image) && vision.Described? && TruthyOpt(vision.content) && generation.GenerationFailed? ==>
      r == Reject(ClassifyFor(v, generation.error))
    ensures (Truthy(image) && vision.Described? && TruthyOpt(vision.content) &&
             generation.Generated? && !TruthyOpt(generation.url)) ==>
      r == Reject(ClassifyFor(v, PlainError))
  {
    if !Truthy(image) then Reject(ErrorResponse(400, "Image is required"))
    else match vision
      case VisionFailed(e) => Reject(ClassifyFor(v, e))
      case Described(content) =>
        if !TruthyOpt(content) then Reject(ClassifyFor(v, PlainError))
        else match generation
          case GenerationFailed(e) => Reject(ClassifyFor(v, e))
          case Generated(url) =>
            if !TruthyOpt(url) then Reject(ClassifyFor(v, PlainError))
            else Persist(content.value, url.value)
  }

  /** The requests the handler sends: none for a falsy image, the vision call otherwise, and
      the generation call only once a non-empty description came back. */
  function CallsMade(v: Config, image: Field<string>, vision: VisionReply): (r: seq<Call>)
    ensures r == [] <==> !Truthy(image)
    ensures |r| <= 2
    ensures |r| >= 1 ==> r[0] == VisionRequest(v, image.value)
    ensures |r| == 2 <==> Truthy(image) && vision.Described? && TruthyOpt(vision.content)
    ensures |r| == 2 ==> r[1] == GenerationRequest(v, vision.content.value)
  {
    if !Truthy(image) then []
    else if vision.Described? && TruthyOpt(vision.content) then
      [VisionRequest(v, image.value), GenerationRequest(v, vision.content.value)]
    else [VisionRequest(v, image.value)]
  }

  /** A record is stored only after both model calls were made, and the generation prompt
      then holds the description that is stored. */
  lemma PersistFollowsBothCalls(v: Config, image: Field<string>, vision: VisionReply, generation: GenerationReply)
    requires Decide(v, image, vision, generation).Persist?
    ensures var calls := CallsMade(v, image, vision);
      |calls| == 2 &&
      DescriptionIn(v, calls[1].prompt) == Some(Decide(v, image, vision, generation).description)
  {
    PromptCarriesDescription(v, vision.content.value);
  }

  /** The reduced chain never reports a billing, missing-model or credit-balance error as
      such: its only 402 is the quota error. */
  lemma ReducedReportsOnlyQuotaAs402(v: Config, image: Field<string>, vision: VisionReply, generation: GenerationReply)
    requires v.reducedClassifier
    ensures var r := Decide(v, image, vision, generation);
      r.Reject? && r.response.status == 402 ==> r.response == QuotaExceeded
  {
  }

  /** In the api/process-image.ts handler a quota error from the vision call answers 402, and an
      empty description answers the generic 500 without a generation call. */
  lemma QuotaErrorAndEmptyDescription(image: string, e: UpstreamError, generation: GenerationReply)
    requires image != "" && IsQuota(e)
    ensures Decide(ApiTs, Present(image), VisionFailed(e), generation) == Reject(QuotaExceeded)
    ensures Decide(ApiTs, Present(image), Described(Some("")), generation) == Reject(Unknown)
    ensures |CallsMade(ApiTs, Present(image), Described(Some("")))| == 1
  {
  }

  /** One request, step by step. */
  method HandleProcessImage(
    v: Config, store: MemStorage, image: Field<string>,
    vision: VisionReply, generation: GenerationReply, now: int)
    returns (response: Response, calls: seq<Call>)
    requires store.Valid()
    modifies store
    ensures store.Valid()
    ensures calls == CallsMade(v, image, vision)
    ensures Decide(v, image, vision, generation).Reject? ==>
      && response == Decide(v, image, vision, generation).response
      && store.images == old(store.images)
      && store.currentId == old(store.currentId)
    ensures Decide(v, image, vision, generation).Persist? ==>
      var verdict := Decide(v, image, vision, generation);
      var record := Image(old(store.currentId), image.value, Some(verdict.description),
                          Some(verdict.url), Some(Metadata(now)));
      && response == Response(200, RecordBody(record))
      && store.images == old(store.images)[record.id := record]
      && store.currentId == old(store.currentId) + 1
  {
    calls := [];
    if !Truthy(image) {
      response := ErrorResponse(400, "Image is required");
      return;
    }
    calls := calls + [VisionRequest(v, image.value)];
    if vision.VisionFailed? {
      response := ClassifyFor(v, vision.error);
      return;
    }
    var description := vision.content;
    if !TruthyOpt(description) {
      response := ClassifyFor(v, PlainError);
      return;
    }
    calls := calls + [GenerationRequest(v, description.value)];
    if generation.GenerationFailed? {
      response := ClassifyFor(v, generation.error);
      return;
    }
    var url := generation.url;
    if !TruthyOpt(url) {
      response := ClassifyFor(v, PlainError);
      return;
    }
    var record := store.CreateImage(NewImage(image.value, Present(description.value),
                                             Present(url.value), Present(Metadata(now))));
    response := Response(200, RecordBody(record));
  }

  /** A request on a fresh store: the record gets id 1, carries the image, description and
      URL unchanged, and heads the listing afterwards. */
  method FirstRequestOnFreshStore(v: Config, image: string, description: string, url: string, now: int)
    returns (response: Response, listing: seq<Image>)
    requires image != "" && description != "" && url != ""
    ensures response.status == 200 && response.body.RecordBody?
    ensures response.body.record == Image(1, image, Some(description), Some(url), Some(Metadata(now)))
    ensures listing == [response.body.record]
  {
    var store := new MemStorage();
    var calls;
    response, calls := HandleProcessImage(v, store, Present(image), Described(Some(description)),
                                          Generated(Some(url)), now);
    listing := store.GetAllImages();
  }
}
