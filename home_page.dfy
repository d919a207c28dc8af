/** The capture page of client/src/pages/home.tsx: its mutation gate, its success and error
    callbacks, and the three pieces of page state they update. */
module HomePage {
  import opened JsValues
  import opened Priority
  import opened ClientOpenAI

  const InvalidImageData := "Invalid image data"
  const NoImageGenerated := "No image was generated"

  const BillingToast := "API billing limit reached. Please try again later."
  const QuotaToast := "API quota exceeded. Please try again later."
  const RateLimitToast := "Too many requests. Please wait a moment and try again."
  const InvalidFormatToast := "Invalid image format. Please try again."
  const ServiceIssueToast := "There was an issue with the image processing service. Please try again later."
  const AnalysisToast := "Image analysis service is temporarily unavailable. Please try again later."
  const DefaultToast := "Failed to process image. Please try again."

  /** The error's message holds the phrase; an error without a message mentions nothing. */
  predicate Mentions(message: Option<string>, phrase: string) {
    message.Some? && Contains(message.value, phrase)
  }

  /** The toast text for a failed mutation: the first phrase the message mentions decides. */
  function UserMessage(message: Option<string>): (r: string)
    ensures r != ""
    ensures r == DefaultToast <==>
      && !Mentions(message, "billing limit reached")
      && !Mentions(message, "quota exceeded")
      && !Mentions(message, "Too many requests")
      && !Mentions(message, InvalidImageData)
      && !Mentions(message, "API configuration error")
      && !Mentions(message, "Image analysis service unavailable")
    ensures message.None? ==> r == DefaultToast
  {
    if Mentions(message, "billing limit reached") then BillingToast
    else if Mentions(message, "quota exceeded") then QuotaToast
    else if Mentions(message, "Too many requests") then RateLimitToast
    else if Mentions(message, InvalidImageData) then InvalidFormatToast
    else if Mentions(message, "API configuration error") then ServiceIssueToast
    else if Mentions(message, "Image analysis service unavailable") then AnalysisToast
    else DefaultToast
  }

  /** The phrases of the error callback as a priority table. */
  const ToastRules: seq<Rule<Option<string>, string>> := [
    Rule(m => Mentions(m, "billing limit reached"), BillingToast),
    Rule(m => Mentions(m, "quota exceeded"), QuotaToast),
    Rule(m => Mentions(m, "Too many requests"), RateLimitToast),
    Rule(m => Mentions(m, InvalidImageData), InvalidFormatToast),
    Rule(m => Mentions(m, "API configuration error"), ServiceIssueToast),
    Rule(m => Mentions(m, "Image analysis service unavailable"), AnalysisToast)
  ]

  /** The if-chain is the first-match reading of its table. */
  lemma UserMessageIsFirstMatch(message: Option<string>)
    ensures UserMessage(message) == FirstMatch(ToastRules, message, DefaultToast)
  {
    if Mentions(message, "billing limit reached") {
      FirstMatchPicksEarliest(ToastRules, message, DefaultToast, 0);
    } else if Mentions(message, "quota exceeded") {
      FirstMatchPicksEarliest(ToastRules, message, DefaultToast, 1);
    } else if Mentions(message, "Too many requests") {
      FirstMatchPicksEarliest(ToastRules, message, DefaultToast, 2);
    } else if Mentions(message, InvalidImageData) {
      FirstMatchPicksEarliest(ToastRules, message, DefaultToast, 3);
    } else if Mentions(message, "API configuration error") {
      FirstMatchPicksEarliest(ToastRules, message, DefaultToast, 4);
    } else if Mentions(message, "Image analysis service unavailable") {
      FirstMatchPicksEarliest(ToastRules, message, DefaultToast, 5);
    } else {
      FirstMatchFallsThrough(ToastRules, message, DefaultToast);
    }
  }

  /** Which phrases the mutation's own error holds: only its own. */
  lemma InvalidImageDataPhrases()
    ensures Contains(InvalidImageData, InvalidImageData)
    ensures !Contains(InvalidImageData, "billing limit reached")
    ensures !Contains(InvalidImageData, "quota exceeded")
    ensures !Contains(InvalidImageData, "Too many requests")
  {
    StartsWithContains(InvalidImageData, InvalidImageData);
    ShorterNotContained(InvalidImageData, "billing limit reached");
    AbsentCharNotContained(InvalidImageData, "quota exceeded", 0);
    AbsentCharNotContained(InvalidImageData, "Too many requests", 0);
  }

  /** The mutation's own error is recognised as an invalid image. */
  lemma InvalidImageDataToast()
    ensures UserMessage(Some(InvalidImageData)) == InvalidFormatToast
  {
    InvalidImageDataPhrases();
  }

  /** The success callback's error holds none of the first three phrases... */
  lemma NoImageGeneratedLacksQuotaPhrases()
    ensures !Contains(NoImageGenerated, "billing limit reached")
    ensures !Contains(NoImageGenerated, "quota exceeded")
    ensures !Contains(NoImageGenerated, "Too many requests")
  {
    AbsentCharNotContained(NoImageGenerated, "billing limit reached", 2);
    AbsentCharNotContained(NoImageGenerated, "quota exceeded", 0);
    AbsentCharNotContained(NoImageGenerated, "Too many requests", 0);
  }

  /** ... nor any of the last three. */
  lemma NoImageGeneratedLacksServicePhrases()
    ensures !Contains(NoImageGenerated, InvalidImageData)
    ensures !Contains(NoImageGenerated, "API configuration error")
    ensures !Contains(NoImageGenerated, "Image analysis service unavailable")
  {
    AbsentCharNotContained(NoImageGenerated, InvalidImageData, 2);
    ShorterNotContained(NoImageGenerated, "API configuration error");
    ShorterNotContained(NoImageGenerated, "Image analysis service unavailable");
  }

  /** A missing generated image ends in the generic toast. */
  lemma NoImageGeneratedToast()
    ensures UserMessage(Some(NoImageGenerated)) == DefaultToast
  {
    NoImageGeneratedLacksQuotaPhrases();
    NoImageGeneratedLacksServicePhrases();
  }

  /** The mutation function's gate: the image goes out in the request only if it passes the
      image check; otherwise the mutation fails with "Invalid image data". */
  function MutationRequest(image: string): (r: Result<string, string>)
    ensures r.Ok? <==> ValidateImageData(image)
    ensures r.Ok? ==> r.value == image
    ensures r.Err? ==> r.error == InvalidImageData
  {
    if !ValidateImageData(image) then Err(InvalidImageData) else Ok(image)
  }

  /** What the page shows. */
  datatype Panel = CameraButton | Spinner | ResultImage(url: string)

  class Home {
    var processing: bool
    var result: Option<string>
    var refreshGallery: bool
    /** The descriptions of the error toasts shown so far, oldest first. */
    var toasts: seq<string>

    /** A result is only ever a non-empty URL, and never shown while processing. */
    ghost predicate Valid()
      reads this
    {
      (result.Some? ==> result.value != "" && !processing)
    }

    constructor ()
      ensures Valid()
      ensures !processing && result.None? && !refreshGallery && toasts == []
    {
      processing := false;
      result := None;
      refreshGallery := false;
      toasts := [];
    }

    /** The camera button while idle, the spinner while processing, the image once there is
        one; under `Valid` exactly one of them. */
    function Showing(): (p: Panel)
      reads this
      requires Valid()
      ensures p == CameraButton <==> !processing && result.None?
      ensures p == Spinner <==> processing
      ensures p.ResultImage? <==> result.Some?
      ensures p.ResultImage? ==> p.url == result.value && p.url != ""
    {
      if processing then Spinner
      else if result.Some? then ResultImage(result.value)
      else CameraButton
    }

    /** The error callback: a toast with the recognised text, and processing stops. */
    method OnError(message: Option<string>)
      requires Valid()
      modifies this
      ensures Valid()
      ensures toasts == old(toasts) + [UserMessage(message)]
      ensures !processing
      ensures result == old(result) && refreshGallery == old(refreshGallery)
    {
      toasts := toasts + [UserMessage(message)];
      processing := false;
    }

    /** The success callback: a falsy `generatedImage` throws "No image was generated" and
        changes nothing; otherwise the image becomes the result and processing stops. */
    method OnSuccess(generatedImage: Field<string>) returns (thrown: Option<string>)
      requires Valid()
      modifies this
      ensures Valid()
      ensures thrown == (if Truthy(generatedImage) then None else Some(NoImageGenerated))
      ensures Truthy(generatedImage) ==> result == Some(generatedImage.value) && !processing
      ensures !Truthy(generatedImage) ==> result == old(result) && processing == old(processing)
      ensures refreshGallery == old(refreshGallery) && toasts == old(toasts)
    {
      if !Truthy(generatedImage) {
        thrown := Some(NoImageGenerated);
        return;
      }
      thrown := None;
      result := Some(generatedImage.value);
      processing := false;
    }

    /** A settled mutation: its reply's `generatedImage`, or the message of the error it
        failed with. An error thrown by the success callback reaches the error callback. */
    method Settle(outcome: Result<Field<string>, Option<string>>)
      requires Valid()
      modifies this
      ensures Valid()
      ensures !processing
      ensures refreshGallery == old(refreshGallery)
      ensures outcome.Ok? && Truthy(outcome.value) ==>
        result == Some(outcome.value.value) && toasts == old(toasts)
      ensures outcome.Ok? && !Truthy(outcome.value) ==>
        result == old(result) && toasts == old(toasts) + [DefaultToast]
      ensures outcome.Err? ==>
        result == old(result) && toasts == old(toasts) + [UserMessage(outcome.error)]
    {
      if outcome.Ok? {
        var thrown := OnSuccess(outcome.value);
        if thrown.Some? {
          NoImageGeneratedToast();
          OnError(thrown);
        }
      } else {
        OnError(outcome.error);
      }
    }

    /** `handleCapture`: clears the result, starts processing and runs the mutation, whose
        gate either yields the request or fails straight into the error callback. */
    method HandleCapture(image: string) returns (request: Result<string, string>)
      requires Valid()
      modifies this
      ensures Valid()
      ensures request == MutationRequest(image)
      ensures result.None? && refreshGallery == old(refreshGallery)
      ensures request.Ok? ==> processing && toasts == old(toasts)
      ensures request.Err? ==> !processing && toasts == old(toasts) + [InvalidFormatToast]
    {
      processing := true;
      result := None;
      request := MutationRequest(image);
      if request.Err? {
        InvalidImageDataToast();
        OnError(Some(request.error));
      }
    }

    /** `handleReset`: back to the camera, and the gallery query key flips so the list is
        fetched again. */
    method HandleReset()
      requires Valid()
      modifies this
      ensures Valid()
      ensures result.None? && !processing
      ensures refreshGallery == !old(refreshGallery)
      ensures toasts == old(toasts)
    {
      result := None;
      processing := false;
      refreshGallery := !refreshGallery;
    }
  }

  /** A full round on a fresh page: capture, then the server's reply. A valid image with a
      generated URL ends on that image; an invalid one never leaves the page and ends on the
      camera button with the invalid-format toast. */
  method CaptureRound(image: string, reply: Result<Field<string>, Option<string>>)
    returns (shown: Panel, toasts: seq<string>)
    ensures !ValidateImageData(image) ==> shown == CameraButton && toasts == [InvalidFormatToast]
    ensures ValidateImageData(image) && reply.Ok? && Truthy(reply.value) ==>
      shown == ResultImage(reply.value.value) && toasts == []
    ensures ValidateImageData(image) && reply.Ok? && !Truthy(reply.value) ==>
      shown == CameraButton && toasts == [DefaultToast]
    ensures ValidateImageData(image) && reply.Err? ==>
      shown == CameraButton && toasts == [UserMessage(reply.error)]
  {
    var home := new Home();
    var request := home.HandleCapture(image);
    if request.Ok? {
      home.Settle(reply);
    }
    shown := home.Showing();
    toasts := home.toasts;
  }

  /** Two resets put the gallery query key back where it was, leaving the camera showing. */
  method ResetTwice(home: Home) returns (shown: Panel)
    requires home.Valid()
    modifies home
    ensures home.refreshGallery == old(home.refreshGallery)
    ensures shown == CameraButton
  {
    home.HandleReset();
    home.HandleReset();
    shown := home.Showing();
  }
}
