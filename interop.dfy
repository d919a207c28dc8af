/** Where the client's helpers meet the server's handler: the photo URL the handler sends to
    the vision model is one the client's own check and formatter understand. */
module Interop {
  import opened JsValues
  import opened Schema
  import ClientOpenAI
  import ProcessImage

  /** Stripping the prefix from the vision URL gives back the photo as sent. */
  lemma VisionUrlStripsToImage(image: string)
    ensures ClientOpenAI.StripDataUrlPrefix(ProcessImage.DataUrl(image)) == image
  {
    ClientOpenAI.JpegPrefixIsDataUrlPrefix();
    ClientOpenAI.StripRemovesPrefix(JpegDataUrlPrefix, image);
  }

  /** The vision URL passes the client's image check exactly when the photo is a base64
      payload within the size limit. */
  lemma VisionUrlValidIffPayload(image: string)
    ensures ClientOpenAI.ValidateImageData(ProcessImage.DataUrl(image)) == ClientOpenAI.IsPayload(image)
  {
    ClientOpenAI.JpegPrefixIsDataUrlPrefix();
    ClientOpenAI.ValidateWithPrefix(JpegDataUrlPrefix, image);
  }

  /** For a photo that does not already look like a data URL, the client's formatter and the
      server's vision URL agree. */
  lemma FormatMatchesVisionUrl(image: string)
    requires !StartsWith(image, ClientOpenAI.ImagePrefix)
    ensures ClientOpenAI.FormatImageData(image) == ProcessImage.DataUrl(image)
  {
  }

  /** A stored record's `generatedImage` is the URL the generation call returned, and it is
      truthy, so `formatOpenAIResponse` shows exactly that URL, whatever the reply's own `url`. */
  lemma ShownUrlIsGenerated(
    v: ProcessImage.Config, image: Field<string>,
    vision: ProcessImage.VisionReply, generation: ProcessImage.GenerationReply, url: Option<string>)
    requires ProcessImage.Decide(v, image, vision, generation).Persist?
    ensures ClientOpenAI.ResponseUrl(Some(ProcessImage.Decide(v, image, vision, generation).url), url) ==
            generation.url
  {
  }
}
