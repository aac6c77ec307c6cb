/** The shape of a call to the generative model (`ai.generate`): the parts of
    the prompt, the configuration, and the response with an optional media
    part and a text. The model itself is a function the caller supplies. */
module Ai {
  import opened Wrappers

  /** One prompt part: an inline image (by data URI) or a text. */
  datatype Part = Media(url: string, contentType: Option<string>) | Text(text: string)

  /** The `config` of a request; a field the caller leaves out is `None`. */
  datatype Config = Config(responseModalities: Option<seq<string>>, temperature: Option<real>)

  datatype Request = Request(model: string, prompt: seq<Part>, config: Config)

  /** The response's `media` field, whose `url` may itself be missing. */
  datatype MediaPart = MediaPart(url: Option<string>)

  datatype Response = Response(media: Option<MediaPart>, text: string)

  /** `ai.generate`: a response, or the message of the error it throws. */
  type Model = Request -> Result<Response, string>

  /** The flow `generateInitialLogo(businessName, businessDescription)`: the
      data URI of a logo, or the message of the error it throws. */
  type InitialLogoFlow = (string, string) -> Result<string, string>

  /** The media URL a response carries, when `media && media.url` is truthy. */
  function MediaUrl(r: Response): (u: Option<string>)
    ensures u.Some? <==> r.media.Some? && r.media.value.url.Some? && r.media.value.url.value != ""
    ensures u.Some? ==> u.value != "" && r.media.value.url == u
  {
    match r.media
    case Some(MediaPart(Some(url))) => if url != "" then Some(url) else None
    case _ => None
  }

  /** Both modalities must be requested for the model to return an image. */
  const TextAndImage := Config(Some(["TEXT", "IMAGE"]), None)
}
