/** `/api/suggestions/image-editor`: one business name or description
    suggested by a vision model for an uploaded image. */
module ImageSuggestionRoute {
  import opened Wrappers
  import opened Strings
  import opened Api
  import opened Ai

  const MissingFields := "Missing sourceImageUri or type"
  const InvalidType := "Invalid suggestion type"
  const VisionModel := "googleai/gemini-2.0-flash"
  const NamePrompt := "Given the following image, suggest a concise and creative business name (2-5 words). Only return the name, no other text."
  const DescriptionPrompt := "Given the following image, suggest a brief and compelling business description (1-2 sentences). Only return the description, no other text."

  /** The fixed prompt for `type`: one for `'name'`, one for `'description'`. */
  function PromptFor(kind: string): (p: Option<string>)
    ensures p.Some? <==> kind == "name" || kind == "description"
    ensures p.Some? ==> p.value == if kind == "name" then NamePrompt else DescriptionPrompt
  {
    if kind == "name" then Some(NamePrompt)
    else if kind == "description" then Some(DescriptionPrompt)
    else None
  }

  /** The request: the prompt, then the image declared as JPEG, at
      temperature 0.7. */
  function VisionRequest(prompt: string, sourceImageUri: string): Request {
    Request(VisionModel, [Text(prompt), Media(sourceImageUri, Some("image/jpeg"))], Config(None, Some(0.7)))
  }

  /** POST: both fields are required, then the type must be known; only
      then is the model asked, and its text is returned trimmed. */
  function Post(model: Model, sourceImageUri: Option<string>, kind: Option<string>): (r: Reply<string>)
    ensures !Present(sourceImageUri) || !Present(kind) ==> r == Fail(400, MissingFields)
    ensures Present(sourceImageUri) && Present(kind) && PromptFor(kind.value).None? ==> r == Fail(400, InvalidType)
    ensures Present(sourceImageUri) && Present(kind) && PromptFor(kind.value).Some? ==>
      match model(VisionRequest(PromptFor(kind.value).value, sourceImageUri.value))
      case Failure(e) => r == ThrownMessage(e)
      case Success(response) => r == Ok(Trim(response.text), "")
    ensures r.Ok? ==> r.body == [] || (!IsWhitespace(r.body[0]) && !IsWhitespace(r.body[|r.body| - 1]))
  {
    if !Present(sourceImageUri) || !Present(kind) then Fail(400, MissingFields)
    else match PromptFor(kind.value)
      case None => Fail(400, InvalidType)
      case Some(prompt) =>
        match model(VisionRequest(prompt, sourceImageUri.value))
        case Failure(e) => ThrownMessage(e)
        case Success(response) => Ok(Trim(response.text), "")
  }

  /** A refused request never reaches the model: whatever the model would
      answer, the reply is the same. */
  lemma RefusedWithoutModel(m1: Model, m2: Model, sourceImageUri: Option<string>, kind: Option<string>)
    requires !Present(sourceImageUri) || !Present(kind) || PromptFor(kind.value).None?
    ensures Post(m1, sourceImageUri, kind) == Post(m2, sourceImageUri, kind)
    ensures Post(m1, sourceImageUri, kind).Fail? && Post(m1, sourceImageUri, kind).status == 400
  {
  }

  /** A suggestion is empty exactly when the model's text is blank. */
  lemma EmptySuggestion(model: Model, sourceImageUri: string, kind: string)
    requires sourceImageUri != "" && PromptFor(kind).Some?
    requires model(VisionRequest(PromptFor(kind).value, sourceImageUri)).Success?
    ensures var r := Post(model, Some(sourceImageUri), Some(kind));
      r.Ok? && (r.body == [] <==> IsBlank(model(VisionRequest(PromptFor(kind).value, sourceImageUri)).value.text))
  {
  }
}
