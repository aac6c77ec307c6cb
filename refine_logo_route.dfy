/** `/api/refine-logo`: a new version of a logo, drawn by the image model
    from the logo and the user's instructions. */
module RefineLogoRoute {
  import opened Wrappers
  import opened Strings
  import opened Api
  import opened Ai

  const MissingFields := "Missing logoDataUri or refinementPrompt"
  const ImageModel := "googleai/gemini-2.0-flash-exp"
  const NoMedia := "Logo refinement failed to produce a valid media object."
  const InstructionLead := "Refine the provided logo based on the following instructions: "
  const InstructionTail := ". The output should be a new version of the logo incorporating these changes, maintaining a flat design style."

  /** The instruction: a fixed text with the user's request in double quotes. */
  function Instruction(refinementPrompt: string): (t: string)
    ensures |t| == |InstructionLead| + |refinementPrompt| + 2 + |InstructionTail|
    ensures t[..|InstructionLead|] == InstructionLead
    ensures t[|InstructionLead|..|InstructionLead| + |refinementPrompt| + 2] == Quoted(refinementPrompt)
    ensures t[|InstructionLead| + |refinementPrompt| + 2..] == InstructionTail
  {
    InstructionLead + Quoted(refinementPrompt) + InstructionTail
  }

  /** The request: the logo first, then the instruction, asking for both
      text and image. */
  function RefineRequest(logoDataUri: string, refinementPrompt: string): Request {
    Request(ImageModel, [Media(logoDataUri, None), Text(Instruction(refinementPrompt))], TextAndImage)
  }

  /** POST: both fields are required; the reply is the URL of the media the
      model returned, and a reply without one is a 500. */
  function Post(model: Model, logoDataUri: Option<string>, refinementPrompt: Option<string>): (r: Reply<string>)
    ensures !Present(logoDataUri) || !Present(refinementPrompt) ==> r == Fail(400, MissingFields)
    ensures Present(logoDataUri) && Present(refinementPrompt) ==>
      match model(RefineRequest(logoDataUri.value, refinementPrompt.value))
      case Failure(e) => r == ThrownMessage(e)
      case Success(response) =>
        match MediaUrl(response)
        case None => r == Fail(500, NoMedia)
        case Some(url) => r == Ok(url, "")
    ensures r.Ok? ==> r.body != ""
  {
    if !Present(logoDataUri) || !Present(refinementPrompt) then Fail(400, MissingFields)
    else match model(RefineRequest(logoDataUri.value, refinementPrompt.value))
      case Failure(e) => ThrownMessage(e)
      case Success(response) =>
        match MediaUrl(response)
        case None => Fail(500, NoMedia)
        case Some(url) => Ok(url, "")
  }

  /** A request missing a field never reaches the model. */
  lemma RefusedWithoutModel(m1: Model, m2: Model, logoDataUri: Option<string>, refinementPrompt: Option<string>)
    requires !Present(logoDataUri) || !Present(refinementPrompt)
    ensures Post(m1, logoDataUri, refinementPrompt) == Post(m2, logoDataUri, refinementPrompt)
  {
  }

  /** Success returns exactly the media URL the model produced. */
  lemma SuccessIsMediaUrl(model: Model, logoDataUri: Option<string>, refinementPrompt: Option<string>)
    requires Post(model, logoDataUri, refinementPrompt).Ok?
    ensures var response := model(RefineRequest(logoDataUri.value, refinementPrompt.value));
      && response.Success?
      && response.value.media.Some?
      && response.value.media.value.url == Some(Post(model, logoDataUri, refinementPrompt).body)
  {
  }
}
