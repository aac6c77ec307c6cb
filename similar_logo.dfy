/** The similar-logo flow: an instruction built from the business and the
    optional style choices, sent with the source image to the image model;
    the logo is the URL of the media part of the reply. */
module SimilarLogo {
  import opened Wrappers
  import opened Strings
  import opened Api
  import opened Ai

  /** The flow's input. The three style choices are optional. */
  datatype Input = Input(
    sourceImageUri: string,
    businessName: string,
    businessDescription: string,
    colorPalette: Option<string>,
    fontStyle: Option<string>,
    logoShape: Option<string>)

  const ImageModel := "googleai/gemini-2.0-flash-exp"
  const NoMedia := "Image generation failed to produce a valid media object."

  const BaseLead := "Analyze the provided image. Then, generate a *new* flat design logo for a business named "
  const BaseMiddle := ". This new logo should be conceptually inspired by the style, elements, or feel of the provided image, but tailored to the business description: "
  const BaseTail := ". The final output must be a completely new logo, not just a modification of the input image. Adhere to flat design principles: minimalism, bold geometric shapes, vibrant colors, and clean typography, avoiding gradients or 3D effects."

  /** The fixed opening, quoting the business name and description; it
      already states the flat-design rules. */
  function Base(name: string, description: string): string {
    BaseLead + Quoted(name) + BaseMiddle + Quoted(description) + BaseTail
  }

  function PaletteClause(palette: string): (c: string)
    ensures |c| == |palette| + 22 && c[7..7 + |palette|] == palette
  {
    " Use a " + palette + " color palette."
  }

  function FontClause(font: string): (c: string)
    ensures |c| == |font| + 27
  {
    " The font style should be " + font + "."
  }

  function ShapeClause(shape: string): (c: string)
    ensures |c| == |shape| + 31
  {
    " The logo should have a " + shape + " shape."
  }

  /** `text`, followed by the clause for an optional choice when the choice
      is present and not empty. */
  function AddClause(text: string, choice: Option<string>, clause: string -> string): string {
    if Present(choice) then text + clause(choice.value) else text
  }

  /** The instruction: the opening, then the palette, font and shape
      clauses for the choices that were made, in that order. */
  function Instruction(input: Input): string {
    var withPalette := AddClause(Base(input.businessName, input.businessDescription), input.colorPalette, PaletteClause);
    var withFont := AddClause(withPalette, input.fontStyle, FontClause);
    AddClause(withFont, input.logoShape, ShapeClause)
  }

  /** `promptText`, accumulated clause by clause. */
  method BuildPromptText(input: Input) returns (promptText: string)
    ensures promptText == Instruction(input)
  {
    promptText := Base(input.businessName, input.businessDescription);
    if Present(input.colorPalette) {
      promptText := promptText + PaletteClause(input.colorPalette.value);
    }
    if Present(input.fontStyle) {
      promptText := promptText + FontClause(input.fontStyle.value);
    }
    if Present(input.logoShape) {
      promptText := promptText + ShapeClause(input.logoShape.value);
    }
  }

  /** The request: the source image first, then the instruction, asking for
      both text and image. */
  function SimilarRequest(input: Input, promptText: string): (q: Request)
    ensures q.model == ImageModel && q.config == TextAndImage
    ensures |q.prompt| == 2 && q.prompt[0] == Media(input.sourceImageUri, None) && q.prompt[1] == Text(promptText)
  {
    Request(ImageModel, [Media(input.sourceImageUri, None), Text(promptText)], TextAndImage)
  }

  /** The flow: the logo's data URI, the model's error, or `NoMedia` when
      the reply carries no media URL. */
  method GenerateSimilarLogo(model: Model, input: Input) returns (r: Result<string, string>)
    ensures match model(SimilarRequest(input, Instruction(input)))
      case Failure(e) => r == Failure(e)
      case Success(response) =>
        match MediaUrl(response)
        case None => r == Failure(NoMedia)
        case Some(url) => r == Success(url) && url != ""
  {
    var promptText := BuildPromptText(input);
    var reply := model(SimilarRequest(input, promptText));
    if reply.Failure? {
      return Failure(reply.error);
    }
    var media := MediaUrl(reply.value);
    if media.None? {
      return Failure(NoMedia);
    }
    r := Success(media.value);
  }

  /** The instruction always opens with the fixed text, so the flat-design
      rules precede every optional clause. */
  lemma InstructionStartsWithBase(input: Input)
    ensures var base := Base(input.businessName, input.businessDescription);
      |Instruction(input)| >= |base| && Instruction(input)[..|base|] == base
  {
    var base := Base(input.businessName, input.businessDescription);
    var withPalette := AddClause(base, input.colorPalette, PaletteClause);
    var withFont := AddClause(withPalette, input.fontStyle, FontClause);
    AddClauseExtends(base, input.colorPalette, PaletteClause);
    AddClauseExtends(withPalette, input.fontStyle, FontClause);
    AddClauseExtends(withFont, input.logoShape, ShapeClause);
  }

  /** Adding a clause keeps the text before it. */
  lemma AddClauseExtends(text: string, choice: Option<string>, clause: string -> string)
    ensures var t := AddClause(text, choice, clause); |t| >= |text| && t[..|text|] == text
  {
  }

  /** Each clause is there exactly when its choice was made: the length
      grows by that clause and by nothing else. */
  lemma InstructionLength(input: Input)
    ensures |Instruction(input)| == |Base(input.businessName, input.businessDescription)|
      + (if Present(input.colorPalette) then |input.colorPalette.value| + 22 else 0)
      + (if Present(input.fontStyle) then |input.fontStyle.value| + 27 else 0)
      + (if Present(input.logoShape) then |input.logoShape.value| + 31 else 0)
  {
  }

  /** With no choice made, the instruction is the opening alone. */
  lemma InstructionWithoutChoices(input: Input)
    requires !Present(input.colorPalette) && !Present(input.fontStyle) && !Present(input.logoShape)
    ensures Instruction(input) == Base(input.businessName, input.businessDescription)
  {
  }

  /** Two different palettes give two different instructions. */
  lemma PaletteMatters(input: Input, other: string)
    requires Present(input.colorPalette) && other != "" && other != input.colorPalette.value
    ensures Instruction(input) != Instruction(input.(colorPalette := Some(other)))
  {
    var base := Base(input.businessName, input.businessDescription);
    ClausesDiffer(base, input.colorPalette.value, other, input.fontStyle, input.logoShape);
  }

  /** Whatever the opening and the later choices, the palette shows in the
      text: two palettes give two texts. */
  lemma ClausesDiffer(base: string, palette: string, other: string, font: Option<string>, shape: Option<string>)
    requires palette != other
    ensures AddClause(AddClause(base + PaletteClause(palette), font, FontClause), shape, ShapeClause)
         != AddClause(AddClause(base + PaletteClause(other), font, FontClause), shape, ShapeClause)
  {
    var a, b := base + PaletteClause(palette), base + PaletteClause(other);
    var a', b' := AddClause(a, font, FontClause), AddClause(b, font, FontClause);
    var x, y := AddClause(a', shape, ShapeClause), AddClause(b', shape, ShapeClause);
    if |palette| != |other| {
      assert |a| != |b|;
      assert |a'| != |b'|;
      assert |x| != |y|;
    } else {
      var k :| 0 <= k < |palette| && palette[k] != other[k];
      assert a[|base| + 7 + k] == palette[k] && b[|base| + 7 + k] == other[k];
      AddClauseExtends(a, font, FontClause);
      AddClauseExtends(b, font, FontClause);
      AddClauseExtends(a', shape, ShapeClause);
      AddClauseExtends(b', shape, ShapeClause);
      assert x[|base| + 7 + k] != y[|base| + 7 + k];
    }
  }
}
