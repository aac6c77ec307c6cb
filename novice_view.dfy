/** The guided (novice) generator: a form with the business, two colours, a
    font and a layout; submitting it assembles a full description for the
    logo model, suggestions can be asked for per kind, and a generated logo
    can be saved. */
module NoviceView {
  import opened Wrappers
  import opened Strings
  import opened Api
  import opened Ai
  import Suggestions
  import NoviceRoute

  /** The form's inputs. */
  datatype Form = Form(
    businessName: string,
    businessDescription: string,
    primaryColor: string,
    secondaryColor: string,
    selectedFont: string,
    selectedLayout: string)

  /** The four suggestion lists shown under the form. */
  datatype SuggestionLists = SuggestionLists(
    description: seq<string>,
    slogan: seq<string>,
    color: seq<string>,
    icon: seq<string>)

  /** What the user is told after an action. */
  datatype Notice = Refused(reason: string) | Succeeded | Failed

  const NameRequired := "Business name is required."
  const DescriptionRequired := "Business description is required."
  const NameRequiredForSuggestions := "Business name is required to generate suggestions."

  const DefaultForm := Form("", "", "#3F51B5", "#7E57C2", "Arial", "Icon Above Text")

  function ColorClause(primary: string, secondary: string): string {
    " The logo should feature colors like " + primary + " (primary) and " + secondary + " (secondary)."
  }

  function FontClause(font: string): string {
    " Use the font style similar to " + font + "."
  }

  function LayoutClause(layout: string): string {
    " The logo layout should be: " + layout + "."
  }

  /** Where the colour clause puts the two colours. */
  lemma ColorClauseShape(primary: string, secondary: string)
    ensures var c := ColorClause(primary, secondary);
      && |c| == |primary| + |secondary| + 65
      && c[37..37 + |primary|] == primary
      && c[52 + |primary|..52 + |primary| + |secondary|] == secondary
  {
  }

  const Closing := " Ensure the logo is a flat design, simple, modern, and professional."

  /** The colour clause, present when either colour is set. */
  function WithColors(text: string, primary: string, secondary: string): string {
    if primary != "" || secondary != "" then text + ColorClause(primary, secondary) else text
  }

  /** `text`, followed by `clause(choice)` when the choice is set. */
  function WithChoice(text: string, choice: string, clause: string -> string): string {
    if choice != "" then text + clause(choice) else text
  }

  /** The full description: the raw description, then the colour, font and
      layout clauses for the choices that are set, then the closing
      sentence. */
  function FullDescription(f: Form): string {
    var withColors := WithColors(f.businessDescription, f.primaryColor, f.secondaryColor);
    var withFont := WithChoice(withColors, f.selectedFont, FontClause);
    WithChoice(withFont, f.selectedLayout, LayoutClause) + Closing
  }

  /** `fullDescription`, accumulated with `+=`. */
  method BuildFullDescription(f: Form) returns (fullDescription: string)
    ensures fullDescription == FullDescription(f)
  {
    fullDescription := f.businessDescription;
    if f.primaryColor != "" || f.secondaryColor != "" {
      fullDescription := fullDescription + ColorClause(f.primaryColor, f.secondaryColor);
    }
    if f.selectedFont != "" {
      fullDescription := fullDescription + FontClause(f.selectedFont);
    }
    if f.selectedLayout != "" {
      fullDescription := fullDescription + LayoutClause(f.selectedLayout);
    }
    fullDescription := fullDescription + Closing;
  }

  /** Each clause is there exactly when its choice is set: the length grows
      by that clause and nothing else. */
  lemma FullDescriptionLength(f: Form)
    ensures |FullDescription(f)| == |f.businessDescription|
      + (if f.primaryColor != "" || f.secondaryColor != "" then |f.primaryColor| + |f.secondaryColor| + 65 else 0)
      + (if f.selectedFont != "" then |f.selectedFont| + 32 else 0)
      + (if f.selectedLayout != "" then |f.selectedLayout| + 29 else 0)
      + |Closing|
  {
    if f.primaryColor != "" || f.secondaryColor != "" {
      ColorClauseShape(f.primaryColor, f.secondaryColor);
    }
  }

  /** The description starts with the raw, untrimmed input and ends with
      the closing sentence. */
  lemma FullDescriptionFrame(f: Form)
    ensures |FullDescription(f)| >= |f.businessDescription| + |Closing|
    ensures FullDescription(f)[..|f.businessDescription|] == f.businessDescription
    ensures FullDescription(f)[|FullDescription(f)| - |Closing|..] == Closing
  {
    var d := f.businessDescription;
    var withColors := WithColors(d, f.primaryColor, f.secondaryColor);
    var withFont := WithChoice(withColors, f.selectedFont, FontClause);
    var withLayout := WithChoice(withFont, f.selectedLayout, LayoutClause);
    WithColorsExtends(d, f.primaryColor, f.secondaryColor);
    WithChoiceExtends(withColors, f.selectedFont, FontClause);
    WithChoiceExtends(withFont, f.selectedLayout, LayoutClause);
    PrefixChain(d, withColors, withFont, withLayout, Closing);
  }

  lemma WithColorsExtends(text: string, primary: string, secondary: string)
    ensures var t := WithColors(text, primary, secondary); |t| >= |text| && t[..|text|] == text
  {
  }

  /** Prefixes of prefixes, then a final tail. */
  lemma PrefixChain(a: string, b: string, c: string, d: string, tail: string)
    requires |a| <= |b| <= |c| <= |d|
    requires b[..|a|] == a && c[..|b|] == b && d[..|c|] == c
    ensures |d + tail| >= |a| + |tail|
    ensures (d + tail)[..|a|] == a && (d + tail)[|d + tail| - |tail|..] == tail
  {
    assert (d + tail)[..|a|] == d[..|c|][..|b|][..|a|];
    assert (d + tail)[|d|..] == tail;
  }

  /** When a colour is set, the colour clause (which names both colours,
      see `ColorClauseShape`) comes right after the description. */
  lemma ColorsNamed(f: Form)
    requires f.primaryColor != "" || f.secondaryColor != ""
    ensures var d, c := f.businessDescription, ColorClause(f.primaryColor, f.secondaryColor);
      |FullDescription(f)| >= |d| + |c| && FullDescription(f)[..|d| + |c|] == d + c
  {
    var withColors := f.businessDescription + ColorClause(f.primaryColor, f.secondaryColor);
    var withFont := WithChoice(withColors, f.selectedFont, FontClause);
    var withLayout := WithChoice(withFont, f.selectedLayout, LayoutClause);
    WithChoiceExtends(withColors, f.selectedFont, FontClause);
    WithChoiceExtends(withFont, f.selectedLayout, LayoutClause);
    PrefixChain(withColors, withColors, withFont, withLayout, Closing);
  }

  lemma WithChoiceExtends(text: string, choice: string, clause: string -> string)
    ensures var t := WithChoice(text, choice, clause); |t| >= |text| && t[..|text|] == text
  {
  }

  /** The checks of `handleSubmit`, in order: the reason it refuses, or
      nothing when both the trimmed name and the trimmed description have
      text (a text trims to nothing exactly when it is blank). */
  function SubmitRefusal(f: Form): (reason: Option<string>)
    ensures reason == Some(NameRequired) <==> IsBlank(f.businessName)
    ensures reason == Some(DescriptionRequired) <==> !IsBlank(f.businessName) && IsBlank(f.businessDescription)
    ensures reason.None? <==> !IsBlank(f.businessName) && !IsBlank(f.businessDescription)
  {
    if IsBlank(f.businessName) then Some(NameRequired)
    else if IsBlank(f.businessDescription) then Some(DescriptionRequired)
    else None
  }

  /** The list of one kind of suggestion. */
  function ListFor(lists: SuggestionLists, t: Suggestions.SuggestionType): seq<string> {
    match t
    case Description => lists.description
    case Slogan => lists.slogan
    case Color => lists.color
    case Icon => lists.icon
  }

  /** The `switch` on the requested kind: only that kind's list is
      replaced. */
  function Updated(lists: SuggestionLists, t: Suggestions.SuggestionType, s: seq<string>): (r: SuggestionLists)
    ensures ListFor(r, t) == s
    ensures forall u :: u != t ==> ListFor(r, u) == ListFor(lists, u)
  {
    match t
    case Description => lists.(description := s)
    case Slogan => lists.(slogan := s)
    case Color => lists.(color := s)
    case Icon => lists.(icon := s)
  }

  /** The body `handleSaveNoviceGeneration` posts, or nothing when there is
      no logo or no signed-in user. The description is the full one sent to
      the model, not the raw input. */
  function SaveRequest(f: Form, currentFullDescription: string, logoSrc: Option<string>, userId: Option<string>)
    : (body: Option<NoviceRoute.SaveBody>)
    ensures body.None? <==> !Present(logoSrc) || !Present(userId)
    ensures body.Some? ==> body.value == NoviceRoute.SaveBody(userId, Some(f.businessName),
      Some(currentFullDescription), Some(f.primaryColor), Some(f.secondaryColor), logoSrc)
  {
    if !Present(logoSrc) || !Present(userId) then None
    else Some(NoviceRoute.SaveBody(userId, Some(f.businessName), Some(currentFullDescription),
                                   Some(f.primaryColor), Some(f.secondaryColor), logoSrc))
  }

  /** Saving what was generated from a form with a business name is
      accepted by the save route: the full description is never empty. */
  lemma SaveAfterSubmitAccepted(f: Form, logoSrc: string, userId: string)
    requires f.businessName != "" && logoSrc != "" && userId != ""
    ensures NoviceRoute.Complete(SaveRequest(f, FullDescription(f), Some(logoSrc), Some(userId)).value)
  {
    FullDescriptionFrame(f);
  }

  /** The component's state. */
  class NoviceGenerator {
    var form: Form
    var isLoading: bool
    var logoSrc: Option<string>
    var currentFullDescription: string
    var lists: SuggestionLists
    var isSuggesting: bool

    constructor()
      ensures form == DefaultForm && !isLoading && logoSrc.None? && currentFullDescription == ""
      ensures lists == SuggestionLists([], [], [], []) && !isSuggesting
    {
      form := DefaultForm;
      isLoading := false;
      logoSrc := None;
      currentFullDescription := "";
      lists := SuggestionLists([], [], [], []);
      isSuggesting := false;
    }

    /** Typing into the form. */
    method Edit(f: Form)
      modifies this
      ensures form == f
      ensures isLoading == old(isLoading) && logoSrc == old(logoSrc)
      ensures currentFullDescription == old(currentFullDescription)
      ensures lists == old(lists) && isSuggesting == old(isSuggesting)
    {
      form := f;
    }

    /** `handleSubmit`: a blank name, then a blank description, is refused
        before anything changes; otherwise the full description is kept
        and sent, with the raw name, to `generate`. */
    method Submit(generate: InitialLogoFlow) returns (notice: Notice)
      modifies this
      ensures form == old(form) && lists == old(lists) && isSuggesting == old(isSuggesting)
      ensures SubmitRefusal(form).Some? ==>
        notice == Refused(SubmitRefusal(form).value) && isLoading == old(isLoading) && logoSrc == old(logoSrc)
        && currentFullDescription == old(currentFullDescription)
      ensures SubmitRefusal(form).None? ==>
        && !isLoading
        && currentFullDescription == FullDescription(form)
        && match generate(form.businessName, FullDescription(form))
           case Success(uri) => logoSrc == Some(uri) && notice == Succeeded
           case Failure(_) => logoSrc.None? && notice == Failed
    {
      var f := form;
      var refusal := SubmitRefusal(f);
      if refusal.Some? {
        return Refused(refusal.value);
      }
      isLoading := true;
      logoSrc := None;
      var fullDescription := BuildFullDescription(f);
      currentFullDescription := fullDescription;
      var result := generate(f.businessName, fullDescription);
      if result.Success? {
        logoSrc := Some(result.value);
        notice := Succeeded;
      } else {
        notice := Failed;
      }
      isLoading := false;
    }

    /** `handleGenerateSuggestions`: with a business name, asks the
        suggestion flow for kind `t`; a result replaces that kind's list
        and no other. `flow` is `Suggestions.GenerateSuggestions` with the
        model bound. */
    method GenerateSuggestions(flow: Suggestions.SuggestionFlow, t: Suggestions.SuggestionType) returns (notice: Notice)
      modifies this
      ensures form == old(form) && isLoading == old(isLoading) && logoSrc == old(logoSrc)
      ensures currentFullDescription == old(currentFullDescription)
      ensures IsBlank(form.businessName) ==>
        notice == Refused(NameRequiredForSuggestions) && lists == old(lists) && isSuggesting == old(isSuggesting)
      ensures !IsBlank(form.businessName) ==>
        && !isSuggesting
        && match flow(form.businessName, t)
           case Success(s) => lists == Updated(old(lists), t, s) && notice == Succeeded
           case Failure(_) => lists == old(lists) && notice == Failed
    {
      if IsBlank(form.businessName) {
        return Refused(NameRequiredForSuggestions);
      }
      isSuggesting := true;
      var result := flow(form.businessName, t);
      if result.Success? {
        lists := Updated(lists, t, result.value);
        notice := Succeeded;
      } else {
        notice := Failed;
      }
      isSuggesting := false;
    }
  }
}
