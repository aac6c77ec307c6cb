/** The suggestion flow: a fixed prompt per kind of suggestion, one call to a
    text model, and the reply read as a comma-separated list. */
module Suggestions {
  import opened Wrappers
  import opened Strings
  import opened Ai

  /** `s` ends with `e`. */
  predicate EndsWith(s: string, e: string) {
    |s| >= |e| && s[|s| - |e|..] == e
  }

  /** The four kinds of suggestion the flow accepts. */
  datatype SuggestionType = Description | Slogan | Color | Icon

  const InvalidType := "Invalid suggestion type"
  const SuggestionModel := "googleai/gemini-1.5-flash"
  const ListRequest := "Return them as a comma-separated list."

  /** The kind named by `s`, if `s` names one. */
  function ParseType(s: string): (t: Option<SuggestionType>)
    ensures t.Some? <==> s in ["description", "slogan", "color", "icon"]
  {
    if s == "description" then Some(Description)
    else if s == "slogan" then Some(Slogan)
    else if s == "color" then Some(Color)
    else if s == "icon" then Some(Icon)
    else None
  }

  /** The name a kind is requested by. */
  function TypeName(t: SuggestionType): (s: string)
    ensures ParseType(s) == Some(t)
  {
    match t
    case Description => "description"
    case Slogan => "slogan"
    case Color => "color"
    case Icon => "icon"
  }

  /** `generateSuggestions` as a caller sees it: the suggestions for a
      business name and a kind, or the error the flow throws. */
  type SuggestionFlow = (string, SuggestionType) -> Result<seq<string>, string>

  /** The template text before the quoted business name. */
  function Lead(t: SuggestionType): string {
    match t
    case Description => "Generate 3-5 brief and creative business descriptions for a business named "
    case Slogan => "Generate 3-5 catchy and memorable slogans for a business named "
    case Color => "Suggest 3-5 hex color codes (e.g., #RRGGBB) that would be suitable for a logo for a business named "
    case Icon => "Suggest 3-5 simple, flat design icon ideas (e.g., \"a stylized leaf\", \"a minimalist gear\") that would be suitable for a logo for a business named "
  }

  /** The template text after the quoted business name; it always ends by
      asking for a comma-separated list. */
  function Tail(t: SuggestionType): (s: string)
    ensures EndsWith(s, ListRequest)
  {
    match t
    case Description => ". Each description should be concise and highlight a unique aspect or style. " + ListRequest
    case Slogan => ". " + ListRequest
    case Color => ". Focus on colors that evoke the business's nature. " + ListRequest
    case Icon => ". " + ListRequest
  }

  /** The template for a kind, with the business name in double quotes:
      it opens with the kind's lead, quotes the name right after it, and
      ends by asking for a comma-separated list. */
  function Template(t: SuggestionType, businessName: string): (p: string)
    ensures |p| >= |Lead(t)| + |businessName| + 2 + |ListRequest|
    ensures p[..|Lead(t)|] == Lead(t)
    ensures p[|Lead(t)|..|Lead(t)| + |businessName| + 2] == Quoted(businessName)
    ensures EndsWith(p, ListRequest)
  {
    Framed(Lead(t), Quoted(businessName), Tail(t));
    Lead(t) + Quoted(businessName) + Tail(t)
  }

  /** The `switch` on `suggestionType`: the template for a known kind, or
      the error an unknown kind throws. */
  function SuggestionPrompt(suggestionType: string, businessName: string): (r: Result<string, string>)
    ensures r.Failure? <==> ParseType(suggestionType).None?
    ensures r.Failure? ==> r.error == InvalidType
    ensures r.Success? ==> r.value == Template(ParseType(suggestionType).value, businessName)
  {
    match ParseType(suggestionType)
    case None => Failure(InvalidType)
    case Some(t) => Success(Template(t, businessName))
  }

  /** Where the parts of `lead + middle + tail` sit. */
  lemma Framed(lead: string, middle: string, tail: string)
    requires EndsWith(tail, ListRequest)
    ensures var s := lead + middle + tail;
      && |s| == |lead| + |middle| + |tail|
      && s[..|lead|] == lead
      && s[|lead|..|lead| + |middle|] == middle
      && EndsWith(s, ListRequest)
  {
    var s := lead + middle + tail;
    assert s[|s| - |ListRequest|..] == tail[|tail| - |ListRequest|..];
  }

  /** A suggestion as the flow returns it: non-empty, without a comma and
      without whitespace at either end. */
  predicate IsSuggestion(s: string) {
    s != [] && ',' !in s && !IsWhitespace(s[0]) && !IsWhitespace(s[|s| - 1])
  }

  /** Every entry is a suggestion. */
  predicate AllSuggestions(s: seq<string>) {
    forall i :: 0 <= i < |s| ==> IsSuggestion(s[i])
  }

  /** `.map(s => s.trim())`. */
  function TrimEach(fragments: seq<string>): seq<string> {
    Map(Trim, fragments)
  }

  /** `xs.map(f)`. */
  function Map<A, B>(f: A -> B, xs: seq<A>): (r: seq<B>)
    ensures |r| == |xs| && forall i :: 0 <= i < |xs| ==> r[i] == f(xs[i])
  {
    seq(|xs|, i requires 0 <= i < |xs| => f(xs[i]))
  }

  lemma MapAppend<A, B>(f: A -> B, a: seq<A>, b: seq<A>)
    ensures Map(f, a + b) == Map(f, a) + Map(f, b)
  {
    var l, r := Map(f, a + b), Map(f, a) + Map(f, b);
    forall i | 0 <= i < |l| ensures l[i] == r[i] {
      if i < |a| {
        assert (a + b)[i] == a[i];
      } else {
        assert (a + b)[i] == b[i - |a|];
      }
    }
  }

  /** `.filter(s => s.length > 0)`. */
  function DropEmpty(fragments: seq<string>): (r: seq<string>)
    ensures |r| <= |fragments|
    ensures forall x :: x in r <==> x in fragments && x != []
  {
    if fragments == [] then []
    else if fragments[0] == [] then DropEmpty(fragments[1..])
    else [fragments[0]] + DropEmpty(fragments[1..])
  }

  /** `text.split(',').map(s => s.trim()).filter(s => s.length > 0)`. */
  function ParseSuggestions(text: string): (r: seq<string>)
    ensures AllSuggestions(r)
  {
    var fragments := Split(text, ',');
    var trimmed := TrimEach(fragments);
    forall i | 0 <= i < |trimmed| ensures trimmed[i] == [] || IsSuggestion(trimmed[i]) {
      TrimmedFragment(fragments[i]);
    }
    DropEmptyKeeps(trimmed);
    DropEmpty(trimmed)
  }

  /** A comma-free fragment trims to nothing or to a suggestion. */
  lemma TrimmedFragment(f: string)
    requires ',' !in f
    ensures Trim(f) == [] || IsSuggestion(Trim(f))
  {
  }

  /** What survives the filter is what was not empty. */
  lemma DropEmptyKeeps(fragments: seq<string>)
    requires forall i :: 0 <= i < |fragments| ==> fragments[i] == [] || IsSuggestion(fragments[i])
    ensures AllSuggestions(DropEmpty(fragments))
  {
    var r := DropEmpty(fragments);
    forall i | 0 <= i < |r| ensures IsSuggestion(r[i]) {
      assert r[i] in fragments;
      var j :| 0 <= j < |fragments| && fragments[j] == r[i];
    }
  }

  /** The flow: picks the prompt, asks the text model, and parses its
      reply. An unknown kind fails before the model is called; a failing
      model call fails the flow with its message. */
  function GenerateSuggestions(model: Model, businessName: string, suggestionType: string)
    : (r: Result<seq<string>, string>)
    ensures ParseType(suggestionType).None? ==> r == Failure(InvalidType)
    ensures ParseType(suggestionType).Some? ==>
      var request := Request(SuggestionModel, [Text(SuggestionPrompt(suggestionType, businessName).value)],
                             Config(Some(["TEXT"]), None));
      match model(request)
      case Failure(e) => r == Failure(e)
      case Success(response) => r == Success(ParseSuggestions(response.text))
    ensures r.Success? ==> AllSuggestions(r.value)
  {
    match SuggestionPrompt(suggestionType, businessName)
    case Failure(e) => Failure(e)
    case Success(prompt) =>
      match model(Request(SuggestionModel, [Text(prompt)], Config(Some(["TEXT"]), None)))
      case Failure(e) => Failure(e)
      case Success(response) => Success(ParseSuggestions(response.text))
  }

  lemma TrimEachAppend(a: seq<string>, b: seq<string>)
    ensures TrimEach(a + b) == TrimEach(a) + TrimEach(b)
  {
    MapAppend(Trim, a, b);
  }

  lemma {:induction false} DropEmptyAppend(a: seq<string>, b: seq<string>)
    ensures DropEmpty(a + b) == DropEmpty(a) + DropEmpty(b)
  {
    if a == [] {
      assert a + b == b;
    } else {
      var x, rest := a[0], a[1..];
      assert a == [x] + rest;
      assert a + b == [x] + (rest + b);
      DropEmptyCons(x, rest);
      DropEmptyCons(x, rest + b);
      DropEmptyAppend(rest, b);
    }
  }

  /** One step of the filter. */
  lemma DropEmptyCons(x: string, rest: seq<string>)
    ensures DropEmpty([x] + rest) == (if x == [] then [] else [x]) + DropEmpty(rest)
  {
    var s := [x] + rest;
    assert s[0] == x && s[1..] == rest;
  }

  /** The reply is read in order: a comma splits it into the suggestions
      before and the suggestions after. */
  lemma ParseAppend(a: string, b: string)
    ensures ParseSuggestions(a + [','] + b) == ParseSuggestions(a) + ParseSuggestions(b)
  {
    SplitAppend(a, b, ',');
    TrimEachAppend(Split(a, ','), Split(b, ','));
    DropEmptyAppend(TrimEach(Split(a, ',')), TrimEach(Split(b, ',')));
  }

  /** A reply without a comma is one suggestion, its trimmed text, unless
      it is blank. */
  lemma ParseWithoutComma(text: string)
    requires ',' !in text
    ensures ParseSuggestions(text) == if IsBlank(text) then [] else [Trim(text)]
  {
    assert Split(text, ',') == [text];
    var trimmed := TrimEach([text]);
    assert trimmed == [Trim(text)];
    DropEmptySingle(Trim(text));
  }

  lemma DropEmptySingle(x: string)
    ensures DropEmpty([x]) == if x == [] then [] else [x]
  {
    assert [x][1..] == [];
  }

  /** There are at most as many suggestions as commas plus one. */
  lemma ParseCount(text: string)
    ensures |ParseSuggestions(text)| <= multiset(text)[','] + 1
  {
    SplitCount(text, ',');
  }

  /** Suggestions joined with commas are read back unchanged. */
  lemma {:induction false} ParseJoin(s: seq<string>)
    requires s != []
    requires AllSuggestions(s)
    ensures ParseSuggestions(Join(s, ',')) == s
  {
    assert IsSuggestion(s[0]);
    if |s| == 1 {
      ParseOne(s[0]);
      assert s == [s[0]];
    } else {
      var tail := s[1..];
      assert AllSuggestions(tail) by {
        forall i | 0 <= i < |tail| ensures IsSuggestion(tail[i]) {
          assert tail[i] == s[i + 1];
        }
      }
      ParseJoin(tail);
      var rest := Join(tail, ',');
      assert Join(s, ',') == s[0] + [','] + rest;
      ParseOne(s[0]);
      ParseAppend(s[0], rest);
      assert s == [s[0]] + tail;
    }
  }

  /** A single suggestion is read back as itself. */
  lemma ParseOne(x: string)
    requires IsSuggestion(x)
    ensures ParseSuggestions(x) == [x]
  {
    TrimSelf(x);
    ParseWithoutComma(x);
  }

  /** Text with no whitespace at either end trims to itself. */
  lemma TrimSelf(s: string)
    requires s != [] && !IsWhitespace(s[0]) && !IsWhitespace(s[|s| - 1])
    ensures Trim(s) == s
  {
  }

}
