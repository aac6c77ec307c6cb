/** The free-form (professional) generator: a prompt, optionally refined,
    is sent to the logo model; the business name is read out of the prompt;
    each prompt used goes into a most-recent-first history kept on the
    server for a signed-in user and in the browser's storage otherwise. */
module ProfessionalView {
  import opened Wrappers
  import opened Strings
  import opened Api
  import opened Ai
  import opened PromptHistory
  import ProfessionalRoute

  const DefaultBusinessName := "CustomLogo"
  const HistoryKey := "flatify_promptHistory"
  const PromptRequired := "Please enter or refine a prompt."
  const PromptToRefineRequired := "Please enter a prompt to refine."
  const NothingToSave := "No logo generated or not logged in."
  const NoPromptRecorded := "No prompt was recorded for this generation."

  /** The first example prompt, which the text area starts with. */
  const FirstExample := "A minimalist flat design logo for a tech startup named 'InnovateX', using shades of blue and teal, with a subtle abstract geometric shape representing connectivity."

  /** `c` is the lower-case ASCII letter `lower` in either case, as the `i`
      flag compares it. */
  predicate SameLetter(c: char, lower: char) {
    c == lower || c as int + 32 == lower as int
  }

  /** `named ` at position `k`, in any mix of cases. */
  predicate NamedAt(s: string, k: nat) {
    && k + 6 <= |s|
    && SameLetter(s[k], 'n') && SameLetter(s[k + 1], 'a') && SameLetter(s[k + 2], 'm')
    && SameLetter(s[k + 3], 'e') && SameLetter(s[k + 4], 'd') && s[k + 5] == ' '
  }

  /** `/named Q([^Q]+)Q/i` matches at position `k` with `name` captured. */
  predicate IsMatch(s: string, q: char, k: nat, name: string) {
    && NamedAt(s, k) && k + 7 + |name| < |s| && s[k + 6] == q
    && name != [] && q !in name
    && s[k + 7..k + 7 + |name|] == name && s[k + 7 + |name|] == q
  }

  /** There is no match starting in `[from, to)`. */
  ghost predicate NoMatchBetween(s: string, q: char, from: nat, to: nat) {
    forall k, name :: from <= k < to ==> !IsMatch(s, q, k, name)
  }

  /** The capture of a match at `k`, if the pattern matches there: the text
      up to the next quote, when it is not empty. */
  function CaptureAt(s: string, q: char, k: nat): (r: Option<string>)
    ensures r.Some? ==> IsMatch(s, q, k, r.value)
  {
    if NamedAt(s, k) && k + 7 < |s| && s[k + 6] == q && s[k + 7] != q && q in s[k + 7..] then
      var rest := s[k + 7..];
      var i := IndexOf(rest, q);
      assert rest[..i] == s[k + 7..k + 7 + i];
      Some(rest[..i])
    else None
  }

  /** A match at `k` is the one `CaptureAt` finds: the capture cannot stop
      before the first closing quote, nor run past it. */
  lemma MatchIsCapture(s: string, q: char, k: nat, name: string)
    requires IsMatch(s, q, k, name)
    ensures CaptureAt(s, q, k) == Some(name)
  {
    var rest := s[k + 7..];
    assert rest[|name|] == q;
    assert rest[..|name|] == name;
    IndexOfUnique(rest, q, |name|);
    assert rest[0] == name[0];
  }

  /** The leftmost match at or after `from`, and its capture. */
  function FirstCapture(s: string, q: char, from: nat): (r: Option<string>)
    ensures r.Some? ==> exists k :: from <= k && IsMatch(s, q, k, r.value) && NoMatchBetween(s, q, from, k)
    ensures r.None? ==> NoMatchBetween(s, q, from, |s| + 1)
    decreases |s| + 1 - from
  {
    if from > |s| then None
    else match CaptureAt(s, q, from)
      case Some(name) => Some(name)
      case None =>
        NoCaptureNoMatch(s, q, from);
        FirstCapture(s, q, from + 1)
  }

  lemma NoCaptureNoMatch(s: string, q: char, k: nat)
    ensures CaptureAt(s, q, k).None? ==> forall name :: !IsMatch(s, q, k, name)
  {
    if CaptureAt(s, q, k).None? {
      forall name | IsMatch(s, q, k, name) ensures false {
        MatchIsCapture(s, q, k, name);
      }
    }
  }

  /** `usePrompt.match(/named '([^']+)'/i) || usePrompt.match(/named "([^"]+)"/i)`,
      then the capture or `"CustomLogo"`: the single-quoted form anywhere
      wins over the double-quoted one. */
  function BusinessName(prompt: string): (name: string)
    ensures FirstCapture(prompt, '\'', 0).Some? ==> name == FirstCapture(prompt, '\'', 0).value
    ensures FirstCapture(prompt, '\'', 0).None? && FirstCapture(prompt, '"', 0).Some? ==>
      name == FirstCapture(prompt, '"', 0).value
    ensures FirstCapture(prompt, '\'', 0).None? && FirstCapture(prompt, '"', 0).None? ==>
      name == DefaultBusinessName
  {
    match FirstCapture(prompt, '\'', 0)
    case Some(single) => single
    case None =>
      match FirstCapture(prompt, '"', 0)
      case Some(double) => double
      case None => DefaultBusinessName
  }

  /** An extracted name is never empty and never holds its own quote; it is
      the capture of the leftmost match of its pattern. */
  lemma BusinessNameShape(prompt: string)
    requires BusinessName(prompt) != DefaultBusinessName
    ensures BusinessName(prompt) != []
    ensures exists q, k ::
      && (q == '\'' || q == '"')
      && IsMatch(prompt, q, k, BusinessName(prompt))
      && NoMatchBetween(prompt, q, 0, k)
  {
  }

  /** A single-quoted match anywhere decides the name, even when a
      double-quoted one comes earlier. */
  lemma SingleQuoteWins(prompt: string, k: nat, name: string)
    requires IsMatch(prompt, '\'', k, name)
    ensures exists j: nat :: j <= k && IsMatch(prompt, '\'', j, BusinessName(prompt))
  {
    var r := FirstCapture(prompt, '\'', 0);
    if r.Some? {
      var j :| 0 <= j && IsMatch(prompt, '\'', j, r.value) && NoMatchBetween(prompt, '\'', 0, j);
      assert BusinessName(prompt) == r.value;
    }
  }

  /** Without any match the name is `"CustomLogo"`. */
  lemma NoMatchDefault(prompt: string)
    requires NoMatchBetween(prompt, '\'', 0, |prompt| + 1) && NoMatchBetween(prompt, '"', 0, |prompt| + 1)
    ensures BusinessName(prompt) == DefaultBusinessName
  {
  }

  /** A prompt that opens with `named '<name>'` is named `name`, whatever
      follows, provided the name is non-empty and has no single quote. */
  lemma NamedPromptGivesName(name: string, rest: string)
    requires name != [] && '\'' !in name
    ensures BusinessName("named '" + name + "'" + rest) == name
  {
    var s := "named '" + name + "'" + rest;
    assert s[7..7 + |name|] == name;
    assert IsMatch(s, '\'', 0, name);
    MatchIsCapture(s, '\'', 0, name);
  }

  /** The body `handleSaveProfessionalGeneration` posts, or the reason it
      refuses: a logo and a signed-in user first, then a recorded prompt. */
  function SaveRequest(logoSrc: Option<string>, userId: Option<string>, prompt: string, refinedPrompt: string,
                       currentUsedPrompt: string): (r: Result<ProfessionalRoute.SaveBody, string>)
    ensures r == Failure(NothingToSave) <==> !Present(logoSrc) || !Present(userId)
    ensures r == Failure(NoPromptRecorded) <==> Present(logoSrc) && Present(userId) && currentUsedPrompt == ""
    ensures r.Success? ==> r.value == ProfessionalRoute.SaveBody(userId, Some(prompt), Some(refinedPrompt),
      Some(currentUsedPrompt), logoSrc)
  {
    if !Present(logoSrc) || !Present(userId) then Failure(NothingToSave)
    else if currentUsedPrompt == "" then Failure(NoPromptRecorded)
    else Success(ProfessionalRoute.SaveBody(userId, Some(prompt), Some(refinedPrompt), Some(currentUsedPrompt), logoSrc))
  }

  /** Whatever the view lets through, the save route accepts. */
  lemma SaveRequestComplete(logoSrc: Option<string>, userId: Option<string>, prompt: string, refinedPrompt: string,
                            currentUsedPrompt: string)
    requires SaveRequest(logoSrc, userId, prompt, refinedPrompt, currentUsedPrompt).Success?
    ensures ProfessionalRoute.Complete(SaveRequest(logoSrc, userId, prompt, refinedPrompt, currentUsedPrompt).value)
  {
  }

  /** What the user is told after an action. */
  datatype Notice = Refused(reason: string) | Succeeded | Failed

  /** The component's state, with the browser storage entry `HistoryKey`
      (`None` when it is absent). `userId` is `currentUser?.id`. */
  class ProfessionalGenerator {
    var prompt: string
    var refinedPrompt: string
    var currentUsedPrompt: string
    var isLoading: bool
    var logoSrc: Option<string>
    var promptHistory: seq<string>
    var stored: Option<seq<string>>
    const userId: Option<string>

    constructor(user: Option<string>, storage: Option<seq<string>>)
      ensures prompt == FirstExample && refinedPrompt == "" && currentUsedPrompt == ""
      ensures !isLoading && logoSrc.None? && promptHistory == [] && stored == storage && userId == user
    {
      prompt := FirstExample;
      refinedPrompt := "";
      currentUsedPrompt := "";
      isLoading := false;
      logoSrc := None;
      promptHistory := [];
      stored := storage;
      userId := user;
    }

    /** `loadHistory`: a signed-in user's history comes from the server;
        without a user, or when the server does not answer with a history,
        the stored one is used if there is one. `reply` is the server's
        answer, `None` when the request fails. */
    method LoadHistory(reply: Option<Reply<seq<string>>>)
      modifies this
      ensures prompt == old(prompt) && refinedPrompt == old(refinedPrompt)
      ensures currentUsedPrompt == old(currentUsedPrompt) && isLoading == old(isLoading)
      ensures logoSrc == old(logoSrc) && stored == old(stored)
      ensures promptHistory ==
        if Present(userId) && reply.Some? && reply.value.Ok? then reply.value.body
        else if stored.Some? then stored.value
        else old(promptHistory)
    {
      if Present(userId) && reply.Some? && reply.value.Ok? {
        promptHistory := reply.value.body;
      } else if stored.Some? {
        promptHistory := stored.value;
      }
    }

    /** `updatePromptHistory`: for a signed-in user the server's new history
        is adopted; if the server refuses or cannot be reached, the prompt
        is moved to the front of the list in memory (at most
        `MaxHistoryItemsLocalStorage`). Without a user the same update is
        made and written to storage; `storageFails` stands for `setItem`
        throwing, which is caught and leaves the storage as it was. */
    method UpdatePromptHistory(newPrompt: string, reply: Option<Reply<seq<string>>>, storageFails: bool)
      modifies this
      ensures prompt == old(prompt) && refinedPrompt == old(refinedPrompt)
      ensures currentUsedPrompt == old(currentUsedPrompt) && isLoading == old(isLoading) && logoSrc == old(logoSrc)
      ensures Present(userId) && reply.Some? && reply.value.Ok? ==>
        promptHistory == reply.value.body && stored == old(stored)
      ensures Present(userId) && !(reply.Some? && reply.value.Ok?) ==>
        promptHistory == Remember(old(promptHistory), newPrompt, MaxHistoryItemsLocalStorage) && stored == old(stored)
      ensures !Present(userId) ==>
        && promptHistory == Remember(old(promptHistory), newPrompt, MaxHistoryItemsLocalStorage)
        && stored == if storageFails then old(stored) else Some(promptHistory)
    {
      if Present(userId) {
        if reply.Some? && reply.value.Ok? {
          promptHistory := reply.value.body;
        } else {
          promptHistory := Remember(promptHistory, newPrompt, MaxHistoryItemsLocalStorage);
        }
      } else {
        var updatedHistory := Remember(promptHistory, newPrompt, MaxHistoryItemsLocalStorage);
        promptHistory := updatedHistory;
        if !storageFails {
          stored := Some(updatedHistory);
        }
      }
    }

    /** `handleClearHistory`: a signed-in user's list is emptied once the
        server confirms; without a user the list is emptied and the stored
        entry removed. */
    method ClearHistory(reply: Option<Reply<()>>)
      modifies this
      ensures prompt == old(prompt) && refinedPrompt == old(refinedPrompt)
      ensures currentUsedPrompt == old(currentUsedPrompt) && isLoading == old(isLoading) && logoSrc == old(logoSrc)
      ensures Present(userId) ==>
        stored == old(stored)
        && promptHistory == if reply.Some? && reply.value.Ok? then [] else old(promptHistory)
      ensures !Present(userId) ==> promptHistory == [] && stored.None?
    {
      if Present(userId) {
        if reply.Some? && reply.value.Ok? {
          promptHistory := [];
        }
      } else {
        promptHistory := [];
        stored := None;
      }
    }

    /** `handleRefinePrompt`: a blank prompt is refused; otherwise the
        refinement flow's answer becomes the refined prompt, which is
        cleared first and stays empty if the flow fails. */
    method RefinePrompt(refine: string -> Result<string, string>) returns (notice: Notice)
      modifies this
      ensures prompt == old(prompt) && currentUsedPrompt == old(currentUsedPrompt)
      ensures isLoading == old(isLoading) && logoSrc == old(logoSrc)
      ensures promptHistory == old(promptHistory) && stored == old(stored)
      ensures IsBlank(prompt) ==> notice == Refused(PromptToRefineRequired) && refinedPrompt == old(refinedPrompt)
      ensures !IsBlank(prompt) ==>
        match refine(prompt)
        case Success(refined) => refinedPrompt == refined && notice == Succeeded
        case Failure(_) => refinedPrompt == "" && notice == Failed
    {
      if IsBlank(prompt) {
        return Refused(PromptToRefineRequired);
      }
      refinedPrompt := "";
      var result := refine(prompt);
      if result.Success? {
        refinedPrompt := result.value;
        notice := Succeeded;
      } else {
        notice := Failed;
      }
    }

    /** `handleGenerateLogo`: a blank prompt is refused. Otherwise the
        prompt is recorded as the one used and entered into the history
        before the model is called, so a failed generation is still
        remembered; the model gets the extracted business name and the
        whole prompt as the description. */
    method GenerateLogo(usePrompt: string, historyReply: Option<Reply<seq<string>>>, storageFails: bool,
                        generate: InitialLogoFlow)
      returns (notice: Notice)
      modifies this
      ensures prompt == old(prompt) && refinedPrompt == old(refinedPrompt)
      ensures IsBlank(usePrompt) ==>
        && notice == Refused(PromptRequired)
        && currentUsedPrompt == old(currentUsedPrompt) && isLoading == old(isLoading) && logoSrc == old(logoSrc)
        && promptHistory == old(promptHistory) && stored == old(stored)
      ensures !IsBlank(usePrompt) ==>
        && currentUsedPrompt == usePrompt && !isLoading
        && (Present(userId) && historyReply.Some? && historyReply.value.Ok? ==>
              promptHistory == historyReply.value.body)
        && (!(Present(userId) && historyReply.Some? && historyReply.value.Ok?) ==>
              promptHistory == Remember(old(promptHistory), usePrompt, MaxHistoryItemsLocalStorage))
        && stored == (if Present(userId) || storageFails then old(stored) else Some(promptHistory))
        && match generate(BusinessName(usePrompt), usePrompt)
           case Success(uri) => logoSrc == Some(uri) && notice == Succeeded
           case Failure(_) => logoSrc.None? && notice == Failed
    {
      if IsBlank(usePrompt) {
        return Refused(PromptRequired);
      }
      isLoading := true;
      logoSrc := None;
      currentUsedPrompt := usePrompt;
      UpdatePromptHistory(usePrompt, historyReply, storageFails);
      var businessName := BusinessName(usePrompt);
      var result := generate(businessName, usePrompt);
      if result.Success? {
        logoSrc := Some(result.value);
        notice := Succeeded;
      } else {
        notice := Failed;
      }
      isLoading := false;
    }
  }
}
