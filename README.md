# Flatify AI — a Dafny model of its rules

Flatify AI is a Next.js application that draws flat-design logos with a
generative image model. It stores users, prompt histories and saved logos in
MongoDB. Around the model and the database it applies a set of small rules,
and this project models those rules and proves what they promise:

- the most-recent-first prompt history. The server caps it at 15 entries,
  the browser fallback at 10. It sits behind the `/api/user/prompt-history`
  route, and the professional generator also keeps a copy.
- the three stores of saved generations: novice, professional and image
  editor. Each has a save with required fields, a list of a user's logos
  newest first, and a delete by id and owner.
- the prompt builders and parsers. These are:
  - the novice description;
  - the similar-logo instruction;
  - the suggestion templates and the comma-separated reply parser;
  - the image-suggestion and refine-logo routes.
- the download file name sanitiser, and the business name taken from a
  `named '…'` / `named "…"` phrase in a professional prompt.
- the account routes: sign-up validation and insert, login, and the Clerk
  `user.created` webhook.
- the role provider, which restores the chosen role from browser storage
  and keeps storage in step with it.

Each source file has one module. State that the source changes in place is
a class field that methods reassign:
- the `users` collection (`Users.UserCollection`);
- a generation collection (`Generations.Collection`);
- the two generator views;
- the role provider.

Pure logic is functions and lemmas. Shared helpers:
- `Wrappers` (Option, Result);
- `Strings` (JavaScript whitespace, `trim`, `split`, `join`);
- `Api` (the reply envelope, JavaScript truthiness, the 503/500 catch block);
- `Mongo` (document ids, `findOne`);
- `Ai` (model requests and responses).

Calls into code that cannot be seen become function-typed parameters:
- `ObjectId.isValid`;
- bcrypt's hash and compare;
- Svix's signature check;
- the generative model;
- the `generateInitialLogo`, `refineLogoPrompt` and `generateSuggestions` flows.

Other inputs the code does not control are also parameters. The clock is
`now`, and the id the driver assigns is `freshId`. A failing database call
is `fault: Option<DbError>`. A storage write that throws is
`storageFails: bool`. A server reply seen by a view is
`Option<Reply<T>>`, where `None` is a network failure.

Three behaviours of the code are worth stating:
- a login for an account without a password hash (one created by the
  webhook) makes bcrypt throw, and the route answers 500;
- the schema makes `clerkId` required and unique (src/models/User.ts:4).
  The unique index is not sparse: a missing Clerk id counts as the key
  null, so at most one account may lack one. The webhook's `User.create`
  throws on a missing or duplicate Clerk id. The route does not catch
  this, so it is an `Outcome.Threw`. Sign-up accounts have no Clerk id,
  so once one exists, the next sign-up's `insertOne` fails with a
  duplicate-key error and the route answers 500;
- JavaScript counts a string's length in UTF-16 code units, and a regular
  expression without the `u` flag replaces code units. A Dafny `char` is
  a Unicode scalar value, so `Strings.Utf16Length` counts the units where
  the code does: for the password length and the sanitised file name.

## Model

| member | source | states |
|---|---|---|
| PromptHistory.Without | src/app/api/user/prompt-history/route.ts:64 | the filter keeps exactly the entries other than `p`, never more of them |
| PromptHistory.Take | src/app/api/user/prompt-history/route.ts:64 | `slice(0, n)` is a prefix of at most `n` entries, the whole list when it is short enough |
| PromptHistory.Remember | src/app/api/user/prompt-history/route.ts:64 | the new history has at most `cap` entries, starts with `p`, and `p` does not occur again after it |
| PromptHistory.WithoutIsSubsequence | src/app/api/user/prompt-history/route.ts:64 | filtering keeps the order of the remaining entries |
| PromptHistory.WithoutAppend | src/app/api/user/prompt-history/route.ts:64 | filtering distributes over concatenation |
| PromptHistory.WithoutAbsent | src/app/api/user/prompt-history/route.ts:64 | filtering out an absent prompt changes nothing |
| PromptHistory.WithoutKeepsNoDuplicates | src/app/api/user/prompt-history/route.ts:64 | filtering keeps a duplicate-free list duplicate-free |
| PromptHistory.PrefixIsSubsequence | src/app/api/user/prompt-history/route.ts:64 | truncating an order-preserving selection keeps it order-preserving |
| PromptHistory.SubsequenceMembers | src/app/api/user/prompt-history/route.ts:64 | an order-preserving selection only holds entries of the original |
| PromptHistory.RememberFront | src/app/api/user/prompt-history/route.ts:64 | after recording `p`, the history starts with `p` |
| PromptHistory.RememberOnce | src/app/api/user/prompt-history/route.ts:64 | after recording `p`, `p` occurs exactly once |
| PromptHistory.RememberLength | src/app/api/user/prompt-history/route.ts:6-64 | the length is the old list without `p`, plus one, capped at `cap` (15 on the server) |
| PromptHistory.RememberKeepsOrder | src/app/api/user/prompt-history/route.ts:64 | the other entries keep their relative order and were all in the old history |
| PromptHistory.RememberKeepsNoDuplicates | src/app/api/user/prompt-history/route.ts:64 | a history without duplicates stays without duplicates |
| PromptHistory.RememberIdempotent | src/app/api/user/prompt-history/route.ts:64 | recording the same prompt twice in a row is recording it once |
| PromptHistory.RememberMovesToFront | src/app/api/user/prompt-history/route.ts:64 | re-using a prompt already in a duplicate-free history with room only reorders it |
| PromptHistory.MoveToFront | src/app/api/user/prompt-history/route.ts:64 | moving the single occurrence of `p` to the front keeps the same entries |
| PromptHistory.OnlyOccurrence | src/app/api/user/prompt-history/route.ts:64 | in a duplicate-free list an entry occurs nowhere else |
| PromptHistory.WithoutOne | src/app/api/user/prompt-history/route.ts:64 | filtering out the single occurrence of `p` just removes it |
| PromptHistory.RememberScenario | src/app/api/user/prompt-history/route.ts:6-64 | using A, then B, then A leaves [A, B] |
| Users.FindById | src/app/api/user/prompt-history/route.ts:23 | `findOne({_id})` finds a document exactly when one has that id, and returns one with that id |
| Users.FindByEmail | src/app/api/auth/login/route.ts:17 | `findOne({email})` finds a document exactly when one has that e-mail, and returns one with it |
| Users.SetHistory | src/app/api/user/prompt-history/route.ts:66-69 | `updateOne` keeps every id and changes only `promptHistory`; with no matching id it changes nothing |
| Users.FindAfterSetHistory | src/app/api/user/prompt-history/route.ts:66-69 | after the update, the account is found with the new history |
| Users.FindOtherAfterSetHistory | src/app/api/user/prompt-history/route.ts:66-69 | the update leaves every other account as it was |
| Users.SetHistoryIdempotent | src/app/api/user/prompt-history/route.ts:96-99 | setting the same history twice is setting it once, so a repeated DELETE changes nothing more |
| Users.AppendKeepsUnique | src/models/User.ts:4 | adding a document whose Clerk-id key (null when missing) is free keeps the unique index unique |
| Users.SetHistoryKeepsUnique | src/models/User.ts:4 | a history update leaves every Clerk id, and so the index, as it was |
| Users.UserCollection.InsertOne | src/app/api/auth/signup/route.ts:35-40 | `insertOne` appends the document exactly when its Clerk-id key is free, otherwise the duplicate-key error leaves the collection unchanged; the index stays unique |
| Users.UserCollection.SetPromptHistory | src/app/api/user/prompt-history/route.ts:66-69 | the collection becomes `SetHistory` of its old contents |
| PromptHistoryRoute.StoredHistory | src/app/api/user/prompt-history/route.ts:29 | `user.promptHistory \|\| []`: the stored list, or empty when the field is missing |
| PromptHistoryRoute.Get | src/app/api/user/prompt-history/route.ts:8-38 | 400 exactly for a missing or malformed id; 404 exactly for an unknown account; otherwise the stored list or []; a database fault goes through the catch block |
| PromptHistoryRoute.Post | src/app/api/user/prompt-history/route.ts:40-80 | missing fields or a malformed id give 400, an unknown account 404, a fault 503/500, all with the store unchanged; otherwise the account's history becomes `Remember(old, prompt, 15)`, which is also returned |
| PromptHistoryRoute.Delete | src/app/api/user/prompt-history/route.ts:82-110 | a missing or malformed id gives 400 with the store unchanged; otherwise the history is set to [] without checking that the account exists |
| PromptHistoryRoute.GetAfterPost | src/app/api/user/prompt-history/route.ts:29-64 | after recording `p`, GET returns a history that starts with `p` |
| PromptHistoryRoute.GetAfterDelete | src/app/api/user/prompt-history/route.ts:29-99 | after clearing, GET returns [] |
| PromptHistoryRoute.PostIsolated | src/app/api/user/prompt-history/route.ts:66-69 | recording for one account leaves every other account's history as it was |
| PromptHistoryRoute.PostTwice | src/app/api/user/prompt-history/route.ts:61-69 | posting the same prompt twice stores what posting it once stores |
| Mongo.FindFirst | src/app/api/user/prompt-history/route.ts:23 | `findOne`: the first matching position, or none when nothing matches |
| Mongo.RemoveAt | src/app/api/generations/novice/route.ts:51-54 | removing one document shifts the later ones down and keeps the earlier ones |
| Api.Caught | src/app/api/user/prompt-history/route.ts:31-37 | the catch block answers 503 exactly for a `MongoNetworkError`, otherwise 500 with the generic message |
| Api.ThrownMessage | src/app/api/suggestions/image-editor/route.ts:35-38 | a thrown error becomes a 500 carrying its message, or a fixed message when it has none |
| Ai.MediaUrl | src/app/api/refine-logo/route.ts:23-27 | a media URL is there exactly when `media && media.url` is truthy |
| Generations.OwnedBy | src/app/api/generations/novice/route.ts:81 | `find({userId})` keeps exactly the documents of that owner |
| Generations.Insert | src/app/api/generations/novice/route.ts:82 | inserting into a newest-first list keeps it newest first and adds exactly one entry |
| Generations.SortNewestFirst | src/app/api/generations/novice/route.ts:82 | `sort({createdAt: -1})` is newest first and holds the same documents |
| Generations.Find | src/app/api/generations/novice/route.ts:80-83 | the listing is newest first and holds exactly the owner's documents |
| Generations.InsertPermutes | src/app/api/generations/novice/route.ts:82 | inserting adds exactly one document to the multiset |
| Generations.SortPermutes | src/app/api/generations/novice/route.ts:82 | sorting is a permutation: nothing is lost or repeated |
| Generations.OwnedByCounts | src/app/api/generations/novice/route.ts:81 | each of the owner's documents is kept as often as it occurs, and no other document is kept |
| Generations.FindCounts | src/app/api/generations/novice/route.ts:80-83 | the listing holds each of the owner's documents exactly as often as it is stored |
| Generations.OwnedByAppend | src/app/api/generations/novice/route.ts:81 | filtering by owner distributes over concatenation |
| Generations.OwnedByCons | src/app/api/generations/novice/route.ts:81 | one step of the owner filter |
| Generations.DeleteOwned | src/app/api/generations/novice/route.ts:51-54 | `deleteOne` removes at most one document |
| Generations.DeleteOwnedRemoves | src/app/api/generations/novice/route.ts:51-58 | a document is removed exactly when one matches both id and owner, and what is removed is one such document; otherwise nothing changes |
| Generations.DeleteIsolated | src/app/api/generations/novice/route.ts:51-54 | a delete never changes another user's listing |
| Generations.SavedIsListed | src/app/api/generations/novice/route.ts:26-83 | a document just saved by an owner is in that owner's listing |
| Generations.Collection.InsertOne | src/app/api/generations/novice/route.ts:26 | `insertOne` appends the document |
| Generations.Collection.DeleteOne | src/app/api/generations/novice/route.ts:51-54 | the collection becomes `DeleteOwned` of its old contents; `deletedCount` is 0 exactly when nothing matched |
| NoviceRoute.Record | src/app/api/generations/novice/route.ts:16-24 | the saved document holds the owner string, the logo, the business, the optional colours, the fresh id and the timestamp |
| NoviceRoute.Post | src/app/api/generations/novice/route.ts:6-36 | a missing owner, logo, name or description gives 400 and inserts nothing; a fault goes through the catch block; otherwise exactly the record is appended |
| NoviceRoute.Delete | src/app/api/generations/novice/route.ts:38-68 | a missing id or owner gives 400; a malformed id makes `new ObjectId` throw, so 500; no match gives one 404 for both "absent" and "not yours", with the store unchanged; otherwise one matching document is removed |
| NoviceRoute.Get | src/app/api/generations/novice/route.ts:70-93 | a missing owner gives 400; otherwise exactly the documents saved under that owner string, newest first |
| NoviceRoute.SavedThenListed | src/app/api/generations/novice/route.ts:16-83 | a generation just saved is listed for the user who saved it |
| ProfessionalRoute.Record | src/app/api/generations/professional/route.ts:16-23 | the saved document holds the owner, both optional prompts, the used prompt, the logo and the timestamp |
| ProfessionalRoute.Post | src/app/api/generations/professional/route.ts:6-35 | a missing owner, used prompt or logo gives 400 and inserts nothing; otherwise exactly the record is appended |
| ProfessionalRoute.Delete | src/app/api/generations/professional/route.ts:37-67 | as for the novice store: 400, 500 for a malformed id, one 404, or one matching document removed |
| ProfessionalRoute.Get | src/app/api/generations/professional/route.ts:69-92 | a missing owner gives 400; otherwise exactly that owner's documents, newest first |
| ProfessionalRoute.SavedThenListed | src/app/api/generations/professional/route.ts:16-82 | a generation just saved is listed for the user who saved it |
| ImageEditorRoute.Record | src/app/api/generations/image-editor/route.ts:16-24 | the saved document holds the owner as the string received, the source image, its optional name, the business and the logo |
| ImageEditorRoute.Post | src/app/api/generations/image-editor/route.ts:6-36 | a missing owner, source image, name, description or logo gives 400 and inserts nothing; otherwise exactly the record is appended |
| ImageEditorRoute.Delete | src/app/api/generations/image-editor/route.ts:38-68 | matches the id and the owner string; 400, 500 for a malformed id, one 404, or one matching document removed |
| ImageEditorRoute.Get | src/app/api/generations/image-editor/route.ts:70-97 | a missing or malformed owner gives 400; otherwise exactly the documents whose owner is the ObjectId, newest first |
| ImageEditorRoute.SaveKeepsOwnersStrings | src/app/api/generations/image-editor/route.ts:17 | saving keeps every stored owner a string |
| ImageEditorRoute.GetListsNothing | src/app/api/generations/image-editor/route.ts:17-85 | as written, the listing of a collection filled by this route is always empty |
| ImageEditorRoute.SavedButNotListed | src/app/api/generations/image-editor/route.ts:17-85 | a concrete save followed by a listing for the same user returns [] |
| ImageEditorRoute.GetCorrected | src/app/api/generations/image-editor/route.ts:70-97 | the same checks, filtering on the owner string as DELETE does |
| ImageEditorRoute.SavedThenListed | src/app/api/generations/image-editor/route.ts:16-87 | with the corrected filter, a generation just saved is listed for its owner |
| SimilarLogo.BuildPromptText | src/ai/flows/generate-similar-logo.ts:48-58 | the `+=` accumulation yields the instruction: the opening, then each clause whose choice is set |
| SimilarLogo.SimilarRequest | src/ai/flows/generate-similar-logo.ts:60-71 | the request asks for text and image, with the source image part before the text part |
| SimilarLogo.GenerateSimilarLogo | src/ai/flows/generate-similar-logo.ts:60-76 | a model error is passed on; a response without a media URL is the fixed error; otherwise the logo is the media URL |
| SimilarLogo.InstructionStartsWithBase | src/ai/flows/generate-similar-logo.ts:48 | the instruction always opens with the base text, which quotes the name and description and holds the flat-design clause |
| SimilarLogo.AddClauseExtends | src/ai/flows/generate-similar-logo.ts:50-58 | adding a clause keeps the text before it |
| SimilarLogo.InstructionLength | src/ai/flows/generate-similar-logo.ts:50-58 | each clause is present exactly when its choice is a non-empty string |
| SimilarLogo.InstructionWithoutChoices | src/ai/flows/generate-similar-logo.ts:48-58 | with no choice set, the instruction is the base text exactly |
| SimilarLogo.PaletteMatters | src/ai/flows/generate-similar-logo.ts:50-52 | two different palettes give two different instructions |
| SimilarLogo.ClausesDiffer | src/ai/flows/generate-similar-logo.ts:50-58 | whatever the later clauses, different palettes leave different texts |
| Suggestions.ParseType | src/ai/flows/generate-suggestions.ts:8 | exactly the four names are suggestion kinds |
| Suggestions.TypeName | src/ai/flows/generate-suggestions.ts:8 | each kind's name parses back to that kind |
| Suggestions.Tail | src/ai/flows/generate-suggestions.ts:29-41 | every template ends by asking for a comma-separated list |
| Suggestions.Template | src/ai/flows/generate-suggestions.ts:29-41 | a template is its lead text, the business name in double quotes, and a tail ending with the list request |
| Suggestions.SuggestionPrompt | src/ai/flows/generate-suggestions.ts:29-44 | the switch fails with 'Invalid suggestion type' exactly for an unknown kind; otherwise it gives that kind's template |
| Suggestions.Framed | src/ai/flows/generate-suggestions.ts:29-41 | where the lead, the quoted name and the tail sit in a template |
| Suggestions.Map | src/ai/flows/generate-suggestions.ts:54 | `map` applies the function to each element in place |
| Suggestions.MapAppend | src/ai/flows/generate-suggestions.ts:54 | `map` distributes over concatenation |
| Suggestions.DropEmpty | src/ai/flows/generate-suggestions.ts:54 | the filter keeps exactly the non-empty fragments |
| Suggestions.ParseSuggestions | src/ai/flows/generate-suggestions.ts:54 | every parsed suggestion is non-empty, has no surrounding whitespace and no comma |
| Suggestions.TrimmedFragment | src/ai/flows/generate-suggestions.ts:54 | a comma-free fragment trims to nothing or to a suggestion |
| Suggestions.DropEmptyKeeps | src/ai/flows/generate-suggestions.ts:54 | what survives the filter are suggestions |
| Suggestions.GenerateSuggestions | src/ai/flows/generate-suggestions.ts:42-54 | an unknown kind fails before the model is called; otherwise a model error is passed on, or the reply is parsed into suggestions |
| Suggestions.TrimEachAppend | src/ai/flows/generate-suggestions.ts:54 | trimming each fragment distributes over concatenation |
| Suggestions.DropEmptyAppend | src/ai/flows/generate-suggestions.ts:54 | the filter distributes over concatenation |
| Suggestions.DropEmptyCons | src/ai/flows/generate-suggestions.ts:54 | one step of the filter |
| Suggestions.ParseAppend | src/ai/flows/generate-suggestions.ts:54 | a comma splits the reply into the suggestions before it and after it, in order |
| Suggestions.ParseWithoutComma | src/ai/flows/generate-suggestions.ts:54 | a reply without a comma is [its trimmed text], or [] when it is blank |
| Suggestions.DropEmptySingle | src/ai/flows/generate-suggestions.ts:54 | the filter on one fragment |
| Suggestions.ParseCount | src/ai/flows/generate-suggestions.ts:54 | there are at most as many suggestions as commas plus one |
| Suggestions.ParseJoin | src/ai/flows/generate-suggestions.ts:54 | suggestions joined with commas parse back to themselves |
| Suggestions.ParseOne | src/ai/flows/generate-suggestions.ts:54 | a single suggestion parses back to itself |
| Suggestions.TrimSelf | src/ai/flows/generate-suggestions.ts:54 | text with no whitespace at either end trims to itself |
| ImageSuggestionRoute.PromptFor | src/app/api/suggestions/image-editor/route.ts:13-19 | exactly 'name' and 'description' select a prompt, each its own |
| ImageSuggestionRoute.Post | src/app/api/suggestions/image-editor/route.ts:8-38 | missing fields give 400 before the kind is checked; an unknown kind gives 400; otherwise the trimmed model text, or a 500 with the model's message |
| ImageSuggestionRoute.RefusedWithoutModel | src/app/api/suggestions/image-editor/route.ts:8-19 | a refused request is a 400 whatever the model would answer, so the model is not called |
| ImageSuggestionRoute.EmptySuggestion | src/app/api/suggestions/image-editor/route.ts:32-34 | the suggestion is empty exactly when the model's text is blank |
| RefineLogoRoute.Instruction | src/app/api/refine-logo/route.ts:16 | the instruction is a fixed lead, the request in double quotes, and a fixed tail |
| RefineLogoRoute.Post | src/app/api/refine-logo/route.ts:8-33 | missing fields give 400; a model error or a missing media URL give a 500 with the matching message; otherwise the media URL |
| RefineLogoRoute.RefusedWithoutModel | src/app/api/refine-logo/route.ts:8-10 | a request missing a field does not depend on the model |
| RefineLogoRoute.SuccessIsMediaUrl | src/app/api/refine-logo/route.ts:29 | success returns exactly the media URL the model produced |
| LogoDisplay.Replacement | src/components/LogoDisplayArea.tsx:23 | a word character stays; any other character becomes one `_` per UTF-16 code unit, two for a surrogate pair |
| LogoDisplay.ReplaceUnsafe | src/components/LogoDisplayArea.tsx:23 | the result has the input's UTF-16 length and only word characters; inside the Basic Multilingual Plane, each character outside `[A-Za-z0-9_]` becomes `_` in place and the others stay |
| LogoDisplay.ReplaceUnsafeAppend | src/components/LogoDisplayArea.tsx:23 | the replacement works piece by piece: it distributes over concatenation |
| LogoDisplay.LowerAscii | src/components/LogoDisplayArea.tsx:23 | an upper-case ASCII letter becomes lower case; every other character is kept |
| LogoDisplay.ToLower | src/components/LogoDisplayArea.tsx:23 | lower-casing works character by character and keeps the length |
| LogoDisplay.SafeFileName | src/components/LogoDisplayArea.tsx:23 | the safe name has the input's length in UTF-16 code units and holds only `a-z0-9_`; inside the Basic Multilingual Plane it has a `_` exactly where the input had an unsafe character or a `_` |
| LogoDisplay.EmojiBecomesTwoUnderscores | src/components/LogoDisplayArea.tsx:23 | an emoji, two UTF-16 code units, becomes `__` |
| LogoDisplay.SafeNameUnchanged | src/components/LogoDisplayArea.tsx:23 | an already safe name is kept |
| LogoDisplay.SafeFileNameIdempotent | src/components/LogoDisplayArea.tsx:23 | sanitising twice is sanitising once |
| LogoDisplay.DownloadName | src/components/LogoDisplayArea.tsx:16-24 | there is nothing to download exactly when there is no logo; otherwise the file name is the safe business name (default "logo") followed by `_flatify_ai.png`, and its length is the name's UTF-16 length plus the suffix |
| LogoDisplay.DefaultDownloadName | src/components/LogoDisplayArea.tsx:16-24 | without a business name the file is `logo_flatify_ai.png` |
| Signup.IsEmail | src/app/api/auth/signup/route.ts:15 | the runnable check agrees with the pattern `^\S+@\S+\.\S+$` |
| Signup.EmailIffPattern | src/app/api/auth/signup/route.ts:15 | the pattern holds exactly when there is no whitespace and the text reads as a@b.c with a, b and c non-empty |
| Signup.Check | src/app/api/auth/signup/route.ts:10-22 | in order: 400 for a missing field, then for a malformed e-mail, then for a password under 6 UTF-16 code units; none of them otherwise |
| Signup.NewAccount | src/app/api/auth/signup/route.ts:35-40 | the account holds the e-mail and the hash of the password, not the password, and no Clerk id or history |
| Signup.Post | src/app/api/auth/signup/route.ts:6-52 | a validation failure inserts nothing; a registered e-mail gives 409 and inserts nothing; a fault goes through the catch block; an existing account without a Clerk id makes the insert fail with a 500 and nothing inserted; otherwise exactly one account is appended; the Clerk-id index stays unique |
| Signup.SecondSignupRefused | src/app/api/auth/signup/route.ts:28-31 | once an e-mail is registered, a second sign-up with it finds the first account |
| Signup.PasswordBoundary | src/app/api/auth/signup/route.ts:20-22 | 6 UTF-16 code units are accepted and 5 are refused |
| Signup.ThreeEmojiPassword | src/app/api/auth/signup/route.ts:20-22 | three emoji, six code units, are a long enough password |
| Signup.SecondAccountWithoutClerkId | src/app/api/auth/signup/route.ts:35-40 | after one sign-up account, the null Clerk-id key is taken, so the next sign-up's insert fails |
| Login.Post | src/app/api/auth/login/route.ts:6-47 | missing fields give 400 before any lookup; a fault goes through the catch block; success exactly when the account exists and the password matches its hash, returning the id as text, the name and the e-mail; 401 'Invalid credentials.' exactly for an unknown e-mail or a wrong password |
| Login.UnknownAndWrongAlike | src/app/api/auth/login/route.ts:19-27 | an unknown e-mail and a wrong password get the identical reply |
| Login.SignupThenLogin | src/app/api/auth/login/route.ts:17-37 | an account made by sign-up logs in with the same e-mail and password |
| Webhook.OrEmpty | src/app/api/webhooks/user-created/route.ts:61 | `v \|\| ''` is the value when it is truthy, otherwise '' |
| Webhook.DisplayName | src/app/api/webhooks/user-created/route.ts:61 | the display name has no whitespace at either end |
| Webhook.PrimaryEmail | src/app/api/webhooks/user-created/route.ts:60 | the first address's e-mail, or none for an empty list |
| Webhook.Member | src/app/api/webhooks/user-created/route.ts:58-62 | the new user holds the Clerk id, the first e-mail, the display name and the timestamp, and no password |
| Webhook.Post | src/app/api/webhooks/user-created/route.ts:7-66 | a missing secret throws first; missing headers give 400; a failed verification gives 400; only `user.created` inserts, exactly one member, and a missing or taken Clerk id throws; every other path leaves the users unchanged; Clerk ids stay unique |
| Webhook.DisplayNameParts | src/app/api/webhooks/user-created/route.ts:61 | the display name is "" for no names, one name alone, or both joined by one space |
| UserRole.RoleName | src/contexts/UserRoleContext.tsx:24-27 | a role is stored as one of the three whitelisted names |
| UserRole.ParseRole | src/contexts/UserRoleContext.tsx:24-27 | a stored value is adopted exactly when it is one of the three names |
| UserRole.StoredValue | src/contexts/UserRoleContext.tsx:37-48 | the key is absent exactly when there is no role |
| UserRole.RestoreWritten | src/contexts/UserRoleContext.tsx:24-48 | restoring what the sync wrote gives back the role |
| UserRole.RestoreThenSync | src/contexts/UserRoleContext.tsx:21-51 | mount and sync keep a valid stored role and remove any other value |
| UserRole.UserRoleProvider.constructor | src/contexts/UserRoleContext.tsx:18-19 | initially there is no role and loading is on |
| UserRole.UserRoleProvider.LoadFromStorage | src/contexts/UserRoleContext.tsx:21-32 | a whitelisted stored role is adopted unless storage throws; loading ends either way |
| UserRole.UserRoleProvider.SetUserRole | src/contexts/UserRoleContext.tsx:7 | sets the role and nothing else |
| UserRole.UserRoleProvider.Sync | src/contexts/UserRoleContext.tsx:34-51 | storage is not touched while loading; afterwards the key holds exactly the role unless storage throws |
| UserRole.Mount | src/contexts/UserRoleContext.tsx:18-51 | after a mount the role is the whitelisted stored one and storage is in step with it |
| NoviceView.ColorClauseShape | src/components/NoviceGeneratorView.tsx:76 | where the colour clause puts both colours |
| NoviceView.BuildFullDescription | src/components/NoviceGeneratorView.tsx:74-84 | the `+=` accumulation yields the full description |
| NoviceView.FullDescriptionLength | src/components/NoviceGeneratorView.tsx:75-84 | each clause is present exactly when its choice is set, and the closing clause always is |
| NoviceView.FullDescriptionFrame | src/components/NoviceGeneratorView.tsx:74-84 | the description starts with the raw, untrimmed input and ends with the closing clause |
| NoviceView.WithColorsExtends | src/components/NoviceGeneratorView.tsx:75-77 | the colour clause only appends |
| NoviceView.WithChoiceExtends | src/components/NoviceGeneratorView.tsx:78-83 | the font and layout clauses only append |
| NoviceView.PrefixChain | src/components/NoviceGeneratorView.tsx:74-84 | prefixes chain through the successive appends |
| NoviceView.ColorsNamed | src/components/NoviceGeneratorView.tsx:75-77 | when a colour is set, the colour clause naming both colours follows the raw description |
| NoviceView.SubmitRefusal | src/components/NoviceGeneratorView.tsx:62-69 | a blank name is refused first, then a blank description; nothing else is refused |
| NoviceView.Updated | src/components/NoviceGeneratorView.tsx:113-126 | a suggestion result replaces only the list of the requested kind |
| NoviceView.SaveRequest | src/components/NoviceGeneratorView.tsx:136-154 | there is nothing to save exactly without a logo or a user; the body carries the assembled description, not the raw one |
| NoviceView.SaveAfterSubmitAccepted | src/components/NoviceGeneratorView.tsx:85-154 | what the view saves after a generation passes the save route's field check |
| NoviceView.NoviceGenerator.constructor | src/components/NoviceGeneratorView.tsx:37-53 | the initial form, with no logo and empty suggestion lists |
| NoviceView.NoviceGenerator.Edit | src/components/NoviceGeneratorView.tsx:37-42 | typing changes the form and nothing else |
| NoviceView.NoviceGenerator.Submit | src/components/NoviceGeneratorView.tsx:60-102 | a refusal changes nothing and calls no model; otherwise the assembled description is kept and sent, the logo is the flow's result or none, and loading ends |
| NoviceView.NoviceGenerator.GenerateSuggestions | src/components/NoviceGeneratorView.tsx:104-134 | a blank name is refused; otherwise only the requested kind's list changes, on success only |
| ProfessionalView.CaptureAt | src/components/ProfessionalGeneratorView.tsx:168-169 | a capture found at a position is a match of the pattern there |
| ProfessionalView.MatchIsCapture | src/components/ProfessionalGeneratorView.tsx:168-169 | any match at a position is the one found there: the capture runs to the first closing quote |
| ProfessionalView.FirstCapture | src/components/ProfessionalGeneratorView.tsx:168-169 | the leftmost match and its capture, or none when nothing matches |
| ProfessionalView.NoCaptureNoMatch | src/components/ProfessionalGeneratorView.tsx:168-169 | where no capture is found, the pattern does not match |
| ProfessionalView.BusinessName | src/components/ProfessionalGeneratorView.tsx:168-169 | the first single-quoted capture, otherwise the first double-quoted capture, otherwise "CustomLogo" |
| ProfessionalView.BusinessNameShape | src/components/ProfessionalGeneratorView.tsx:168 | an extracted name is non-empty and is the capture of a leftmost match, so it holds no copy of its quote |
| ProfessionalView.SingleQuoteWins | src/components/ProfessionalGeneratorView.tsx:168-169 | any single-quoted match decides the name, even if a double-quoted one comes earlier |
| ProfessionalView.NoMatchDefault | src/components/ProfessionalGeneratorView.tsx:169 | with no match the name is "CustomLogo" |
| ProfessionalView.NamedPromptGivesName | src/components/ProfessionalGeneratorView.tsx:168 | a prompt that opens with `named '<name>'` is named `name` |
| ProfessionalView.SaveRequest | src/components/ProfessionalGeneratorView.tsx:185-206 | refused exactly without a logo or a user, then exactly without a used prompt; otherwise the body carries both prompts, the used prompt and the logo |
| ProfessionalView.SaveRequestComplete | src/components/ProfessionalGeneratorView.tsx:186-206 | whatever the view lets through passes the save route's field check |
| ProfessionalView.ProfessionalGenerator.constructor | src/components/ProfessionalGeneratorView.tsx:39-46 | the text area holds the first example; no logo and an empty history |
| ProfessionalView.ProfessionalGenerator.LoadHistory | src/components/ProfessionalGeneratorView.tsx:50-82 | the server's list when signed in and it answered; otherwise the stored list |
| ProfessionalView.ProfessionalGenerator.UpdatePromptHistory | src/components/ProfessionalGeneratorView.tsx:85-114 | signed in: the server's list on success, otherwise `Remember(old, p, 10)`; signed out: `Remember(old, p, 10)`, also written to storage unless the write throws |
| ProfessionalView.ProfessionalGenerator.ClearHistory | src/components/ProfessionalGeneratorView.tsx:116-135 | signed in: emptied once the server confirms; signed out: emptied and the storage key removed |
| ProfessionalView.ProfessionalGenerator.RefinePrompt | src/components/ProfessionalGeneratorView.tsx:138-155 | a blank prompt is refused; otherwise the refined prompt is the flow's result, or is cleared on failure |
| ProfessionalView.ProfessionalGenerator.GenerateLogo | src/components/ProfessionalGeneratorView.tsx:157-183 | a blank prompt is refused; otherwise the prompt enters the history before the model call, so a failed generation is still recorded; the business name is `BusinessName(prompt)`; loading ends |
| Strings.Utf16Units | src/app/api/auth/signup/route.ts:20 | a character is one UTF-16 code unit inside the Basic Multilingual Plane and two outside it |
| Strings.Utf16Length | src/app/api/auth/signup/route.ts:20 | JavaScript's `length` lies between the number of characters and twice it, and equals it exactly for text inside the Basic Multilingual Plane |
| Strings.TrimStart | src/app/api/suggestions/image-editor/route.ts:32-34 | the result is a suffix of the text, after a blank part, and does not start with whitespace |
| Strings.TrimEnd | src/app/api/suggestions/image-editor/route.ts:32-34 | the result is a prefix of the text, before a blank part, and does not end with whitespace |
| Strings.Trim | src/app/api/suggestions/image-editor/route.ts:32-34 | `trim()` leaves no whitespace at either end, only characters of the text, and is empty exactly for blank text |
| Strings.TrimAround | src/ai/flows/generate-suggestions.ts:54 | blank text around a word is what `trim` removes, and all it removes |
| Strings.TrimSpaced | src/app/api/webhooks/user-created/route.ts:61 | `` `${a} ${b}`.trim() `` of trimmed parts is the parts joined by a space, or the one non-empty part |
| Strings.Quoted | src/ai/flows/generate-suggestions.ts:29-41 | the text between two double quotes |
| Strings.IndexOf | src/app/api/auth/signup/route.ts:15 | the position of the first occurrence |
| Strings.IndexOfUnique | src/app/api/auth/signup/route.ts:15 | the first occurrence is the only one with none before it |
| Strings.Split | src/ai/flows/generate-suggestions.ts:54 | `split` gives at least one piece, and no piece contains the separator |
| Strings.JoinSplit | src/ai/flows/generate-suggestions.ts:54 | joining the pieces gives back the text |
| Strings.SplitAppend | src/ai/flows/generate-suggestions.ts:54 | a separator between two texts separates their pieces |
| Strings.SplitCount | src/ai/flows/generate-suggestions.ts:54 | there is one more piece than separators |

## Left out

- JSON parsing of request bodies is not modelled. A body that is not JSON makes `request.json()` throw into the catch block. Bodies are modelled as their fields, each `Option<string>`.
- Stored history in the professional view is modelled as a list. `JSON.parse` of a corrupt entry is not modelled.
- `ObjectId.isValid` is a parameter. `new ObjectId(s)` throws exactly when it is false. An ObjectId is modelled by its string, so case normalisation of hex ids is not modelled.
- Concurrency is not modelled, only single requests. The read-modify-write at src/app/api/user/prompt-history/route.ts:56-69 can lose an update when two requests overlap.
- `PromptHistoryRoute.Post`: an `updateOne` that fails after a successful `findOne` is folded into `fault`, which the model lets fail only the first database call.
- Generations.SortNewestFirst: the tie order between equal `createdAt` values is fixed as stable here. MongoDB leaves it unspecified.
- Signup.NewAccount: "never the plaintext" is stated only through the `hash` parameter: the account stores `hash(password)`. Nothing about bcrypt itself is modelled.
- Bcrypt's hash and compare, Svix's signature check and the generative model are parameters whose behaviour is not modelled.
- The flows `generateInitialLogo`, `refineLogoPrompt` and `generateSuggestions` are parameters when a view calls them. src/ai/flows/generate-initial-logo.ts and src/ai/flows/refine-logo-prompt.ts are one model call each, and they are not part of this model.
- A prompt the source passes as a plain string is modelled as a one-element list of text parts.
- The webhook's `email_addresses` is modelled as a list. A payload without it, which would throw a TypeError, is not modelled.
- The webhook secret comes from the environment and is a parameter.
- Browser downloads (the link element and click) and toasts are not modelled. Notices record what the user is told.
- The transient flags `isRefining` and the separate save-loading state in the views are not modelled.
- Lone UTF-16 surrogates cannot be written as a Dafny `char`, so JavaScript strings holding one are not modelled.
- The unique index on `clerkId` is taken to exist. A database where Mongoose never built it would accept a second sign-up account and a duplicate Clerk id.
- A `removeItem` that throws in `handleClearHistory` is not modelled.
- src/components/ImageEditorGeneratorView.tsx is not part of this model. It is file-reading UI with a 4 MiB upload limit.
- src/contexts/AuthContext.tsx, the pages and the layouts are not part of this model. They are session and presentation plumbing.

## Findings

| source | as written | input that shows it | evidently intended | confidence | as-written member | corrected member |
|---|---|---|---|---|---|---|
| src/app/api/generations/image-editor/route.ts:17,85 | POST stores `userId` as the string it received, while GET filters on `new ObjectId(userId)` | save with userId "0123456789abcdef01234567", then GET with the same userId: the list is [] | GET filters on the string, as DELETE does (line 53), so a saved logo is listed | high, not executed | ImageEditorRoute.GetListsNothing | ImageEditorRoute.SavedThenListed |
