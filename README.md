# Fashion assistant: screen workflows and backend rules

This project models the core of a fashion-assistant web application and
proves properties of the model. The application has four kinds of logic:

- **Screens.** Its React screens are the Tara stylist, StyleScan, the chat
  window, the stand-alone chat page and virtual try-on. Each one is a state
  machine. Every asynchronous handler is split in two: a *start* step (the
  handler's guard and the updates it makes before awaiting) and a
  *complete* step (what it does once the request settles, for a success or
  for a failure). Completions may arrive in any order, so the model keeps
  what the code does when a reply comes late. Ghost fields record the
  requests in flight, so that only a request that was started can complete.
- **Weather rules.** The weather card's pure rules: the bands of the WMO
  weather interpretation codes (code table 4677, as served by Open-Meteo),
  the outfit cards, and the location name.
- **Backend string and selection rules.**
  - Stripping the header of an RFC 2397 data URL (the `data:...,<data>`
    syntax of section 3).
  - Rewriting the temporary-upload URL into its direct-download form.
  - Choosing the try-on output URL.
  - Parsing the suggested prompts.
  - Building the photo-search query and the all-or-nothing list of visual
    suggestions.
- **Schemas.** The validation of the garment-analysis and user-profile
  schemas.

Files:

| file | module | what it holds |
|---|---|---|
| common.dfy | Common | `Option`, `Outcome` (a value or a raised exception), `Reply` (a browser fetch: an answer, a response that is not ok, or a network error), `ImageFile`, `Json` with Python/JS truthiness |
| text.dfy | Text | JS `trim` and Python `strip`, each with its own whitespace set; `split`/`join`; `replace`; `includes`; `toLowerCase` on ASCII letters |
| models.dfy | Models | `UserProfile` and `GarmentAnalysis`, with their parsing from raw fields |
| tara_service.dfy | TaraService | `generate_recommendations` and `get_visual_suggestions` |
| tara_router.dfy | TaraRouter | the `/analyze` and `/visualize` routes |
| try_on_service.dfy | TryOnService | the upload URL, the output URL and the suggestion parsing of the try-on service |
| weather.dfy | Weather | the weather card |
| tara_screen.dfy | TaraScreen | class `TaraStylist` |
| style_scan.dfy | StyleScan | class `StyleScanScreen` |
| chat_window.dfy | ChatWindow | class `ChatScreen` |
| try_on_screen.dfy | TryOnScreen | class `VirtualTryOn` |
| app_chat.dfy | AppChat | class `App` and the session-id store |

Behaviour of the code as written that the model keeps and demonstrates:

- **Tara stylist: one visualization slot.** The screen has a single
  visualization slot. A reply for category A that arrives after category B
  was clicked overwrites B's pending entry (`LateAnswerOverwritesNewerCategory`).
- **Tara stylist: repeated clicks.** Clicking a category again while its
  request is pending sends a second request (`RepeatedClicks`).
- **Tara stylist: reply after Back.** A reply that arrives after "Back"
  refills the slot (`AnswerAfterBack`).
- **StyleScan: stale analysis.** An analysis started for a photo that was
  removed and replaced meanwhile lands on the slot of the new photo
  (`StaleAnalysisLands`).
- **Chat window: spaces with a photo.** Text made only of spaces, sent with
  a photo, goes out verbatim. It is not replaced by the "analyze this
  outfit" request (`SpacesWithPhoto`).
- **Try-on: suggestions outlive the garment.** Suggestions fetched for a
  garment that was removed meanwhile still land (`SuggestionsOutliveGarment`).
- **Try-on: first fetch ends loading.** The first fetch to settle ends the
  loading state, and an older list can replace a newer one (`OlderSuggestionsWin`).
- **Data-URL header: comma in the data.** The header stripping keeps only
  the text between the first and the second comma (`CommaInDataIsCut`).
- **Data-URL header: relabelled as JPEG.** The payload is always relabelled
  as JPEG when it is passed on (`AnalyzeRelabelsAsJpeg`).
- **Visualize route: always 200.** The visualize route always answers 200,
  because the service turns every failure into an empty list.
- **Visualize route: photo unused.** The visualize route never uses the
  uploaded photo.

Where a button is disabled the handler has no guard of its own, and the
model states the button's condition as a precondition. This applies to:

- Tara submit while loading;
- the StyleScan Analyze buttons;
- Generate while generating;
- Send on the chat page while loading.

An upload or remove control that is only rendered in some state is stated
the same way.

## Model

| member | source | states |
|---|---|---|
| Text.Strip | backend/app/services/virtual_try_on.py:163 | neither end of the result is whitespace, and it is empty exactly when the input is all whitespace |
| Text.StripIsSlice | backend/app/services/virtual_try_on.py:163 | what `strip` keeps is one contiguous slice of the input, so it holds only characters of the input |
| Text.StripPadded | frontend/src/App.jsx:27 | whitespace on both sides of a core that starts and ends with non-whitespace is removed, and the core is kept exactly |
| Text.TrimEmptyIffBlank | frontend/src/components/ChatWindow.jsx:37 | `trim()` gives "" exactly when every character is JS whitespace |
| Text.ToLower | frontend/src/components/TaraStylist.jsx:90 | same length, each character lowered |
| Text.ToLowerIdempotent | frontend/src/components/TaraStylist.jsx:90 | lowering twice is lowering once |
| Text.Split | backend/app/routers/tara.py:24 | `split` gives at least one piece, two or more exactly when the separator occurs, and no piece contains it |
| Text.SplitThenJoin | backend/app/routers/tara.py:24 | joining the pieces of a split with the separator gives back the string |
| Text.JoinThenSplit | backend/app/services/virtual_try_on.py:163 | splitting lines joined by a separator they do not contain gives back the lines |
| Text.SplitFirst | backend/app/routers/tara.py:24 | the first piece of a split is the text before the first separator, and the rest is the split of what follows it |
| Text.NatToStringReadsBack | frontend/src/components/StyleScan.jsx:100 | the status printed in an `HTTP <status>` message is the decimal numeral of the status: its digits read back as the number, with no leading zero |
| Models.ParseUserProfile | backend/app/models.py:4-9 | every field is optional; a given value is kept, a null reads as None, a missing name or budget tier reads as None, a missing list as the empty list |
| Models.ProfileAbsentIsDefault | backend/app/models.py:4-9 | leaving a field out parses the same as giving its default (null for the name and tier, [] for the lists) |
| Models.ProfileRoundTrip | backend/app/models.py:4-9 | dumping a profile and parsing it back gives the same profile |
| Models.ParseGarmentAnalysis | backend/app/models.py:11-22 | accepted exactly when every required field is given, the two defaulted lists are not null and the score lies in 0..100; an accepted analysis carries every given value, and absent defaulted lists become empty; a rejection lists at least one error |
| Models.GarmentAbsentIsDefault | backend/app/models.py:16-19 | leaving out `cultural_elements` or `patterns` parses the same as giving `[]` |
| Models.GarmentRoundTrip | backend/app/models.py:11-22 | a dumped analysis parses back to itself when its score is in range, and is rejected for the score alone otherwise |
| TaraService.SearchQuery | backend/app/services/tara_stylist.py:110 | the keywords joined by spaces, then a space, the category and " fashion"; with no keywords it starts with the space |
| TaraService.SearchFor | backend/app/services/tara_stylist.py:113-115 | the search asks for 3 portrait photos with that query |
| TaraService.Suggestions | backend/app/services/tara_stylist.py:124-161 | all or nothing: a list exactly when every result has `urls.regular`, then one suggestion per result, in order, with that URL and the reasoning given for it |
| TaraService.SuggestionsFailAt | backend/app/services/tara_stylist.py:127-128 | one result without `urls.regular` fails the whole list |
| TaraService.GetVisualSuggestions | backend/app/services/tara_stylist.py:106-166 | the loop gives the answer of the all-or-nothing specification; every failure becomes the empty list, and the uploaded photo is never read |
| TaraService.GenerateRecommendations | backend/app/services/tara_stylist.py:56-104 | the photo goes to the vision model as a JPEG data URL, its failure is re-raised, and success requires the vision step to succeed |
| TaraRouter.StripDataUrlHeader | backend/app/routers/tara.py:22-26 | without a comma the string is passed through; with one the payload is the text between the first comma and the next; the payload holds no comma |
| TaraRouter.AfterFirstComma | backend/app/routers/tara.py:24 | after a comma-free head, the text past the first comma is the tail |
| TaraRouter.TakeUntilWhole | backend/app/routers/tara.py:24 | a piece without the separator is kept whole |
| TaraRouter.DataUrlPayload | backend/app/routers/tara.py:22-26 | for `data:<type>,<data>` without further commas, the payload is exactly the data |
| TaraRouter.CommaInDataIsCut | backend/app/routers/tara.py:24 | `data:,a,b` keeps only `a` |
| TaraRouter.AnalyzeStyle | backend/app/routers/tara.py:19-30 | 200 with the recommendations exactly when the service succeeds on the stripped payload; otherwise 500 with the exception text |
| TaraRouter.AnalyzeRelabelsAsJpeg | backend/app/routers/tara.py:22-28 | any media type is answered as long as the vision step accepts the data relabelled as JPEG |
| TaraRouter.VisualizeCategory | backend/app/routers/tara.py:32-48 | always 200, with the service's all-or-nothing suggestions |
| TryOnService.KeepsTextWithoutT | backend/app/services/virtual_try_on.py:47 | text without a `t` is not rewritten |
| TryOnService.KeepsHead | backend/app/services/virtual_try_on.py:47 | a head in which no occurrence of `tmpfiles.org/` starts is kept as it is |
| TryOnService.RewritesFront | backend/app/services/virtual_try_on.py:47 | an occurrence at the front becomes `tmpfiles.org/dl/` and the rest is rewritten in turn |
| TryOnService.SchemeHoldsNoPrefix | backend/app/services/virtual_try_on.py:44-47 | no occurrence starts inside `https://` |
| TryOnService.DirectDownloadExample | backend/app/services/virtual_try_on.py:44-47 | `https://tmpfiles.org/12345/image.png` becomes `https://tmpfiles.org/dl/12345/image.png` |
| TryOnService.RewriteKeepsPrefix | backend/app/services/virtual_try_on.py:47 | up to the first `t` the rewritten text agrees with the original |
| TryOnService.RewriteIsLossless | backend/app/services/virtual_try_on.py:47 | replacing every `tmpfiles.org/dl/` back by `tmpfiles.org/` restores any URL, so the rewrite loses nothing |
| TryOnService.NoDirectPrefixAfterMiss | backend/app/services/virtual_try_on.py:47 | a URL that does not start with `tmpfiles.org/` is not turned into one that starts with `tmpfiles.org/dl/` |
| TryOnService.UploadedUrl | backend/app/services/virtual_try_on.py:40-51 | a URL exactly when the status is 200, `status` is `success` and the page URL is present; the URL is the rewritten page URL; otherwise the upload fails |
| TryOnService.FirstTruthy | backend/app/services/virtual_try_on.py:110-113 | a value exactly when some key is present with a truthy value, and that value is truthy |
| TryOnService.FirstTruthyIsFirst | backend/app/services/virtual_try_on.py:110-113 | the value chosen is the value of one of the keys |
| TryOnService.OutputUrl | backend/app/services/virtual_try_on.py:106-122 | a URL found is always truthy; otherwise the reply is rejected |
| TryOnService.ExtractOutputUrl | backend/app/services/virtual_try_on.py:106-122 | the key loop with its `break` gives the answer of the specification |
| TryOnService.OutputKeyPriority | backend/app/services/virtual_try_on.py:108-113 | for a dict, a URL exactly when one of output, image, url, result is truthy, and it is the first such key's value |
| TryOnService.OutputFromListOrString | backend/app/services/virtual_try_on.py:114-122 | a list succeeds exactly when its first element is truthy, and the URL is then that element; a string succeeds exactly when it starts with `http`, and the URL is then the string itself |
| TryOnService.RequestHeaders | backend/app/services/virtual_try_on.py:72-80 | JSON content type and no-cache always; `Authorization: Bearer <key>` exactly when a non-empty key is configured |
| TryOnService.StripLines | backend/app/services/virtual_try_on.py:163 | one stripped line per input line, in the same position |
| TryOnService.NonEmpty | backend/app/services/virtual_try_on.py:163 | the `if s` filter: no more strings than given, each non-empty and taken from the input |
| TryOnService.NonBlankLines | backend/app/services/virtual_try_on.py:163 | no more lines than given, each non-empty |
| TryOnService.NonBlankLineStripped | backend/app/services/virtual_try_on.py:163 | every kept line is non-empty and starts and ends with a non-whitespace character |
| TryOnService.NonEmptyAppend | backend/app/services/virtual_try_on.py:163 | the `if s` filter distributes over concatenation |
| TryOnService.NonBlankLinesAppend | backend/app/services/virtual_try_on.py:163 | the filter distributes over concatenation, so order is kept |
| TryOnService.Take | backend/app/services/virtual_try_on.py:166 | `[:4]`: a prefix of at most n elements, all of them when there are fewer |
| TryOnService.ParseSuggestions | backend/app/services/virtual_try_on.py:163-166 | at most 4 suggestions, each non-empty and on one line |
| TryOnService.NonBlankLineSource | backend/app/services/virtual_try_on.py:163 | every suggestion kept is the stripped form of one input line |
| TryOnService.NonEmptySource | backend/app/services/virtual_try_on.py:163 | every string the filter keeps is one of the input strings |
| TryOnService.ParseLines | backend/app/services/virtual_try_on.py:163-166 | for lines joined by newlines, the suggestions are the first 4 non-blank stripped lines, in order |
| TryOnService.GenerateSuggestions | backend/app/services/virtual_try_on.py:136-176 | at most 4; the fixed fallback when the analyzer call raises, the analysis's colour or aesthetic list is empty, or the model call raises; otherwise the parsed model answer |
| Weather.IconFor | frontend/src/components/WeatherSuggestions.jsx:92-99 | sun for 0, light cloud up to 3 (negative codes included), rain up to 67, snow up to 77, dark cloud above |
| Weather.Description | frontend/src/components/WeatherSuggestions.jsx:101-107 | Clear Sky, Partly Cloudy, Rainy, Snowy, Cloudy on the same thresholds, each exactly on its band |
| Weather.IconAgreesWithDescription | frontend/src/components/WeatherSuggestions.jsx:92-107 | the icon is determined by the description, and two codes share a description exactly when they share an icon |
| Weather.FashionSuggestions | frontend/src/components/WeatherSuggestions.jsx:109-203 | empty without weather; otherwise two temperature-band cards, then rain gear exactly when precipitation is positive, then wind protection exactly when the wind exceeds 20; 2 to 4 cards with distinct categories, so the slice to 4 drops nothing |
| Weather.FirstPresent | frontend/src/components/WeatherSuggestions.jsx:51-55 | a name exactly when some key is present with a non-empty value, and that name is non-empty |
| Weather.FirstPresentIsFirst | frontend/src/components/WeatherSuggestions.jsx:51-55 | the name chosen is the value of one of the keys |
| Weather.LocationName | frontend/src/components/WeatherSuggestions.jsx:51-55 | never empty |
| Weather.LocationNamePriority | frontend/src/components/WeatherSuggestions.jsx:51-55 | 'Unknown Location' exactly when none of city, town, village, county is present; otherwise the first present one |
| TaraScreen.IconForCategory | frontend/src/components/TaraStylist.jsx:89-96 | gem iff the lowered name contains "jewel"; shirt iff not and it contains "top" or "shirt"; palette, footprints and sparkles likewise down the priority |
| TaraScreen.IconIgnoresCase | frontend/src/components/TaraStylist.jsx:90 | the icon does not depend on case |
| TaraScreen.TaraStylist.constructor | frontend/src/components/TaraStylist.jsx:6-11 | no image, prompt, results, option or visualization, not loading |
| TaraScreen.TaraStylist.CurrentView | frontend/src/components/TaraStylist.jsx:127 | the upload form exactly while there are no results, the list while no option is chosen, else the chosen option's detail |
| TaraScreen.TaraStylist.SubmitEnabled | frontend/src/components/TaraStylist.jsx:194 | enabled exactly when not loading and both image and prompt are non-empty |
| TaraScreen.TaraStylist.PanelFor | frontend/src/components/TaraStylist.jsx:329-393 | a card is expanded exactly when it is the visualized category; spinner while pending, photos when loaded, the failure notice otherwise |
| TaraScreen.TaraStylist.OnePanelAtATime | frontend/src/components/TaraStylist.jsx:54 | two different categories are never both expanded |
| TaraScreen.TaraStylist.ImageLoaded | frontend/src/components/TaraStylist.jsx:14-24 | the data URL becomes both image and preview; nothing else changes |
| TaraScreen.TaraStylist.SetPrompt | frontend/src/components/TaraStylist.jsx:222-225 | the prompt is replaced; nothing else changes |
| TaraScreen.TaraStylist.SubmitStart | frontend/src/components/TaraStylist.jsx:26-29 | a request exactly when image and prompt are non-empty, carrying both, and loading starts; otherwise nothing changes |
| TaraScreen.TaraStylist.SubmitComplete | frontend/src/components/TaraStylist.jsx:30-51 | success replaces the results with the options; failure keeps them and alerts; loading ends either way |
| TaraScreen.TaraStylist.SelectOption | frontend/src/components/TaraStylist.jsx:286 | the chosen option's detail is shown; results are kept |
| TaraScreen.TaraStylist.Back | frontend/src/components/TaraStylist.jsx:311 | option and visualization cleared, the same list shown again without a fetch |
| TaraScreen.TaraStylist.UploadNewPhoto | frontend/src/components/TaraStylist.jsx:253 | results, option and visualization cleared; image and prompt kept for a new submit |
| TaraScreen.TaraStylist.VisualizeIsNoOp | frontend/src/components/TaraStylist.jsx:57 | a click changes nothing exactly when that category already shows photos (an empty list included) |
| TaraScreen.TaraStylist.VisualizeStart | frontend/src/components/TaraStylist.jsx:56-63 | otherwise the slot becomes that category, pending, and a request for it is added |
| TaraScreen.TaraStylist.VisualizeComplete | frontend/src/components/TaraStylist.jsx:64-86 | the slot is written for the category the request was started for: loaded with the photos, or failed |
| TaraScreen.OpenDetail | frontend/src/components/TaraStylist.jsx:26-52 | a submit that succeeds and an option click reach the detail with nothing visualized |
| TaraScreen.LateAnswerOverwritesNewerCategory | frontend/src/components/TaraStylist.jsx:63-85 | a late reply for A shows A's photos and collapses B while B is still pending |
| TaraScreen.RepeatedClicks | frontend/src/components/TaraStylist.jsx:57-63 | a second click while pending sends again; a click once photos are shown does not |
| TaraScreen.AnswerAfterBack | frontend/src/components/TaraStylist.jsx:82 | a reply arriving after Back shows its photos again |
| StyleScan.SlotNumber | frontend/src/components/StyleScan.jsx:80 | slots are numbered 1 and 2 |
| StyleScan.SessionId | frontend/src/components/StyleScan.jsx:89 | slot 1 sends `stylescan-session-1`, slot 2 `stylescan-session-2` |
| StyleScan.SessionIdsDiffer | frontend/src/components/StyleScan.jsx:89 | the two slots send different session ids |
| StyleScan.FailureAlert | frontend/src/components/StyleScan.jsx:98-114 | "Analysis failed: " then `HTTP <status>: <body>` or the network error |
| StyleScan.AlertEndsWithBody | frontend/src/components/StyleScan.jsx:98-114 | the alert ends with the response body |
| StyleScan.StyleScanScreen.constructor | frontend/src/components/StyleScan.jsx:50-57 | single mode, both slots empty, not analyzing |
| StyleScan.StyleScanScreen.AnalyzeOffered | frontend/src/components/StyleScan.jsx:251-253 | offered only while the slot has a preview and no analysis; slot 2's button is never offered in single mode |
| StyleScan.StyleScanScreen.AnalyzeEnabled | frontend/src/components/StyleScan.jsx:251-254 | pressable exactly when the slot is on screen (slot 1, or compare mode), has a preview and no analysis, and nothing is being analyzed; in single mode only slot 1's button, under those conditions |
| StyleScan.StyleScanScreen.NoSecondAnalysis | frontend/src/components/StyleScan.jsx:84-116 | while an analysis runs no button of either slot can be pressed |
| StyleScan.StyleScanScreen.SelectImage | frontend/src/components/StyleScan.jsx:61-78 | only from the upload control of a slot on screen with no preview; the slot takes the photo and loses its analysis; the other slot is unchanged |
| StyleScan.StyleScanScreen.PreviewLoaded | frontend/src/components/StyleScan.jsx:66-74 | the slot shows the photo read; the other slot is unchanged |
| StyleScan.StyleScanScreen.RemoveImage | frontend/src/components/StyleScan.jsx:289 | only on a slot on screen with a preview; preview, photo and analysis of the slot cleared; the other slot is unchanged |
| StyleScan.StyleScanScreen.SetMode | frontend/src/components/StyleScan.jsx:169-175 | only the mode changes |
| StyleScan.StyleScanScreen.AnalyzeStart | frontend/src/components/StyleScan.jsx:80-89 | a request exactly when the slot has a photo, with that photo and the slot's session id, and analyzing starts |
| StyleScan.StyleScanScreen.AnalyzeComplete | frontend/src/components/StyleScan.jsx:90-117 | success stores the analysis in the slot the request came from; failure keeps both and alerts; analyzing ends; the other slot is unchanged |
| StyleScan.StaleAnalysisLands | frontend/src/components/StyleScan.jsx:61-110 | the analysis of a photo removed and replaced while it ran is shown under the new photo |
| StyleScan.CompareTwo | frontend/src/components/StyleScan.jsx:273-331 | compare mode is two analyses one after the other; the second slot is blocked while the first runs |
| ChatWindow.OutgoingMessage | frontend/src/components/ChatWindow.jsx:62 | the text as typed when non-empty, else the analyze request when a photo is attached, else "" (empty exactly when both are missing) |
| ChatWindow.ModelName | frontend/src/components/ChatWindow.jsx:89 | the reported model, else the vision model with a photo and the text model without |
| ChatWindow.AssistantEntry | frontend/src/components/ChatWindow.jsx:85-99 | the answer and its model on success; on failure the apology quoting the error, signed 'System' |
| ChatWindow.AlternatesAppend | frontend/src/components/ChatWindow.jsx:55-99 | appending the entry whose turn it is keeps the transcript alternating after the greeting |
| ChatWindow.ChatScreen.constructor | frontend/src/components/ChatWindow.jsx:6-12 | the transcript is the greeting alone; nothing typed or attached |
| ChatWindow.ChatScreen.SendEnabled | frontend/src/components/ChatWindow.jsx:220 | enabled exactly when not loading and the text is not blank or a photo is attached |
| ChatWindow.ChatScreen.SetInput | frontend/src/components/ChatWindow.jsx:9 | only the text changes |
| ChatWindow.ChatScreen.SelectImage | frontend/src/components/ChatWindow.jsx:24-34 | the photo is attached and its preview read starts |
| ChatWindow.ChatScreen.PreviewLoaded | frontend/src/components/ChatWindow.jsx:28-31 | the preview shows the photo read |
| ChatWindow.ChatScreen.RemoveImage | frontend/src/components/ChatWindow.jsx:175 | only while a preview is shown; photo and preview cleared; the text is kept |
| ChatWindow.ChatScreen.SendStart | frontend/src/components/ChatWindow.jsx:36-62 | a request exactly when sending is enabled; text, photo and preview are snapshot and cleared, one user entry with the untrimmed text and the preview is appended, loading starts |
| ChatWindow.ChatScreen.SendComplete | frontend/src/components/ChatWindow.jsx:84-102 | exactly one assistant entry is appended (nothing is raised) and loading ends; earlier entries are kept |
| ChatWindow.SpacesWithPhoto | frontend/src/components/ChatWindow.jsx:37-62 | spaces sent with a photo go out and are shown verbatim |
| ChatWindow.TwoExchanges | frontend/src/components/ChatWindow.jsx:36-103 | two sends give greeting, user, assistant, user, assistant; the failed one is signed 'System' |
| TryOnScreen.VirtualTryOn.constructor | frontend/src/components/VirtualTryOn.jsx:6-14 | nothing chosen, no suggestions, no picture, nothing loading |
| TryOnScreen.VirtualTryOn.GenerateEnabled | frontend/src/components/VirtualTryOn.jsx:216 | enabled exactly when both photos and a prompt are present and nothing is generating |
| TryOnScreen.VirtualTryOn.NoSuggestionsNotice | frontend/src/components/VirtualTryOn.jsx:226-245 | shown exactly under a garment preview with no suggestions and none loading |
| TryOnScreen.VirtualTryOn.SelectHuman | frontend/src/components/VirtualTryOn.jsx:19-27 | the person's photo is replaced; nothing else changes |
| TryOnScreen.VirtualTryOn.SelectGarment | frontend/src/components/VirtualTryOn.jsx:29-45 | the garment is replaced, suggestions are emptied and their fetch starts |
| TryOnScreen.VirtualTryOn.SuggestionsComplete | frontend/src/components/VirtualTryOn.jsx:46-62 | success sets the returned list, or the empty list when it is missing; failure keeps the suggestions and shows nothing; loading ends |
| TryOnScreen.VirtualTryOn.PreviewLoaded | frontend/src/components/VirtualTryOn.jsx:23-34 | the matching preview shows the photo read |
| TryOnScreen.VirtualTryOn.RemoveHuman | frontend/src/components/VirtualTryOn.jsx:143-146 | only the person's photo and preview are cleared |
| TryOnScreen.VirtualTryOn.RemoveGarment | frontend/src/components/VirtualTryOn.jsx:179-183 | garment, its preview and the suggestions are cleared |
| TryOnScreen.VirtualTryOn.SetPrompt | frontend/src/components/VirtualTryOn.jsx:10 | only the prompt changes |
| TryOnScreen.VirtualTryOn.ChooseSuggestion | frontend/src/components/VirtualTryOn.jsx:237 | the prompt becomes exactly that suggestion |
| TryOnScreen.VirtualTryOn.GenerateStart | frontend/src/components/VirtualTryOn.jsx:65-76 | a request exactly when both photos and a prompt are present, carrying all three, and generating starts |
| TryOnScreen.VirtualTryOn.GenerateComplete | frontend/src/components/VirtualTryOn.jsx:78-90 | success shows the picture; failure keeps the previous one and alerts; generating ends |
| TryOnScreen.VirtualTryOn.ResetResult | frontend/src/components/VirtualTryOn.jsx:271 | the picture is cleared |
| TryOnScreen.SuggestionsOutliveGarment | frontend/src/components/VirtualTryOn.jsx:55-61 | suggestions of a removed garment still land |
| TryOnScreen.OlderSuggestionsWin | frontend/src/components/VirtualTryOn.jsx:44-62 | the first fetch to settle ends loading while another is in flight, and the older list can win |
| TryOnScreen.GenerateWithSuggestion | frontend/src/components/VirtualTryOn.jsx:65-76 | a chosen suggestion is sent verbatim with both photos |
| AppChat.GetOrCreateSessionId | frontend/src/App.jsx:4-10 | a stored non-empty id is returned unchanged; otherwise the new id is stored and returned |
| AppChat.SessionIdIsStable | frontend/src/App.jsx:4-10 | later calls return the first id created |
| AppChat.AssistantEntry | frontend/src/App.jsx:34-39 | the answer, or 'Sorry, something went wrong.' |
| AppChat.AlternatesAppend | frontend/src/App.jsx:30-39 | appending the entry whose turn it is keeps user and assistant entries alternating |
| AppChat.App.constructor | frontend/src/App.jsx:13-16 | empty transcript; a stored non-empty session id is reused and storage is left as it was; otherwise the new id is stored under `fa_session_id`, other keys untouched, and kept |
| AppChat.App.SetInput | frontend/src/App.jsx:68 | only the text changes |
| AppChat.App.SendStart | frontend/src/App.jsx:25-31 | nothing when the text trims to empty; otherwise the box is cleared, a user entry with the trimmed text is appended and the trimmed text is sent with the session id |
| AppChat.App.SendComplete | frontend/src/App.jsx:32-42 | exactly one assistant entry is appended and loading ends |
| AppChat.TrimmedSend | frontend/src/App.jsx:27-30 | surrounding spaces are dropped from what is sent; spaces alone send nothing |

## Left out

- Transport and browser APIs are not modelled: `fetch`, `FormData`, `FileReader`, `URL.createObjectURL`, `alert`, `console`, geolocation, the reverse-geocoding and forecast calls, and `httpx`. A request's settlement is a `Reply` or `Outcome` parameter of a completion step. A file read is a separate preview event. An alert is a returned string.
- The ordering of the asynchronous steps is not modelled. Any completion may follow any start, so the model allows more orders than a browser produces.
- React batches state updates. Two clicks before a re-render both see the old state; the model applies each event to the state the previous one left.
- `localStorage` is a class holding a map, and `crypto.randomUUID()` is a parameter. `Date.now()` message ids are left out.
- Rendering and animation are left out, apart from the view, panel and notice each screen shows.
- LLM calls are parameters: `vision`, `structured` and `llm` functions. So are the photo search, the reasoning for each photo, and the garment analyzer. Prompts are not modelled.
- The Pixazo request body, the image download after the output URL, and the upload's HTTP call are left out. Only the status and the JSON of the upload reply are modelled.
- FastAPI and pydantic wiring is left out: routing, response models, and the `/try-on` and `/chat` routes. Pydantic's type coercion is left out too; a field is given, absent or null.
- The weather card's fetch state (`loading`, `error`) is left out. A missing `address` in the geocoding reply (a `TypeError` in the browser) is also left out.
- Weather.FashionSuggestions: temperature and wind are whole numbers, because the source rounds them with `Math.round`. Precipitation is a `real`.
- Text.ToLower: only ASCII letters are lowered, unlike `toLowerCase`.
- ChatWindow.ChatScreen.SendEnabled: the `!input.trim()` test is stated as "every character is whitespace" (`IsBlank`). `TrimEmptyIffBlank` proves the two agree.
- A compare request that analyses both photos in one call does not exist in the client, so none is modelled. Compare mode is the two slot analyses.
- TaraScreen.TaraStylist.SubmitComplete: a success reply whose `options` field is missing is not modelled. In the browser it would show the upload form again.
- TryOnScreen.VirtualTryOn.SuggestionsComplete: a `suggestions` field that is present but is not a list is not modelled.
