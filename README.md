# NeuralEnhance Pro — a Dafny model of the client's orchestration logic

NeuralEnhance Pro is a single-page client that sends an uploaded image, with a
natural-language instruction, to a hosted image model and shows the returned
image beside the original. It does no image processing itself. This project
models the deterministic logic around the one remote call and proves its
properties:

- **Prompt builder** (`Gemini.QualityClause`, `Gemini.BuildPrompt`): the quality
  clause picked by tier and the two fixed instructions, with the custom text
  appended at the end.
- **Remote edit client** (`Gemini`): the API-key check against the host's key
  broker, the in-order scan of the answer for the first part with non-empty
  inline data (relabelled as a PNG data URL), the fixed "no image" failure, and
  the rewriting of a "Requested entity was not found" failure into the refresh
  notice after one opening of the key dialog. The key broker is a `Broker`
  object. Its fields say whether the host injected it, whether it offers the
  key query, what that query answers, and how often the key dialog was opened.
  The remote call is an input (`RemoteOutcome`): an answer, or the message of
  the error it threw.
- **Session** (`App.Session`): the image state, settings, status and error
  message, the handlers for upload, start/succeed/fail, reset and dismiss, and
  the guards that show or hide the Start, Download and Dismiss controls. The
  invariant `Valid()` is kept by every handler: the original URL is always
  rebuilt from the stored type and payload; a success always has a PNG result;
  an error always has a non-empty banner message.
- **Uploader** (`Uploader`): the `image/` type filter, the payload taken as
  `split(',')[1]` of the data URL, the first-file rule for change and drop
  events, and the drag highlight flag.
- **JavaScript strings** (`Text`): truthiness of nullable strings, template
  interpolation of `undefined`, `startsWith`, `includes` and `split`.

Modules: `Wrappers` (Option, Result), `Text`, `Types` (the enums and
`ImageState` of `types.ts`), `Gemini` (`services/geminiService.ts`),
`Uploader` (`components/ImageUploader.tsx`), `App` (`App.tsx`).

Behaviour of the code that its names and messages do not suggest:

- An answer whose `candidates` list is empty, or whose first candidate has no
  `content`, does not fail with "No image data returned from the model.". The
  property read throws a TypeError, which is rethrown unchanged. The model uses
  V8's wording for those messages (`ReadContentError`, `ReadPartsError`).
- Start is offered from error as well as from idle (every status except
  processing and success).
- A "not found" failure opens the key dialog once in the failure path. The key
  check before the call already opens it once more when no key was selected.
  `ProcessImage` counts both (`KeyRequests`, `RefreshRequests`).
- The Start button is hidden only while the status is processing or success,
  or when there is no original. New Image stays available during a call. After
  a reset, a new upload and a second start, the first call's result still lands
  on the new image: the update at App.tsx:50 spreads over the current state.
  `App.ResetDuringCall` walks this path through the handlers' contracts.
- Dismiss sets idle from any status. Its button only exists in the error banner
  (`DismissVisible`).
- A data URL without a comma gives an undefined payload. The session then
  stores no payload, and its original URL ends in the text "undefined".

## Model

| member | source | states |
|---|---|---|
| `Types.Label` | neuralenhance-pro/types.ts:7-11 | the string value of each quality tier, "1K" to "16K" |
| `Gemini.LowTier` | neuralenhance-pro/services/geminiService.ts:45 | the tiers that fall through to the standard clause: 1K and 2K |
| `Gemini.QualityClause` | neuralenhance-pro/services/geminiService.ts:39-45 | the clause chosen by the tier: 16K, 8K and 4K each have their own, every other tier the standard one (its properties are in the next rows) |
| `Gemini.QualityClauseNamesTier` | neuralenhance-pro/services/geminiService.ts:39-45 | the clause of 4K, 8K and 16K contains the tier's label; the standard clause shared by 1K and 2K contains neither label (both directions) |
| `Gemini.BuildPrompt` | neuralenhance-pro/services/geminiService.ts:47-52 | the prompt ends with the custom instruction, verbatim |
| `Gemini.PromptAppendsCustom` | neuralenhance-pro/services/geminiService.ts:47-52 | every prompt is the prompt for an empty custom instruction followed by the custom text, so the default `''` adds nothing |
| `Gemini.RemoveBgIgnoresResolution` | neuralenhance-pro/services/geminiService.ts:48-52 | the background-removal prompt is the same for every tier |
| `Gemini.EnhanceCarriesQuality` | neuralenhance-pro/services/geminiService.ts:39-49 | the enhancement prompt contains its tier's quality clause verbatim |
| `Gemini.EnhancePromptsCoincide` | neuralenhance-pro/services/geminiService.ts:39-49 | two enhancement prompts with equal custom text are equal exactly when the tiers are equal or both are 1K/2K |
| `Gemini.Broker.constructor` | neuralenhance-pro/services/geminiService.ts:8 | a broker as the host injects it, with no dialog opened yet |
| `Gemini.Broker.HasSelectedApiKey` | neuralenhance-pro/services/geminiService.ts:10 | the query answers whether a key is selected |
| `Gemini.Broker.OpenSelectKey` | neuralenhance-pro/services/geminiService.ts:12 | opening the dialog is counted once and changes nothing else |
| `Gemini.EnsureApiKey` | neuralenhance-pro/services/geminiService.ts:7-18 | true exactly when the broker and its query exist; the dialog opens once exactly when the query says no key is selected, and never otherwise |
| `Gemini.KeyRequests` | neuralenhance-pro/services/geminiService.ts:9-12 | the key check opens the dialog at most once, and only on a broker that is present |
| `Gemini.HasImage` | neuralenhance-pro/services/geminiService.ts:82 | a part carries an image when its inline data is present and non-empty, so an empty payload is skipped |
| `Gemini.FirstImageIndex` | neuralenhance-pro/services/geminiService.ts:81-85 | the index found has non-empty inline data and no earlier part has; none is found exactly when no part has |
| `Gemini.Extract` | neuralenhance-pro/services/geminiService.ts:80-88 | a returned value is a PNG data URL with a non-empty payload; the only failures are the fixed "no image" message and the two TypeErrors |
| `Gemini.ExtractImage` | neuralenhance-pro/services/geminiService.ts:80-88 | the scan loop returns what `Extract` specifies: the first image part as a PNG data URL, or the fixed or TypeError failure |
| `Gemini.ExtractFindsFirstImage` | neuralenhance-pro/services/geminiService.ts:80-84 | with an image among the first candidate's parts, the result is the first one's data behind the PNG prefix, whatever the other parts and candidates are |
| `Gemini.ExtractWithoutImage` | neuralenhance-pro/services/geminiService.ts:80-88 | with no part carrying non-empty inline data, the failure is "No image data returned from the model." |
| `Gemini.NotFound` | neuralenhance-pro/services/geminiService.ts:92 | the message is truthy and contains "Requested entity was not found" |
| `Gemini.Remapped` | neuralenhance-pro/services/geminiService.ts:92-99 | the surfaced message is the original or the refresh notice, and the notice replaces another message only when the broker is present |
| `Gemini.RemappedCases` | neuralenhance-pro/services/geminiService.ts:92-99 | a message is rewritten only when it contains the marker and the broker is present |
| `Gemini.NoImagePassesThrough` | neuralenhance-pro/services/geminiService.ts:88-99 | the "no image" failure is never rewritten |
| `Gemini.RefreshNoticeIsFinal` | neuralenhance-pro/services/geminiService.ts:92-96 | the refresh notice does not contain the "not found" marker, so it is never rewritten itself |
| `Gemini.RemapError` | neuralenhance-pro/services/geminiService.ts:90-99 | the surfaced message is the rewritten one; the dialog opens once exactly when the message contains the marker and the broker is present |
| `Gemini.Attempt` | neuralenhance-pro/services/geminiService.ts:56-88 | the value or the error message produced inside the `try` block: a thrown message as it is, an answer as `Extract` gives it |
| `Gemini.Settle` | neuralenhance-pro/services/geminiService.ts:79-99 | a resolved call always yields a PNG data URL; the call fails exactly when the attempt inside the `try` failed |
| `Gemini.RefreshRequests` | neuralenhance-pro/services/geminiService.ts:94-95 | the failure path opens the dialog at most once, and only with the broker present, in which case the call settles on the refresh notice |
| `Gemini.NoImageSurfaces` | neuralenhance-pro/services/geminiService.ts:80-99 | an answer with no candidates or no image part fails with the fixed message and opens no dialog, whether the broker is present or not |
| `Gemini.ThrownErrors` | neuralenhance-pro/services/geminiService.ts:90-99 | a thrown "not found" error with the broker present becomes the refresh notice with one dialog opening; without the broker, and for every other error, the message is rethrown as it is |
| `Gemini.ProcessImage` | neuralenhance-pro/services/geminiService.ts:23-100 | sends the payload, type and built prompt whatever the key check said; settles as `Settle`; the dialog count grows by the key check's and the failure path's openings |
| `Text.Split` | neuralenhance-pro/components/ImageUploader.tsx:17 | at least one piece; more than one exactly when the separator occurs; no piece contains it |
| `Text.JoinSplit` | neuralenhance-pro/components/ImageUploader.tsx:17 | rejoining the pieces with the separator gives back the string |
| `Text.SplitJoin` | neuralenhance-pro/components/ImageUploader.tsx:17 | splitting separator-free pieces joined by the separator gives back the pieces |
| `Text.Truthy` | neuralenhance-pro/App.tsx:36 | a nullable string is truthy when present and non-empty |
| `Text.Interpolate` | neuralenhance-pro/App.tsx:27 | a template literal prints an absent value as "undefined" |
| `Text.StartsWith` | neuralenhance-pro/components/ImageUploader.tsx:12 | `startsWith`: the prefix is a prefix of the string |
| `Text.Includes` | neuralenhance-pro/services/geminiService.ts:92 | `includes`: the substring is a prefix of some suffix (characterised by the next two rows) |
| `Text.IncludesAt` | neuralenhance-pro/services/geminiService.ts:92 | an occurrence at any offset is found by `includes` |
| `Text.IncludesOffset` | neuralenhance-pro/services/geminiService.ts:92 | whatever `includes` finds occurs at some offset |
| `Uploader.Payload` | neuralenhance-pro/components/ImageUploader.tsx:17 | the payload is present exactly when the URL has a comma, and contains no comma |
| `Uploader.PayloadField` | neuralenhance-pro/components/ImageUploader.tsx:17 | the payload is the text after the first comma, up to the next comma or the end |
| `Uploader.IsImageType` | neuralenhance-pro/components/ImageUploader.tsx:12 | the declared type starts with `image/` |
| `Uploader.HandleFile` | neuralenhance-pro/components/ImageUploader.tsx:11-21 | what a file read hands on (characterised by the next two rows) |
| `Uploader.HandleFileFilters` | neuralenhance-pro/components/ImageUploader.tsx:11-21 | a file is handed on exactly when its type starts with `image/`; the type handed on is the file's declared type |
| `Uploader.HandleFilePayload` | neuralenhance-pro/components/ImageUploader.tsx:11-21 | an image file hands on the field after the first comma of its data URL |
| `Uploader.FirstFile` | neuralenhance-pro/components/ImageUploader.tsx:24 | the first file of a present, non-empty list |
| `Uploader.HandleChange` | neuralenhance-pro/components/ImageUploader.tsx:23-27 | the change handler reads only the first file (see the next row) |
| `Uploader.OnlyFirstFile` | neuralenhance-pro/components/ImageUploader.tsx:23-27 | only the first file of a list is read; an empty or absent list hands nothing on |
| `Uploader.ImageUploader.constructor` | neuralenhance-pro/components/ImageUploader.tsx:9 | the drop zone starts without highlight |
| `Uploader.ImageUploader.DragOver` | neuralenhance-pro/components/ImageUploader.tsx:44 | dragging over turns the highlight on |
| `Uploader.ImageUploader.DragLeave` | neuralenhance-pro/components/ImageUploader.tsx:45 | leaving turns it off |
| `Uploader.ImageUploader.Drop` | neuralenhance-pro/components/ImageUploader.tsx:29-35 | a drop turns the highlight off and handles the first dropped file as a change event does |
| `App.ShownError` | neuralenhance-pro/App.tsx:55 | the banner text is never empty and is the failure's own message whenever that is non-empty |
| `App.DataUrl` | neuralenhance-pro/App.tsx:27 | the original's data URL, built from type and payload (its round trip is the next row) |
| `App.OriginalUrlRoundTrip` | neuralenhance-pro/App.tsx:27 | for a type and payload without commas, `split(',')[1]` of the rebuilt original URL is the payload |
| `App.UploadRoundTrip` | neuralenhance-pro/components/ImageUploader.tsx:17-18 | an image file read as the standard data URL hands on its payload and type, from which the session rebuilds that same URL |
| `App.Session.Valid` | neuralenhance-pro/App.tsx:25-67 | the invariant every handler keeps: consistent original, PNG result on success, non-empty message on error |
| `App.Session.constructor` | neuralenhance-pro/App.tsx:9-23 | no image, ENHANCE at 16K with an empty prompt, idle, no message; the invariant holds |
| `App.Session.SetMode` | neuralenhance-pro/App.tsx:103-109 | only the mode changes |
| `App.Session.SetResolution` | neuralenhance-pro/App.tsx:130 | only the tier changes |
| `App.Session.SetPrompt` | neuralenhance-pro/App.tsx:151 | only the custom instruction changes |
| `App.Session.HandleImageSelected` | neuralenhance-pro/App.tsx:25-33 | stores payload, type and the rebuilt data URL, drops the result, goes idle; settings and message unchanged; keeps the invariant |
| `App.Session.OnImageSelected` | neuralenhance-pro/App.tsx:210 | nothing changes when the uploader hands nothing on; otherwise as `HandleImageSelected` |
| `App.Session.ActionBarVisible` | neuralenhance-pro/App.tsx:177 | New Image, Start and Download sit in a bar shown only with an original |
| `App.Session.StartVisible` | neuralenhance-pro/App.tsx:185 | Start shows with an original unless the status is success or processing |
| `App.Session.DownloadVisible` | neuralenhance-pro/App.tsx:190 | Download shows with an original in success |
| `App.Session.DismissVisible` | neuralenhance-pro/App.tsx:168 | the error banner with its Dismiss button shows in error |
| `App.Session.StartProcess` | neuralenhance-pro/App.tsx:35-39 | without a truthy payload nothing changes; otherwise processing with the message cleared, and Start is hidden |
| `App.Session.Succeed` | neuralenhance-pro/App.tsx:50-51 | only the result URL and the status change; status is success, and Start is hidden |
| `App.Session.Fail` | neuralenhance-pro/App.tsx:52-56 | status error with the shown message; images and settings unchanged |
| `App.Session.HandleProcess` | neuralenhance-pro/App.tsx:35-57 | a no-op without payload; otherwise sends the stored image with the settings' prompt and ends in success with the PNG result or in error with the surfaced message, images otherwise unchanged |
| `App.Session.HandleReset` | neuralenhance-pro/App.tsx:59-67 | from any status: empty image state and idle; settings and message unchanged |
| `App.Session.Dismiss` | neuralenhance-pro/App.tsx:172 | idle, with the uploaded original and everything else unchanged |
| `App.ResetDuringCall` | neuralenhance-pro/App.tsx:35-67 | New Image during a call, a second upload and a second start are all allowed, and the first call's result then lands on the second image |
| `App.Session.DownloadTarget` | neuralenhance-pro/App.tsx:69-70 | what a download saves: nothing unless the result URL is truthy |
| `App.Session.DownloadWhenVisible` | neuralenhance-pro/App.tsx:69-70 | when Download shows, the download is not a no-op and saves the PNG result |

## Left out

- The SDK call (client construction, model name, the 1:1 aspect-ratio hint): a foreign library call. Its outcome is the `RemoteOutcome` input, chosen independently of the request sent.
- The host globals `window.aistudio` and `process.env.API_KEY`: the broker is a `Broker` value, and the key is not modelled. What the user picks in the key dialog is not modelled either: `OpenSelectKey` only counts.
- The file read (`FileReader`): a `File` carries the data URL the read would yield.
- Broker failures: `hasSelectedApiKey()` and `openSelectKey()` always succeed in the model. In the source, a rejection in the key check (geminiService.ts:10, 12) happens before the `try` block, so `processImage` would reject with it unrewritten. A rejection at geminiService.ts:95 would replace the refresh notice.
- Asynchrony: each handler runs to completion. Interleavings such as a reset while a call is in flight are possible in the UI. The model does not explore them in general. `Succeed` and `Fail` require nothing of the status, and `App.ResetDuringCall` walks one such interleaving.
- Download side effects, the timestamped file name, console logging, the mount-time warning and all rendering (App.tsx:69-77, 79-84, 86-239); `components/ComparisonViewer.tsx` (presentation and floating-point slider math). `downloadImage` appears only as `DownloadTarget`.
- Determinism of the prompt builder needs no lemma: `BuildPrompt` is a Dafny function, so equal inputs give equal prompts.
- JavaScript engine wording of TypeErrors: fixed to V8's text.
