# All-in-one AI Studio — core logic in Dafny

The studio is a browser single-page app. It offers a gallery of photo-editing
tools, collects the images and text each tool needs, and forwards them to a
hosted generative-image API. This project models the deterministic logic
inside its React components and proves properties of it:

- the **item-slot list** of the fitting and synthesis tools (add, remove, replace);
- the **downscale size** computed before an upload: the longer side is capped at 1536;
- the **request assembly** of the generate action: the ordered image parts, the instruction text, and the model and image configuration;
- the **settings/credential state**: the active key, the idle/testing/success/error status, the connection test, and what a generate reply does to that state;
- the **result viewer**: the zoom clamp, the reset, and the download file name.

Modules follow the source: `Types` (types.ts), `ItemSlots`, `Downscale`,
`Request` and `App` (App.tsx), `ResultDisplay` (components/ResultDisplay.tsx).
`Strings` models `includes` and `toLowerCase`. The React state of `App` is
the class `App.Studio`, and that of the viewer is `ResultDisplay.ResultViewer`.
Their handlers are methods. Asynchronous handlers are split at their `await`:
`BeginTest`/`CompleteTest` and `StartGenerate`/`FinishGenerate`. What the
network returned is a parameter (`TestReply`, `GenerateReply`). The same
holds for what the host's key picker did (`PickerOutcome`, `pickerHasKey`).

Behaviours of the code worth stating up front:

- There is no retry with backoff. A 429 or quota failure is reported at once.
- Only the "Requested entity was not found." failure clears the manual key and reopens settings. Other authentication failures only raise a notice.
- The three status-code checks of the connection test each test the text produced so far. Each replacement text names only its own code. So the FIRST code found wins (403, then 404, then 429), not the last. `TestFailureText` states and proves this.
- The persona-chat tool has no case in the instruction switch, so its instruction is the empty text.

## Model

| member | source | states |
|---|---|---|
| `ItemSlots.InitialSlots` | App.tsx:100 | a tool starts with exactly one empty slot, which is a valid list |
| `ItemSlots.AddImageSlot` | App.tsx:340 | below six slots, exactly one empty slot is appended after the unchanged old slots; at six or more, the list is unchanged; so the length never exceeds six |
| `ItemSlots.DropIndex` | App.tsx:341 | the index filter removes exactly position `idx` and keeps the others in order; an out-of-range `idx` removes nothing |
| `ItemSlots.RemoveImageSlot` | App.tsx:341 | with more than one slot, removes exactly `idx` in order (or nothing if `idx` is out of range); with one slot the result is `[null]`; never empty |
| `ItemSlots.UpdateItemImage` | App.tsx:342-344 | length kept, `idx` holds the new file, every other slot unchanged |
| `ItemSlots.SlotOpsKeepValid` | App.tsx:340-344 | all three slot operations keep the list between one and six slots |
| `ItemSlots.AddThenRemoveLast` | App.tsx:340-341 | removing the slot just added gives the original list back |
| `Downscale.ScaledSize` | App.tsx:207-212 | both sides ≤ 1536 are unchanged; otherwise the longer side (the height on a tie) becomes exactly 1536; neither side exceeds 1536; width/height ratio preserved (cross-multiplied) |
| `Downscale.SameFactor` | App.tsx:209-212 | both sides are multiplied by one common factor in (0, 1]: 1, or 1536 over the longer side |
| `Downscale.ScaledSizeIdempotent` | App.tsx:207-212 | capping an already capped size changes nothing |
| `Request.FileToPart` | App.tsx:200-224 | an uploaded file becomes a JPEG part of its own file sized exactly by `Downscale.ScaledSize` of its decoded size: unchanged when both sides fit, else the longer side 1536, never above 1536, aspect ratio kept |
| `Request.PresentImages` | App.tsx:241 | the files taken from the slots are at most as many as the slots |
| `Request.PresentImagesMembers` | App.tsx:241 | a file is sent exactly when some slot holds it |
| `Request.PresentImagesCount` | App.tsx:241 | as many files are sent as slots are filled |
| `Request.PresentImagesAppend` | App.tsx:241 | the files of two slot lists joined are the files of each, in order |
| `Request.Instruction` | App.tsx:239-258 | the editor and poster maker end their instruction with the prompt; only persona chat has the empty instruction |
| `Request.InstructionInputs` | App.tsx:249-258 | only the editor and poster maker read the prompt; only fitting, ID photo, baby and time travel read the option |
| `Request.InstructionLast` | App.tsx:261 | the instruction text is the last part and every earlier part is an image |
| `Request.ImageOrder` | App.tsx:239-248 | fitting sends the non-null items in slot order; synthesis sends image1 if present, then the items; every other tool sends image1 then image2, each only if present |
| `Request.PushItemImages` | App.tsx:241 | the push loop over the slots appends exactly the parts of the present files, in slot order |
| `Request.PushIfPresent` | App.tsx:243 | an optional image is pushed only when present |
| `Request.AssembleParts` | App.tsx:236-261 | the part list built push by push equals the selected images followed by the instruction |
| `Request.ModelFor` | App.tsx:262 | the pro tier selects `gemini-3-pro-image-preview`; any other tier selects `gemini-2.5-flash-image` |
| `Request.ConfigFor` | App.tsx:267-271 | the aspect ratio is always 3:4; `imageSize` is "1K" exactly for the pro model, absent otherwise |
| `Request.BuildRequest` | App.tsx:262-273 | the request carries the key, the assembled parts, and the model and configuration of the tier |
| `Strings.ContainsAt` | App.tsx:177 | the substring test holds exactly when `sub` occurs at some position |
| `Strings.Lower` | App.tsx:284 | lower-casing keeps the length, maps each letter A–Z to its own lower-case letter (code point plus 32), and leaves other characters alone |
| `App.ActiveKey` | App.tsx:113-115 | the manual key if non-empty, else the environment key; empty exactly when both are |
| `App.TestFailureText` | App.tsx:176-180 | a text naming 403 gives the invalid-key message; else 404 gives the not-found message; else 429 gives the quota message; else the raw text, or the unknown-error text when empty; never empty |
| `App.CodesInMessages` | App.tsx:176-179 | the fixed messages name no later status code, which is why the first code found decides |
| `App.TestOutcome` | App.tsx:166-180 | success exactly for a non-empty reply text; any other outcome is an error with a non-empty diagnostic |
| `App.DataUrl` | App.tsx:277 | the result URL is `data:` + MIME type + `;base64,` followed by the payload |
| `App.GenerateFailureNotice` | App.tsx:283-294 | a quota notice exactly when the text has 429 or "quota" in any case; a project notice exactly when not quota and "Requested entity was not found." occurs; otherwise the raw message |
| `App.Studio.constructor` | App.tsx:85-110 | the initial state, before the key effect `CheckInitialKey` runs: magic editor, flash tier, stored manual key, one empty slot, greeting message, status idle |
| `App.Studio.CheckInitialKey` | App.tsx:127-138 | an active key, or a key already picked in the host, sets the status to success; otherwise the status is kept |
| `App.Studio.ManualKeyChange` | App.tsx:140-145 | editing the key stores it, sets the status to idle and clears the error message |
| `App.Studio.EditKey` | App.tsx:113-145 | an edit followed by the key effect, which re-runs on the change: a changed, usable key ends in success, not idle |
| `App.Studio.BeginTest` | App.tsx:148-157 | with no key: error with a message, and no request; otherwise testing, message cleared, probe sent with the active key |
| `App.Studio.CompleteTest` | App.tsx:158-181 | status and diagnostic as `TestOutcome` gives them |
| `App.Studio.OpenKeySelect` | App.tsx:184-198 | a picked key gives success and clears the manual key; a failing picker gives an error; no picker changes nothing |
| `App.Studio.StartGenerate` | App.tsx:226-273 | with no active key the settings panel opens and no request is built; otherwise loading starts and the request is `BuildRequest` of the current inputs |
| `App.Studio.FinishGenerate` | App.tsx:275-297 | an image sets the result data URL; a failure raises `GenerateFailureNotice`, and only the project notice sets error, clears the key and reopens settings; loading always ends |
| `App.Studio.FinishGenerateAndRerender` | App.tsx:113-138 | the handler followed by the key effect, which re-runs when the handler cleared a non-empty manual key: after a project-not-found failure, a remaining environment key or picked key ends in success, not error |
| `App.Studio.ResetTool` | App.tsx:333-336 | result, both images, prompt and option cleared; one empty slot; chat back to the greeting |
| `App.Studio.SelectTool` | App.tsx:338 | choosing a different tool resets every per-tool input, the result and the chat history; choosing the tool already active changes none of them, since the reset effect's dependencies do not change |
| `App.Studio.ClearResult` | App.tsx:624 | the viewer's reset callback clears the result |
| `App.Studio.AddImageSlot` | App.tsx:340 | the slot list becomes `ItemSlots.AddImageSlot` of the old one and stays valid |
| `App.Studio.RemoveImageSlot` | App.tsx:341 | the slot list becomes `ItemSlots.RemoveImageSlot` of the old one and stays valid |
| `App.Studio.UpdateItemImage` | App.tsx:342-344 | the slot list becomes `ItemSlots.UpdateItemImage` of the old one and stays valid |
| `ResultDisplay.ZoomedIn` | components/ResultDisplay.tsx:24 | in quarters, equals `min(z + 0.25, 3)` on the real zoom, so never above 3 |
| `ResultDisplay.ZoomedOut` | components/ResultDisplay.tsx:25 | in quarters, equals `max(z - 0.25, 0.5)` on the real zoom, so never below 0.5 |
| `ResultDisplay.ZoomStaysInRange` | components/ResultDisplay.tsx:13-26 | any sequence of zoom-in, zoom-out and reset from a zoom in range stays within [0.5, 3] |
| `ResultDisplay.ZoomInThenOut` | components/ResultDisplay.tsx:24-25 | zoom-in then zoom-out returns any start up to 2.75; from 3 it ends at 2.75 |
| `ResultDisplay.SkipSpacesSplits` | components/ResultDisplay.tsx:18 | a leading whitespace run is split off and what remains starts with a non-space |
| `ResultDisplay.SkipSpacesAppend` | components/ResultDisplay.tsx:18 | how one more character extends what remains after a leading whitespace run |
| `ResultDisplay.CollapseSpaces` | components/ResultDisplay.tsx:18 | the replaced title has no whitespace and is no longer than the title |
| `ResultDisplay.CollapseSpacesAppend` | components/ResultDisplay.tsx:18 | read left to right, a non-space is copied and a whitespace run gives one `_` at its first character only, so each maximal run becomes a single `_` |
| `ResultDisplay.CollapseSpacesKeeps` | components/ResultDisplay.tsx:18 | a title without whitespace is unchanged |
| `ResultDisplay.DownloadName` | components/ResultDisplay.tsx:18 | the file name has no whitespace, ends in `_Result.png`, and starts with the collapsed title |
| `ResultDisplay.ResultViewer.constructor` | components/ResultDisplay.tsx:13 | zoom starts at 1 |
| `ResultDisplay.ResultViewer.ZoomIn` | components/ResultDisplay.tsx:24 | zoom becomes `ZoomedIn` of the old zoom and stays in range |
| `ResultDisplay.ResultViewer.ZoomOut` | components/ResultDisplay.tsx:25 | zoom becomes `ZoomedOut` of the old zoom and stays in range |
| `ResultDisplay.ResultViewer.ResetZoom` | components/ResultDisplay.tsx:26 | zoom becomes exactly 1 |
| `ResultDisplay.ResultViewer.LocalReset` | components/ResultDisplay.tsx:28-31 | zoom becomes 1 and then the shell's reset clears the result |

## Findings

| source | as written | input that shows it | evidently intended | confidence | as-written member | corrected member |
|---|---|---|---|---|---|---|
| App.tsx:113-145 | `getActiveApiKey` is rebuilt whenever the manual key changes. The key effect depends on it, so it re-runs after every edit and sets the status to success whenever the new active key is non-empty. This undoes the idle status the edit handler had just set. | typing "k" into an empty key field (no environment key): idle, then success, although no connection test ran | a key edit leaves the status idle until a test is run (the handler's own comment says it resets the status) | medium; not executed | `App.Studio.EditKey` | `App.Studio.ManualKeyChange` |
| App.tsx:286-291 | The project-not-found branch sets the status to error and clears the manual key. When that key was non-empty, the change rebuilds `getActiveApiKey`, so the key effect (App.tsx:127-138) re-runs and sets the status to success if an environment key or a picked key remains. | manual key "bad", environment key "k", reply failing with "Requested entity was not found.": error, then success | the connection stays marked as failed and the settings panel asks for a new key | medium; not executed | `App.Studio.FinishGenerateAndRerender` | `App.Studio.FinishGenerate` |

## Left out

- JSX rendering, CSS classes, sidebar and menu toggles, the settings dialog markup, and components/LoadingOverlay.tsx are presentation only.
- components/ImageUpload.tsx only forwards a file or `null` and manages a preview URL. Object-URL creation and revocation are browser resource handles.
- File reading, image decoding, canvas drawing, JPEG encoding and base64 data are browser APIs. A part records its source file and its computed size instead.
- Downscale.ScaledSize: computed on exact reals. The browser truncates fractional canvas sizes and JavaScript divides in double precision; neither rounding is modelled.
- The missing-canvas-context failure of the upload path is not a separate case. It reaches the generate handler as a thrown error, which is `Failed(message)` here.
- Uploads that never settle are not modelled. An image that never decodes has no error handler, and a failed file read is not handled either. Generate then never finishes and `loading` stays true, whereas here every generate ends in `FinishGenerate`, which always ends loading.
- All SDK calls and response unpacking are out of scope. The test reply and the generate reply are inputs.
- `localStorage` is not modelled. The saved key is only the constructor's `storedKey`, and the writes and removals of the saved key are omitted.
- `alert` and `console` are not modelled. The alert raised after generating is the returned `Notice`.
- `handleChatSend` (persona chat) is not modelled: SDK calls and `Date`-based ids and timestamps. Its missing-key branch is the same as in `StartGenerate`.
- Strings.Lower: lower-cases ASCII letters only. No other upper-case character lower-cases to a letter of "quota", so the quota test is decided the same way.
- ItemSlots.UpdateItemImage: requires `idx` to name an existing slot. An out-of-range index would grow a JavaScript array, but the page only passes indices of rendered slots.
- App.Studio.StartGenerate: disabled buttons (generate while loading, test without a key) are not preconditions; the handlers are modelled for every state.
- Concurrency: overlapping generate or test requests are not modelled. A reply may arrive after a key edit, and `CompleteTest` then overwrites the status regardless, as the code does.
- The zoom percentage label and the zoom-dependent sizes are presentation.
- vite.config.ts is build configuration. It makes the environment key `""` when unset, which is how `App.ActiveKey` treats it.
