# Kana Creator: planner, enhancement workspace, services and sign-in, in Dafny

Kana Creator is a browser application for social-media content. This project models its core:

- **Grid planner.** A fixed grid of twelve picture slots. The user fills slots, reorders them by dragging, captions them, and previews the hovered caption.
- **Planner persistence.** Grid slots are stored as one document per slot index and read back with the browser's `parseInt`.
- **Enhancement workspace.** A list of product-photo jobs. Each job moves through idle, processing, completed and error. A batch driver sends the pending jobs one at a time. An archive plan numbers the finished results.
- **Generation service.** The selection logic only: the background, colour and language instructions, the aspect ratio sent, how the image is picked out of a response, and how a file's base64 payload is cut out of its data URL.
- **Account service and sign-in form.** Profile creation only when none exists, with fallback chains. The shape of a profile update. The order of an account deletion. Password-match validation, and the mapping of authentication failure codes to messages.

Modules, one per file:

| file | module | source |
|---|---|---|
| `types.dfy` | `Types` | `types.ts`, plus the `GridItem`, `UserProfile` and `Language` shapes the components use |
| `text.dfy` | `Text` | `n.toString()`, `parseInt` without a radix, the `split` selections, `includes` |
| `planner.dfy` | `Planner` | `components/Planner.tsx` |
| `planner_service.dfy` | `PlannerService` | `services/plannerService.ts` |
| `enhance.dfy` | `Enhance` | `components/Enhance.tsx` |
| `gemini.dfy` | `Gemini` | `services/geminiService.ts` |
| `user_service.dfy` | `UserService` | `services/userService.ts` |
| `auth.dfy` | `AuthForm` | `components/Auth.tsx` |

Components whose handlers update state step by step are classes:

- `Planner.GridPlanner` keeps the twelve slots in an `array`.
- `Enhance.EnhanceWorkspace` keeps its jobs in a `seq`.
- `AuthForm.Form` holds the form fields.

The stores behind the services are objects with `map` and `set` fields:

- `PlannerService.PlannerStore` holds the per-slot documents and the uploaded objects.
- `UserService.UserDirectory` holds the accounts, the signed-in account, the profile documents and the objects.

Everything that comes from outside becomes a parameter:

- random ids, object URLs and timestamps;
- download URLs;
- the answers of the remote generator and of the authentication service;
- the translated messages.

Two `async` handlers are split at their awaited call, so that other events can happen in between: `processJob` becomes `StartProcessing` then `FinishProcessing`, and `handleGenerateCaption` becomes `StartGenerateCaption` then `FinishGenerateCaption`. Every other `async` handler is one atomic step, with its awaited calls in source order: `EnhanceAll`, `DownloadAll`, `Submit`, `UploadPlannerImage`, `ResetPlannerGrid`, `CreateUserDocument`, `UpdateUserProfile` and `DeleteUserAccount`.

Behaviour of the code worth noting:

- **Stale job fields.** A job's status does not determine whether `resultUrl` or `error` is set. The status patches are spread over the old record. A failed regeneration keeps the earlier `resultUrl`, and a success keeps an earlier `error`. `Enhance.StaleFieldsSurvive` states this.
- **Download all.** "Download all" archives every job that is completed and has a result; the workspace keeps no per-job selection.
- **Batch settings.** "Enhance all" calls the `processJob` of the render in which the button was clicked. The whole batch therefore sends the settings of that render, not settings changed while the batch runs.
- **Archive numbering.** A completed job whose compositing yields no blob is skipped, and its number is not reused. Entry numbers can therefore have gaps.

## Model

| member | source | states |
|---|---|---|
| `Types.FirstTruthy` | services/userService.ts:20-22 | `a \|\| b \|\| null` takes the first non-empty value, or null |
| `Types.PlatformValuesDistinct` | types.ts:2-6 | the platform values are pairwise distinct |
| `Types.StyleValuesDistinct` | types.ts:8-16 | the visual-style values are pairwise distinct |
| `Types.StyleValueSpace` | types.ts:14 | only 'Data Infographic' has a space in its value |
| `Text.NatToString` | services/plannerService.ts:34 | `index.toString()` is a non-empty string of decimal digits with no leading zero |
| `Text.DecimalValueOfNatToString` | services/plannerService.ts:34 | reading the decimal rendering back gives the number |
| `Text.NatToStringInjective` | services/plannerService.ts:34 | distinct slot indexes get distinct document keys |
| `Text.ParseIntOfNatToString` | services/plannerService.ts:68 | `parseInt(n.toString()) == n` for every natural n |
| `Text.ParseInt` | services/plannerService.ts:68-69 | `parseInt` yields a number only when the key holds a decimal digit (a key without one is NaN), and a negative number only when it holds a '-' |
| `Text.TrimStart` | services/plannerService.ts:68 | parseInt skips a prefix made only of white space, and what remains does not start with white space |
| `Text.DigitPrefix` | services/plannerService.ts:68 | parseInt reads the longest prefix of digits of the radix and stops at the first other character |
| `Text.AfterLast` | services/plannerService.ts:10 | `split('.').pop()` is the suffix after the last '.', free of '.', or the whole name when it has no '.' |
| `Text.SecondField` | services/geminiService.ts:242 | `split(',')[1]` is undefined exactly when there is no comma |
| `Text.SecondFieldOf` | services/geminiService.ts:242 | the second field of `head,field,rest` is `field` |
| `Planner.SlotIdsDistinct` | components/Planner.tsx:16 | slot ids `slot-<i>` of distinct slots differ |
| `Planner.InitialGrid` | components/Planner.tsx:15-17 | the grid starts as twelve empty slots, slot i with id `slot-i` and empty caption |
| `Planner.InitialIdsDistinct` | components/Planner.tsx:16 | the twelve initial ids are pairwise distinct |
| `Planner.Assigned` | components/Planner.tsx:40-47 | the grid keeps its size and the slot shows the uploaded picture and holds its file |
| `Planner.Cleared` | components/Planner.tsx:54-60 | the grid keeps its size and the slot has no picture, no file and an empty caption |
| `Planner.Captioned` | components/Planner.tsx:150-152 | only the slot's caption changes; every other field and slot stays |
| `Planner.Swapped` | components/Planner.tsx:88-95 | the two slots exchange their whole contents and every other slot stays |
| `Planner.AssignedKeepsRest` | components/Planner.tsx:40-47 | an upload sets only the slot's url and file; its id, caption and path and all other slots stay |
| `Planner.ClearedKeepsRest` | components/Planner.tsx:54-60 | removing clears url, file and caption of that slot only; the id stays |
| `Planner.SwappedIsPermutation` | components/Planner.tsx:88-95 | a drag-swap only permutes the slots (same multiset, same length) |
| `Planner.SwapSelfInverse` | components/Planner.tsx:88-95 | swapping the same two slots twice restores the grid |
| `Planner.SwapSymmetric` | components/Planner.tsx:88-95 | dragging i onto j has the same effect as dragging j onto i |
| `Planner.FirstWithUrl` | components/Planner.tsx:182 | `find` returns the first slot showing the URL, or none when no slot shows it |
| `Planner.HoverCaption` | components/Planner.tsx:182-183 | the preview shows the caption of the first slot showing the hovered picture when that caption is non-empty, and the stock caption otherwise (no hover, no such slot, or an empty caption); never empty |
| `Planner.GridPlanner.constructor` | components/Planner.tsx:13-29 | the initial grid, no drag, no hover, no modal, no generation |
| `Planner.GridPlanner.HandleFileUpload` | components/Planner.tsx:40-47 | the slot's url and file are set as `Assigned` describes |
| `Planner.GridPlanner.TriggerFileInput` | components/Planner.tsx:49-52 | the clicked slot becomes the target of the file picker |
| `Planner.GridPlanner.HandleFileSelect` | components/Planner.tsx:34-38 | the first chosen file goes to the remembered slot; no file or no target changes nothing |
| `Planner.GridPlanner.ClickSlot` | components/Planner.tsx:349 | a filled slot opens the caption modal; an empty one targets the file picker |
| `Planner.GridPlanner.RemoveItem` | components/Planner.tsx:54-64 | the slot is cleared; the hover is dropped only if it showed that slot's old URL |
| `Planner.GridPlanner.DragStart` | components/Planner.tsx:67-70 | the dragged slot is remembered |
| `Planner.GridPlanner.Drop` | components/Planner.tsx:77-98 | dropped files win and go to the target; otherwise a pending drag from another slot swaps the two; the drag ends |
| `Planner.GridPlanner.ContainerDrop` | components/Planner.tsx:212 | a drop on the container ends the file-drag highlight |
| `Planner.GridPlanner.ContainerDragEnter` | components/Planner.tsx:100-105 | the highlight turns on only when the drag carries files |
| `Planner.GridPlanner.ContainerDragLeave` | components/Planner.tsx:107-111 | the highlight turns off only when the pointer leaves the container |
| `Planner.GridPlanner.MouseEnter` | components/Planner.tsx:350 | hovering a filled slot shows its URL; an empty slot keeps the previous hover |
| `Planner.GridPlanner.MouseLeave` | components/Planner.tsx:351 | leaving a slot clears the hover |
| `Planner.GridPlanner.CurrentHoverCaption` | components/Planner.tsx:181-183 | the preview caption for the current hover is never empty |
| `Planner.GridPlanner.OpenCaptionModal` | components/Planner.tsx:137-140 | the modal edits a copy of the slot, and the draft starts as its caption |
| `Planner.GridPlanner.EditDraft` | components/Planner.tsx:523 | typing replaces the draft only |
| `Planner.GridPlanner.CloseCaptionModal` | components/Planner.tsx:142-145 | closing drops the edited slot and the draft; the grid is kept |
| `Planner.GridPlanner.SaveCaption` | components/Planner.tsx:147-156 | saving writes the draft into the edited slot only, then closes the modal |
| `Planner.GridPlanner.StartGenerateCaption` | components/Planner.tsx:158-171 | callable only while no request is pending (the button is disabled, line 532); no request without a file; otherwise an Instagram request with the draft or the stock prompt as context, and the spinner on |
| `Planner.GridPlanner.FinishGenerateCaption` | components/Planner.tsx:172-178 | a generated caption replaces the draft; a failure keeps it; the spinner stops either way |
| `Planner.DoubleSwapRestores` | components/Planner.tsx:77-98 | two identical drag-swaps leave the grid as it was |
| `PlannerService.UploadPath` | services/plannerService.ts:9-11 | the path lies in the user's `user_uploads/<uid>/` folder and its extension is the file name's |
| `PlannerService.UploadExtension` | services/plannerService.ts:10-11 | the upload path's extension is what follows the file name's last '.' |
| `PlannerService.SaveData` | services/plannerService.ts:36-43 | the document carries the slot's id, its caption (or '') and the save time; an empty storage path is stored as null and a set one as is |
| `PlannerService.SlotIndex` | services/plannerService.ts:68-69 | a document fills a slot exactly when parseInt of its key lies in 0..11 |
| `PlannerService.SlotIndexOfDocId` | services/plannerService.ts:34 | the key written for slot i reads back as slot i |
| `PlannerService.LastForIsLast` | services/plannerService.ts:67-79 | when several documents name one slot, the last one listed wins |
| `PlannerService.LoadedItem` | services/plannerService.ts:70-77 | a slot rebuilt from a document has its url and path, its id or `slot-<i>` when the id is empty, and never a file |
| `PlannerService.LoadedSlot` | services/plannerService.ts:59-79 | a fetched slot never holds a file |
| `PlannerService.PlaceDocument` | services/plannerService.ts:67-78 | a document whose key parses to a slot index in 0..11 replaces that slot; any other leaves the slots as they were |
| `PlannerService.FetchPlannerGrid` | services/plannerService.ts:55-82 | always twelve slots; each slot holds the last document naming it, or the empty slot |
| `PlannerService.SaveThenFetch` | services/plannerService.ts:33-82 | when the twelve slot documents hold what saving the grid wrote and the user's collection holds only slot documents, fetching any listing of that collection, in any order, gives each slot back, with the file dropped, an empty id read as `slot-i` and an empty path read as none |
| `PlannerService.SaveWritesSlot` | services/plannerService.ts:33-45 | saving slot index records the item in that slot's document and leaves what every other slot's document records |
| `PlannerService.SaveKeepsSlotDocs` | services/plannerService.ts:34 | saving writes only keys of the form `index.toString()`, so a collection of slot documents stays one |
| `PlannerService.SlotIndexOfAnyDocId` | services/plannerService.ts:68-69 | a key written for slot j is read back as slot i only when j is i |
| `PlannerService.LoadedSaveData` | services/plannerService.ts:71-77 | a saved slot read back is the slot with the file dropped, the id defaulted and an empty path read as none |
| `PlannerService.ResetDocsExactly` | services/plannerService.ts:85-98 | reset deletes slot i's document exactly when slot i shows a picture |
| `PlannerService.ResetDocsScope` | services/plannerService.ts:85-98 | reset deletes only documents of that user at keys of filled slots |
| `PlannerService.PlannerStore.UploadPlannerImage` | services/plannerService.ts:8-18 | the file is stored under `user_uploads/<uid>/<time>_<random>.<ext>`, and that path and the URL are returned |
| `PlannerService.PlannerStore.DeletePlannerImage` | services/plannerService.ts:21-30 | an empty path does nothing; a failed delete is swallowed and leaves the object; otherwise the object is gone, and a missing one is no error |
| `PlannerService.PlannerStore.SaveGridItem` | services/plannerService.ts:33-46 | the slot's document gets id, url, caption (default ''), path (default null) and the time; never the file |
| `PlannerService.PlannerStore.DeleteGridItem` | services/plannerService.ts:49-52 | only the slot's document is removed |
| `PlannerService.PlannerStore.ResetPlannerGrid` | services/plannerService.ts:85-98 | the documents and stored pictures of the filled slots are deleted, except the pictures whose delete fails, and nothing else |
| `Enhance.NewJobs` | components/Enhance.tsx:36-46 | one idle job per file, in file order, with no result and no error |
| `Enhance.WithoutJob` | components/Enhance.tsx:58-60 | removal keeps exactly the jobs with another id |
| `Enhance.WithoutJobAppend` | components/Enhance.tsx:59 | removal works piecewise, so the kept jobs keep their order |
| `Enhance.WithoutAbsentJob` | components/Enhance.tsx:59 | removing an absent id changes nothing |
| `Enhance.Patched` | components/Enhance.tsx:62-71 | a patch of the list keeps its length |
| `Enhance.ApplyPatch` | components/Enhance.tsx:63-69 | a status patch keeps the job's id, file and preview |
| `Enhance.PatchedAt` | components/Enhance.tsx:62-71 | a patch changes exactly the jobs with its id |
| `Enhance.PatchedKeepsIds` | components/Enhance.tsx:62-71 | a patch neither adds nor removes jobs |
| `Enhance.PatchedAbsent` | components/Enhance.tsx:62-71 | a patch for an absent id changes nothing |
| `Enhance.NoResurrection` | components/Enhance.tsx:58-71 | a result arriving after its job was removed does not bring the job back |
| `Enhance.StaleFieldsSurvive` | components/Enhance.tsx:67-69 | a failure keeps an old result URL and a success keeps an old error |
| `Enhance.Pending` | components/Enhance.tsx:75 | the snapshot is no longer than the list |
| `Enhance.PendingMembers` | components/Enhance.tsx:75 | the batch snapshot holds exactly the idle and failed jobs |
| `Enhance.PendingAppend` | components/Enhance.tsx:75 | the snapshot keeps the list's order: that of a concatenation is the snapshots of its parts, concatenated |
| `Enhance.PendingIndex` | components/Enhance.tsx:75 | with distinct ids, a pending job sits in the snapshot right after the pending jobs before it and nowhere else; a job that is not pending does not appear |
| `Enhance.RunBatch` | components/Enhance.tsx:73-82 | running the batch neither adds nor removes jobs |
| `Enhance.RunBatchAt` | components/Enhance.tsx:73-82 | the batch acts on each job independently of the others |
| `Enhance.BatchEffect` | components/Enhance.tsx:73-82 | with distinct ids, the k-th pending job is settled by the k-th outcome, and every other job stays as it was |
| `Enhance.Downloadable` | components/Enhance.tsx:124 | the archive takes exactly the completed jobs that have a result |
| `Enhance.EntryNamesDistinct` | components/Enhance.tsx:135 | entry names `enhanced_<n>.png` of distinct numbers differ |
| `Enhance.EntriesFrom` | components/Enhance.tsx:130-138 | each entry is the (k+1)-th downloadable job, named `enhanced_<k+1>.png`, whose result composites to a blob; a job without a blob gets no entry |
| `Enhance.BlobPositions` | components/Enhance.tsx:130-137 | the positions of the downloadable jobs with a blob, strictly increasing |
| `Enhance.BlobPositionsComplete` | components/Enhance.tsx:130-137 | no downloadable job with a blob is left out of the positions |
| `Enhance.EntriesInJobOrder` | components/Enhance.tsx:130-138 | the i-th entry is the i-th job with a blob, under its own number: entries follow the job list |
| `Enhance.EntriesComplete` | components/Enhance.tsx:130-138 | every downloadable job whose result composites to a blob gets its entry `enhanced_<k+1>.png` |
| `Enhance.EntriesDistinct` | components/Enhance.tsx:130-138 | no two archive entries share a name |
| `Enhance.EnhanceWorkspace.constructor` | components/Enhance.tsx:18-28 | no jobs; 1:1, white, #ffffff, no recolour, no frame |
| `Enhance.EnhanceWorkspace.UploadFiles` | components/Enhance.tsx:43-48 | the new idle jobs are appended after the existing ones, which are unchanged |
| `Enhance.EnhanceWorkspace.UploadFrame` | components/Enhance.tsx:50-56 | the first chosen file becomes the frame, with its preview |
| `Enhance.EnhanceWorkspace.ClearFrame` | components/Enhance.tsx:242 | the frame and its preview are removed; the other settings stay |
| `Enhance.EnhanceWorkspace.SetAspectRatio` | components/Enhance.tsx:160 | only the aspect ratio changes |
| `Enhance.EnhanceWorkspace.SetBackground` | components/Enhance.tsx:180 | only the background preset changes |
| `Enhance.EnhanceWorkspace.SetCustomBackground` | components/Enhance.tsx:196 | only the custom background colour changes |
| `Enhance.EnhanceWorkspace.SetObjectColor` | components/Enhance.tsx:212-217 | only the object colour changes |
| `Enhance.EnhanceWorkspace.RemoveJob` | components/Enhance.tsx:58-60 | the id is gone and the other jobs keep their order |
| `Enhance.EnhanceWorkspace.StartProcessing` | components/Enhance.tsx:62-66 | the job becomes processing, if still present; its file and the caller's settings are sent |
| `Enhance.EnhanceWorkspace.FinishProcessing` | components/Enhance.tsx:66-70 | the outcome settles the job with that id; an absent id changes nothing |
| `Enhance.EnhanceWorkspace.EnhanceAll` | components/Enhance.tsx:73-82 | the jobs pending at the click are processed in list order, one after the other; the busy flag is off at the end |
| `Enhance.EnhanceWorkspace.CanEnhanceAll` | components/Enhance.tsx:254 | "enhance all" is enabled exactly when there are jobs and no batch runs |
| `Enhance.EnhanceWorkspace.CanDownloadAll` | components/Enhance.tsx:300 | "download all" is enabled exactly when some job is completed |
| `Enhance.EnhanceWorkspace.DownloadAll` | components/Enhance.tsx:123-142 | no archive when no completed job has a result; otherwise `kana_enhanced_images.zip`, folder `kana-enhanced`, with the numbered entries |
| `Enhance.EnhanceWorkspace.OpenComparison` | components/Enhance.tsx:337 | the comparison view opens only for a job with a result |
| `Enhance.EnhanceWorkspace.CloseComparison` | components/Enhance.tsx:391 | the comparison view closes |
| `Enhance.ComparisonDownload` | components/Enhance.tsx:425-428 | a file is saved exactly when the job has a result whose compositing yields a blob, and it is named `enhanced-<id>.png` |
| `Gemini.LangInstruction` | services/geminiService.ts:41-43 | 'id' selects the Indonesian instruction; every other language selects English |
| `Gemini.LangContext` | services/geminiService.ts:115 | 'id' asks for Indonesian text in the image; every other language asks for English |
| `Gemini.BackgroundDescription` | services/geminiService.ts:174-178 | Black, Gray, Green Screen and Custom each get their own description; Custom embeds the colour; any other value gives the white studio default |
| `Gemini.ColorInstruction` | services/geminiService.ts:181-183 | a set colour gives a recolour order naming it; an empty one gives "Keep the product colors true to life." |
| `Gemini.ApiAspectRatio` | services/geminiService.ts:197-217 | 4:5 is sent as 3:4 and empty as 1:1; anything else is sent as is |
| `Gemini.PngDataUrl` | services/geminiService.ts:155 | the result is the PNG data URL of the part's data (the text `undefined` when it is missing), so it starts with `data:image/png;base64,` |
| `Gemini.PngDataUrlReadBack` | services/geminiService.ts:236-246 | the payload of a generated image is read back from its data URL when it has no comma |
| `Gemini.FirstImage` | services/geminiService.ts:151-159 | the first part with inline data gives the image (also lines 222-229); none is "No image generated."; no candidate is a failure too |
| `Gemini.ResponseText` | services/geminiService.ts:90-91 | absent or empty text is "No response from Gemini" |
| `Gemini.Base64Payload` | services/geminiService.ts:242 | undefined exactly when the data URL has no comma; never contains a comma |
| `Gemini.Base64OfDataUrl` | services/geminiService.ts:236-246 | the payload read back is the text after the header's comma up to the next comma: the whole payload when it has none |
| `UserService.NewProfile` | services/userService.ts:15-24 | uid copied; email or null; name and photo take extra, else account, else null; never '' |
| `UserService.Created` | services/userService.ts:8-36 | no user writes nothing; a profile is added only for an account without one; existing profiles never change |
| `UserService.CreatedIdempotent` | services/userService.ts:14-35 | a second creation, with any extra data and time, changes nothing |
| `UserService.UpdatedData` | services/userService.ts:49-56 | the update is the input, plus photo URL and `user_uploads/<uid>/profile_photo.jpg` only when a photo is given |
| `UserService.Patched` | services/userService.ts:68 | the update overwrites only the fields it carries |
| `UserService.AuthAfterUpdate` | services/userService.ts:58-66 | the signed-in account's photo becomes the uploaded one when a photo is given, and its name the new one when that is non-empty; otherwise both stay, as do uid and email; no signed-in account, no change |
| `UserService.UserDirectory.CreateUserDocument` | services/userService.ts:8-36 | create-if-absent as `Created` describes; a failed write is swallowed |
| `UserService.UserDirectory.GetUserProfile` | services/userService.ts:38-45 | the stored profile, or null when there is none |
| `UserService.UserDirectory.UpdateUserProfile` | services/userService.ts:47-70 | photo stored and joined to the update, account updated, then the document updated and the update returned; a missing document fails after the earlier steps |
| `UserService.UserDirectory.DeleteUserAccount` | services/userService.ts:72-95 | no signed-in account: "No user logged in", nothing deleted; else document, then photo (a failed photo delete is ignored), then account, with the account deletion able to fail last |
| `AuthForm.LoginMessage` | components/Auth.tsx:50-55 | invalid-credential, wrong-password and user-not-found become the credentials message; other errors keep theirs |
| `AuthForm.SignUpMessage` | components/Auth.tsx:87-92 | email-already-in-use becomes the exists message; other errors keep theirs |
| `AuthForm.Shown` | components/Auth.tsx:94-95 | the shown error is the message, or "An unexpected error occurred" when it is empty |
| `AuthForm.Named` | components/Auth.tsx:75-79 | after sign-up the account carries the full name and the photo URL (null without a photo) |
| `AuthForm.SignUpExtra` | components/Auth.tsx:81-85 | the profile gets the full name, and the photo URL unless it is empty |
| `AuthForm.Form.constructor` | components/Auth.tsx:17-25 | sign-in mode, empty fields, no photo, no error, not loading |
| `AuthForm.Form.SetFields` | components/Auth.tsx:146-192 | the inputs hold what was typed |
| `AuthForm.Form.ChoosePhoto` | components/Auth.tsx:30-36 | the first chosen file becomes the photo, with a preview |
| `AuthForm.Form.ToggleMode` | components/Auth.tsx:219 | the mode flips and the error clears |
| `AuthForm.Form.Submit` | components/Auth.tsx:38-99 | sign-in and sign-up results as in the source: mismatched passwords create no account, rejections show the mapped message, an accepted sign-up stores the photo only if one was chosen, and loading is off at the end |

## Left out

- The rendering, styling, translations table and navigation of the components. The translated messages the form shows are parameters.
- `App.tsx`, `ImageGenerator.tsx`, `InputForm.tsx`, `ResultDisplay.tsx` and `ProfileModal.tsx`. They are not part of this model; only the calls they make into the services are.
- `services/firebase.ts` is configuration only and is not part of this model. It exports only `app`, `auth` and `analytics`, while `plannerService.ts`, `userService.ts` and `Auth.tsx` (line 10) import `db` and `storage` from it, so the source as it stands does not build; the model assumes the document store and the object store those imports name. The document store, the object store and the authentication service are the collections of `PlannerStore` and `UserDirectory`.
- The planner's "save mockup" (`toJpeg` and the download link) and its `isSaving` flag: rasterising the page and downloading it are I/O.
- The drag-over handlers: they only set browser drop effects.
- The compositing of a result with the frame overlay on a canvas is I/O. `DownloadAll` takes as a parameter the result URLs whose compositing yields no blob. A frame that never loads leaves the download waiting forever; that is not modelled.
- The zip bytes and `saveAs`: `DownloadAll` returns the archive's plan (file name, folder, entry names and source jobs).
- The generation requests themselves: the model names, the prompt prose around the selected pieces, the response schema, and `JSON.parse` of the social-content answer. `ResponseText` returns the raw text.
- `FileReader` in `fileToBase64`: only the comma split of the data URL it yields is modelled.
- `Gemini.FirstImage` does not model a first candidate without `content`, which makes the source throw a TypeError.
- Concurrency: only `processJob` and `handleGenerateCaption` are split at their awaited call; every other handler is one atomic step. `resetPlannerGrid` starts its deletions together with `Promise.all`; the model runs them in slot order, which gives the same final stores, because each slot's deletions touch only that slot's picture and document. Object deletes that fail are swallowed one by one (the `failing` parameter); a document delete that fails, which would reject the `Promise.all` while other slots are still being cleared, is not modelled.
- Failures of remote calls other than the ones named in the contracts are not modelled: uploads, document deletes, `getDoc` in `createUserDocument`, and `updateProfile`. The modelled failures are: the enhancer's rejection, a compositing that yields no blob, a failed profile write, an update of a missing profile, object deletes that fail and are swallowed (planner pictures and the profile photo), an account deletion refused for an old login, and the sign-in / sign-up rejections.
- `UserService.ProfilePatch` carries only the fields callers pass (display name, photo URL, storage path). A patch that sets a field to null, or that changes uid, email or creation time, is not modelled.
- `AuthForm.Form.Submit`: the intermediate state while the request is pending (error cleared, `isLoading` true, button disabled) is not observable in a single atomic step. The contract states the state at the end, where the error of a successful submit is none because the start cleared it.
- `AuthForm.Form.Submit`: the authentication service's own treatment of an empty display name in `updateProfile` is not modelled; the name is stored as given.
- `Enhance.EnhanceWorkspace.EnhanceAll`: the settings stay fixed while the batch runs, because the model runs the batch as one step. That the batch would keep the click-time settings even if the user changed them meanwhile is stated in the method's body (the snapshot `batchSettings`), not in its contract.
- `Enhance.EnhanceWorkspace.EnhanceAll` runs the whole batch as one step. The remove button and the upload input (components/Enhance.tsx:330 and :290) stay enabled during a batch, so a job removed or files added while the batch runs cannot be expressed with this method; `NoResurrection` covers a removal between the two halves of a single `processJob`.
- `PlannerService.LoadedItem`: a stored document without a caption gives an undefined caption in the source; the model reads it as ''.
- `Text.ParseInt` skips the listed white-space characters. It does not skip the other Unicode space separators that JavaScript also skips.
- `PlannerService.PlannerStore.SaveGridItem` takes a full `GridItem`; the source takes a `Partial<GridItem>`. An item without `id` or `url` puts `undefined` into the written data, which the document store rejects; that failure is not modelled. For a full item the model replaces the document where the source merges, which gives the same document, because every field of the document is written.
- `PlannerService.FetchPlannerGrid` takes the listing of the user's collection as a parameter, because `getDocs` is a remote read. `SaveThenFetch` ties a listing to the stored documents through `ListsCollection` (each document of the user once, in any order).
