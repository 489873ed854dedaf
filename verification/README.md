# Jewelry photo retoucher: the batch retouch queue

A Dafny model of the batch retouch queue of the jewelry photo retoucher, with
proofs about it. The app is a React front end. The user submits jewelry
photographs as data URLs. The app admits as many as there are usage credits.
It sends them one by one to an image-generation service, marks each item
completed or failed, and spends one credit per success. Next to the queue sit
the pure helpers of the Gemini service module. They take a data URL apart,
choose the prompt's descriptions with their defaults, pick the generated image
out of a response, and compose the link to a generated video.

Modules, one per source concern:

- `Wrappers`: `Option` and `Result`. They stand for the source's `undefined`
  values and thrown errors.
- `Types` (types.ts): the modes, the style options, `BatchItem` and
  `ProcessingState`.
- `Text`: JavaScript's `split` on one character and its inverse `join`, with
  the round trip between them proved.
- `GeminiService` (services/geminiService.ts): the data-URL parsing, the
  description tables and their defaults, the request handed to the image SDK,
  the loop that extracts the first inline image (a method with a loop), the
  one fixed failure message, and the video link.
- `BatchQueue` (App.tsx, pure part): the item-list rebuilds that the component
  does with `.map`, one transition function per state update, and `Drive`.
  `Drive` is the chain of steps that `processNextInQueue` schedules for
  itself, each step with `index + 1`. The lemmas say what a whole run does.
- `AppComponent` (App.tsx, stateful part): class `App` with the component's
  fields `mode`, `credits`, `state` and `options`. `HandleImagesSelected`
  admits the images and hands over to `RunQueue`, which drives the queue with
  a `while` loop whose invariant is the index-ordered shape of the queue, and
  returns the service calls it made, in order. Each method is proved equal to its `BatchQueue`
  transition.

The remote image call is a parameter, `oracle: nat -> Outcome`. `oracle(i)`
is what the call for item `i` returned: a result string or a failure message.
Item ids come from a parameter `ids: nat -> string`, because the source draws
them from `Math.random`. The stored credit count is an `Option<int>`.

Points where the source behaves in ways a reader might not expect:

- The per-step credit check (App.tsx:95) compares the credits captured when
  the batch was submitted, not the current count. The model passes that value
  explicitly as `captured`. The admission step only starts a run when this
  value is positive. So `SubmitSettlesAdmitted` proves that the check never
  aborts a submitted run.
- The out-of-credits branch (App.tsx:96-102) marks every item from the cursor
  on as `error` with message 'Out of credits', whatever its status, and the
  run status becomes `error` (`CreditCheckAborts`).
- With exactly one admitted image the mode is left as it was (App.tsx:150).
  It is not forced to `single`.
- Nothing discards a response that arrives after `reset`. That response still
  spends a credit, and the step it schedules marks the emptied run
  `completed` (`StaleResponseAfterReset`).
- Nothing cancels a step that was already scheduled when `reset` came during
  the 300 ms delay (App.tsx:124, 132). It runs with the discarded list: it
  writes its index into the idle state's cursor, sends the next item of the
  discarded list to the service, spends a credit on success, and the step
  after it marks the empty run `completed` (`StaleStepAfterReset`).
- Building the service's client (services/geminiService.ts:9) comes before the
  `try` of line 45. An error there, for example from a missing key, is not
  replaced by the fixed failure message: the queue stores its own message in
  the item (`RetouchResult`, case `ClientThrew`).
- Stored credits are whatever was saved, so they may be negative. Only
  `Math.max(0, prev - 1)` keeps a success from going below zero.

## Model

| member | source | states |
|---|---|---|
| `BatchQueue.InitialCredits` | App.tsx:65-68 | credits start at the stored value, or at 3 when nothing is stored |
| `BatchQueue.SpendCredit` | App.tsx:118 | a success lowers credits by exactly one, floored at 0, so the result is never negative |
| `BatchQueue.EffectiveMode` | App.tsx:150-151 | more than one admitted image gives batch mode; one or none leaves the mode unchanged |
| `BatchQueue.NewItems` | App.tsx:142-148 | the first min(n, credits) images, in their original order, each a pending item with its own image and id and no result or error |
| `BatchQueue.Settle` | App.tsx:120-134 | a success makes the item completed with the result, a failure makes it error with the message; id and image are kept |
| `BatchQueue.MarkOutOfCredits` | App.tsx:96-102 | items before the cursor are unchanged; every item from the cursor on becomes error with 'Out of credits', whatever its status |
| `BatchQueue.StartAt` | App.tsx:106-112 | only the item at the cursor changes, to processing; a settled-then-pending queue becomes one with exactly that item in flight |
| `BatchQueue.SettleAt` | App.tsx:120-134 | only the item at the cursor is settled by the outcome; an in-flight queue becomes settled up to and including the cursor |
| `BatchQueue.Admission` | App.tsx:138-157 | with no credits nothing changes; otherwise a processing run at index 0 holding exactly the admitted items, all pending, credits unchanged, mode derived from the count |
| `BatchQueue.ResetState` | App.tsx:162-168 | reset gives status idle, no items and index -1, and leaves credits and mode alone |
| `BatchQueue.BeginStep` | App.tsx:88-112 | the part of a step before the remote call keeps credits, mode and the number of items; a step that reaches the call keeps the status and moves the cursor, one that does not ends the run, completed past the end and in error otherwise; `StepKeepsQueueShape` and `CreditCheckAborts` state what it does to the items |
| `BatchQueue.FinishStep` | App.tsx:114-134 | the part after the call spends a credit exactly on success and keeps mode, status, cursor and the number of items; `StepKeepsQueueShape` and `StepTouchesOnlyCursor` state what it does to the items |
| `BatchQueue.StepKeepsQueueShape` | App.tsx:106-134 | no step changes an item's id or image; the first half puts the cursor's item of a settled-then-pending queue in flight, the second settles it and leaves the queue settled-then-pending one place further on |
| `BatchQueue.Drive` | App.tsx:88-136 | the chain scheduled at lines 124 and 132 keeps the mode and the number of items, never raises credits above their positive part, and always ends completed or in error; `DriveSettlesRest` states the whole run |
| `BatchQueue.StepAdvances` | App.tsx:88-136 | one turn of the chain over a settled-then-pending queue hands over to the chain from the next index with the same shape and items, or ends it once every item was visited |
| `BatchQueue.Submit` | App.tsx:138-160 | without credits nothing changes; otherwise the run holds min(n, credits) items, the mode is derived from that count, credits do not rise, and the run ends completed or in error; `SubmitSettlesAdmitted` states the whole outcome |
| `BatchQueue.WaitingNoneProcessing` | App.tsx:120-134 | between steps no item is processing |
| `BatchQueue.InFlightOneProcessing` | App.tsx:106-112 | during a step exactly one item is processing, the one at the cursor |
| `BatchQueue.CompletedAreSuccesses` | App.tsx:118-123 | when items are settled by their outcomes, the number of completed items equals the number of successes |
| `BatchQueue.StepTouchesOnlyCursor` | App.tsx:106-134 | one step changes only the item at the cursor, moves the cursor there, and spends a credit exactly on success |
| `BatchQueue.DriveSettlesRest` | App.tsx:88-136 | the self-scheduling chain settles each remaining item by its own outcome, in index order, spends one credit per success and ends completed |
| `BatchQueue.SubmitSettlesAdmitted` | App.tsx:138-160 | a submission with credits admits the first min(n, credits) images, settles each by its outcome, ends completed with the cursor on the last item, spends one credit per completed item and never goes below zero |
| `BatchQueue.CreditCheckAborts` | App.tsx:94-103 | with the checked credits at or below 0, every item from the cursor on fails with 'Out of credits', earlier items stay, status becomes error, and no step follows |
| `BatchQueue.ChainEndCompletes` | App.tsx:89-91 | once the index passes the last item the run is completed and nothing else changes |
| `BatchQueue.SubmitWithoutCredits` | App.tsx:139 | with credits at or below 0 a submission changes nothing: no items, no status change, no mode change |
| `BatchQueue.SubmitAfterReset` | App.tsx:153-157 | a submission after reset runs exactly as without the reset: nothing of the previous run survives admission |
| `BatchQueue.StaleResponseAfterReset` | App.tsx:114-136 | a response arriving after reset still spends a credit, and its scheduled step marks the empty run completed |
| `BatchQueue.StaleStepAfterReset` | App.tsx:88-136 | a step scheduled before a reset still runs on the discarded list: it moves the idle state's cursor to its index, spends a credit on success, and the run it leaves is empty and completed |
| `AppComponent.SubmittedFailuresReadFixedMessage` | App.tsx:127-134 | with `RetouchResult` as the gateway, every failed item carries the service's fixed message, or the client-construction error's own message when building the client failed, and every completed item holds a data URL |
| `AppComponent.App.constructor` | App.tsx:64-82 | the component starts in single mode with the stored credits (3 by default), an idle run and the default options |
| `AppComponent.App.ProcessNextInQueue` | App.tsx:88-136 | one step: completes past the end, aborts on no credits, or calls the service with the scheduled list's item and the captured options and settles it; it continues exactly when it reached the call |
| `AppComponent.App.RunQueue` | App.tsx:88-136 | the chain as a loop that keeps the queue settled before the cursor and pending after it, with no item processing between steps; it ends in the state `Drive` gives, after one service call per queued item, in index order, each with that item's image and the captured options |
| `AppComponent.App.HandleImagesSelected` | App.tsx:138-160 | the end state is that of `Submit`; with no credits no call is made, otherwise exactly min(n, credits) calls, the i-th with image i and the options held at submission |
| `AppComponent.App.Reset` | App.tsx:162-168 | the run becomes idle and empty; credits, mode and options stay |
| `Text.Split` | services/geminiService.ts:11-12 | `split` gives at least one part, exactly one when the separator is absent, no part holds the separator, and joining the parts restores the string |
| `Text.SplitJoin` | services/geminiService.ts:11-12 | splitting undoes joining when no part holds the separator |
| `GeminiService.MimeType` | services/geminiService.ts:11 | the MIME type, when there is one, holds neither ':' nor ';'; `MimeTypeBetween` and `MimeTypeMissing` say where it sits |
| `GeminiService.MimeTypeBetween` | services/geminiService.ts:11 | the MIME type is the text between the first ':' and the first ';' |
| `GeminiService.MimeTypeMissing` | services/geminiService.ts:11 | the MIME type is undefined exactly when no ':' comes before the first ';' |
| `GeminiService.PayloadBetween` | services/geminiService.ts:12 | the payload is the text after the first ',' up to any following ',' |
| `GeminiService.Payload` | services/geminiService.ts:12 | the payload is undefined exactly when the URL holds no ','; when there is one it holds no ','; `PayloadBetween` says where it sits |
| `GeminiService.DataUrl` | services/geminiService.ts:60 | the result URL is non-empty and starts with "data:", so a found image never counts as missing |
| `GeminiService.DataUrlRoundTrip` | services/geminiService.ts:11-12 | parsing a URL built at line 60 gives back its MIME type and payload |
| `GeminiService.MetalTable` | services/geminiService.ts:14-18 | every metal colour has a table entry |
| `GeminiService.StoneTable` | services/geminiService.ts:20-27 | every stone colour but 'canary' has a table entry |
| `GeminiService.MetalDescription` | services/geminiService.ts:29 | the table's entry when a metal is chosen, 'high-quality precious metal' when none is |
| `GeminiService.StoneDescription` | services/geminiService.ts:30 | the table's entry when a stone is chosen, the 'original' entry when none is; undefined only for 'canary' |
| `GeminiService.AspectRatioOrDefault` | services/geminiService.ts:40 | the chosen aspect ratio, or 1:1 when unset |
| `GeminiService.BuildRetouchRequest` | services/geminiService.ts:11-52 | the request carries the parsed image, the background, the chosen descriptions, and the same defaulted aspect ratio in the prompt and in the config |
| `GeminiService.FirstInlineIndex` | services/geminiService.ts:57-63 | the index of the first part with inline data: every earlier part has none, and it is absent exactly when no part has any |
| `GeminiService.ExtractResult` | services/geminiService.ts:56-64 | the loop returns the data URL of the first inline part and ignores later parts; it returns "" when there is none |
| `GeminiService.RetouchResult` | services/geminiService.ts:5-70 | the call succeeds exactly when a response came back with an inline part, and then yields that part's data URL; a failure to build the client (line 9, before the `try`) keeps its own message, and every other failure carries the one fixed message |
| `GeminiService.RetouchJewelryImage` | services/geminiService.ts:5-71 | once the client is built the method builds the request, and it resolves exactly as `RetouchResult`: an error inside the `try` is replaced by the fixed message, a client-construction error goes out unchanged and no request is built |
| `GeminiService.BuildVideoRequest` | services/geminiService.ts:73-79 | the video request carries the parsed image, and its aspect ratio defaults to 16:9 |
| `GeminiService.VideoUrl` | services/geminiService.ts:102-105 | the link followed by '&key=' and the key; a missing or empty link fails with 'Video generation failed.' |

## Left out

- Rendering: `LuxeSelect`, the JSX of App.tsx and all of components/ are user interface. The option pickers that call `setOptions` are left out too, so `options` keeps its initial value.
- The progress bar of components/BatchManager.tsx is a floating-point percentage. It is not part of this model.
- Persistence: the `localStorage` read and the effect that saves credits on every change (App.tsx:84-86). The stored value is a parameter. `parseInt` is not modelled.
- Ids: `Math.random` ids are a parameter (`ids`). The model does not require them to be distinct.
- Time: the 300 ms `setTimeout` between steps becomes the next iteration of the loop.
- Remote calls: the client construction, `generateContent`, `generateVideos` and the 10-second polling loop are foreign and depend on timing. Their outcome is a parameter: `oracle` for the queue, a `GenerateResponse` (which covers a failed client construction) or a download link for the service.
- `playCompletionSound` (utils/audio.ts) has no effect on state and is left out.
- The `console.error` in the service's catch block (services/geminiService.ts:68) only logs and is left out.
- components/VideoStudio.tsx and its key-selection handshake are left out.
- Prompt text: the prompt's wording is left out. The request keeps the values interpolated into it, as `Option`s where the source would print "undefined". `intensity` is never read by the service.
- Inline data whose `mimeType` or `data` is missing inside a part is not modelled. Both are taken to be strings.
- Interleaving: `HandleImagesSelected` runs its chain to the end in one call. A `reset` or a second submission that arrives while a remote call is pending is modelled only on values (`StaleResponseAfterReset`, `StaleStepAfterReset`). It is not modelled as interleaved method calls, so the model does not show two chains writing to one run.
- The render-time value of `credits` that `handleImagesSelected` reads is modelled as the current field.
- GeminiService.MimeTypeBetween: covers a MIME type followed by ';' or by the end of the string. The case of a second ':' before the first ';', which cuts the MIME type short, follows from `Text.Split` but is not stated separately.
