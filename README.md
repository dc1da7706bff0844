# AI processing page: a Dafny model of its client-side state

The application is a single page with three panels. Each panel calls a
backend endpoint:

- **Image analysis.** The user either types an image URL or picks a local file; the two are
  mutually exclusive. The page posts the image to `/api/analyze` and shows the returned text.
- **Image generation.** The page posts a text prompt to `/api/generate` and shows the image
  URL it gets back.
- **Video generation.** The page posts a prompt to `/api/generate-video`, receives a task
  identifier, and then polls `/api/generate-video/status?taskId=…` until the task has
  succeeded or a reply fails. The task's phase moves through idle, creating, polling and then
  completed or error.

This project models the page component's event handlers. Each group of state
fields becomes a class, because no handler touches two groups:

- `VideoGeneration.VideoPanel` holds `videoPrompt`, `videoStatus`, `videoError`,
  `generatedVideo` and `generatingVideo`.
- `ImageAnalysis.AnalysisPanel` holds `imageUrl`, `localImage`, `localImageUrl`,
  `inputMethod`, `showPreview`, `imageLoading`, `result` and `loading`.
- `ImageGeneration.GenerationPanel` holds `prompt`, `generatedImage` and `generating`.

Each class also records the requests it sends in a `sent` field. That field is how the
model states facts such as "no request was sent" and "no poll after the task ended".

The browser's answers are parameters of the handlers:

- A fetch round trip is an `Exchange`. It is either `Rejected` with the thrown value (fetch
  rejected, or `response.json()` threw) or `Answered` with `ok` and the decoded body.
- The file reader's data URL is a parameter, and so is the URL that `URL.createObjectURL`
  returns.
- The poll loop walks a finite sequence of status replies. When the sequence runs out before
  any reply ends the loop, the task is still polling.

Each handler method is proved against specification functions on values:

- `AfterGenerate`, `AfterPolling`, `FirstTerminal` and `PhaseTrace` describe video
  generation.
- `Coherent`, `HasInput`, `Payload` and `AnalysisResult` describe image analysis.
- `GenerationOf` describes image generation.

The lemmas state the page's promises about these functions.

Behaviour of the code that the model keeps as written:

- A failed creation request sets the phase to error but leaves `generatingVideo` true.
  `FailsExactly` shows that the generate button then stays disabled for every prompt.
- A successful creation reply without a task identifier leaves the phase at creating, with
  the busy flag still set.
- The poll handler calls `response.json()` before it checks `ok`. So a failing status reply
  whose body is not JSON reports the parser's error message, not the fallback "查询失败".
  The model follows the code here: such a reply is a `Rejected` exchange. A description that
  promises the fallback message for a non-2xx reply without a body disagrees with the code on
  this point.
- An analysis failure always shows the fixed text "分析过程中发生错误，请稍后重试。". The
  server's `error` message is never shown.

## Model

| member | source | states |
|---|---|---|
| `Web.TrimStart` | app/page.tsx:175 | The result is a suffix of the input with no leading white space, and only white space was dropped. |
| `Web.TrimEnd` | app/page.tsx:175 | The result is a prefix of the input with no trailing white space, and only white space was dropped. |
| `Web.TrimmedEmptyIffBlank` | app/page.tsx:175 | `s.trim()` is empty exactly when every character of `s` is ECMAScript white space or a line terminator. This is the blank-input test of the handlers. |
| `VideoGeneration.FirstTerminal` | app/page.tsx:216-235 | The loop stops at the first reply that fails or succeeds. Every earlier reply only asks for another poll. |
| `VideoGeneration.SucceedIffSuccess` | app/page.tsx:226-231 | A status reply completes the task exactly when it is ok, has no error, has status "succeeded" and has a non-empty `videoUrl`. The verdict then carries that URL. |
| `VideoGeneration.LaterRepliesIgnored` | app/page.tsx:222-231 | Once a reply has ended the loop, later replies change neither the task nor the number of status requests. No poll follows a terminal phase. |
| `VideoGeneration.UnsettledKeepsPolling` | app/page.tsx:233-235 | While no reply fails or succeeds, every reply is followed by another poll. The task keeps its polling state, and one request is issued per reply. |
| `VideoGeneration.CompletesExactly` | app/page.tsx:199-231 | A generation completes exactly when a task identifier arrived and a success-shaped reply comes before any failing one. The task then holds that reply's URL and is no longer busy. |
| `VideoGeneration.FailsExactly` | app/page.tsx:194-243 | The phase becomes error exactly when creation is refused or the first terminal poll fails. A creation failure keeps `generatingVideo` true, so the button stays disabled. A poll failure clears the flag and stores the reply's message. |
| `VideoGeneration.CreationFailureMessage` | app/page.tsx:194-211 | A refused creation reports `data.error` when it is non-empty and "生成请求失败" otherwise. The message is never empty when a reply arrived. A thrown error's message is used as is. |
| `VideoGeneration.NoTaskStaysCreating` | app/page.tsx:199-204 | A successful creation reply without a task identifier leaves the phase at creating and the task busy, and sends no status request. |
| `VideoGeneration.PhasesAdvance` | app/page.tsx:180-241 | The phases assigned during one generation start at creating and strictly advance along idle, creating, polling and terminal. They end at the task's final phase, so a phase never regresses. |
| `VideoGeneration.ExampleTwoPolls` | app/page.tsx:214-231 | A run where the task is running at the first poll and succeeded at the second. It completes with the video URL after exactly two status requests. |
| `VideoGeneration.StatusTextNamesPhase` | app/page.tsx:246-257 | `renderVideoStatus` gives different texts to different phases. The exception is idle and completed, which share the placeholder. |
| `VideoGeneration.VideoPanel.constructor` | app/page.tsx:24-30 | The initial task state: phase idle, no error, no video, not busy, empty prompt. |
| `VideoGeneration.VideoPanel.EditPrompt` | app/page.tsx:546 | The prompt text area stores the typed text. |
| `VideoGeneration.VideoPanel.GenerateVideo` | app/page.tsx:174-212 | A blank prompt raises the alert "请输入视频描述" and changes nothing, with no request sent. Otherwise the new task state is `AfterGenerate` of the old one. The requests are one creation POST and then the status GETs of the loop. The phases assigned are `PhaseTrace`. |
| `VideoGeneration.VideoPanel.StartPolling` | app/page.tsx:214-244 | One status GET is issued per reply up to and including the first terminal one. The task becomes `AfterPolling` of the old task. |
| `ImageAnalysis.GuardFollowsMode` | app/page.tsx:89-92 | On a coherent selection, the analyze guard passes exactly in local mode or when the URL field is not blank. |
| `ImageAnalysis.PayloadFollowsMode` | app/page.tsx:96-118 | In local mode the request carries the file reader's data URL and never the URL field. In URL mode it carries the typed, non-blank URL. |
| `ImageAnalysis.GuardStricterThanButton` | app/page.tsx:442 | Whenever the handler would send a request, the analyze button is enabled. The converse fails: a URL made only of white space enables the button and is then refused. |
| `ImageAnalysis.AnalysisResultCases` | app/page.tsx:120-135 | `result` becomes the reply's `result` after an ok reply without an error. Every other outcome shows the fixed apology text. |
| `ImageAnalysis.AnalysisPanel.constructor` | app/page.tsx:13-34 | The initial state: URL mode, empty URL, no local image, no preview, empty result, and the selection invariant holds. |
| `ImageAnalysis.AnalysisPanel.ImageUrlChange` | app/page.tsx:37-52 | Typing a URL gives URL mode with that URL and no local image. It revokes the held object URL, hides the preview and keeps the invariant. |
| `ImageAnalysis.AnalysisPanel.LocalImageChange` | app/page.tsx:55-71 | Picking a file gives local mode with that file and its new object URL, and an empty URL field. The previous object URL is revoked and the preview is shown. With no file, nothing changes. The invariant is kept. |
| `ImageAnalysis.AnalysisPanel.ClearLocalImage` | app/page.tsx:374-382 | Clearing drops the local image, revokes its object URL and returns to URL mode. It hides the preview and keeps the invariant. |
| `ImageAnalysis.AnalysisPanel.Analyze` | app/page.tsx:87-136 | With no input, it alerts "请输入图片URL或上传本地图片" and sends nothing. Otherwise it sends one POST carrying `Payload` and sets `result` to `AnalysisResult`. A failed file read sends nothing and sets the fixed text. `loading` ends false and the selection is unchanged. |
| `ImageGeneration.GeneratedIffAccepted` | app/page.tsx:156-165 | A reply produces an image exactly when it is ok and has no error. The image shown is then the reply's `imageUrl`. |
| `ImageGeneration.GenerationPanel.constructor` | app/page.tsx:21-23 | The initial state: empty prompt, no image, not generating. |
| `ImageGeneration.GenerationPanel.EditPrompt` | app/page.tsx:488 | The prompt text area stores the typed text. |
| `ImageGeneration.GenerationPanel.Generate` | app/page.tsx:138-172 | A blank prompt raises the alert "请输入图片描述" and sends nothing. Otherwise it sends one POST. A successful reply replaces the image. A failure keeps the old image and raises "生成过程中发生错误，请稍后重试". `generating` ends false. |

## Left out

- Rendering, styling, tab switching and the preview image are not modelled. This covers the
  JSX in app/page.tsx:259-609 and the image `onLoad`/`onError` callbacks that clear
  `imageLoading`. They are presentation only.
- `handlePreviewImage` (app/page.tsx:74-85) is left out. It validates the URL with the WHATWG
  URL parser, which is not part of this model.
- `fetch`, `response.json()`, `FileReader.readAsDataURL` and `URL.createObjectURL` are not
  modelled. They are browser APIs, and their results are parameters of the handlers.
  `URL.revokeObjectURL` is modelled only as removing the URL from a ghost set of live object
  URLs.
- The 5-second wait between polls is left out. Each poll is one step with no clock.
- Asynchrony is not modelled: `startPolling` runs unawaited, loops can overlap, and React
  batches state updates. Handlers run to completion one at a time. The page disables the
  generate buttons while a request is busy.
- The unbounded `while (true)` loop is modelled over a finite sequence of replies. A
  sequence that ends without a terminal reply stands for a loop that is still polling.
- JSON fields are modelled as optional strings. A non-string `error` or `taskId` is not
  modelled, and neither is a `null` body whose field access throws; the latter counts as a
  `Rejected` exchange.
- The task identifier is appended to the status URL without escaping, as in the code; URL
  encoding is not modelled.
- `console.error` logging and the `alert` dialogs themselves are left out. An alert appears
  only as the returned message.
- `ImageAnalysis.AnalysisPanel.Analyze`, `ImageGeneration.GenerationPanel.Generate` and
  `VideoGeneration.VideoPanel.GenerateVideo` state the busy flags only as they are after the
  handler returns. The intermediate `true` values, shown while a request is in flight, are
  not observable in the model. For the video phase, the ghost `statusLog` records every
  intermediate phase.
- next.config.js and app/layout.tsx hold build configuration and static metadata. They are
  not part of this model.
