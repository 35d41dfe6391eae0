# Virtual fitting room: orchestration model

This project models the client orchestration of a virtual try-on web application and the
API proxy of its development server, and proves properties of both.

The application has two modes.

- **Live mode** streams the webcam through a realtime video-editing SDK. The model is either
  image-guided (`lucy_2_rt`, with a garment picture) or text-only (`lucy_v2v_720p_rt`).
- **Photo mode** uploads a photo and a garment picture to ImgBB, submits a RunPod try-on job,
  and polls the job every 3 seconds, at most 60 times.

The browser never holds the ImgBB or RunPod keys. It calls `/api/` paths on its own origin,
and the development server's middleware injects the keys and forwards the request.

Modules:

- `Strings`: the JavaScript string operations the code relies on:
  - `indexOf` and `includes`;
  - `replace` of the first occurrence;
  - `slice(0, n)` and `slice(-n)`;
  - `trim`, with ECMAScript's white-space set.
- `Garments`: the five-entry garment catalogue, and the two pieces of selection state (a
  catalogue index or a custom garment). It defines `hasGarment` and the choice made by
  `getGarmentFile`.
- `Job`: the photo-mode job.
  - Uploads, submission and the 60-attempt polling loop.
  - `Poll` is the loop itself, proved equal to the recursive specification `PollFrom`.
  - `Workflow` is the whole `try` block of `handleGenerate`.
- `Proxy`: the middleware as one decision.
  - Input: the request, the server environment and what the upstream service answered.
  - Output: the upstream call made (with the credentials injected) and the response sent.
  - It also covers the startup log's `mask`.
- `TryOn`: the `App` component as a class.
  - React state and refs are fields, kept consistent by `Valid()`.
  - Each event handler, effect run or SDK callback is one method, treated as atomic.
  - Calls made on the realtime client are recorded in `sdkCalls`; `alert` messages are
    recorded in `alerts`.

Inputs rather than behaviour:

- Camera permission (`cameraGranted`).
- The realtime SDK's outcome (`ConnectResult`).
- The ImgBB and RunPod answers (`Services`, `Upstream`).
- The environment variables (`Env`, `apiKey`).

In the proxy, the status route (`/api/runpod/status/:id`) checks only that the RunPod key and
endpoint id are present. It does not reject the placeholder key, as the run route does. The
model follows the code here; see `Proxy.PlaceholderKeyOnlyStopsRun`.

## Model

| member | source | states |
|---|---|---|
| Strings.IndexOfFrom | vite.config.ts:130 | the result is the first index at or after `from` where the pattern occurs; `None` only when it occurs nowhere from there |
| Strings.RemoveFirst | vite.config.ts:130 | `replace(pat, '')` leaves a string without the pattern unchanged; otherwise the input is the result with the pattern put back at the first occurrence's index |
| Strings.RemoveFirstOfPrefix | vite.config.ts:129-130 | when the URL starts with the prefix, the prefix is found at index 0 and `replace` yields exactly the rest |
| Strings.SliceHead | vite.config.ts:38 | `slice(0, n)` is a prefix of length min(n, length) |
| Strings.SliceTail | vite.config.ts:38 | `slice(-n)` is a suffix of length min(n, length) |
| Strings.TrimStart | src/App.tsx:181 | removes only white space from the front, and what is left does not begin with white space |
| Strings.TrimEnd | src/App.tsx:181 | removes only white space from the end, and what is left does not end with white space |
| Strings.Trim | src/App.tsx:181 | `trim()` is a contiguous piece of its input, with only white space cut off before and after it, and it neither starts nor ends with white space |
| Strings.TrimEmptyIffAllWhiteSpace | src/App.tsx:181 | the "Please enter a prompt" guard fires exactly when the prompt is all white space |
| Garments.CatalogIdsAreIndices | src/App.tsx:24-30 | each catalogue entry's id equals its position |
| Garments.CatalogImage | src/App.tsx:116 | `GARMENTS[i]?.image` is an URL exactly for an in-range entry with an image, and then it is that entry's image; `undefined` exactly off the ends |
| Garments.GarmentChoice | src/App.tsx:118-126 | the custom file wins; otherwise a file exists exactly when the selected entry has an image, and it is that entry's own asset |
| Garments.IsImageFile | src/App.tsx:130 | a file is accepted exactly when its MIME type is "image/" followed by anything |
| Garments.HasGarment | src/App.tsx:114-116 | `hasGarment` holds exactly with a custom garment, or with a selected index that is not an in-range entry without an image |
| Garments.HasGarmentIffFile | src/App.tsx:114-126 | in every reachable selection state, `hasGarment` holds exactly when `getGarmentFile` yields a file |
| Garments.OffTheEndIndexDisagrees | src/App.tsx:114-126 | with an index off the end of the catalogue, `hasGarment` holds but no file is produced |
| Proxy.Mask | vite.config.ts:37-38 | an unset key prints as "(not set)"; a set key prints as its first 6 characters, "***", then its last 4 |
| Proxy.MaskNeverLooksUnset | vite.config.ts:37-38 | a set key, however short, is never printed as "(not set)" |
| Proxy.MaskHidesTheMiddle | vite.config.ts:37-38 | two keys of 10 or more characters that share their first 6 and last 4 characters mask identically, to 13 characters |
| Proxy.MaskShowsShortKeyWhole | vite.config.ts:37-38 | a key of at most 6 characters appears whole at the start of its mask |
| Proxy.RouteOf | vite.config.ts:44-157 | exact conditions for each branch: non-`/api/` URLs pass through; upload and run need their exact path with POST; status needs the prefix with GET, and its job id is the rest of the URL |
| Proxy.ImgbbFailureStatus | vite.config.ts:81 | a failed upload answers with an error status: ImgBB's own exactly when it is at least 400, else exactly 400 |
| Proxy.ForwardedStatus | vite.config.ts:120-123 | a RunPod reply keeps status 200 when the upstream status is below 400, and forwards the upstream status exactly when it is at least 400 |
| Proxy.Configured | vite.config.ts:57-133 | only the three upstream routes can be configured; upload exactly with a set, non-placeholder ImgBB key; status exactly with a set RunPod key and endpoint id; run exactly with those and a non-placeholder key |
| Proxy.ImgbbErrorText | vite.config.ts:84 | the upload error is exactly `error.message` when present, else `status_txt` when present, else the serialised body |
| Proxy.OnHandlerError | vite.config.ts:160-167 | a thrown error answers 500 with its message, or exactly "Internal server error" when the message is empty; nothing is sent once headers are out |
| Proxy.Dispatch | vite.config.ts:44-168 | pass-through exactly for non-API URLs; any other unknown API route answers exactly 404 "API route not found"; each unconfigured route answers exactly 500 with its own message and no call; a configured upload posts the ImgBB key to ImgBB, a configured run POSTs to `<endpoint>/run` and a configured status GETs `<endpoint>/status/<job id>`, both with the injected `Bearer` key; an upstream exception answers via the `.catch`; a JSON `null` on the status route fails in the log line with a 500; statuses are 200 or at least 400, error bodies only with error statuses |
| Proxy.ImgbbKeyCheckedFirst | vite.config.ts:55-61 | an upload with a missing or placeholder ImgBB key answers 500 "not configured" and makes no call |
| Proxy.ImgbbReplyMapping | vite.config.ts:67-87 | a configured upload posts the key to ImgBB; success answers only the hosted URL, failure answers ImgBB's error text with its status, or 400 |
| Proxy.PlaceholderKeyOnlyStopsRun | vite.config.ts:92-141 | the placeholder RunPod key makes the run route answer 500, while the status route still calls RunPod with it |
| Proxy.RunpodReplyForwarded | vite.config.ts:117-151 | configured run and status routes forward RunPod's JSON verbatim, with its status only if it is an error; the one exception is a `null` body on the status route, which answers 500 with the TypeError's message |
| Proxy.StatusRouteJobId | vite.config.ts:129-130 | a GET of the status prefix followed by an id is routed to that exact id |
| Proxy.WrongMethodIsNotFound | vite.config.ts:155-157 | a GET on the upload or run path is an unknown route: 404 and no call |
| Job.UploadResult | src/App.tsx:266-277 | the upload yields the URL exactly when the reply has a non-empty `url`; otherwise it throws exactly the reply's `error`, else the serialised reply; a failed request throws its own message |
| Job.DigitChar | src/App.tsx:319 | digit d renders as the character whose code is '0' + d |
| Job.DecimalString | src/App.tsx:319 | the HTTP status renders as decimal digits that spell exactly that number, with no leading zero |
| Job.SubmitResult | src/App.tsx:315-321 | the submission yields the job id exactly when the reply has a non-empty `id`; otherwise it throws exactly the submit-failure message built from the HTTP status and `error`, else `message`, else the serialised reply; a failed request throws its own message |
| Job.SubmitFailureMessage | src/App.tsx:318-320 | the submission error is "[RunPod] Job submit failed (HTTP ", the status in decimal, "): " and the reply's detail, each at its exact offset |
| Job.SubmitFailureNamesStatus | src/App.tsx:319 | the submission error contains the HTTP status in decimal |
| Job.JobFailedMessage | src/App.tsx:344-346 | the `FAILED` message is exactly "[RunPod] Generation failed: " followed by the job's error, else its output, else the serialised "Unknown error" |
| Job.Classify | src/App.tsx:329-347 | a poll continues exactly on a status other than COMPLETED and FAILED; succeeds exactly on COMPLETED with an image, which becomes the result; COMPLETED without an image is the "no image URL" failure, FAILED is the job failure with its message, and an unreachable poll fails with the request's message; never produces the timeout |
| Job.PollFrom | src/App.tsx:326-350 | polling from attempt i makes between i+1 and 60 requests; a timeout means exactly 60; a success carries a non-empty URL |
| Job.Poll | src/App.tsx:328-350 | the polling loop returns exactly the run `PollFrom` specifies |
| Job.PollEndsAtFirstTerminal | src/App.tsx:328-348 | every answer before the last one read was non-terminal; the last one decides the outcome, unless it too was non-terminal, in which case it was the 60th and the outcome is the timeout |
| Job.FirstTerminalDecides | src/App.tsx:328-348 | if the first terminal answer is the k-th, polling stops after exactly k requests with that answer's outcome |
| Job.TimeoutIffNoTerminal | src/App.tsx:326-350 | the job times out exactly when none of the 60 answers is terminal, and then after exactly 60 polls |
| Job.FailedCarriesError | src/App.tsx:343-347 | a FAILED answer with an error ends the job with a message containing that error |
| Job.Submit | src/App.tsx:285-321 | the job is accepted exactly when there is a garment, both uploads return URLs and the submission returns an id, and then it carries the two URLs and that id; each early failure is pinned: no garment, the photo's upload error, the garment's upload error, or the submission error (with the job body sent) |
| Job.Workflow | src/App.tsx:285-350 | at most 60 polls; a job id exactly when at least one poll happened; a success polled at least once and has a non-empty URL |
| Job.SubmitWithoutIdNeverPolls | src/App.tsx:317-321 | a submission without an id fails before any poll, with a message that contains the HTTP status |
| Job.SubmittedJobCarriesUploads | src/App.tsx:300-314 | the submitted job carries the photo and garment URLs, premium user, JPEG, quality 95 and the 96400-second URL expiry |
| Job.SuccessIffCompletedWithImage | src/App.tsx:285-350 | the workflow succeeds with URL u exactly when the job was accepted and some poll among the first 60 answers COMPLETED with image u, after only non-terminal answers |
| Job.ClientRequestsReachTheirRoutes | src/App.tsx:266-331 | the upload, submit and status requests the client makes reach the proxy routes meant for them; the status route receives the same job id |
| Job.CompletedOnFourthPoll | src/App.tsx:328-341 | queued, queued, in progress, then completed with image "X" gives result "X" after exactly 4 polls |
| Job.FailedOnSecondPoll | src/App.tsx:343-347 | queued, then FAILED with "bad image", stops after 2 polls with a message containing "bad image" |
| TryOn.AlertShowsItsMessage | src/App.tsx:226-353 | the start-failure and stream-error alerts contain their message, and so does the generation-failure alert when its message is non-empty; an empty one shows "Generation failed: Error" |
| TryOn.KeyConfigured | src/App.tsx:176-177 | the realtime key is usable exactly when it is defined, non-empty and not the placeholder |
| TryOn.RealtimeModel | src/App.tsx:206 | `lucy_2_rt` exactly with a garment file, `lucy_v2v_720p_rt` exactly without one |
| TryOn.ModelFollowsBadge | src/App.tsx:114-206 | in every reachable selection state, the image-guided model is chosen exactly when `hasGarment` (the "Image Mode" badge) holds |
| TryOn.SessionCalls | src/App.tsx:202-237 | a failed import makes no SDK call; a rejected connect makes exactly the connect call with the chosen model; a successful connect then sets the garment image (when there is one) and the trimmed prompt |
| TryOn.StartFailureAlert | src/App.tsx:238-248 | the "SDK not found" alert is shown exactly when the message mentions "Failed to resolve" or "Cannot find module"; otherwise "Failed to start" with the message |
| TryOn.StartRefusal | src/App.tsx:176-191 | start proceeds exactly with a usable key, a non-blank prompt and a camera; refusal reasons are checked in order: key, then prompt, then camera |
| TryOn.App.constructor | src/App.tsx:33-111 | initial state: live mode, nothing selected, empty prompt, not streaming; the mount effect holds a camera exactly when access is granted |
| TryOn.App.StartCamera | src/App.tsx:73-87 | granted access holds a running stream and marks the camera ready; a denial changes nothing |
| TryOn.App.StopCamera | src/App.tsx:89-96 | no stream, no running tracks, camera not ready |
| TryOn.App.SetPrompt | src/App.tsx:861 | the prompt becomes the typed text |
| TryOn.App.ChooseGarmentFile | src/App.tsx:128-146 | an image file becomes the custom garment and clears the catalogue selection; anything else changes nothing |
| TryOn.App.ClickCard | src/App.tsx:707-713 | a card without an image changes nothing; otherwise the selection toggles on that card and the custom garment is cleared |
| TryOn.App.DropPhoto | src/App.tsx:148-156 | a dropped image file becomes the photo and clears the result; anything else changes nothing |
| TryOn.App.ChoosePhoto | src/App.tsx:629-635 | any chosen file becomes the photo and clears the result, without a type check |
| TryOn.App.StopStream | src/App.tsx:159-173 | a held client is disconnected and dropped, both flags cleared; on a stopped session it changes nothing |
| TryOn.App.StartStream | src/App.tsx:175-251 | a refusal only adds its alert; otherwise the camera is held, the old client disconnected, the session calls made with the trimmed prompt; connecting and a held client exactly on success; a failure alerts |
| TryOn.App.BeginSession | src/App.tsx:185-251 | after the checks: the camera is started if none is held, then the session is opened |
| TryOn.App.OpenSession | src/App.tsx:193-251 | a held client is disconnected first; the SDK calls are those of `SessionCalls` for the current garment; a client is held exactly on success; a failure alerts |
| TryOn.App.OnRemoteStream | src/App.tsx:214-220 | streaming, and no longer connecting |
| TryOn.App.OnStreamError | src/App.tsx:224-228 | a stream-error alert, then the `stopStream` teardown |
| TryOn.App.ClickMode | src/App.tsx:445-462 | the mode is set and streaming stops; leaving live mode stops the camera and disconnects a held client without dropping it (the mode effect at lines 99-111); entering live starts the camera; photo mode holds none |
| TryOn.App.OnBeforeUnload | src/App.tsx:254-261 | the stream is stopped and the camera tracks are stopped |
| TryOn.App.HandleGenerate | src/App.tsx:279-357 | without a photo or a garment nothing changes; otherwise the result is the workflow's URL exactly on success, every failure adds one "Generation failed" alert, and `isGenerating` ends false |

## Left out

- Network, SDK, camera and timers are not executed. Their outcomes are inputs: `Services`,
  `Upstream`, `ConnectResult` and `cameraGranted`. The 3-second and 300-millisecond waits are
  one step each.
- Concurrency and interleavings are not modelled. Each handler runs atomically, so two
  overlapping `handleGenerate` calls, and an asynchronous `startCamera` racing a mode switch,
  are not represented.
- Job.Submit: when both uploads fail, the photo's error is reported. In the code, the
  rejection that settles first wins (`Promise.all`), and that depends on timing.
- Job.Submit: fetching the catalogue asset in `getGarmentFile` is assumed to succeed. A
  failing fetch would throw into the same `catch`.
- TryOn.App.StartStream: a `disconnect` that throws inside `startStream` (outside its `try`)
  is not modelled. The disconnect in `stopStream`, whose error is ignored, is modelled.
- The `request_id` (built from the clock and a random number) is an opaque input.
- `JSON.stringify` of upstream replies is given text, not computed.
- The `$` replacement patterns of `String.prototype.replace` are not modelled. The proxy only
  removes a fixed prefix.
- Proxy.Dispatch: ImgBB's reply is a record. A JSON `null`, or `success` without a `data`
  object, would throw and give a 500 from the `.catch`; the model assumes a successful reply
  carries its URL. On the status route a `null` RunPod body is modelled.
- Proxy.Mask: characters are Unicode scalar values, while JavaScript's `slice` counts UTF-16
  code units. The two agree for the ASCII keys the services issue.
- Not part of this model:
  - the A/B compare slider;
  - `downloadResult`;
  - recording and compositing of the output video;
  - `readBody` / `readBodyBuffer`, base64 conversion and all console logging;
  - the rendering and styling of the page;
  - `vite-env.d.ts` and the rest of the Vite configuration.
