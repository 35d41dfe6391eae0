/**
 * The `App` component's orchestration state and its event handlers. React state and refs are
 * fields; each handler, effect run or SDK callback is one atomic method. Camera access, the
 * realtime SDK and the network are inputs to the handlers; the calls made on the realtime
 * client are recorded in `sdkCalls` and the `alert` messages shown in `alerts`.
 */
module TryOn {
  import opened Wrappers
  import opened Strings
  import opened Garments
  import opened Job

  datatype Mode = Live | Photo

  const DecartPlaceholder := "your_api_key_here"
  const ImageModel := "lucy_2_rt"
  const TextModel := "lucy_v2v_720p_rt"

  /** The `alert` messages the component shows; `AlertText` gives their wording. */
  datatype Alert =
    | MissingKey
    | MissingPrompt
    | NoCamera
    | SdkMissing
    | StartFailed(message: string)
    | StreamError(message: string)
    | GenerationFailed(message: string)

  function AlertText(a: Alert): (t: string) {
    match a
    case MissingKey => "Please set VITE_DECART_API_KEY in your .env file"
    case MissingPrompt => "Please enter a prompt"
    case NoCamera => "Camera not available. Please allow camera access."
    case SdkMissing => "Decart SDK not found. Run: npm install @decartai/sdk"
    case StartFailed(m) => "Failed to start: " + m
    case StreamError(m) => "Stream error: " + m
    // `err?.message || String(err)`: an Error with an empty message prints as "Error".
    case GenerationFailed(m) => "Generation failed: " + (if m != "" then m else "Error")
  }

  /** An alert that reports an error shows that error's message. */
  lemma AlertShowsItsMessage(a: Alert)
    ensures a.StartFailed? || a.StreamError? ==> Contains(AlertText(a), a.message)
    ensures a.GenerationFailed? && a.message != "" ==> Contains(AlertText(a), a.message)
    ensures a.GenerationFailed? && a.message == "" ==> AlertText(a) == "Generation failed: Error"
  {
    match a
    case StartFailed(m) =>
      ContainsInfix("Failed to start: ", m, "");
      assert AlertText(a) == "Failed to start: " + m + "";
    case StreamError(m) =>
      ContainsInfix("Stream error: ", m, "");
      assert AlertText(a) == "Stream error: " + m + "";
    case GenerationFailed(m) =>
      ContainsInfix("Generation failed: ", m, "");
      assert m != "" ==> AlertText(a) == "Generation failed: " + m + "";
    case _ =>
  }

  /** A call made on the realtime client, in the order made. */
  datatype SdkCall = Connect(model: string) | SetImage(garment: GarmentRef) | SetPrompt(text: string) | Disconnect

  /**
   * How the `try` of `startStream` goes: the SDK import fails, `realtime.connect` rejects, or a
   * client comes back. The message is the error's `message`, or the error as a string.
   */
  datatype ConnectResult = ImportFailed(message: string) | ConnectFailed(message: string) | Connected

  /** The realtime key is usable: defined, non-empty and not the placeholder. */
  predicate KeyConfigured(key: Option<string>): (ok: bool)
    ensures ok ==> key.Some? && key.value != "" && key.value != DecartPlaceholder
    ensures key.Some? && key.value != "" && key.value != DecartPlaceholder ==> ok
  {
    IsSet(key) && key.value != DecartPlaceholder
  }

  /** The realtime model: image-guided with a garment file, text-only without. */
  function RealtimeModel(g: Option<GarmentRef>): (m: string)
    ensures m == ImageModel <==> g.Some?
    ensures m == TextModel <==> g.None?
  {
    if g.Some? then ImageModel else TextModel
  }

  /** With every reachable selection, the model chosen agrees with the Image/Text Mode badge. */
  lemma ModelFollowsBadge(custom: Option<Upload>, selected: Option<int>)
    requires SelectionValid(custom, selected)
    ensures RealtimeModel(GarmentChoice(custom, selected)) == ImageModel <==> HasGarment(custom, selected)
  {
    HasGarmentIffFile(custom, selected);
  }

  /**
   * The SDK calls of one connect attempt: none if the import failed, the connect alone if it
   * was rejected, else connect, the garment image if there is one, and the trimmed prompt.
   */
  function SessionCalls(connect: ConnectResult, g: Option<GarmentRef>, text: string): (calls: seq<SdkCall>)
    ensures connect.ImportFailed? <==> calls == []
    ensures connect.ConnectFailed? ==> calls == [Connect(RealtimeModel(g))]
    ensures calls != [] ==> calls[0] == Connect(RealtimeModel(g))
    ensures connect.Connected? ==> calls[|calls| - 1] == SetPrompt(text)
    ensures connect.Connected? ==> |calls| == (if g.Some? then 3 else 2)
    ensures connect.Connected? && g.Some? ==> calls[1] == SetImage(g.value)
  {
    match connect
    case ImportFailed(_) => []
    case ConnectFailed(_) => [Connect(RealtimeModel(g))]
    case Connected =>
      [Connect(RealtimeModel(g))] + (if g.Some? then [SetImage(g.value)] else []) + [SetPrompt(text)]
  }

  /**
   * The alert after a failed start: a missing SDK module gets its own advice, any other failure
   * is shown with its message.
   */
  function StartFailureAlert(message: string): (a: Alert)
    ensures a == SdkMissing <==> Contains(message, "Failed to resolve") || Contains(message, "Cannot find module")
    ensures a != SdkMissing ==> a == StartFailed(message)
  {
    if Contains(message, "Failed to resolve") || Contains(message, "Cannot find module") then SdkMissing
    else StartFailed(message)
  }

  /**
   * Why `startStream` gives up before connecting, as the alert it shows, in the order it
   * checks: the realtime key, then the trimmed prompt, then the camera (started on demand).
   */
  function StartRefusal(apiKey: Option<string>, prompt: string, hasLocalStream: bool, cameraGranted: bool)
    : (r: Option<Alert>)
    ensures r.None? <==> KeyConfigured(apiKey) && Trim(prompt) != "" && (hasLocalStream || cameraGranted)
    ensures !KeyConfigured(apiKey) <==> r == Some(MissingKey)
    ensures r == Some(MissingPrompt) <==> KeyConfigured(apiKey) && AllWhiteSpace(prompt)
    ensures r == Some(NoCamera) <==>
      KeyConfigured(apiKey) && Trim(prompt) != "" && !hasLocalStream && !cameraGranted
  {
    TrimEmptyIffAllWhiteSpace(prompt);
    if !KeyConfigured(apiKey) then Some(MissingKey)
    else if Trim(prompt) == "" then Some(MissingPrompt)
    else if !hasLocalStream && !cameraGranted then Some(NoCamera)
    else None
  }

  /** The live-path part of the state, compared as one value by the contracts below. */
  datatype LiveView = LiveView(isStreaming: bool, isConnecting: bool, cameraReady: bool, hasClient: bool,
                               hasLocalStream: bool, tracksLive: bool, sdkCalls: seq<SdkCall>)

  class App {
    var mode: Mode
    var selectedGarment: Option<int>
    var customGarment: Option<Upload>
    var prompt: string
    var isStreaming: bool
    var isConnecting: bool
    var cameraReady: bool
    var photoUpload: Option<Upload>
    var photoResult: Option<string>
    var isGenerating: bool
    /** `realtimeClientRef.current` is a client. */
    var hasClient: bool
    /** `localStreamRef.current` is a camera stream. */
    var hasLocalStream: bool
    /** The held camera stream's tracks are still running. */
    var tracksLive: bool
    var sdkCalls: seq<SdkCall>
    var alerts: seq<Alert>

    /**
     * The states the handlers keep: an exclusive garment selection, the camera flag mirroring
     * the stream ref, no camera held in photo mode, and no generation in progress between events.
     */
    ghost predicate Valid()
      reads this`customGarment, this`selectedGarment, this`cameraReady, this`hasLocalStream,
            this`tracksLive, this`mode, this`isGenerating
    {
      && SelectionOk()
      && cameraReady == hasLocalStream
      && (tracksLive ==> hasLocalStream)
      && (mode == Photo ==> !hasLocalStream)
      && !isGenerating
    }

    /** The garment selection alone, so that handlers which leave it alone keep it by framing. */
    ghost predicate SelectionOk()
      reads this`customGarment, this`selectedGarment
    {
      SelectionValid(customGarment, selectedGarment)
    }

    function LiveState(): LiveView
      reads this`isStreaming, this`isConnecting, this`cameraReady, this`hasClient,
            this`hasLocalStream, this`tracksLive, this`sdkCalls
    {
      LiveView(isStreaming, isConnecting, cameraReady, hasClient, hasLocalStream, tracksLive, sdkCalls)
    }

    function HasGarmentNow(): bool
      reads this`customGarment, this`selectedGarment
    {
      HasGarment(customGarment, selectedGarment)
    }

    /** The first render, in live mode, followed by the mount effect's `startCamera`. */
    constructor (cameraGranted: bool)
      ensures Valid()
      ensures mode == Live && selectedGarment.None? && customGarment.None? && prompt == ""
      ensures photoUpload.None? && photoResult.None? && sdkCalls == [] && alerts == []
      ensures !isStreaming && !isConnecting && !hasClient
      ensures hasLocalStream == cameraGranted && tracksLive == cameraGranted
    {
      mode := Live;
      selectedGarment, customGarment := None, None;
      prompt := "";
      isStreaming, isConnecting, cameraReady := false, false, false;
      photoUpload, photoResult, isGenerating := None, None, false;
      hasClient, hasLocalStream, tracksLive := false, false, false;
      sdkCalls, alerts := [], [];
      new;
      StartCamera(cameraGranted);
    }

    /** `startCamera`: on success hold the stream and mark the camera ready; a denial changes nothing. */
    method StartCamera(granted: bool)
      requires Valid() && mode == Live
      modifies this`hasLocalStream, this`tracksLive, this`cameraReady
      ensures Valid()
      ensures granted ==> hasLocalStream && tracksLive && cameraReady
      ensures !granted ==> unchanged(this)
    {
      if granted {
        hasLocalStream, tracksLive, cameraReady := true, true, true;
      }
    }

    /** `stopCamera`: stop the tracks, drop the stream, clear the flag; safe when already stopped. */
    method StopCamera()
      requires Valid()
      modifies this`hasLocalStream, this`tracksLive, this`cameraReady
      ensures Valid()
      ensures !hasLocalStream && !tracksLive && !cameraReady
    {
      hasLocalStream, tracksLive, cameraReady := false, false, false;
    }

    /** The prompt input's `onChange`. */
    method SetPrompt(text: string)
      requires Valid()
      modifies this`prompt
      ensures Valid() && prompt == text
    {
      prompt := text;
    }

    /**
     * `handleGarmentUpload` and `handleGarmentDrop`: an image file becomes the custom garment and
     * clears the catalogue selection; no file, or a non-image one, changes nothing.
     */
    method ChooseGarmentFile(file: Option<File>, objectUrl: string)
      requires Valid()
      modifies this`customGarment, this`selectedGarment
      ensures Valid()
      ensures file.Some? && IsImageFile(file.value) ==>
        customGarment == Some(Upload(objectUrl, file.value)) && selectedGarment.None?
      ensures !(file.Some? && IsImageFile(file.value)) ==> unchanged(this)
    {
      if file.Some? && IsImageFile(file.value) {
        customGarment := Some(Upload(objectUrl, file.value));
        selectedGarment := None;
      }
    }

    /**
     * A catalogue card's `onClick`: a card without an image does nothing; otherwise clicking
     * the selected card deselects it, clicking another selects it, and the custom garment goes.
     */
    method ClickCard(i: nat)
      requires Valid() && i < |Catalog|
      modifies this`customGarment, this`selectedGarment
      ensures Valid()
      ensures Catalog[i].image.None? ==> unchanged(this)
      ensures Catalog[i].image.Some? ==>
        && customGarment.None?
        && selectedGarment == (if old(selectedGarment) == Some(i) then None else Some(i))
    {
      CatalogIdsAreIndices();
      var garment := Catalog[i];
      if garment.image.None? {
        return;
      }
      selectedGarment := if selectedGarment == Some(garment.id) then None else Some(garment.id);
      customGarment := None;
    }

    /** `handlePhotoDrop`: an image file becomes the photo and clears the previous result. */
    method DropPhoto(file: Option<File>, objectUrl: string)
      requires Valid()
      modifies this`photoUpload, this`photoResult
      ensures Valid()
      ensures file.Some? && IsImageFile(file.value) ==>
        photoUpload == Some(Upload(objectUrl, file.value)) && photoResult.None?
      ensures !(file.Some? && IsImageFile(file.value)) ==> unchanged(this)
    {
      if file.Some? && IsImageFile(file.value) {
        photoUpload, photoResult := Some(Upload(objectUrl, file.value)), None;
      }
    }

    /** The photo input's `onChange`: any chosen file becomes the photo; its type is not checked. */
    method ChoosePhoto(file: Option<File>, objectUrl: string)
      requires Valid()
      modifies this`photoUpload, this`photoResult
      ensures Valid()
      ensures file.Some? ==> photoUpload == Some(Upload(objectUrl, file.value)) && photoResult.None?
      ensures file.None? ==> unchanged(this)
    {
      if file.Some? {
        photoUpload, photoResult := Some(Upload(objectUrl, file.value)), None;
      }
    }

    /**
     * `stopStream`: disconnect and drop a held client (a throwing disconnect is ignored) and
     * clear both flags. Calling it on a stopped controller changes nothing.
     */
    method StopStream()
      requires Valid()
      modifies this`hasClient, this`sdkCalls, this`isStreaming, this`isConnecting
      ensures Valid()
      ensures !isStreaming && !isConnecting && !hasClient
      ensures sdkCalls == old(sdkCalls) + (if old(hasClient) then [Disconnect] else [])
      ensures old(!hasClient && !isStreaming && !isConnecting) ==> unchanged(this)
    {
      if hasClient {
        sdkCalls := sdkCalls + [Disconnect];
        hasClient := false;
      }
      isStreaming, isConnecting := false, false;
    }

    /**
     * `startStream` (reachable from the live-mode prompt bar only). A refused start only adds its
     * alert (a camera that fails to start changes nothing). Otherwise it starts the camera if
     * none is held and opens the session with the trimmed prompt; `isStreaming` waits for
     * `OnRemoteStream`.
     */
    method StartStream(apiKey: Option<string>, cameraGranted: bool, connect: ConnectResult)
      requires Valid() && mode == Live
      modifies this`isConnecting, this`cameraReady, this`hasClient, this`hasLocalStream,
               this`tracksLive, this`sdkCalls, this`alerts
      ensures Valid()
      ensures var refusal := old(StartRefusal(apiKey, prompt, hasLocalStream, cameraGranted));
        refusal.Some? ==> LiveState() == old(LiveState()) && alerts == old(alerts) + [refusal.value]
      ensures old(StartRefusal(apiKey, prompt, hasLocalStream, cameraGranted)).None? ==>
        && hasLocalStream && cameraReady && tracksLive == (old(tracksLive) || !old(hasLocalStream))
        && isConnecting == connect.Connected?
        && hasClient == connect.Connected?
        && sdkCalls == old(sdkCalls) + (if old(hasClient) then [Disconnect] else [])
                       + SessionCalls(connect, old(GarmentChoice(customGarment, selectedGarment)), Trim(old(prompt)))
        && alerts == old(alerts) + (if connect.Connected? then [] else [StartFailureAlert(connect.message)])
    {
      var refusal := StartRefusal(apiKey, prompt, hasLocalStream, cameraGranted);
      if refusal.Some? {
        alerts := alerts + [refusal.value];
      } else {
        BeginSession(cameraGranted, connect, Trim(prompt));
      }
    }

    /** A start that passed its checks: start the camera if none is held, then open the session with `text`. */
    method BeginSession(cameraGranted: bool, connect: ConnectResult, text: string)
      requires Valid() && mode == Live && (hasLocalStream || cameraGranted)
      modifies this`isConnecting, this`cameraReady, this`hasClient, this`hasLocalStream,
               this`tracksLive, this`sdkCalls, this`alerts
      ensures Valid()
      ensures hasLocalStream && cameraReady && tracksLive == (old(tracksLive) || !old(hasLocalStream))
      ensures isConnecting == connect.Connected? && hasClient == connect.Connected?
      ensures sdkCalls == old(sdkCalls) + (if old(hasClient) then [Disconnect] else [])
                          + SessionCalls(connect, old(GarmentChoice(customGarment, selectedGarment)), text)
      ensures alerts == old(alerts) + (if connect.Connected? then [] else [StartFailureAlert(connect.message)])
    {
      if !hasLocalStream {
        StartCamera(cameraGranted);
      }
      assert sdkCalls == old(sdkCalls) && hasClient == old(hasClient) && alerts == old(alerts);
      OpenSession(connect, text);
    }

    /**
     * The rest of `startStream` once the checks pass: set `isConnecting`, disconnect and drop a
     * held client (then wait 300 ms), connect with the model the garment file calls for, and keep
     * the client; a failure alerts and clears `isConnecting`.
     */
    method OpenSession(connect: ConnectResult, text: string)
      requires Valid()
      modifies this`isConnecting, this`hasClient, this`sdkCalls, this`alerts
      ensures Valid()
      ensures isConnecting == connect.Connected? && hasClient == connect.Connected?
      ensures sdkCalls == old(sdkCalls) + (if old(hasClient) then [Disconnect] else [])
                          + SessionCalls(connect, old(GarmentChoice(customGarment, selectedGarment)), text)
      ensures alerts == old(alerts) + (if connect.Connected? then [] else [StartFailureAlert(connect.message)])
    {
      isConnecting := true;
      var held := if hasClient then [Disconnect] else [];
      hasClient := false;
      var garment := GarmentChoice(customGarment, selectedGarment);
      sdkCalls := sdkCalls + held + SessionCalls(connect, garment, text);
      if connect.Connected? {
        hasClient := true;
      } else {
        alerts := alerts + [StartFailureAlert(connect.message)];
        isConnecting := false;
      }
    }

    /** The `onRemoteStream` callback: the edited stream is showing. */
    method OnRemoteStream()
      requires Valid()
      modifies this`isStreaming, this`isConnecting
      ensures Valid() && isStreaming && !isConnecting
    {
      isStreaming, isConnecting := true, false;
    }

    /** The client's `error` event: alert, then the same teardown as `stopStream`. */
    method OnStreamError(message: string)
      requires Valid()
      modifies this`hasClient, this`sdkCalls, this`isStreaming, this`isConnecting, this`alerts
      ensures Valid()
      ensures !isStreaming && !isConnecting && !hasClient
      ensures sdkCalls == old(sdkCalls) + (if old(hasClient) then [Disconnect] else [])
      ensures alerts == old(alerts) + [StreamError(message)]
    {
      alerts := alerts + [StreamError(message)];
      StopStream();
    }

    /**
     * A mode button: set the mode and stop a streaming session; when the mode changes, the
     * camera effect re-runs. Leaving live mode stops the camera and disconnects a held client
     * without dropping it; entering live mode starts the camera; entering photo mode stops it.
     */
    method ClickMode(m: Mode, cameraGranted: bool)
      requires Valid()
      modifies this`mode, this`hasClient, this`sdkCalls, this`isStreaming, this`isConnecting,
               this`hasLocalStream, this`tracksLive, this`cameraReady
      ensures Valid()
      ensures mode == m && !isStreaming
      ensures isConnecting == (old(isConnecting) && !old(isStreaming))
      ensures hasClient == (old(hasClient) && !old(isStreaming))
      ensures sdkCalls == old(sdkCalls)
                          + (if old(isStreaming) && old(hasClient) then [Disconnect] else [])
                          + (if m != old(mode) && old(mode) == Live && old(hasClient) && !old(isStreaming)
                             then [Disconnect] else [])
      ensures m == Photo ==> !hasLocalStream && !tracksLive && !cameraReady
      ensures m == Live && old(mode) == Photo ==> hasLocalStream == cameraGranted && tracksLive == cameraGranted
      ensures m == old(mode) ==>
        hasLocalStream == old(hasLocalStream) && tracksLive == old(tracksLive) && cameraReady == old(cameraReady)
    {
      var previous := mode;
      if isStreaming {
        StopStream();
      }
      if m != previous && previous == Live {
        StopCamera();
        if hasClient {
          sdkCalls := sdkCalls + [Disconnect];
        }
      }
      mode := m;
      if m != previous {
        if m == Live {
          StartCamera(cameraGranted);
        } else {
          StopCamera();
        }
      }
    }

    /** The `beforeunload` cleanup: stop the stream, then stop the camera's tracks. */
    method OnBeforeUnload()
      requires Valid()
      modifies this`hasClient, this`sdkCalls, this`isStreaming, this`isConnecting, this`tracksLive
      ensures Valid()
      ensures !isStreaming && !isConnecting && !hasClient && !tracksLive
      ensures sdkCalls == old(sdkCalls) + (if old(hasClient) then [Disconnect] else [])
    {
      StopStream();
      tracksLive := false;
    }

    /**
     * `handleGenerate`: without a photo or a garment nothing happens. Otherwise the previous
     * result is cleared and the job runs; the result is set only on success, every failure is
     * alerted, and `isGenerating` is false again at the end.
     */
    method HandleGenerate(s: Services)
      requires Valid()
      modifies this`photoResult, this`isGenerating, this`alerts
      ensures Valid()
      ensures !(old(photoUpload).Some? && old(HasGarmentNow())) ==> unchanged(this)
      ensures old(photoUpload).Some? && old(HasGarmentNow()) ==>
        var run := Workflow(GarmentChoice(customGarment, selectedGarment), s);
        && !isGenerating
        && photoResult == (if run.outcome.Succeeded? then Some(run.outcome.url) else None)
        && alerts == old(alerts) + (if run.outcome.Succeeded? then [] else [GenerationFailed(run.outcome.message)])
    {
      if photoUpload.None? || !HasGarment(customGarment, selectedGarment) {
        return;
      }
      isGenerating := true;
      photoResult := None;
      var outcome: Outcome;
      match Submit(GarmentChoice(customGarment, selectedGarment), s) {
        case Err(early) =>
          outcome := early.outcome;
        case Ok(_) =>
          var p := Poll(s.poll);
          outcome := p.outcome;
      }
      if outcome.Succeeded? {
        photoResult := Some(outcome.url);
      } else {
        alerts := alerts + [GenerationFailed(outcome.message)];
      }
      isGenerating := false;
    }
  }
}
