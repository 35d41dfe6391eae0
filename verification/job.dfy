/**
 * The photo-mode generation job run by `handleGenerate`: upload the photo and the garment to
 * ImgBB through the proxy, submit a RunPod job, then poll its status every 3 seconds, at most
 * 60 times, until it completes, fails or the attempts run out. Every answer from the network is
 * an input; the 3-second wait before each poll is one loop step.
 */
module Job {
  import opened Wrappers
  import opened Strings
  import opened Garments
  import Proxy

  const MaxAttempts := 60

  const NoGarmentMessage := "No garment selected"
  const NoImageMessage := "[RunPod] Completed but no image URL in response"
  const TimeoutMessage := "Generation timed out (3 min). Try again."
  const UnknownErrorJson := "\"Unknown error\""

  /**
   * What `uploadToImgBB` sees: the proxy's JSON (`url` and `error`, "" where absent, and the
   * body serialised), or an exception from `fetch` or the JSON parse.
   */
  datatype HostReply = HostReply(url: string, error: string, json: string) | HostUnreachable(message: string)

  /** `uploadToImgBB`: the hosted URL, or the message of the error it throws. */
  function UploadResult(r: HostReply): (res: Result<string, string>)
    ensures res.Ok? <==> r.HostReply? && r.url != ""
    ensures res.Ok? ==> res.value == r.url
    ensures res.Err? && r.HostReply? ==> res.error != "" || (r.error == "" && r.json == "")
    ensures r.HostReply? && r.url == "" ==> res == Err(if r.error != "" then r.error else r.json)
    ensures r.HostUnreachable? ==> res == Err(r.message)
  {
    match r
    case HostUnreachable(msg) => Err(msg)
    case HostReply(url, error, json) =>
      if url != "" then Ok(url) else Err(if error != "" then error else json)
  }

  /** The body of the RunPod submission: the two hosted URLs and the fixed job parameters. */
  datatype JobInput = JobInput(requestId: string, modelImg: string, clothImg: string,
                               premiumUser: bool, outputFormat: string, outputQuality: nat,
                               urlExpiration: nat)

  function MakeJobInput(requestId: string, modelUrl: string, garmentUrl: string): (j: JobInput) {
    JobInput(requestId, modelUrl, garmentUrl, true, "jpg", 95, 96400)
  }

  /**
   * The submission's answer: HTTP status, `id`, `error`, `message` ("" where absent or falsy)
   * and the serialised body; or an exception from `fetch` or the JSON parse.
   */
  datatype SubmitReply = SubmitReply(httpStatus: nat, id: string, error: string, message: string, json: string)
                       | SubmitUnreachable(message: string)

  function DigitChar(d: nat): (c: char)
    requires d < 10
    ensures '0' <= c <= '9'
    ensures c as int - '0' as int == d
  {
    ['0', '1', '2', '3', '4', '5', '6', '7', '8', '9'][d]
  }

  /** The number a string of decimal digits spells, most significant digit first. */
  function DigitsValue(s: string): int {
    if s == [] then 0 else DigitsValue(s[..|s| - 1]) * 10 + (s[|s| - 1] as int - '0' as int)
  }

  /** The decimal digits of `n`, as a template literal renders an integer. */
  function DecimalString(n: nat): (r: string)
    ensures r != []
    ensures forall i :: 0 <= i < |r| ==> '0' <= r[i] <= '9'
    ensures DigitsValue(r) == n
    ensures n >= 10 ==> r[0] != '0'
  {
    if n < 10 then [DigitChar(n)]
    else
      var r := DecimalString(n / 10) + [DigitChar(n % 10)];
      assert r[..|r| - 1] == DecimalString(n / 10);
      r
  }

  const SubmitFailedPrefix := "[RunPod] Job submit failed (HTTP "

  /** The submission error: the HTTP status in decimal, then the reply's own detail. */
  function SubmitFailureMessage(status: nat, detail: string): (m: string)
    ensures StartsWith(m, SubmitFailedPrefix) && EndsWith(m, detail)
    ensures |m| == |SubmitFailedPrefix| + |DecimalString(status)| + 3 + |detail|
    ensures m[|SubmitFailedPrefix|..|SubmitFailedPrefix| + |DecimalString(status)|] == DecimalString(status)
    ensures m[|SubmitFailedPrefix| + |DecimalString(status)|..|SubmitFailedPrefix| + |DecimalString(status)| + 3] == "): "
  {
    SubmitFailedPrefix + DecimalString(status) + "): " + detail
  }

  /** The job id, or the message of the error thrown when the reply has none. */
  function SubmitResult(r: SubmitReply): (res: Result<string, string>)
    ensures res.Ok? <==> r.SubmitReply? && r.id != ""
    ensures res.Ok? ==> res.value == r.id
    ensures r.SubmitUnreachable? ==> res == Err(r.message)
    ensures r.SubmitReply? && r.id == "" ==>
      res == Err(SubmitFailureMessage(r.httpStatus,
                                      if r.error != "" then r.error else if r.message != "" then r.message else r.json))
  {
    match r
    case SubmitUnreachable(msg) => Err(msg)
    case SubmitReply(status, id, error, message, json) =>
      if id != "" then Ok(id)
      else Err(SubmitFailureMessage(status, if error != "" then error else if message != "" then message else json))
  }

  /**
   * One status poll's answer: `status`, `output[0].image`, and `error` and `output` serialised
   * as JSON ("" where absent or falsy); or an exception from `fetch` or the JSON parse.
   */
  datatype StatusReply = StatusReply(status: string, image: string, error: string, output: string)
                       | PollUnreachable(message: string)

  datatype FailureKind = NoGarment | UploadFailed | SubmitFailed | NoImageUrl | JobFailed | PollFailed | TimedOut

  datatype Outcome = Succeeded(url: string) | Failed(kind: FailureKind, message: string)

  const Timeout := Failed(TimedOut, TimeoutMessage)

  datatype Step = Continue | Stop(outcome: Outcome)

  const JobFailedPrefix := "[RunPod] Generation failed: "

  /** The `FAILED` error: the job's serialised `error`, else its `output`, else "Unknown error". */
  function JobFailedMessage(r: StatusReply): (m: string)
    requires r.StatusReply?
    ensures StartsWith(m, JobFailedPrefix)
    ensures r.error != "" ==> EndsWith(m, r.error) && |m| == |JobFailedPrefix| + |r.error|
    ensures r.error == "" && r.output != "" ==> EndsWith(m, r.output) && |m| == |JobFailedPrefix| + |r.output|
    ensures r.error == "" && r.output == "" ==>
      EndsWith(m, UnknownErrorJson) && |m| == |JobFailedPrefix| + |UnknownErrorJson|
  {
    JobFailedPrefix + (if r.error != "" then r.error else if r.output != "" then r.output else UnknownErrorJson)
  }

  /** What one poll decides: `COMPLETED` and `FAILED` end the job, any other status polls again. */
  function Classify(r: StatusReply): (s: Step)
    ensures s.Continue? <==> r.StatusReply? && r.status != "COMPLETED" && r.status != "FAILED"
    ensures s.Stop? && s.outcome.Succeeded? <==> r.StatusReply? && r.status == "COMPLETED" && r.image != ""
    ensures s.Stop? && s.outcome.Succeeded? ==> s.outcome.url == r.image
    ensures s.Stop? && s.outcome.Failed? ==> s.outcome.kind != TimedOut
    ensures r.StatusReply? && r.status == "COMPLETED" && r.image == "" ==> s == Stop(Failed(NoImageUrl, NoImageMessage))
    ensures r.StatusReply? && r.status == "FAILED" ==> s == Stop(Failed(JobFailed, JobFailedMessage(r)))
    ensures r.PollUnreachable? ==> s == Stop(Failed(PollFailed, r.message))
  {
    match r
    case PollUnreachable(msg) => Stop(Failed(PollFailed, msg))
    case StatusReply(status, image, _, _) =>
      if status == "COMPLETED" then
        if image != "" then Stop(Succeeded(image)) else Stop(Failed(NoImageUrl, NoImageMessage))
      else if status == "FAILED" then Stop(Failed(JobFailed, JobFailedMessage(r)))
      else Continue
  }

  /** How a polling run ended, and how many status requests it made. */
  datatype PollRun = PollRun(outcome: Outcome, polls: nat)

  /** The polling loop from attempt `i` on; `poll(j)` is the answer to the (j+1)-th request. */
  function PollFrom(poll: nat -> StatusReply, i: nat): (r: PollRun)
    requires i <= MaxAttempts
    decreases MaxAttempts - i
    ensures i <= r.polls <= MaxAttempts
    ensures i < MaxAttempts ==> i < r.polls
    ensures r.outcome == Timeout ==> r.polls == MaxAttempts
    ensures r.outcome.Succeeded? ==> r.outcome.url != ""
  {
    if i == MaxAttempts then PollRun(Timeout, MaxAttempts)
    else
      match Classify(poll(i))
      case Stop(o) => PollRun(o, i + 1)
      case Continue => PollFrom(poll, i + 1)
  }

  /** The `for` loop of `handleGenerate`, as a loop over the poll answers. */
  method Poll(poll: nat -> StatusReply) returns (r: PollRun)
    ensures r == PollFrom(poll, 0)
  {
    var i := 0;
    while i < MaxAttempts
      invariant 0 <= i <= MaxAttempts
      invariant PollFrom(poll, i) == PollFrom(poll, 0)
    {
      var step := Classify(poll(i));
      if step.Stop? {
        return PollRun(step.outcome, i + 1);
      }
      i := i + 1;
    }
    return PollRun(Timeout, MaxAttempts);
  }

  /**
   * Polling stops at the first terminal answer: every earlier answer was non-terminal, and the
   * last answer read either decides the outcome or, non-terminal itself, was the 60th.
   */
  lemma {:induction false} PollEndsAtFirstTerminal(poll: nat -> StatusReply, i: nat)
    requires i < MaxAttempts
    ensures var r := PollFrom(poll, i);
      && (forall j :: i <= j < r.polls - 1 ==> Classify(poll(j)).Continue?)
      && (Classify(poll(r.polls - 1)).Stop? ==> r.outcome == Classify(poll(r.polls - 1)).outcome)
      && (Classify(poll(r.polls - 1)).Continue? ==> r.polls == MaxAttempts && r.outcome == Timeout)
    decreases MaxAttempts - i
  {
    if Classify(poll(i)).Continue? && i + 1 < MaxAttempts {
      PollEndsAtFirstTerminal(poll, i + 1);
    }
  }

  /** The first terminal answer, at poll k+1, decides the outcome after exactly k+1 polls. */
  lemma {:induction false} FirstTerminalDecides(poll: nat -> StatusReply, i: nat, k: nat)
    requires i <= k < MaxAttempts
    requires forall j :: i <= j < k ==> Classify(poll(j)).Continue?
    requires Classify(poll(k)).Stop?
    ensures PollFrom(poll, i) == PollRun(Classify(poll(k)).outcome, k + 1)
    decreases k - i
  {
    if i < k {
      FirstTerminalDecides(poll, i + 1, k);
    }
  }

  /** Sixty non-terminal answers, and only those, end in the timeout, after the 60th poll. */
  lemma {:induction false} TimeoutIffNoTerminal(poll: nat -> StatusReply)
    ensures PollFrom(poll, 0).outcome == Timeout
        <==> forall j :: 0 <= j < MaxAttempts ==> Classify(poll(j)).Continue?
    ensures PollFrom(poll, 0).outcome == Timeout ==> PollFrom(poll, 0).polls == MaxAttempts
  {
    PollEndsAtFirstTerminal(poll, 0);
    var r := PollFrom(poll, 0);
    if forall j :: 0 <= j < MaxAttempts ==> Classify(poll(j)).Continue? {
      assert Classify(poll(r.polls - 1)).Continue?;
    }
  }

  /** A `FAILED` answer's message carries the job's own error payload. */
  lemma FailedCarriesError(status: string, image: string, error: string, output: string)
    requires status == "FAILED" && error != ""
    ensures var s := Classify(StatusReply(status, image, error, output));
      s.Stop? && s.outcome.Failed? && s.outcome.kind == JobFailed && Contains(s.outcome.message, error)
  {
    ContainsInfix(JobFailedPrefix, error, "");
    assert JobFailedPrefix + error + "" == JobFailedPrefix + error;
  }

  /** Every answer from the network, in the order `handleGenerate` consumes them. */
  datatype Services = Services(photoUpload: HostReply, garmentUpload: HostReply, requestId: string,
                               submit: SubmitReply, poll: nat -> StatusReply)

  /** A whole generation: what was submitted, the job id, the polls made and the outcome. */
  datatype JobRun = JobRun(submitted: Option<JobInput>, jobId: Option<string>, polls: nat, outcome: Outcome)

  /** An accepted submission: the job body sent and the id RunPod gave it. */
  datatype Submitted = Submitted(input: JobInput, jobId: string)

  /**
   * The steps of `handleGenerate`'s `try` before polling: resolve the garment file, upload both
   * images, submit the job. An early failure is a finished run. When both uploads fail, the
   * photo's error is the one reported.
   */
  function Submit(garment: Option<GarmentRef>, s: Services): (r: Result<Submitted, JobRun>)
    ensures r.Ok? <==> garment.Some? && UploadResult(s.photoUpload).Ok?
                       && UploadResult(s.garmentUpload).Ok? && SubmitResult(s.submit).Ok?
    ensures r.Err? ==> r.error.polls == 0 && r.error.jobId.None? && r.error.outcome.Failed?
    ensures r.Ok? ==>
      r.value == Submitted(MakeJobInput(s.requestId, s.photoUpload.url, s.garmentUpload.url), s.submit.id)
    ensures garment.None? ==> r == Err(JobRun(None, None, 0, Failed(NoGarment, NoGarmentMessage)))
    ensures garment.Some? && UploadResult(s.photoUpload).Err? ==>
      r == Err(JobRun(None, None, 0, Failed(UploadFailed, UploadResult(s.photoUpload).error)))
    ensures garment.Some? && UploadResult(s.photoUpload).Ok? && UploadResult(s.garmentUpload).Err? ==>
      r == Err(JobRun(None, None, 0, Failed(UploadFailed, UploadResult(s.garmentUpload).error)))
    ensures (&& garment.Some? && UploadResult(s.photoUpload).Ok? && UploadResult(s.garmentUpload).Ok?
             && SubmitResult(s.submit).Err?) ==>
      r == Err(JobRun(Some(MakeJobInput(s.requestId, s.photoUpload.url, s.garmentUpload.url)), None, 0,
                      Failed(SubmitFailed, SubmitResult(s.submit).error)))
  {
    if garment.None? then Err(JobRun(None, None, 0, Failed(NoGarment, NoGarmentMessage)))
    else
      match (UploadResult(s.photoUpload), UploadResult(s.garmentUpload))
      case (Err(e), _) => Err(JobRun(None, None, 0, Failed(UploadFailed, e)))
      case (Ok(_), Err(e)) => Err(JobRun(None, None, 0, Failed(UploadFailed, e)))
      case (Ok(modelUrl), Ok(garmentUrl)) =>
        var input := MakeJobInput(s.requestId, modelUrl, garmentUrl);
        match SubmitResult(s.submit)
        case Err(e) => Err(JobRun(Some(input), None, 0, Failed(SubmitFailed, e)))
        case Ok(id) => Ok(Submitted(input, id))
  }

  /** The whole `try` of `handleGenerate`, once its guard has passed. */
  function Workflow(garment: Option<GarmentRef>, s: Services): (run: JobRun)
    ensures run.polls <= MaxAttempts
    ensures run.jobId.None? <==> run.polls == 0
    ensures run.jobId.Some? ==> run.submitted.Some?
    ensures run.outcome.Succeeded? ==> run.polls > 0 && run.outcome.url != ""
  {
    match Submit(garment, s)
    case Err(early) => early
    case Ok(sub) =>
      var p := PollFrom(s.poll, 0);
      JobRun(Some(sub.input), Some(sub.jobId), p.polls, p.outcome)
  }

  /** A submission without an `id` fails, naming the HTTP status, before any status poll. */
  lemma SubmitWithoutIdNeverPolls(garment: Option<GarmentRef>, s: Services)
    requires garment.Some?
    requires UploadResult(s.photoUpload).Ok? && UploadResult(s.garmentUpload).Ok?
    requires s.submit.SubmitReply? && s.submit.id == ""
    ensures var run := Workflow(garment, s);
      && run.polls == 0 && run.jobId.None?
      && run.outcome.Failed? && run.outcome.kind == SubmitFailed
      && Contains(run.outcome.message, DecimalString(s.submit.httpStatus))
  {
    var r := s.submit;
    var detail := if r.error != "" then r.error else if r.message != "" then r.message else r.json;
    var m := SubmitFailureMessage(r.httpStatus, detail);
    assert SubmitResult(r) == Err(m);
    SubmitFailureNamesStatus(r.httpStatus, detail);
  }

  /** The submission error contains the HTTP status in decimal. */
  lemma SubmitFailureNamesStatus(status: nat, detail: string)
    ensures Contains(SubmitFailureMessage(status, detail), DecimalString(status))
  {
    assert SubmitFailureMessage(status, detail) == SubmitFailedPrefix + DecimalString(status) + ("): " + detail);
    ContainsInfix(SubmitFailedPrefix, DecimalString(status), "): " + detail);
  }

  /** The job carries the two hosted URLs and the fixed parameters (JPEG, quality 95). */
  lemma SubmittedJobCarriesUploads(garment: Option<GarmentRef>, s: Services)
    requires garment.Some?
    requires UploadResult(s.photoUpload).Ok? && UploadResult(s.garmentUpload).Ok?
    ensures Workflow(garment, s).submitted == Some(JobInput(s.requestId, s.photoUpload.url,
              s.garmentUpload.url, true, "jpg", 95, 96400))
  {
  }

  predicate CompletedWith(r: StatusReply, url: string) {
    r.StatusReply? && r.status == "COMPLETED" && r.image == url
  }

  /**
   * The workflow succeeds exactly when the job was accepted and some poll among the first 60
   * answered `COMPLETED` with an image after only non-terminal answers; the result is that image.
   */
  lemma {:induction false} SuccessIffCompletedWithImage(garment: Option<GarmentRef>, s: Services, url: string)
    ensures Workflow(garment, s).outcome == Succeeded(url) <==>
      && garment.Some? && UploadResult(s.photoUpload).Ok? && UploadResult(s.garmentUpload).Ok?
      && SubmitResult(s.submit).Ok?
      && exists k :: 0 <= k < MaxAttempts && CompletedWith(s.poll(k), url)
                     && url != "" && forall j :: 0 <= j < k ==> Classify(s.poll(j)).Continue?
  {
    var run := Workflow(garment, s);
    if run.outcome == Succeeded(url) {
      var r := PollFrom(s.poll, 0);
      PollEndsAtFirstTerminal(s.poll, 0);
    }
    if && garment.Some? && UploadResult(s.photoUpload).Ok? && UploadResult(s.garmentUpload).Ok?
       && SubmitResult(s.submit).Ok?
       && exists k :: 0 <= k < MaxAttempts && CompletedWith(s.poll(k), url)
                      && url != "" && forall j :: 0 <= j < k ==> Classify(s.poll(j)).Continue?
    {
      var k :| 0 <= k < MaxAttempts && CompletedWith(s.poll(k), url)
               && url != "" && forall j :: 0 <= j < k ==> Classify(s.poll(j)).Continue?;
      FirstTerminalDecides(s.poll, 0, k);
    }
  }

  /** The path the client polls, `/api/runpod/status/${jobId}`. */
  function StatusPath(jobId: string): (path: string) { Proxy.StatusPrefix + jobId }

  /** Each request `handleGenerate` makes reaches the proxy route meant for it. */
  lemma ClientRequestsReachTheirRoutes(jobId: string)
    ensures Proxy.RouteOf(Proxy.Request(Some(Proxy.ImgbbPath), Some("POST"))) == Proxy.ImgbbUpload
    ensures Proxy.RouteOf(Proxy.Request(Some(Proxy.RunPath), Some("POST"))) == Proxy.RunpodRun
    ensures Proxy.RouteOf(Proxy.Request(Some(StatusPath(jobId)), Some("GET"))) == Proxy.RunpodStatus(jobId)
  {
    assert Proxy.RouteOf(Proxy.Request(Some(Proxy.ImgbbPath), Some("POST"))) == Proxy.ImgbbUpload by {
      assert Proxy.ImgbbPath[..|Proxy.ApiPrefix|] == Proxy.ApiPrefix;
    }
    assert Proxy.RouteOf(Proxy.Request(Some(Proxy.RunPath), Some("POST"))) == Proxy.RunpodRun by {
      assert Proxy.RunPath[..|Proxy.ApiPrefix|] == Proxy.ApiPrefix;
    }
    Proxy.StatusRouteJobId(jobId);
  }

  function Answers(s: seq<StatusReply>, otherwise: StatusReply): (poll: nat -> StatusReply) {
    (j: nat) => if j < |s| then s[j] else otherwise
  }

  /** Queued, queued, running, then completed with image "X": result "X" after exactly 4 polls. */
  lemma CompletedOnFourthPoll(later: StatusReply)
    ensures var poll := Answers([StatusReply("IN_QUEUE", "", "", ""), StatusReply("IN_QUEUE", "", "", ""),
                                 StatusReply("IN_PROGRESS", "", "", ""), StatusReply("COMPLETED", "X", "", "[{}]")], later);
      PollFrom(poll, 0) == PollRun(Succeeded("X"), 4)
  {
    var poll := Answers([StatusReply("IN_QUEUE", "", "", ""), StatusReply("IN_QUEUE", "", "", ""),
                         StatusReply("IN_PROGRESS", "", "", ""), StatusReply("COMPLETED", "X", "", "[{}]")], later);
    FirstTerminalDecides(poll, 0, 3);
  }

  /** `FAILED` with error "bad image" at the second poll ends the job there; no third poll. */
  lemma FailedOnSecondPoll(later: StatusReply)
    ensures var poll := Answers([StatusReply("IN_QUEUE", "", "", ""),
                                 StatusReply("FAILED", "", "\"bad image\"", "")], later);
      var r := PollFrom(poll, 0);
      r.polls == 2 && r.outcome.Failed? && r.outcome.kind == JobFailed && Contains(r.outcome.message, "bad image")
  {
    var queued, failed := StatusReply("IN_QUEUE", "", "", ""), StatusReply("FAILED", "", "\"bad image\"", "");
    var poll := Answers([queued, failed], later);
    assert poll(0) == queued && poll(1) == failed;
    var m := JobFailedMessage(failed);
    assert Classify(failed) == Stop(Failed(JobFailed, m));
    FirstTerminalDecides(poll, 0, 1);
    assert m == JobFailedPrefix + "\"" + "bad image" + "\"";
    ContainsInfix(JobFailedPrefix + "\"", "bad image", "\"");
  }
}
