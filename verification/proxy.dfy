/**
 * The development server's API proxy (the middleware installed by `apiProxyPlugin`).
 * The browser calls `/api/` paths on its own origin; the proxy injects the ImgBB and RunPod
 * credentials server-side and forwards the call. Here it is one pure decision: from the
 * request, the environment and what the upstream service answered, to the upstream call made
 * (if any) and the response sent back.
 */
module Proxy {
  import opened Wrappers
  import opened Strings

  const ApiPrefix := "/api/"
  const ImgbbPath := "/api/imgbb"
  const RunPath := "/api/runpod/run"
  const StatusPrefix := "/api/runpod/status/"
  const ImgbbPlaceholder := "your_imgbb_api_key"
  const RunpodPlaceholder := "your_runpod_api_key"
  const ImgbbUploadUrl := "https://api.imgbb.com/1/upload"
  const RunpodBase := "https://api.runpod.ai/v2/"
  const NotSet := "(not set)"

  /** Node's `res.statusCode` before the handler assigns it. */
  const DefaultStatus := 200

  const ImgbbNotConfigured := "IMGBB_API_KEY not configured in .env"
  const RunNotConfigured := "RUNPOD_API_KEY or RUNPOD_ENDPOINT_ID not configured in .env"
  const StatusNotConfigured := "RunPod not configured in .env"
  const RouteNotFound := "API route not found"
  const InternalError := "Internal server error"
  /** Node's TypeError message for the status log's `data.status` when the body is JSON `null`. */
  const NullStatusRead := "Cannot read properties of null (reading 'status')"

  /** The server-side variables the proxy reads; `None` is an undefined variable. */
  datatype Env = Env(imgbbKey: Option<string>, runpodKey: Option<string>, endpointId: Option<string>)

  /**
   * The startup log's `mask`: an unset key shows as "(not set)", a set one as its first six
   * characters, three asterisks and its last four characters.
   */
  function Mask(s: Option<string>): (r: string)
    ensures !IsSet(s) ==> r == NotSet
    ensures IsSet(s) ==>
      var v, h, t := s.value, Min(6, |s.value|), Min(4, |s.value|);
      |r| == h + 3 + t && r[..h] == v[..h] && r[h..h + 3] == "***" && r[h + 3..] == v[|v| - t..]
  {
    if IsSet(s) then SliceHead(s.value, 6) + "***" + SliceTail(s.value, 4) else NotSet
  }

  /** A set key is never shown as if it were unset, however short it is. */
  lemma MaskNeverLooksUnset(s: Option<string>)
    requires IsSet(s)
    ensures Mask(s) != NotSet
  {
    var r, h := Mask(s), Min(6, |s.value|);
    assert r[h..h + 3] == "***";
    if |r| == |NotSet| {
      assert h == 3 && NotSet[3] == 't' && r[3] == '*';
    }
  }

  /** Keys of ten or more characters that agree on their first six and last four mask alike. */
  lemma MaskHidesTheMiddle(a: string, b: string)
    requires |a| >= 10 && |b| >= 10
    requires a[..6] == b[..6] && a[|a| - 4..] == b[|b| - 4..]
    ensures Mask(Some(a)) == Mask(Some(b)) && |Mask(Some(a))| == 13
  {
    assert SliceHead(a, 6) == a[..6] == b[..6] == SliceHead(b, 6);
    assert SliceTail(a, 4) == a[|a| - 4..] == b[|b| - 4..] == SliceTail(b, 4);
  }

  /** A key of at most six characters is printed whole at the head of its mask. */
  lemma MaskShowsShortKeyWhole(s: Option<string>)
    requires IsSet(s) && |s.value| <= 6
    ensures StartsWith(Mask(s), s.value)
  {
    var r := Mask(s);
    assert r[..|s.value|] == s.value[..|s.value|];
  }

  datatype Request = Request(url: Option<string>, verb: Option<string>)

  datatype Route = PassThrough | ImgbbUpload | RunpodRun | RunpodStatus(jobId: string) | UnknownApi

  predicate IsApiRequest(req: Request) {
    req.url.Some? && StartsWith(req.url.value, ApiPrefix)
  }

  /** Which branch of the middleware a request takes. */
  function RouteOf(req: Request): (r: Route)
    ensures r.PassThrough? <==> !IsApiRequest(req)
    ensures r == ImgbbUpload <==> req.url == Some(ImgbbPath) && req.verb == Some("POST")
    ensures r == RunpodRun <==> req.url == Some(RunPath) && req.verb == Some("POST")
    ensures r.RunpodStatus? <==>
      IsApiRequest(req) && StartsWith(req.url.value, StatusPrefix) && req.verb == Some("GET")
    ensures r.RunpodStatus? ==> req.url == Some(StatusPrefix + r.jobId)
  {
    if !IsApiRequest(req) then PassThrough
    else
      var url := req.url.value;
      if url == ImgbbPath && req.verb == Some("POST") then ImgbbUpload
      else if url == RunPath && req.verb == Some("POST") then RunpodRun
      else if StartsWith(url, StatusPrefix) && req.verb == Some("GET") then
        var rest := url[|StatusPrefix|..];
        assert url == StatusPrefix + rest;
        RemoveFirstOfPrefix(StatusPrefix, rest);
        RunpodStatus(RemoveFirst(url, StatusPrefix))
      else UnknownApi
  }

  /** The configuration each route checks before it makes its upstream call. */
  predicate Configured(route: Route, env: Env): (ok: bool)
    ensures ok ==> route.ImgbbUpload? || route.RunpodRun? || route.RunpodStatus?
    ensures route.ImgbbUpload? ==> (ok <==> IsSet(env.imgbbKey) && env.imgbbKey.value != ImgbbPlaceholder)
    ensures route.RunpodStatus? ==> (ok <==> IsSet(env.runpodKey) && IsSet(env.endpointId))
    ensures route.RunpodRun? ==>
      (ok <==> IsSet(env.runpodKey) && IsSet(env.endpointId) && env.runpodKey.value != RunpodPlaceholder)
  {
    match route
    case ImgbbUpload => IsSet(env.imgbbKey) && env.imgbbKey.value != ImgbbPlaceholder
    case RunpodRun =>
      IsSet(env.runpodKey) && env.runpodKey.value != RunpodPlaceholder && IsSet(env.endpointId)
    case RunpodStatus(_) => IsSet(env.runpodKey) && IsSet(env.endpointId)
    case _ => false
  }

  /**
   * What one upstream call produced: a reply with its HTTP status and parsed body, or an
   * exception (reading the request body, the fetch itself, or parsing the reply's JSON).
   */
  datatype Upstream<T> = Replied(status: int, data: T) | Threw(message: string)

  /**
   * The parts of ImgBB's JSON the proxy reads: `success`, `data.url`, `error.message`,
   * `status_txt` ("" where absent or falsy) and the serialised body.
   */
  datatype ImgbbReply = ImgbbReply(success: bool, hostedUrl: string, errorMessage: string,
                                   statusTxt: string, json: string)

  /** The upstream request the proxy makes, with the credentials it injects. */
  datatype Call =
    | PostImgbb(url: string, key: string)
    | PostRun(url: string, bearer: string)
    | GetStatus(url: string, bearer: string)

  datatype Body = ErrorBody(error: string) | UrlBody(url: string) | Forwarded(json: string)

  datatype Response = PassToNext | Respond(status: int, body: Body) | NoResponse

  datatype Handling = Handling(call: Option<Call>, response: Response)

  /** The error text of a failed upload: `error.message`, else `status_txt`, else the whole body. */
  function ImgbbErrorText(d: ImgbbReply): (t: string)
    ensures d.errorMessage != "" ==> t == d.errorMessage
    ensures t == d.errorMessage || t == d.statusTxt || t == d.json
    ensures d.errorMessage == "" && d.statusTxt != "" ==> t == d.statusTxt
    ensures d.errorMessage == "" && d.statusTxt == "" ==> t == d.json
    ensures t == "" ==> d.errorMessage == "" && d.statusTxt == "" && d.json == ""
  {
    if d.errorMessage != "" then d.errorMessage
    else if d.statusTxt != "" then d.statusTxt
    else d.json
  }

  /** The status of a failed upload: ImgBB's own when it is an error status, else 400. */
  function ImgbbFailureStatus(upstream: int): (r: int)
    ensures r >= 400
    ensures upstream >= 400 <==> r == upstream
    ensures upstream < 400 ==> r == 400
  {
    if upstream >= 400 then upstream else 400
  }

  /** The status a RunPod reply is forwarded with: the upstream one only if it is an error. */
  function ForwardedStatus(upstream: int): (r: int)
    ensures r == DefaultStatus || r >= 400
    ensures upstream >= 400 <==> r == upstream && r != DefaultStatus
    ensures upstream < 400 ==> r == DefaultStatus
  {
    if upstream >= 400 then upstream else DefaultStatus
  }

  /** The `.catch` around the handler: a 500 with the error's message, unless headers are out. */
  function OnHandlerError(headersSent: bool, message: string): (r: Response)
    ensures headersSent <==> r.NoResponse?
    ensures r.Respond? ==> r.status == 500 && r.body.ErrorBody? && r.body.error != ""
    ensures r.Respond? && message != "" ==> r.body.error == message
    ensures r.Respond? && message == "" ==> r.body.error == InternalError
  {
    if headersSent then NoResponse
    else Respond(500, ErrorBody(if message != "" then message else InternalError))
  }

  /**
   * The middleware. Every exception reaches the `.catch` before `res.end` has been called,
   * so headers are never sent at that point. The status route logs `data.status` before it
   * answers, which throws when RunPod's body is JSON `null`; the run route only serialises it.
   */
  function Dispatch(req: Request, env: Env, imgbb: Upstream<ImgbbReply>, runpod: Upstream<string>)
    : (h: Handling)
    ensures h.response.PassToNext? <==> !IsApiRequest(req)
    ensures h.response.PassToNext? ==> h.call.None?
    ensures !h.response.NoResponse?
    ensures h.call.Some? ==> Configured(RouteOf(req), env)
    ensures IsApiRequest(req) && !Configured(RouteOf(req), env) ==>
      h.call.None? && h.response.status in {404, 500} && h.response.body.ErrorBody?
    ensures h.response.Respond? ==> h.response.status == DefaultStatus || h.response.status >= 400
    ensures h.response.Respond? && h.response.body.ErrorBody? ==> h.response.status >= 400
    ensures h.response.Respond? && h.response.body.UrlBody? ==> h.response.status == DefaultStatus
    ensures RouteOf(req) == UnknownApi ==> h == Handling(None, Respond(404, ErrorBody(RouteNotFound)))
    ensures RouteOf(req) == ImgbbUpload && !Configured(ImgbbUpload, env) ==>
      h == Handling(None, Respond(500, ErrorBody(ImgbbNotConfigured)))
    ensures RouteOf(req) == RunpodRun && !Configured(RunpodRun, env) ==>
      h == Handling(None, Respond(500, ErrorBody(RunNotConfigured)))
    ensures RouteOf(req).RunpodStatus? && !Configured(RouteOf(req), env) ==>
      h == Handling(None, Respond(500, ErrorBody(StatusNotConfigured)))
    ensures IsApiRequest(req) && Configured(RouteOf(req), env) ==> h.call.Some?
    ensures RouteOf(req) == ImgbbUpload && Configured(ImgbbUpload, env) ==>
      h.call == Some(PostImgbb(ImgbbUploadUrl, env.imgbbKey.value))
    ensures RouteOf(req) == RunpodRun && Configured(RunpodRun, env) ==>
      h.call == Some(PostRun(RunpodBase + env.endpointId.value + "/run", "Bearer " + env.runpodKey.value))
    ensures RouteOf(req).RunpodStatus? && Configured(RouteOf(req), env) ==>
      h.call == Some(GetStatus(RunpodBase + env.endpointId.value + "/status/" + RouteOf(req).jobId,
                               "Bearer " + env.runpodKey.value))
    ensures RouteOf(req) == ImgbbUpload && Configured(ImgbbUpload, env) && imgbb.Threw? ==>
      h.response == OnHandlerError(false, imgbb.message)
    ensures (&& (RouteOf(req) == RunpodRun || RouteOf(req).RunpodStatus?)
             && Configured(RouteOf(req), env) && runpod.Threw?)
            ==> h.response == OnHandlerError(false, runpod.message)
    ensures (&& RouteOf(req).RunpodStatus? && Configured(RouteOf(req), env)
             && runpod.Replied? && runpod.data == "null")
            ==> h.response == OnHandlerError(false, NullStatusRead)
  {
    var route := RouteOf(req);
    match route
    case PassThrough => Handling(None, PassToNext)
    case UnknownApi => Handling(None, Respond(404, ErrorBody(RouteNotFound)))
    case ImgbbUpload =>
      if !Configured(route, env) then Handling(None, Respond(500, ErrorBody(ImgbbNotConfigured)))
      else
        var call := Some(PostImgbb(ImgbbUploadUrl, env.imgbbKey.value));
        (match imgbb
         case Threw(msg) => Handling(call, OnHandlerError(false, msg))
         case Replied(status, d) =>
           if d.success then Handling(call, Respond(DefaultStatus, UrlBody(d.hostedUrl)))
           else Handling(call, Respond(ImgbbFailureStatus(status), ErrorBody(ImgbbErrorText(d)))))
    case RunpodRun =>
      if !Configured(route, env) then Handling(None, Respond(500, ErrorBody(RunNotConfigured)))
      else
        var call := Some(PostRun(RunpodBase + env.endpointId.value + "/run",
                                 "Bearer " + env.runpodKey.value));
        (match runpod
         case Threw(msg) => Handling(call, OnHandlerError(false, msg))
         case Replied(status, json) => Handling(call, Respond(ForwardedStatus(status), Forwarded(json))))
    case RunpodStatus(jobId) =>
      if !Configured(route, env) then Handling(None, Respond(500, ErrorBody(StatusNotConfigured)))
      else
        var call := Some(GetStatus(RunpodBase + env.endpointId.value + "/status/" + jobId,
                                   "Bearer " + env.runpodKey.value));
        match runpod
        case Threw(msg) => Handling(call, OnHandlerError(false, msg))
        case Replied(status, json) =>
          if json == "null" then Handling(call, OnHandlerError(false, NullStatusRead))
          else Handling(call, Respond(ForwardedStatus(status), Forwarded(json)))
  }

  /** An upload with a missing or placeholder key answers 500 and calls nobody. */
  lemma ImgbbKeyCheckedFirst(url: string, env: Env, imgbb: Upstream<ImgbbReply>, runpod: Upstream<string>)
    requires !IsSet(env.imgbbKey) || env.imgbbKey.value == ImgbbPlaceholder
    ensures Dispatch(Request(Some(ImgbbPath), Some("POST")), env, imgbb, runpod)
         == Handling(None, Respond(500, ErrorBody(ImgbbNotConfigured)))
  {
  }

  /** A configured upload answers with only the hosted URL, or with ImgBB's error and status. */
  lemma ImgbbReplyMapping(env: Env, status: int, d: ImgbbReply, runpod: Upstream<string>)
    requires Configured(ImgbbUpload, env)
    ensures var h := Dispatch(Request(Some(ImgbbPath), Some("POST")), env, Replied(status, d), runpod);
      && h.call == Some(PostImgbb(ImgbbUploadUrl, env.imgbbKey.value))
      && (d.success ==> h.response == Respond(DefaultStatus, UrlBody(d.hostedUrl)))
      && (!d.success ==> h.response == Respond(if status >= 400 then status else 400,
                                              ErrorBody(ImgbbErrorText(d))))
  {
  }

  /**
   * The status route checks only that the key and the endpoint are present: with the
   * placeholder key it still calls RunPod, where the run route refuses with a 500.
   */
  lemma PlaceholderKeyOnlyStopsRun(endpoint: string, jobId: string, imgbb: Upstream<ImgbbReply>, json: string)
    requires endpoint != ""
    ensures var env := Env(None, Some(RunpodPlaceholder), Some(endpoint));
      && Dispatch(Request(Some(RunPath), Some("POST")), env, imgbb, Replied(200, json)).response
         == Respond(500, ErrorBody(RunNotConfigured))
      && Dispatch(Request(Some(StatusPrefix + jobId), Some("GET")), env, imgbb, Replied(200, json)).call
         == Some(GetStatus(RunpodBase + endpoint + "/status/" + jobId, "Bearer " + RunpodPlaceholder))
  {
    assert StartsWith(StatusPrefix + jobId, ApiPrefix) by {
      assert (StatusPrefix + jobId)[..|ApiPrefix|] == ApiPrefix;
    }
    assert StartsWith(StatusPrefix + jobId, StatusPrefix) by {
      assert (StatusPrefix + jobId)[..|StatusPrefix|] == StatusPrefix;
    }
  }

  /**
   * RunPod replies are forwarded verbatim, and only an error status replaces the default 200;
   * the exception is a `null` body on the status route, which fails in the log line with a 500.
   */
  lemma RunpodReplyForwarded(req: Request, env: Env, imgbb: Upstream<ImgbbReply>, status: int, json: string)
    requires RouteOf(req) == RunpodRun || RouteOf(req).RunpodStatus?
    requires Configured(RouteOf(req), env)
    ensures RouteOf(req) == RunpodRun || json != "null" ==>
      Dispatch(req, env, imgbb, Replied(status, json)).response
        == Respond(if status >= 400 then status else DefaultStatus, Forwarded(json))
    ensures RouteOf(req).RunpodStatus? && json == "null" ==>
      Dispatch(req, env, imgbb, Replied(status, json)).response == Respond(500, ErrorBody(NullStatusRead))
  {
  }

  /** The job id the status route polls is what follows `/api/runpod/status/` in the URL. */
  lemma StatusRouteJobId(jobId: string)
    ensures RouteOf(Request(Some(StatusPrefix + jobId), Some("GET"))) == RunpodStatus(jobId)
  {
    assert (StatusPrefix + jobId)[..|ApiPrefix|] == ApiPrefix;
    assert (StatusPrefix + jobId)[..|StatusPrefix|] == StatusPrefix;
  }

  /** A known path with the wrong method, like any unknown `/api/` path, is a 404. */
  lemma WrongMethodIsNotFound(env: Env, imgbb: Upstream<ImgbbReply>, runpod: Upstream<string>)
    ensures Dispatch(Request(Some(ImgbbPath), Some("GET")), env, imgbb, runpod)
         == Handling(None, Respond(404, ErrorBody(RouteNotFound)))
    ensures Dispatch(Request(Some(RunPath), Some("GET")), env, imgbb, runpod)
         == Handling(None, Respond(404, ErrorBody(RouteNotFound)))
  {
    assert ImgbbPath[..|ApiPrefix|] == ApiPrefix;
    assert RunPath[..|ApiPrefix|] == ApiPrefix;
  }
}
