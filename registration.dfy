/** The registration handshake (`OpenraspAgentManager::agent_remote_register`):
    what is sent to the backend and how its answer is judged. Host lookups, the
    CURL transfer and the JSON decoder are foreign calls; only their results
    enter the model, gathered in one `Exchange`. */
module Registration {
  import opened Common
  import Identity

  /** The body as the JSON decoder left it: either not an array (bad JSON, a scalar),
      or an array whose outermost `status` (when it is an integer) and
      `description` (when it is a string) were looked up. */
  datatype Decoded = NotArray | Array(status: Option<int>, description: Option<string>)

  /** Everything the outside world contributes to one registration attempt. */
  datatype Exchange = Exchange(
    localIp: Option<string>,    // fetch_source_in_ip_packets, None when it fails
    hwAddrs: seq<string>,       // fetch_hw_addrs
    curlReady: bool,            // curl_easy_init returned a handle
    hostName: Option<string>,   // gethostname, None when it fails
    transport: int,             // the CURLcode of the transfer
    responseCode: int,          // the HTTP status code
    body: Decoded)              // php_json_decode of the response body

  /** Compile-time version strings: the PHP version and the OpenRASP extension version. */
  datatype Versions = Versions(php: string, rasp: string)

  datatype Payload = Payload(
    id: string, hostName: string, language: string, languageVersion: string,
    serverType: string, serverVersion: string, raspHome: string, localIp: string,
    version: string)

  datatype Request = Request(url: string, body: Payload)

  /** How one attempt ended; only `Registered` sets the registered flag. */
  datatype Outcome =
    | Registered
    | NoHardwareAddress
    | CurlUnavailable
    | TransportError(code: int)
    | BodyNotArray
    | HttpError(code: int)
    | IncompleteResponse
    | Rejected(status: int, description: string)

  const CurleOk := 0
  const RegisterPath := "/v1/agent/rasp"
  const UnknownHost := "UNKNOWN_HOST"

  /** The local IP sent in the payload: an empty string when the lookup failed. */
  function LocalIpOrEmpty(x: Exchange): (ip: string)
    ensures x.localIp.None? ==> ip == ""
    ensures x.localIp.Some? ==> ip == x.localIp.value
  {
    x.localIp.GetOr("")
  }

  /** The host name sent in the payload: a fixed placeholder when the lookup failed
      (unlike the local IP, which falls back to the empty string). */
  function HostNameOrPlaceholder(x: Exchange): (name: string)
    ensures x.hostName.None? ==> name == UnknownHost
    ensures x.hostName.Some? ==> name == x.hostName.value
  {
    x.hostName.GetOr(UnknownHost)
  }

  /** The request sent to the backend, or `None` when no request leaves the host. */
  function RegisterRequest(x: Exchange, backendUrl: string, rootDir: string, sapiName: string,
                           versions: Versions, md5: string -> string): (r: Option<Request>)
    // A request is sent exactly when an identity exists and CURL is usable.
    ensures r.Some? <==> x.hwAddrs != [] && x.curlReady
    // It is posted under the registration path of the configured backend, carries the identity
    // and the install directory, and the two host lookups with their fallbacks.
    ensures r.Some? ==>
      && |r.value.url| == |backendUrl| + |RegisterPath|
      && r.value.url[..|backendUrl|] == backendUrl
      && r.value.url[|backendUrl|..] == RegisterPath
      && Identity.RaspId(x.hwAddrs, rootDir, md5) == Some(r.value.body.id)
      && r.value.body.raspHome == rootDir
      && r.value.body.language == "PHP"
      && r.value.body.serverType == sapiName
      && r.value.body.hostName == HostNameOrPlaceholder(x)
      && r.value.body.localIp == LocalIpOrEmpty(x)
      && r.value.body.languageVersion == versions.php
      && r.value.body.serverVersion == versions.php
      && r.value.body.version == versions.rasp
  {
    match Identity.RaspId(x.hwAddrs, rootDir, md5)
    case None => None
    case Some(id) =>
      if !x.curlReady then None
      else
        Some(Request(backendUrl + RegisterPath,
                     Payload(id, HostNameOrPlaceholder(x), "PHP", versions.php,
                             sapiName, versions.php, rootDir,
                             LocalIpOrEmpty(x), versions.rasp)))
  }

  /** The judgement of one attempt, in the order the source makes its checks:
      the body must decode to an array before the HTTP code is even looked at. */
  function Judge(x: Exchange): (r: Outcome)
    ensures r.Rejected? ==>
      && 200 <= x.responseCode < 300
      && x.body == Array(Some(r.status), Some(r.description))
      && r.status != 0
    ensures r.HttpError? ==> r.code == x.responseCode && !(200 <= x.responseCode < 300)
  {
    if x.hwAddrs == [] then NoHardwareAddress
    else if !x.curlReady then CurlUnavailable
    else if x.transport != CurleOk then TransportError(x.transport)
    else match x.body
      case NotArray => BodyNotArray
      case Array(status, description) =>
        if !(200 <= x.responseCode < 300) then HttpError(x.responseCode)
        else if status.None? || description.None? then IncompleteResponse
        else if status.value == 0 then Registered
        else Rejected(status.value, description.value)
  }

  /** `agent_remote_register`'s boolean result. */
  function Succeeds(x: Exchange): (ok: bool)
    ensures ok <==>
      && x.hwAddrs != []
      && x.curlReady
      && x.transport == CurleOk
      && x.body.Array?
      && 200 <= x.responseCode < 300
      && x.body.status.Some?
      && x.body.description.Some?
      && x.body.status.value == 0
  {
    Judge(x) == Registered
  }

  /** Without a hardware address nothing is sent and the attempt fails. */
  lemma NoAddressNoNetwork(x: Exchange, backendUrl: string, rootDir: string, sapiName: string,
                           versions: Versions, md5: string -> string)
    requires x.hwAddrs == []
    ensures RegisterRequest(x, backendUrl, rootDir, sapiName, versions, md5).None?
    ensures Judge(x) == NoHardwareAddress && !Succeeds(x)
  {
  }

  /** A successful attempt is one whose request was actually sent. */
  lemma SuccessMeansSent(x: Exchange, backendUrl: string, rootDir: string, sapiName: string,
                         versions: Versions, md5: string -> string)
    requires Succeeds(x)
    ensures RegisterRequest(x, backendUrl, rootDir, sapiName, versions, md5).Some?
  {
  }

  /** A body that is not an array fails the attempt whatever the HTTP code, even 2xx. */
  lemma BodyJudgedBeforeCode(x: Exchange)
    requires x.hwAddrs != [] && x.curlReady && x.transport == CurleOk && x.body.NotArray?
    ensures Judge(x) == BodyNotArray
  {
  }

  /** Outside the 2xx range the fields of the decoded array are never consulted:
      two answers that differ only in `status` and `description` are judged alike. */
  lemma HttpErrorIgnoresFields(x: Exchange, status: Option<int>, description: Option<string>)
    requires x.hwAddrs != [] && x.curlReady && x.transport == CurleOk && x.body.Array?
    requires !(200 <= x.responseCode < 300)
    ensures Judge(x) == HttpError(x.responseCode)
    ensures Judge(x.(body := Array(status, description))) == Judge(x)
  {
  }

  /** A 2xx answer carrying a non-zero status reports exactly that status and description. */
  lemma RejectionReportsBackend(x: Exchange, status: int, description: string)
    requires x.hwAddrs != [] && x.curlReady && x.transport == CurleOk
    requires 200 <= x.responseCode < 300 && status != 0
    requires x.body == Array(Some(status), Some(description))
    ensures Judge(x) == Rejected(status, description)
  {
  }
}
