/** What one inbound request does, as values: the replies it posts, the
    signing-service calls it causes and the browser-support flag it leaves.
    The methods of `IdentityService` are proved against these functions. */
module Dispatch {
  import opened Wrappers
  import opened Protocol
  import opened Gate

  /** The results of the environment probes of the capability request:
      whether the platform mandates the storage-access API and what it
      answers, whether local storage can be reached, and whether the test
      cookie written reads back. */
  datatype Probes = Probes(
    mustUseStorageAccess: bool,
    documentHasStorageAccess: bool,
    localStorageAvailable: bool,
    cookieReadBack: bool)

  /** The browser is supported when cookies or local storage work, and not
      when neither does. */
  function BrowserSupported(pr: Probes): (r: bool)
    ensures pr.cookieReadBack ==> r
    ensures pr.localStorageAvailable ==> r
    ensures !pr.cookieReadBack && !pr.localStorageAvailable ==> !r
  {
    pr.cookieReadBack || pr.localStorageAvailable
  }

  /** The capability report; storage access counts as granted unless the
      platform mandates asking for it. */
  function InfoReply(pr: Probes): (r: OutPayload)
    ensures r.Capabilities?
    ensures r.hasCookieAccess == pr.cookieReadBack && r.hasLocalStorageAccess == pr.localStorageAvailable
    ensures !pr.mustUseStorageAccess ==> r.hasStorageAccess
    ensures pr.mustUseStorageAccess ==> r.hasStorageAccess == pr.documentHasStorageAccess
    ensures r.browserSupported == (r.hasCookieAccess || r.hasLocalStorageAccess)
  {
    Capabilities(
      pr.cookieReadBack,
      !pr.mustUseStorageAccess || pr.documentHasStorageAccess,
      pr.localStorageAvailable,
      BrowserSupported(pr))
  }

  /** The replies a request posts: exactly one, carrying the request's id,
      for a known method; none for an unknown one. A gated request's reply
      is `approvalRequired` exactly when a check fails. */
  function RequestReplies(env: Env, pr: Probes, data: Inbound): (r: seq<Message>)
    requires IsRequest(data)
    ensures |r| == (if ParseMethod(data.methodName.value).Some? then 1 else 0)
    ensures forall i | 0 <= i < |r| ::
      r[i].id == Some(data.id) && r[i].service == Namespace && r[i].methodName.None?
    ensures ParseMethod(data.methodName.value) == Some(Info) ==> r == [Response(data.id, InfoReply(pr))]
    ensures forall op: GatedOp | ParseMethod(data.methodName.value) == Some(Gated(op)) ::
      |r| == 1 && (r[0].payload == ApprovalRequired <==> !Permitted(env, op, data.payload))
  {
    match ParseMethod(data.methodName.value)
    case None => []
    case Some(Info) => [Response(data.id, InfoReply(pr))]
    case Some(Gated(op)) => [Response(data.id, GatedReply(env, op, data.payload))]
  }

  /** The signing-service calls a request causes: at most one, and none for
      the capability request or an unknown method. */
  function RequestCalls(env: Env, data: Inbound): (r: seq<SignerCall>)
    requires IsRequest(data)
    ensures |r| <= 1
    ensures ParseMethod(data.methodName.value).Some? && ParseMethod(data.methodName.value).value.Info? ==> r == []
    ensures ParseMethod(data.methodName.value).None? ==> r == []
    ensures forall op: GatedOp | ParseMethod(data.methodName.value) == Some(Gated(op)) ::
      (|r| == 1 <==> Permitted(env, op, data.payload))
  {
    match ParseMethod(data.methodName.value)
    case Some(Gated(op)) => Delegations(env, op, data.payload)
    case _ => []
  }

  /** The browser-support flag after a request: only the capability request
      sets it. */
  function RequestBrowserSupported(before: bool, pr: Probes, data: Inbound): bool
    requires IsRequest(data)
  {
    if ParseMethod(data.methodName.value) == Some(Info) then BrowserSupported(pr) else before
  }
}
