/** The message envelope of the identity protocol, in both directions, and
    the names of the requests a host may make. */
module Protocol {
  import opened Wrappers
  import opened Classifier

  /** Opaque hex or text payloads that only the crypto collaborators read. */
  type Blob = string

  /** The namespace every message of this protocol declares in `service`. */
  const Namespace: string := "identity"

  /** The payload object of an inbound message, as far as this core reads it.
      A request's handler reads the named fields; a response's payload is
      handed on whole. `transaction` is `transactionHex` already parsed;
      `encryptedHexes` is `None` when the field is absent. */
  datatype InPayload = InPayload(
    encryptedSeedHex: Blob,
    accessLevel: int,
    accessLevelHmac: Blob,
    transactionHex: Blob,
    transaction: Transaction,
    unsignedHashes: seq<Blob>,
    recipientPublicKey: Blob,
    message: Blob,
    encryptedHexes: Option<seq<Blob>>,
    encryptedMessages: Blob)

  /** The `data` of an inbound window message; `methodName` is its `method` field. */
  datatype Inbound = Inbound(service: string, id: string, methodName: Option<string>, payload: InPayload)

  /** An inbound window message: its data and the host name of its origin.
      The host name is `None` when the origin is not a URL that can be parsed,
      as with the opaque origin "null" of a sandboxed or `data:` frame. */
  datatype Event = Event(data: Inbound, originHostname: Option<string>)

  /** The payloads this core posts. `Opaque` stands for the payloads that
      mediator-initiated requests and notifications carry unread, `NoPayload`
      for a notification sent without one. */
  datatype OutPayload =
    | ApprovalRequired
    | SignedHashes(signedHashes: seq<Blob>)
    | Signatures(signatures: seq<Blob>)
    | SignedTransaction(signedTransactionHex: Blob)
    | EncryptedMessage(encryptedMessage: Blob)
    | DecryptedHexes(decryptedHexes: Blob)
    | JwtToken(jwt: Blob)
    | Capabilities(hasCookieAccess: bool, hasStorageAccess: bool,
                   hasLocalStorageAccess: bool, browserSupported: bool)
    | Opaque(body: Blob)
    | NoPayload

  /** An outbound message; `id` is `None` on a notification. */
  datatype Message = Message(id: Option<string>, service: string, methodName: Option<string>, payload: OutPayload)

  /** The reply to request `id`: no method, so the host reads it as a response. */
  function Response(id: string, payload: OutPayload): Message
  {
    Message(Some(id), Namespace, None, payload)
  }

  /** A message is a request when its `method` is present and truthy; the
      empty string is falsy, so such a message is taken for a response. */
  predicate IsRequest(data: Inbound)
    ensures data.methodName.None? || data.methodName == Some("") ==> !IsRequest(data)
    ensures forall op: Op :: data.methodName == Some(MethodName(op)) ==> IsRequest(data)
  {
    data.methodName.Some? && data.methodName.value != ""
  }

  /** The operations that pass the access gate. */
  datatype GatedOp = Burn | Encrypt | Decrypt | Sign | SignETH | Jwt

  /** The request kinds the dispatcher knows. */
  datatype Op = Gated(op: GatedOp) | Info

  function MethodName(op: Op): string
  {
    match op
    case Gated(Burn) => "burn"
    case Gated(Encrypt) => "encrypt"
    case Gated(Decrypt) => "decrypt"
    case Gated(Sign) => "sign"
    case Gated(SignETH) => "signETH"
    case Gated(Jwt) => "jwt"
    case Info => "info"
  }

  /** The dispatcher's chain of name tests: a name is known exactly when it is
      the name of some operation, and then it names that operation. */
  function ParseMethod(name: string): (r: Option<Op>)
    ensures r.Some? ==> MethodName(r.value) == name
    ensures r.None? <==> forall op: Op :: MethodName(op) != name
  {
    if name == "burn" then Some(Gated(Burn))
    else if name == "encrypt" then Some(Gated(Encrypt))
    else if name == "decrypt" then Some(Gated(Decrypt))
    else if name == "sign" then Some(Gated(Sign))
    else if name == "signETH" then Some(Gated(SignETH))
    else if name == "jwt" then Some(Gated(Jwt))
    else if name == "info" then Some(Info)
    else None
  }

  /** Naming an operation and parsing the name back gives the operation. */
  lemma ParseMethodName(op: Op)
    ensures ParseMethod(MethodName(op)) == Some(op)
  {
  }
}
