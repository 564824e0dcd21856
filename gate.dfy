/** The access gate: whether a request's claimed access level, its proof and
    the host's enrolled key admit the operation, and the spend-safety check
    on signing. The crypto collaborators are parameters, so every property
    here holds whatever they compute. */
module Gate {
  import opened Wrappers
  import opened Classifier
  import opened Protocol

  /** The crypto service: seed decryption, proof validation, key presence. */
  datatype Crypto = Crypto(
    decryptSeedHex: (Blob, string) -> Blob,
    validAccessLevelHmac: (int, Blob, Blob) -> bool,
    hasSeedHexEncryptionKey: string -> bool)

  /** The signing service: one function per delegated operation. */
  datatype Signer = Signer(
    signHashes: (Blob, seq<Blob>) -> seq<Blob>,
    signHashesETH: (Blob, seq<Blob>) -> seq<Blob>,
    signTransaction: (Blob, Blob) -> Blob,
    encryptMessage: (Blob, Blob, Blob) -> Blob,
    decryptMessagesLegacy: (Blob, seq<Blob>) -> Blob,
    decryptMessages: (Blob, Blob) -> Blob,
    signJWT: Blob -> Blob)

  /** What the gate consults besides the message: the enumeration's codes,
      the collaborators and the current host name. */
  datatype Env = Env(codes: LevelCodes, crypto: Crypto, signer: Signer, hostname: string)

  /** The seed recovered from the request's encrypted seed for this host. */
  function Seed(env: Env, p: InPayload): Blob
  {
    env.crypto.decryptSeedHex(p.encryptedSeedHex, env.hostname)
  }

  /** A claim below the required level fails whatever the proof; any other
      claim passes exactly when its proof verifies. */
  function HasAccessLevel(env: Env, p: InPayload, required: AccessLevel): (r: bool)
    ensures p.accessLevel < env.codes.Code(required) ==> !r
    ensures p.accessLevel >= env.codes.Code(required) ==>
      (r <==> env.crypto.validAccessLevelHmac(p.accessLevel, Seed(env, p), p.accessLevelHmac))
  {
    if p.accessLevel < env.codes.Code(required) then false
    else env.crypto.validAccessLevelHmac(p.accessLevel, Seed(env, p), p.accessLevelHmac)
  }

  /** The base gate: there is no partial success, every check must pass. */
  function Approved(env: Env, p: InPayload, required: AccessLevel): (r: bool)
    ensures r <==>
      && p.accessLevel >= env.codes.Code(required)
      && env.crypto.validAccessLevelHmac(p.accessLevel, Seed(env, p), p.accessLevelHmac)
      && env.crypto.hasSeedHexEncryptionKey(env.hostname)
  {
    HasAccessLevel(env, p, required) && env.crypto.hasSeedHexEncryptionKey(env.hostname)
  }

  /** The spend-safety check. It keys on the CLAIMED level: a claim other than
      `ApproveLarge` passes, an `ApproveLarge` claim passes exactly when no
      output pays a third party. */
  function SpendingApproved(codes: LevelCodes, p: InPayload): (r: bool)
    ensures p.accessLevel != codes.Code(ApproveLarge) ==> r
    ensures p.accessLevel == codes.Code(ApproveLarge) ==> (r <==> PaysOnlySender(p.transaction))
  {
    p.accessLevel != codes.Code(ApproveLarge)
    || FirstForeignOutput(p.transaction.outputs, p.transaction.publicKey).None?
  }

  /** The tier each gated operation asks the gate for: `Full` for hash
      signing, `ApproveAll` for encryption, decryption and tokens, and the
      classifier's verdict for transaction signing. */
  function RequiredLevel(op: GatedOp, p: InPayload): (r: AccessLevel)
    ensures op == Burn || op == SignETH ==> r == Full
    ensures op == Encrypt || op == Decrypt || op == Jwt ==> r == ApproveAll
    ensures op == Sign ==> r != ApproveAll && (r == ApproveLarge <==> p.transaction.kind in SocialKinds)
  {
    match op
    case Sign => RequiredAccessLevel(p.transaction)
    case Burn => Full
    case SignETH => Full
    case Encrypt => ApproveAll
    case Decrypt => ApproveAll
    case Jwt => ApproveAll
  }

  /** Whether a gated request gets through every check its handler makes,
      the base gate first and, for signing, the spend check after it. A
      permitted request passed the tier test, the proof test and the key
      test, and a permitted signing under an `ApproveLarge` claim pays only
      its sender. */
  predicate Permitted(env: Env, op: GatedOp, p: InPayload)
    ensures Permitted(env, op, p) ==>
      && p.accessLevel >= env.codes.Code(RequiredLevel(op, p))
      && env.crypto.validAccessLevelHmac(p.accessLevel, Seed(env, p), p.accessLevelHmac)
      && env.crypto.hasSeedHexEncryptionKey(env.hostname)
    ensures Permitted(env, op, p) && op == Sign && p.accessLevel == env.codes.Code(ApproveLarge) ==>
      PaysOnlySender(p.transaction)
    ensures op != Sign ==> (Permitted(env, op, p) <==> Approved(env, p, RequiredLevel(op, p)))
  {
    Approved(env, p, RequiredLevel(op, p))
    && (op == Sign ==> SpendingApproved(env.codes, p))
  }

  /** The signing-service calls a handler makes. */
  datatype SignerCall =
    | SignHashesCall | SignHashesETHCall | SignTransactionCall | EncryptMessageCall
    | DecryptMessagesLegacyCall | DecryptMessagesCall | SignJWTCall

  /** The call a permitted operation delegates; decryption picks the legacy
      mode exactly when `encryptedHexes` is present. */
  function CallOf(op: GatedOp, p: InPayload): (r: SignerCall)
    ensures op == Decrypt ==> (r == DecryptMessagesLegacyCall <==> p.encryptedHexes.Some?)
    ensures op == Decrypt ==> (r == DecryptMessagesCall <==> p.encryptedHexes.None?)
    ensures op != Decrypt ==> r != DecryptMessagesLegacyCall && r != DecryptMessagesCall
  {
    match op
    case Burn => SignHashesCall
    case SignETH => SignHashesETHCall
    case Sign => SignTransactionCall
    case Encrypt => EncryptMessageCall
    case Decrypt => if p.encryptedHexes.Some? then DecryptMessagesLegacyCall else DecryptMessagesCall
    case Jwt => SignJWTCall
  }

  /** The signing-service calls a request causes: one when permitted, none
      when denied. */
  function Delegations(env: Env, op: GatedOp, p: InPayload): seq<SignerCall>
  {
    if Permitted(env, op, p) then [CallOf(op, p)] else []
  }

  /** The result field an operation's success reply carries. */
  predicate Answers(op: GatedOp, r: OutPayload)
  {
    match op
    case Burn => r.SignedHashes?
    case SignETH => r.Signatures?
    case Sign => r.SignedTransaction?
    case Encrypt => r.EncryptedMessage?
    case Decrypt => r.DecryptedHexes?
    case Jwt => r.JwtToken?
  }

  /** The result of the delegated operation, on the seed for this host. */
  function Delegate(env: Env, op: GatedOp, p: InPayload): (r: OutPayload)
    ensures Answers(op, r)
  {
    var seed := Seed(env, p);
    match op
    case Burn => SignedHashes(env.signer.signHashes(seed, p.unsignedHashes))
    case SignETH => Signatures(env.signer.signHashesETH(seed, p.unsignedHashes))
    case Sign => SignedTransaction(env.signer.signTransaction(seed, p.transactionHex))
    case Encrypt => EncryptedMessage(env.signer.encryptMessage(seed, p.recipientPublicKey, p.message))
    case Decrypt =>
      DecryptedHexes(
        if p.encryptedHexes.Some? then env.signer.decryptMessagesLegacy(seed, p.encryptedHexes.value)
        else env.signer.decryptMessages(seed, p.encryptedMessages))
    case Jwt => JwtToken(env.signer.signJWT(seed))
  }

  /** The one reply a gated request gets: `approvalRequired` exactly when some
      check fails, otherwise the operation's result field. */
  function GatedReply(env: Env, op: GatedOp, p: InPayload): (r: OutPayload)
    ensures r == ApprovalRequired <==> !Permitted(env, op, p)
    ensures Permitted(env, op, p) ==> Answers(op, r) && r == Delegate(env, op, p)
  {
    if Permitted(env, op, p) then Delegate(env, op, p) else ApprovalRequired
  }

  /** Signing under an `ApproveLarge` claim is refused when any output pays a
      third party, even though the base gate may have passed. */
  lemma ThirdPartySpendNeedsApproval(env: Env, p: InPayload, i: nat)
    requires p.accessLevel == env.codes.Code(ApproveLarge)
    requires i < |p.transaction.outputs|
    requires p.transaction.outputs[i].publicKey != p.transaction.publicKey
    ensures GatedReply(env, Sign, p) == ApprovalRequired
    ensures Delegations(env, Sign, p) == []
  {
  }

  /** A verified `Full` claim signs any transaction the classifier puts at
      `Full`, whoever its outputs pay. */
  lemma FullGrantSignsStrictKinds(env: Env, p: InPayload)
    requires env.codes.Distinct()
    requires p.accessLevel == env.codes.Code(Full)
    requires p.transaction.kind !in SocialKinds
    requires env.crypto.validAccessLevelHmac(p.accessLevel, Seed(env, p), p.accessLevelHmac)
    requires env.crypto.hasSeedHexEncryptionKey(env.hostname)
    ensures GatedReply(env, Sign, p)
         == SignedTransaction(env.signer.signTransaction(Seed(env, p), p.transactionHex))
  {
  }

  /** Because the spend check keys on the claimed level, an `ApproveAll` claim
      on a social transaction skips it: if the enumeration puts `ApproveAll`
      at or above `ApproveLarge`, such a transaction is signed whatever its
      outputs pay. */
  lemma ApproveAllClaimSkipsSpendCheck(env: Env, p: InPayload)
    requires env.codes.Distinct()
    requires env.codes.Code(ApproveAll) >= env.codes.Code(ApproveLarge)
    requires p.accessLevel == env.codes.Code(ApproveAll)
    requires p.transaction.kind in SocialKinds
    requires env.crypto.validAccessLevelHmac(p.accessLevel, Seed(env, p), p.accessLevelHmac)
    requires env.crypto.hasSeedHexEncryptionKey(env.hostname)
    ensures GatedReply(env, Sign, p).SignedTransaction?
  {
  }
}
