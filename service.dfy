/** The identity service object: its correlation table, the messages it has
    posted, the signing-service calls it has made and the browser-support
    flag, with one method per operation of the service. */
module Service {
  import opened Wrappers
  import opened Classifier
  import opened Protocol
  import opened Gate
  import opened Transport
  import opened Dispatch

  /** What a response delivers to the request it answers. */
  datatype Resolution = Resolution(id: string, payload: InPayload, hostname: string)

  /** A one-shot result cell: the subject a caller of `Send` holds. */
  class Slot {
    var result: Option<Resolution>

    constructor ()
      ensures result == None
    {
      result := None;
    }

    /** Completes the cell; a completed cell cannot be completed again. */
    method Resolve(r: Resolution)
      requires result == None
      modifies this
      ensures result == Some(r)
    {
      result := Some(r);
    }
  }

  class IdentityService {
    const env: Env
    const bridges: Bridges

    /** The outbound requests still waiting for their response, by id. */
    var outbound: map<string, Slot>
    /** Every message handed to the transport, in order. */
    var outbox: seq<Message>
    /** Every signing-service call made, in order: a log kept for the proofs,
        with no counterpart among the source's fields. */
    ghost var calls: seq<SignerCall>
    var browserSupported: bool

    /** Every waiting request's cell is still open, and no two ids share a
        cell. */
    ghost predicate Valid()
      reads this, outbound.Values
    {
      && (forall id | id in outbound :: outbound[id].result == None)
      && (forall a, b | a in outbound && b in outbound && a != b :: outbound[a] != outbound[b])
    }

    /** What the transport has delivered so far. */
    function Deliveries(): seq<Delivery>
      reads this
    {
      Delivered(bridges, outbox)
    }

    constructor (env: Env, bridges: Bridges)
      ensures Valid()
      ensures this.env == env && this.bridges == bridges
      ensures outbound == map[] && outbox == [] && calls == [] && browserSupported
    {
      this.env := env;
      this.bridges := bridges;
      outbound := map[];
      outbox := [];
      calls := [];
      browserSupported := true;
    }

    // Outgoing messages

    /** Hands one message to the transport. */
    method PostMessage(m: Message)
      modifies this`outbox
      ensures outbox == old(outbox) + [m]
      ensures Deliveries() == old(Deliveries()) + (match Route(bridges, m) case None => [] case Some(d) => [d])
    {
      outbox := outbox + [m];
      assert outbox[..|outbox| - 1] == old(outbox);
    }

    /** Registers a fresh cell under `id` and posts the request. `id` stands
        for the random identifier the source draws. */
    method Send(methodName: string, payload: OutPayload, id: string) returns (slot: Slot)
      requires Valid()
      requires id !in outbound
      modifies this`outbound, this`outbox
      ensures Valid()
      ensures fresh(slot) && slot.result == None
      ensures outbound == old(outbound)[id := slot]
      ensures outbox == old(outbox) + [Message(Some(id), Namespace, Some(methodName), payload)]
    {
      slot := new Slot();
      outbound := outbound[id := slot];
      PostMessage(Message(Some(id), Namespace, Some(methodName), payload));
    }

    /** Replies to request `id`. */
    method Respond(id: string, payload: OutPayload)
      modifies this`outbox
      ensures outbox == old(outbox) + [Response(id, payload)]
    {
      PostMessage(Response(id, payload));
    }

    /** Posts a notification: no id, no response expected. */
    method Cast(methodName: string, payload: OutPayload)
      modifies this`outbox
      ensures outbox == old(outbox) + [Message(None, Namespace, Some(methodName), payload)]
    {
      PostMessage(Message(None, Namespace, Some(methodName), payload));
    }

    /** The handshake: a request that expects a response. */
    method Initialize(id: string) returns (slot: Slot)
      requires Valid()
      requires id !in outbound
      modifies this`outbound, this`outbox
      ensures Valid()
      ensures fresh(slot) && slot.result == None
      ensures outbound == old(outbound)[id := slot]
      ensures outbox == old(outbox) + [Message(Some(id), Namespace, Some("initialize"), Opaque(""))]
    {
      slot := Send("initialize", Opaque(""), id);
    }

    method StorageGranted()
      modifies this`outbox
      ensures outbox == old(outbox) + [Message(None, Namespace, Some("storageGranted"), NoPayload)]
    {
      Cast("storageGranted", NoPayload);
    }

    method Login(users: Blob)
      modifies this`outbox
      ensures outbox == old(outbox) + [Message(None, Namespace, Some("login"), Opaque(users))]
    {
      Cast("login", Opaque(users));
    }

    // The access gate

    /** Passes exactly when the base gate does; otherwise replies
        `approvalRequired` once. */
    method Approve(id: string, p: InPayload, required: AccessLevel) returns (ok: bool)
      modifies this`outbox
      ensures ok == Approved(env, p, required)
      ensures outbox == old(outbox) + (if ok then [] else [Response(id, ApprovalRequired)])
    {
      var hasAccess := false;
      if !(p.accessLevel < env.codes.Code(required)) {
        var seedHex := env.crypto.decryptSeedHex(p.encryptedSeedHex, env.hostname);
        hasAccess := env.crypto.validAccessLevelHmac(p.accessLevel, seedHex, p.accessLevelHmac);
      }
      var hasEncryptionKey := env.crypto.hasSeedHexEncryptionKey(env.hostname);
      if !hasAccess || !hasEncryptionKey {
        Respond(id, ApprovalRequired);
        return false;
      }
      return true;
    }

    /** The spend-safety check: under an `ApproveLarge` claim, stops at the
        first output paying a third party and replies `approvalRequired`. */
    method ApproveSpending(id: string, p: InPayload) returns (ok: bool)
      modifies this`outbox
      ensures ok == SpendingApproved(env.codes, p)
      ensures outbox == old(outbox) + (if ok then [] else [Response(id, ApprovalRequired)])
    {
      if p.accessLevel == env.codes.Code(ApproveLarge) {
        var tx := p.transaction;
        for i := 0 to |tx.outputs|
          invariant forall j | 0 <= j < i :: tx.outputs[j].publicKey == tx.publicKey
          invariant outbox == old(outbox)
        {
          if tx.outputs[i].publicKey != tx.publicKey {
            Respond(id, ApprovalRequired);
            return false;
          }
        }
      }
      return true;
    }

    // Request handlers

    method HandleBurn(data: Inbound)
      modifies this`outbox, this`calls
      ensures outbox == old(outbox) + [Response(data.id, GatedReply(env, Burn, data.payload))]
      ensures calls == old(calls) + Delegations(env, Burn, data.payload)
    {
      var ok := Approve(data.id, data.payload, Full);
      if !ok { return; }
      var seedHex := env.crypto.decryptSeedHex(data.payload.encryptedSeedHex, env.hostname);
      var signedHashes := env.signer.signHashes(seedHex, data.payload.unsignedHashes);
      calls := calls + [SignHashesCall];
      Respond(data.id, SignedHashes(signedHashes));
    }

    method HandleSignETH(data: Inbound)
      modifies this`outbox, this`calls
      ensures outbox == old(outbox) + [Response(data.id, GatedReply(env, SignETH, data.payload))]
      ensures calls == old(calls) + Delegations(env, SignETH, data.payload)
    {
      var ok := Approve(data.id, data.payload, Full);
      if !ok { return; }
      var seedHex := env.crypto.decryptSeedHex(data.payload.encryptedSeedHex, env.hostname);
      var signatures := env.signer.signHashesETH(seedHex, data.payload.unsignedHashes);
      calls := calls + [SignHashesETHCall];
      Respond(data.id, Signatures(signatures));
    }

    /** Classifies, gates at the required tier, checks spending, then signs. */
    method HandleSign(data: Inbound)
      modifies this`outbox, this`calls
      ensures outbox == old(outbox) + [Response(data.id, GatedReply(env, Sign, data.payload))]
      ensures calls == old(calls) + Delegations(env, Sign, data.payload)
    {
      var requiredAccessLevel := RequiredAccessLevel(data.payload.transaction);
      var ok := Approve(data.id, data.payload, requiredAccessLevel);
      if !ok { return; }
      ok := ApproveSpending(data.id, data.payload);
      if !ok { return; }
      var seedHex := env.crypto.decryptSeedHex(data.payload.encryptedSeedHex, env.hostname);
      var signedTransactionHex := env.signer.signTransaction(seedHex, data.payload.transactionHex);
      calls := calls + [SignTransactionCall];
      Respond(data.id, SignedTransaction(signedTransactionHex));
    }

    method HandleEncrypt(data: Inbound)
      modifies this`outbox, this`calls
      ensures outbox == old(outbox) + [Response(data.id, GatedReply(env, Encrypt, data.payload))]
      ensures calls == old(calls) + Delegations(env, Encrypt, data.payload)
    {
      var ok := Approve(data.id, data.payload, ApproveAll);
      if !ok { return; }
      var p := data.payload;
      var seedHex := env.crypto.decryptSeedHex(p.encryptedSeedHex, env.hostname);
      var encryptedMessage := env.signer.encryptMessage(seedHex, p.recipientPublicKey, p.message);
      calls := calls + [EncryptMessageCall];
      Respond(data.id, EncryptedMessage(encryptedMessage));
    }

    /** Legacy per-key decryption when `encryptedHexes` is present,
        shared-secret decryption otherwise. */
    method HandleDecrypt(data: Inbound)
      modifies this`outbox, this`calls
      ensures outbox == old(outbox) + [Response(data.id, GatedReply(env, Decrypt, data.payload))]
      ensures calls == old(calls) + Delegations(env, Decrypt, data.payload)
    {
      var ok := Approve(data.id, data.payload, ApproveAll);
      if !ok { return; }
      var seedHex := env.crypto.decryptSeedHex(data.payload.encryptedSeedHex, env.hostname);
      var decryptedHexes;
      if data.payload.encryptedHexes.Some? {
        decryptedHexes := env.signer.decryptMessagesLegacy(seedHex, data.payload.encryptedHexes.value);
        calls := calls + [DecryptMessagesLegacyCall];
      } else {
        decryptedHexes := env.signer.decryptMessages(seedHex, data.payload.encryptedMessages);
        calls := calls + [DecryptMessagesCall];
      }
      Respond(data.id, DecryptedHexes(decryptedHexes));
    }

    method HandleJwt(data: Inbound)
      modifies this`outbox, this`calls
      ensures outbox == old(outbox) + [Response(data.id, GatedReply(env, Jwt, data.payload))]
      ensures calls == old(calls) + Delegations(env, Jwt, data.payload)
    {
      var ok := Approve(data.id, data.payload, ApproveAll);
      if !ok { return; }
      var seedHex := env.crypto.decryptSeedHex(data.payload.encryptedSeedHex, env.hostname);
      var jwt := env.signer.signJWT(seedHex);
      calls := calls + [SignJWTCall];
      Respond(data.id, JwtToken(jwt));
    }

    /** The capability request: no access check, no signing call. */
    method HandleInfo(id: string, pr: Probes)
      modifies this`outbox, this`browserSupported
      ensures browserSupported == (pr.cookieReadBack || pr.localStorageAvailable)
      ensures outbox == old(outbox) + [Response(id, InfoReply(pr))]
    {
      var hasStorageAccess := true;
      if pr.mustUseStorageAccess {
        hasStorageAccess := pr.documentHasStorageAccess;
      }
      var hasLocalStorageAccess := pr.localStorageAvailable;
      var hasCookieAccess := pr.cookieReadBack;
      browserSupported := hasCookieAccess || hasLocalStorageAccess;
      Respond(id, Capabilities(hasCookieAccess, hasStorageAccess, hasLocalStorageAccess, browserSupported));
    }

    // Message handling

    /** Routes a request by its method name; an unknown name is dropped. */
    method HandleRequest(data: Inbound, pr: Probes)
      requires IsRequest(data)
      modifies this`outbox, this`calls, this`browserSupported
      ensures outbox == old(outbox) + RequestReplies(env, pr, data)
      ensures calls == old(calls) + RequestCalls(env, data)
      ensures browserSupported == RequestBrowserSupported(old(browserSupported), pr, data)
    {
      var m := data.methodName.value;
      if m == "burn" {
        HandleBurn(data);
      } else if m == "encrypt" {
        HandleEncrypt(data);
      } else if m == "decrypt" {
        HandleDecrypt(data);
      } else if m == "sign" {
        HandleSign(data);
      } else if m == "signETH" {
        HandleSignETH(data);
      } else if m == "jwt" {
        HandleJwt(data);
      } else if m == "info" {
        HandleInfo(data.id, pr);
      }
    }

    /** Delivers a response to the cell registered under its id and removes
        the entry. An origin whose host name cannot be parsed, or an
        unregistered id, is a fault that changes nothing: the entry, if any,
        stays pending. */
    method HandleResponse(ev: Event) returns (fault: bool)
      requires Valid()
      modifies this`outbound, outbound.Values
      ensures Valid()
      ensures fault <==> ev.originHostname.None? || ev.data.id !in old(outbound)
      ensures fault ==> outbound == old(outbound)
      ensures !fault ==> outbound == old(outbound) - {ev.data.id}
      ensures !fault ==>
        old(outbound)[ev.data.id].result
        == Some(Resolution(ev.data.id, ev.data.payload, ev.originHostname.value))
    {
      if ev.originHostname.None? {
        return true;
      }
      var hostname := ev.originHostname.value;
      var id := ev.data.id;
      if id !in outbound {
        return true;
      }
      var req := outbound[id];
      req.Resolve(Resolution(id, ev.data.payload, hostname));
      outbound := outbound - {id};
      return false;
    }

    /** The entry point for every inbound window message. */
    method HandleMessage(ev: Event, pr: Probes) returns (fault: bool)
      requires Valid()
      modifies this`outbound, this`outbox, this`calls, this`browserSupported, outbound.Values
      ensures Valid()
      ensures fault <==>
        ev.data.service == Namespace && !IsRequest(ev.data)
        && (ev.originHostname.None? || ev.data.id !in old(outbound))
      ensures ev.data.service != Namespace ==>
        outbound == old(outbound) && outbox == old(outbox) && calls == old(calls)
        && browserSupported == old(browserSupported)
      ensures ev.data.service == Namespace && IsRequest(ev.data) ==>
        && outbound == old(outbound)
        && outbox == old(outbox) + RequestReplies(env, pr, ev.data)
        && calls == old(calls) + RequestCalls(env, ev.data)
        && browserSupported == RequestBrowserSupported(old(browserSupported), pr, ev.data)
      ensures ev.data.service == Namespace && !IsRequest(ev.data) ==>
        && outbox == old(outbox) && calls == old(calls) && browserSupported == old(browserSupported)
        && (ev.originHostname.Some? && ev.data.id in old(outbound) ==>
              && outbound == old(outbound) - {ev.data.id}
              && old(outbound)[ev.data.id].result
                 == Some(Resolution(ev.data.id, ev.data.payload, ev.originHostname.value)))
        && (ev.originHostname.None? || ev.data.id !in old(outbound) ==> outbound == old(outbound))
    {
      fault := false;
      if ev.data.service != Namespace {
        return;
      }
      if IsRequest(ev.data) {
        HandleRequest(ev.data, pr);
      } else {
        fault := HandleResponse(ev);
      }
    }
  }

  /** A round trip through the correlation table: the response bearing the
      request's id completes the caller's cell with what the host sent and
      empties the entry; a duplicate response is a fault and cannot complete
      the cell again. */
  method OneShotRoundTrip(s: IdentityService, id: string, reply: Event, pr: Probes)
    returns (slot: Slot, first: bool, second: bool)
    requires s.Valid() && id !in s.outbound
    requires reply.data.service == Namespace && !IsRequest(reply.data) && reply.data.id == id
    requires reply.originHostname.Some?
    modifies s, s.outbound.Values
    ensures s.Valid()
    ensures fresh(slot)
    ensures !first && second
    ensures slot.result == Some(Resolution(id, reply.data.payload, reply.originHostname.value))
    ensures s.outbound == old(s.outbound)
    ensures s.calls == old(s.calls) && s.browserSupported == old(s.browserSupported)
    ensures s.outbox == old(s.outbox) + [Message(Some(id), Namespace, Some("initialize"), Opaque(""))]
  {
    slot := s.Initialize(id);
    first := s.HandleMessage(reply, pr);
    second := s.HandleMessage(reply, pr);
  }
}
