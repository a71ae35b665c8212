/** The SDK object (`PalisadeIdentitySDK` in src/index.js) as a class whose
    fields the methods update in place, each method proved to have the effect
    the matching `Controller` function describes. The process-wide popup slot
    and `document.cookie` are fields of the one session object; the logs of
    emitted events and sent requests are ghost fields. */
module Sdk {
  import opened Wrappers
  import opened EventBus
  import opened ErrorClassifier
  import opened Utils
  import opened Controller

  class Session {
    const sdkDomain: string
    const clientConfig: ClientConfig
    const publicEvents: EventEmitter<EventData>

    var isConnected: bool
    var wallet: Option<Json>
    var transactionId: Option<string>
    var cookies: map<string, string>
    var openedWindow: Option<Window>
    var nextWindowId: nat

    ghost var emitted: seq<PublicEvent>
    ghost var requests: seq<Request>

    ghost predicate Valid()
      reads this, publicEvents
    {
      publicEvents.Valid() && publicEvents.validEvents == PublicEventNames
    }

    ghost function Abstract(): State
      reads this
    {
      State(isConnected, wallet, transactionId, cookies, openedWindow, nextWindowId, emitted, requests)
    }

    function Ctx(): Context
    {
      Context(sdkDomain, clientConfig)
    }

    /** The constructor, with the wallet load it starts run to completion on
        `walletReply`. `cookies`, `openedWindow` and `nextWindowId` are the
        page's state when the SDK is built. */
    constructor (raw: ClientConfig, urlParam: Option<string>, hostOrigin: string,
                 cookies: map<string, string>, openedWindow: Option<Window>, nextWindowId: nat,
                 walletReply: Reply)
      ensures Valid() && fresh(publicEvents) && publicEvents.eventListeners == map[]
      ensures Ctx() == ContextOf(raw, urlParam, hostOrigin)
      ensures Abstract() == Init(raw, urlParam, hostOrigin, cookies, openedWindow, nextWindowId, walletReply)
    {
      sdkDomain := DomainForEnvironment(raw.environment, urlParam);
      clientConfig := MergeClientConfig(raw, hostOrigin);
      this.cookies := cookies;
      isConnected := CookieOf(cookies, AuthCookieName) != "";
      wallet := None;
      transactionId := None;
      this.openedWindow := openedWindow;
      this.nextWindowId := nextWindowId;
      emitted := [];
      requests := [];
      publicEvents := new EventEmitter(PublicEventNames);
      new;
      var validation := ValidateClientConfig(raw.clientId);
      if validation.Invalid? {
        OnError(validation.errorCode, None);
        return;
      }
      if isConnected {
        LoadWallet(walletReply);
      }
    }

    /** `emit(eventName, data)`: through the public bus, which throws for a name
        outside the allow-list and otherwise calls the name's listeners. */
    method Emit(name: string, data: EventData) returns (r: Result<seq<Call<EventData>>, BusError>)
      requires Valid()
      modifies this
      ensures Valid()
      ensures name !in PublicEventNames ==> r == Failure(InvalidEventName(name)) && Abstract() == old(Abstract())
      ensures name in PublicEventNames ==>
                && r.Success? && |r.value| == |publicEvents.Listeners(name)|
                && (forall i :: 0 <= i < |r.value| ==> r.value[i] == Call(publicEvents.Listeners(name)[i], data))
                && Abstract() == Controller.Emit(old(Abstract()), name, data)
    {
      r := publicEvents.Emit(name, data);
      if name in PublicEventNames {
        emitted := emitted + [PublicEvent(name, data)];
      }
    }

    /** `on(eventName, callback)` */
    method On(name: string, callback: Handler) returns (r: Outcome<BusError>)
      requires Valid()
      modifies publicEvents
      ensures Valid() && Abstract() == old(Abstract())
      ensures r.Pass? <==> name in PublicEventNames && callback.Function?
      ensures r.Pass? ==> publicEvents.Listeners(name) == old(publicEvents.Listeners(name)) + [callback]
      ensures forall n :: n != name || r.Fail? ==> publicEvents.Listeners(n) == old(publicEvents.Listeners(n))
    {
      r := publicEvents.On(name, callback);
    }

    /** `off(eventName)` */
    method Off(name: string) returns (r: Outcome<BusError>)
      requires Valid()
      modifies publicEvents
      ensures Valid() && Abstract() == old(Abstract())
      ensures r.Pass? <==> name in PublicEventNames
      ensures r.Pass? ==> publicEvents.Listeners(name) == []
      ensures forall n :: n != name ==> publicEvents.Listeners(n) == old(publicEvents.Listeners(n))
    {
      r := publicEvents.Off(name);
    }

    /** `#utils.onError(errorCode, errorMessages)` */
    method OnError(code: string, errorMessages: Option<seq<ServiceMessage>>)
      requires Valid()
      modifies this
      ensures Valid() && Abstract() == Controller.OnError(old(Abstract()), code, errorMessages)
    {
      var _ := Emit("error", ErrorData(Classify(code, errorMessages)));
    }

    /** `disconnect()` */
    method Disconnect()
      requires Valid()
      modifies this
      ensures Valid() && Abstract() == Controller.Disconnect(old(Abstract()))
    {
      if CookieOf(cookies, AuthCookieName) != "" {
        cookies := cookies - {AuthCookieName};
      }
      isConnected := false;
      var _ := Emit("disconnected", Null);
    }

    /** `#utils.closeModal()` */
    method CloseModal()
      requires Valid()
      modifies this
      ensures Valid() && Abstract() == Controller.CloseModal(old(Abstract()))
    {
      if openedWindow.Some? {
        openedWindow := None;
      }
    }

    /** `#utils.openModal(configEncoded)` */
    method OpenModal(config: ClientConfig)
      requires Valid()
      modifies this
      ensures Valid() && Abstract() == Controller.OpenModal(old(Abstract()), Ctx(), config)
    {
      var location := Identity(sdkDomain, config);
      if openedWindow.Some? && !openedWindow.value.closed {
        openedWindow := Some(openedWindow.value.(location := location));
        return;
      }
      openedWindow := Some(Window(nextWindowId, location, false));
      nextWindowId := nextWindowId + 1;
    }

    /** `#utils.openModalPlaceholder()` */
    method OpenModalPlaceholder()
      requires Valid()
      modifies this
      ensures Valid() && Abstract() == Controller.OpenModalPlaceholder(old(Abstract()))
    {
      openedWindow := Some(Window(nextWindowId, Blank, false));
      nextWindowId := nextWindowId + 1;
    }

    /** The user closes the popup window. */
    method UserClosesPopup()
      requires Valid()
      modifies this
      ensures Valid() && Abstract() == Controller.UserClosesPopup(old(Abstract()))
    {
      if openedWindow.Some? {
        openedWindow := Some(openedWindow.value.(closed := true));
      }
    }

    /** The browser expires the auth cookie. */
    method CookieExpires()
      requires Valid()
      modifies this
      ensures Valid() && Abstract() == Controller.CookieExpires(old(Abstract()))
    {
      cookies := cookies - {AuthCookieName};
    }

    /** The synchronous part of `#api.getWallet`, `#api.signTransaction` and
        `#api.submitTransaction`: `sent` is false when no request went out. */
    method CallApi(call: ApiCall) returns (sent: bool)
      requires Valid()
      modifies this
      ensures Valid() && (Abstract(), sent) == Controller.CallApi(old(Abstract()), Ctx(), call)
    {
      var authToken := CookieOf(cookies, AuthCookieName);
      if authToken == "" {
        OnError(NoAuthToken, None);
        Disconnect();
        CloseModal();
        return false;
      }
      requests := requests + [Request(authToken, clientConfig.clientId, call)];
      return true;
    }

    /** `#loadWallet()`, run to completion on `reply`. */
    method LoadWallet(reply: Reply)
      requires Valid()
      modifies this
      ensures Valid() && Abstract() == Controller.LoadWallet(old(Abstract()), Ctx(), reply)
    {
      var sent := CallApi(GetWallet);
      if !sent {
        OnError(UnableToGetWallet, None);
        return;
      }
      if reply.Rejected? {
        return;
      }
      if !IsOk(reply.status) {
        if reply.status == 401 {
          OnError(JwtNotAuthenticated, None);
          Disconnect();
          return;
        }
        OnError(UnableToGetWallet, None);
        return;
      }
      if reply.body.None? {
        return;
      }
      var _ := Emit("connected", WalletData(reply.body.value));
      isConnected := true;
      wallet := reply.body;
    }

    /** `connect()` */
    method Connect()
      requires Valid()
      modifies this
      ensures Valid() && Abstract() == Controller.Connect(old(Abstract()), Ctx())
    {
      OpenModal(clientConfig);
    }

    /** `signTransaction(rawTransactionHash)`, run to completion on `reply`. */
    method SignTransaction(rawTransactionHash: Option<string>, reply: Reply)
      requires Valid()
      modifies this
      ensures Valid()
      ensures Abstract() == RequestTransaction(old(Abstract()), Ctx(), rawTransactionHash, reply, true)
    {
      if !isConnected {
        OnError(NotConnected, None);
        return;
      }
      if !Truthy(rawTransactionHash) {
        OnError(InvalidTransactionHash, None);
        Disconnect();
        return;
      }
      OpenModalPlaceholder();
      var sent := CallApi(PostRawTransaction(rawTransactionHash.value, true));
      if !sent || reply.Rejected? {
        return;
      }
      if !IsOk(reply.status) {
        OnError(UnableToSignTransaction, None);
        CloseModal();
        return;
      }
      if reply.body.None? {
        return;
      }
      transactionId := IdOf(reply.body.value);
      OpenModal(TransactionConfig(clientConfig, transactionId));
    }

    /** `submitTransaction(rawTransactionHash)`, run to completion on `reply`. */
    method SubmitTransaction(rawTransactionHash: Option<string>, reply: Reply)
      requires Valid()
      modifies this
      ensures Valid()
      ensures Abstract() == RequestTransaction(old(Abstract()), Ctx(), rawTransactionHash, reply, false)
    {
      if !isConnected {
        OnError(NotConnected, None);
        return;
      }
      if !Truthy(rawTransactionHash) {
        OnError(InvalidTransactionHash, None);
        return;
      }
      OpenModalPlaceholder();
      var sent := CallApi(PostRawTransaction(rawTransactionHash.value, false));
      if !sent || reply.Rejected? {
        return;
      }
      if !IsOk(reply.status) {
        OnError(UnableToSubmitTransaction, None);
        CloseModal();
        return;
      }
      if reply.body.None? {
        return;
      }
      transactionId := IdOf(reply.body.value);
      OpenModal(TransactionConfig(clientConfig, transactionId));
    }

    /** `#utils.onEvent(event)`, the wallet fetch after `connected` run to
        completion on `walletReply`. */
    method OnEvent(d: MessageData, walletReply: Reply)
      requires Valid()
      modifies this
      ensures Valid() && Abstract() == Controller.OnEvent(old(Abstract()), Ctx(), d, walletReply)
    {
      if d.code == EventConnected {
        if !Truthy(d.token) {
          OnError(InvalidToken, None);
          return;
        }
        cookies := cookies[AuthCookieName := d.token.value];
        var sent := CallApi(GetWallet);
        if !sent || walletReply.Rejected? || walletReply.body.None? {
          isConnected := false;
          OnError(UnableToGetWallet, None);
          return;
        }
        var _ := Emit("connected", WalletData(walletReply.body.value));
        isConnected := true;
        wallet := walletReply.body;
      } else if d.code == EventTransactionApproved {
        if ApprovalIncomplete(d) {
          OnError(InvalidTransactionDetails, None);
        }
        var _ := Emit("transaction-approved",
          ApprovedData(d.canonicalSignature, d.encodedTransaction, d.signature, d.signedTransaction, d.transactionId));
      } else if d.code == EventTransactionRejected {
        var _ := Emit("transaction-rejected", Undefined);
      } else if d.code == EventTransactionFailed {
        var _ := Emit("transaction-failed", FailedData(d.transactionId, d.transactionStatus, d.reasons));
      }
    }

    /** The `message` listener installed by the constructor. */
    method ReceiveMessage(m: Message, walletReply: Reply)
      requires Valid()
      modifies this
      ensures Valid() && Abstract() == Controller.ReceiveMessage(old(Abstract()), Ctx(), m, walletReply)
    {
      if m.origin != sdkDomain {
        return;
      }
      if m.data.kind == "ERROR" {
        if m.data.messages.Some? {
          OnError(m.data.code, m.data.messages);
        }
      } else if m.data.kind == "EVENT" {
        OnEvent(m.data, walletReply);
      }
    }
  }
}
