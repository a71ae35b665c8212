/** Properties of the controller specification: what each public operation
    and each popup report does to the session, and invariants that every
    sequence of operations keeps. */
module ControllerLemmas {
  import opened Wrappers
  import opened ErrorClassifier
  import opened Utils
  import opened Controller
  import Cookies

  /** The `error` event for one of the SDK's own codes. */
  function SdkError(code: string): PublicEvent
    requires code in SdkErrorMessages
  {
    PublicEvent("error", ErrorData(SdkPayload(code, SdkErrorMessages[code])))
  }

  const Disconnected := PublicEvent("disconnected", Null)

  // ---------------------------------------------------------------------------
  // Disconnect

  /** `disconnect()` leaves no auth token, clears `isConnected` and emits one
      `disconnected`; nothing else changes. */
  lemma DisconnectEffect(s: State)
    ensures var t := Disconnect(s);
      && !t.isConnected && AuthToken(t) == ""
      && t.emitted == s.emitted + [Disconnected]
      && t.wallet == s.wallet && t.transactionId == s.transactionId
      && t.popup == s.popup && t.requests == s.requests
      && t.jar - {AuthCookieName} == s.jar - {AuthCookieName}
  {
  }

  /** The session's cookie dictionary agrees with `getCookieValue` on the
      browser's `document.cookie`: for a jar of well-formed cookies, reading a
      name from the serialized jar gives what `CookieOf` gives on the jar's
      dictionary (the first cookie of each name). */
  lemma JarReadsLikeDocumentCookie(jar: seq<Cookies.Cookie>, n: string)
    requires forall i :: 0 <= i < |jar| ==> Cookies.WellFormed(jar[i])
    requires '=' !in n
    ensures CookieOf(Cookies.JarMap(jar), n) == Cookies.CookieValue(Cookies.Serialize(jar), n)
  {
    Cookies.CookieRoundTrip(jar, n);
    Cookies.LookupIsMapLookup(jar, n);
  }

  /** Calling `disconnect()` twice gives the state of calling it once plus a
      second `disconnected` event. */
  lemma DisconnectTwice(s: State)
    ensures Disconnect(Disconnect(s)) == Disconnect(s).(emitted := Disconnect(s).emitted + [Disconnected])
  {
  }

  // ---------------------------------------------------------------------------
  // The message listener

  /** A message from any origin other than the identity service's domain
      changes nothing and emits nothing. */
  lemma ForeignOriginIgnored(s: State, ctx: Context, m: Message, walletReply: Reply)
    requires m.origin != ctx.domain
    ensures ReceiveMessage(s, ctx, m, walletReply) == s
  {
  }

  /** Message types other than ERROR and EVENT (LOG included) and event codes
      other than 001, 002, 003 and 008 are ignored. */
  lemma UnknownMessagesIgnored(s: State, ctx: Context, m: Message, walletReply: Reply)
    requires m.data.kind != "ERROR"
    requires m.data.kind == "EVENT" ==>
               m.data.code !in {EventConnected, EventTransactionApproved, EventTransactionRejected, EventTransactionFailed}
    ensures ReceiveMessage(s, ctx, m, walletReply) == s
  {
  }

  /** An ERROR message from the identity service emits exactly one `error`
      event, classified with the service's list, and changes nothing else. */
  lemma ErrorMessageReported(s: State, ctx: Context, m: Message, walletReply: Reply)
    requires m.origin == ctx.domain && m.data.kind == "ERROR" && m.data.messages.Some?
    ensures ReceiveMessage(s, ctx, m, walletReply)
              == s.(emitted := s.emitted + [PublicEvent("error", ErrorData(Classify(m.data.code, m.data.messages)))])
  {
  }

  /** The popup's reports never touch the transaction id or the popup slot. */
  lemma MessagesKeepTransactionAndPopup(s: State, ctx: Context, m: Message, walletReply: Reply)
    ensures ReceiveMessage(s, ctx, m, walletReply).transactionId == s.transactionId
    ensures ReceiveMessage(s, ctx, m, walletReply).popup == s.popup
  {
    var d := m.data;
    if m.origin == ctx.domain && d.kind == "EVENT" && d.code == EventConnected && Truthy(d.token) {
      OnConnectedKeepsPopup(s, ctx, d.token.value, walletReply);
    }
  }

  /** With a token in hand the wallet fetch is sent, so the `connected`
      handler never reaches the path that closes the popup. */
  lemma OnConnectedKeepsPopup(s: State, ctx: Context, token: string, walletReply: Reply)
    requires token != ""
    ensures OnConnected(s, ctx, token, walletReply).popup == s.popup
    ensures OnConnected(s, ctx, token, walletReply).transactionId == s.transactionId
  {
    assert AuthToken(s.(jar := s.jar[AuthCookieName := token])) == token;
  }

  /** `connected` without a token reports PAL.ERROR.108 and sets no cookie. */
  lemma ConnectedWithoutToken(s: State, ctx: Context, d: MessageData, walletReply: Reply)
    requires d.code == EventConnected && !Truthy(d.token)
    ensures OnEvent(s, ctx, d, walletReply) == s.(emitted := s.emitted + [SdkError(InvalidToken)])
  {
  }

  /** `connected` with a token stores it and fetches the wallet once; the
      handler does not look at the status, so any parsed body is announced as
      the wallet and the session becomes connected. */
  lemma ConnectedWithWallet(s: State, ctx: Context, d: MessageData, status: int, w: Json)
    requires d.code == EventConnected && Truthy(d.token)
    ensures var t := OnEvent(s, ctx, d, Response(status, Some(w)));
      && t.isConnected && t.wallet == Some(w) && AuthToken(t) == d.token.value
      && t.requests == s.requests + [Request(d.token.value, ctx.clientConfig.clientId, GetWallet)]
      && t.emitted == s.emitted + [PublicEvent("connected", WalletData(w))]
  {
  }

  /** When that fetch fails, the session is marked disconnected and
      PAL.ERROR.103 is reported, but the new cookie stays. */
  lemma ConnectedFetchFailureKeepsCookie(s: State, ctx: Context, d: MessageData, walletReply: Reply)
    requires d.code == EventConnected && Truthy(d.token)
    requires walletReply.Rejected? || walletReply.body.None?
    ensures var t := OnEvent(s, ctx, d, walletReply);
      && !t.isConnected && AuthToken(t) == d.token.value && t.wallet == s.wallet
      && t.emitted == s.emitted + [SdkError(UnableToGetWallet)]
  {
  }

  /** transaction-approved: an incomplete report raises PAL.ERROR.109 and is
      still announced with the five copied fields; a complete one is announced
      alone. */
  lemma ApprovedReport(s: State, ctx: Context, d: MessageData, walletReply: Reply)
    requires d.code == EventTransactionApproved
    ensures var approved := PublicEvent("transaction-approved",
              ApprovedData(d.canonicalSignature, d.encodedTransaction, d.signature, d.signedTransaction, d.transactionId));
      && (ApprovalIncomplete(d) ==>
            OnEvent(s, ctx, d, walletReply) == s.(emitted := s.emitted + [SdkError(InvalidTransactionDetails), approved]))
      && (!ApprovalIncomplete(d) ==>
            OnEvent(s, ctx, d, walletReply) == s.(emitted := s.emitted + [approved]))
  {
  }

  /** transaction-rejected is announced without data, transaction-failed with
      `{transactionId, transactionStatus, reasons}`. */
  lemma RejectedAndFailedReports(s: State, ctx: Context, d: MessageData, walletReply: Reply)
    ensures d.code == EventTransactionRejected ==>
              OnEvent(s, ctx, d, walletReply) == s.(emitted := s.emitted + [PublicEvent("transaction-rejected", Undefined)])
    ensures d.code == EventTransactionFailed ==>
              OnEvent(s, ctx, d, walletReply)
                == s.(emitted := s.emitted + [PublicEvent("transaction-failed", FailedData(d.transactionId, d.transactionStatus, d.reasons))])
  {
  }

  // ---------------------------------------------------------------------------
  // signTransaction / submitTransaction

  /** Not connected: only PAL.ERROR.101, no popup, no request. */
  lemma RequestWhenNotConnected(s: State, ctx: Context, hash: Option<string>, reply: Reply, signOnly: bool)
    requires !s.isConnected
    ensures RequestTransaction(s, ctx, hash, reply, signOnly) == s.(emitted := s.emitted + [SdkError(NotConnected)])
  {
  }

  /** Empty hash: PAL.ERROR.107 and no request; signing then disconnects,
      submitting leaves the session as it was. */
  lemma RequestWithEmptyHash(s: State, ctx: Context, hash: Option<string>, reply: Reply, signOnly: bool)
    requires s.isConnected && !Truthy(hash)
    ensures var t := RequestTransaction(s, ctx, hash, reply, signOnly);
      && t.requests == s.requests && t.popup == s.popup && t.transactionId == s.transactionId
      && (signOnly ==> !t.isConnected && AuthToken(t) == "" && t.emitted == s.emitted + [SdkError(InvalidTransactionHash), Disconnected])
      && (!signOnly ==> t == s.(emitted := s.emitted + [SdkError(InvalidTransactionHash)]))
  {
  }

  /** No token left: PAL.ERROR.102, disconnect, popup closed, no request. */
  lemma RequestWithoutToken(s: State, ctx: Context, hash: Option<string>, reply: Reply, signOnly: bool)
    requires s.isConnected && Truthy(hash) && AuthToken(s) == ""
    ensures var t := RequestTransaction(s, ctx, hash, reply, signOnly);
      && !t.isConnected && t.popup.None? && t.requests == s.requests && t.transactionId == s.transactionId
      && t.emitted == s.emitted + [SdkError(NoAuthToken), Disconnected]
  {
  }

  /** Accepted: the request is sent once, `transactionId` becomes `data.ID`,
      and the placeholder opened by this call is navigated to the identity
      service with a configuration carrying that id and the approve action;
      nothing is emitted. */
  lemma RequestAccepted(s: State, ctx: Context, hash: Option<string>, status: int, data: Json, signOnly: bool)
    requires s.isConnected && Truthy(hash) && AuthToken(s) != "" && IsOk(status)
    ensures var t := RequestTransaction(s, ctx, hash, Response(status, Some(data)), signOnly);
      && t.transactionId == IdOf(data)
      && t.requests == s.requests + [Request(AuthToken(s), ctx.clientConfig.clientId, PostRawTransaction(hash.value, signOnly))]
      && t.popup == Some(Window(s.nextWindow, Identity(ctx.domain, TransactionConfig(ctx.clientConfig, IdOf(data))), false))
      && t.popup.value.location.config.action == Some(ApproveTransaction)
      && "action" in Keys(t.popup.value.location.config)
      && (IdOf(data).Some? ==> "transactionId" in Keys(t.popup.value.location.config))
      && t.emitted == s.emitted && t.isConnected
  {
  }

  /** Refused (any non-OK status, 401 included): PAL.ERROR.104 or 105, the
      popup is closed, the session and transaction id are unchanged. */
  lemma RequestRefused(s: State, ctx: Context, hash: Option<string>, status: int, body: Option<Json>, signOnly: bool)
    requires s.isConnected && Truthy(hash) && AuthToken(s) != "" && !IsOk(status)
    ensures var t := RequestTransaction(s, ctx, hash, Response(status, body), signOnly);
      && t.popup.None? && t.isConnected && t.transactionId == s.transactionId && t.jar == s.jar
      && t.emitted == s.emitted + [SdkError(if signOnly then UnableToSignTransaction else UnableToSubmitTransaction)]
  {
  }

  /** A fetch or `json()` that rejects ends the call silently after the
      placeholder was opened and the request sent. */
  lemma RequestAbandoned(s: State, ctx: Context, hash: Option<string>, reply: Reply, signOnly: bool)
    requires s.isConnected && Truthy(hash) && AuthToken(s) != ""
    requires reply.Rejected? || (IsOk(reply.status) && reply.body.None?)
    ensures var t := RequestTransaction(s, ctx, hash, reply, signOnly);
      && t.emitted == s.emitted && t.transactionId == s.transactionId && t.isConnected
      && t.popup == Some(Window(s.nextWindow, Blank, false))
  {
  }

  // ---------------------------------------------------------------------------
  // Wallet load and construction

  /** `#loadWallet()` with a token: 401 reports PAL.ERROR.106 and disconnects;
      another non-OK status reports PAL.ERROR.103 and keeps `isConnected`; OK
      announces the wallet, caches it and marks the session connected. */
  lemma LoadWalletOutcomes(s: State, ctx: Context, status: int, body: Option<Json>)
    requires AuthToken(s) != ""
    ensures var t := LoadWallet(s, ctx, Response(status, body));
      && (status == 401 ==>
            !t.isConnected && AuthToken(t) == "" && t.emitted == s.emitted + [SdkError(JwtNotAuthenticated), Disconnected])
      && (!IsOk(status) && status != 401 ==>
            t.isConnected == s.isConnected && t.emitted == s.emitted + [SdkError(UnableToGetWallet)])
      && (IsOk(status) && body.Some? ==>
            t.isConnected && t.wallet == body && t.emitted == s.emitted + [PublicEvent("connected", WalletData(body.value))])
  {
  }

  /** Without an auth cookie the SDK starts disconnected and sends nothing. */
  lemma InitWithoutToken(raw: ClientConfig, urlParam: Option<string>, hostOrigin: string,
                         jar: map<string, string>, popup: Option<Window>, nextWindow: nat, walletReply: Reply)
    requires CookieOf(jar, AuthCookieName) == ""
    ensures var t := Init(raw, urlParam, hostOrigin, jar, popup, nextWindow, walletReply);
      !t.isConnected && t.requests == [] && t.jar == jar && t.popup == popup
  {
  }

  /** With an auth cookie and a valid configuration exactly one wallet fetch is
      sent; a 401 ends disconnected with the cookie gone, an OK response with a
      body ends connected with `connected` announcing the wallet. */
  lemma InitWithToken(raw: ClientConfig, urlParam: Option<string>, hostOrigin: string,
                      jar: map<string, string>, popup: Option<Window>, nextWindow: nat, walletReply: Reply)
    requires CookieOf(jar, AuthCookieName) != "" && raw.clientId.Some?
    ensures var t := Init(raw, urlParam, hostOrigin, jar, popup, nextWindow, walletReply);
      && t.requests == [Request(jar[AuthCookieName], raw.clientId, GetWallet)]
      && (walletReply.Response? && walletReply.status == 401 ==>
            !t.isConnected && AuthToken(t) == "" && t.emitted == [SdkError(JwtNotAuthenticated), Disconnected])
      && (walletReply.Response? && IsOk(walletReply.status) && walletReply.body.Some? ==>
            t.isConnected && t.wallet == walletReply.body
            && t.emitted == [PublicEvent("connected", WalletData(walletReply.body.value))])
  {
  }

  /** A configuration without a string clientId is reported with the code
      PAL.ERROR.003, which the SDK table lacks, so at level UNKNOWN; nothing is
      fetched. */
  lemma InvalidConfigReportedAsUnknown(raw: ClientConfig, urlParam: Option<string>, hostOrigin: string,
                                       jar: map<string, string>, popup: Option<Window>, nextWindow: nat, walletReply: Reply)
    requires raw.clientId.None?
    ensures var t := Init(raw, urlParam, hostOrigin, jar, popup, nextWindow, walletReply);
      && t.emitted == [PublicEvent("error", ErrorData(UnknownPayload(InvalidClientConfigCode)))]
      && t.requests == []
  {
  }

  // ---------------------------------------------------------------------------
  // The popup slot

  /** `openModal` reuses a live handle (same window, new location) and
      otherwise stores a new one; `openModalPlaceholder` always stores a new
      one. */
  lemma PopupSlot(s: State, ctx: Context, config: ClientConfig)
    ensures s.popup.Some? && !s.popup.value.closed ==>
              OpenModal(s, ctx, config).popup == Some(s.popup.value.(location := Identity(ctx.domain, config)))
              && OpenModal(s, ctx, config).nextWindow == s.nextWindow
    ensures s.popup.None? || s.popup.value.closed ==>
              OpenModal(s, ctx, config).popup == Some(Window(s.nextWindow, Identity(ctx.domain, config), false))
    ensures OpenModalPlaceholder(s).popup == Some(Window(s.nextWindow, Blank, false))
    ensures CloseModal(s).popup.None?
  {
  }

  // ---------------------------------------------------------------------------
  // Invariants over any sequence of operations

  /** Everything the host and the popup can do to a running session. */
  datatype Op =
    | ConnectOp
    | DisconnectOp
    | SignOp(hash: Option<string>, reply: Reply)
    | SubmitOp(hash: Option<string>, reply: Reply)
    | MessageOp(m: Message, walletReply: Reply)
    | UserClosesPopupOp
    | CookieExpiresOp

  function Step(s: State, ctx: Context, op: Op): State
  {
    match op
    case ConnectOp => Connect(s, ctx)
    case DisconnectOp => Disconnect(s)
    case SignOp(hash, reply) => RequestTransaction(s, ctx, hash, reply, true)
    case SubmitOp(hash, reply) => RequestTransaction(s, ctx, hash, reply, false)
    case MessageOp(m, walletReply) => ReceiveMessage(s, ctx, m, walletReply)
    case UserClosesPopupOp => UserClosesPopup(s)
    case CookieExpiresOp => CookieExpires(s)
  }

  function Run(s: State, ctx: Context, ops: seq<Op>): State
    decreases ops
  {
    if ops == [] then s else Run(Step(s, ctx, ops[0]), ctx, ops[1..])
  }

  /** Every emitted event is on the allow-list (so no internal `emit` throws),
      and the popup handle is one `window.open` returned (its id is below the
      counter, so a newly opened handle differs from every earlier one). */
  ghost predicate Inv(s: State)
  {
    && (forall i :: 0 <= i < |s.emitted| ==> s.emitted[i].name in PublicEventNames)
    && (s.popup.Some? ==> s.popup.value.id < s.nextWindow)
  }

  lemma OnErrorKeepsInv(s: State, code: string, messages: Option<seq<ServiceMessage>>)
    requires Inv(s)
    ensures Inv(OnError(s, code, messages))
  {
  }

  lemma CallApiKeepsInv(s: State, ctx: Context, call: ApiCall)
    requires Inv(s)
    ensures Inv(CallApi(s, ctx, call).0)
  {
    if AuthToken(s) == "" {
      OnErrorKeepsInv(s, NoAuthToken, None);
    }
  }

  lemma SendKeepsInv(s: State, ctx: Context, hash: string, reply: Reply, signOnly: bool)
    requires Inv(s)
    ensures Inv(SendTransaction(s, ctx, hash, reply, signOnly))
  {
    CallApiKeepsInv(s, ctx, PostRawTransaction(hash, signOnly));
  }

  lemma RequestKeepsInv(s: State, ctx: Context, hash: Option<string>, reply: Reply, signOnly: bool)
    requires Inv(s)
    ensures Inv(RequestTransaction(s, ctx, hash, reply, signOnly))
  {
    if s.isConnected && Truthy(hash) {
      SendKeepsInv(OpenModalPlaceholder(s), ctx, hash.value, reply, signOnly);
    }
  }

  lemma OnConnectedKeepsInv(s: State, ctx: Context, token: string, walletReply: Reply)
    requires Inv(s)
    ensures Inv(OnConnected(s, ctx, token, walletReply))
  {
    CallApiKeepsInv(s.(jar := s.jar[AuthCookieName := token]), ctx, GetWallet);
  }

  lemma OnEventKeepsInv(s: State, ctx: Context, d: MessageData, walletReply: Reply)
    requires Inv(s)
    ensures Inv(OnEvent(s, ctx, d, walletReply))
  {
    if d.code == EventConnected && Truthy(d.token) {
      OnConnectedKeepsInv(s, ctx, d.token.value, walletReply);
    }
  }

  lemma StepKeepsInv(s: State, ctx: Context, op: Op)
    requires Inv(s)
    ensures Inv(Step(s, ctx, op))
  {
    match op
    case SignOp(hash, reply) => RequestKeepsInv(s, ctx, hash, reply, true);
    case SubmitOp(hash, reply) => RequestKeepsInv(s, ctx, hash, reply, false);
    case MessageOp(m, walletReply) =>
      if m.origin == ctx.domain && m.data.kind == "EVENT" {
        OnEventKeepsInv(s, ctx, m.data, walletReply);
      }
    case _ =>
  }

  /** The constructor establishes the invariant when the page's popup handle
      (if any) came from the window counter: the configuration error and the
      wallet load it runs emit only allow-listed names. */
  lemma InitEstablishesInv(raw: ClientConfig, urlParam: Option<string>, hostOrigin: string,
                           jar: map<string, string>, popup: Option<Window>, nextWindow: nat, walletReply: Reply)
    requires popup.Some? ==> popup.value.id < nextWindow
    ensures Inv(Init(raw, urlParam, hostOrigin, jar, popup, nextWindow, walletReply))
  {
    var s0 := State(CookieOf(jar, AuthCookieName) != "", None, None, jar, popup, nextWindow, [], []);
    assert Inv(s0);
    CallApiKeepsInv(s0, ContextOf(raw, urlParam, hostOrigin), GetWallet);
  }

  /** From the constructor on, every run of operations keeps the invariant. */
  lemma SessionKeepsInv(raw: ClientConfig, urlParam: Option<string>, hostOrigin: string,
                        jar: map<string, string>, popup: Option<Window>, nextWindow: nat, walletReply: Reply,
                        ops: seq<Op>)
    requires popup.Some? ==> popup.value.id < nextWindow
    ensures var s := Init(raw, urlParam, hostOrigin, jar, popup, nextWindow, walletReply);
      Inv(Run(s, ContextOf(raw, urlParam, hostOrigin), ops))
  {
    InitEstablishesInv(raw, urlParam, hostOrigin, jar, popup, nextWindow, walletReply);
    RunKeepsInv(Init(raw, urlParam, hostOrigin, jar, popup, nextWindow, walletReply), ContextOf(raw, urlParam, hostOrigin), ops);
  }

  lemma {:induction false} RunKeepsInv(s: State, ctx: Context, ops: seq<Op>)
    requires Inv(s)
    ensures Inv(Run(s, ctx, ops))
    decreases ops
  {
    if ops != [] {
      StepKeepsInv(s, ctx, ops[0]);
      RunKeepsInv(Step(s, ctx, ops[0]), ctx, ops[1..]);
    }
  }

  /** The logs only grow, and only sign/submit ever change the transaction
      id: over any run, either the id is unchanged or some sign/submit step
      set it. */
  lemma {:induction false} RunExtendsLogs(s: State, ctx: Context, ops: seq<Op>)
    ensures s.emitted <= Run(s, ctx, ops).emitted
    ensures s.requests <= Run(s, ctx, ops).requests
    ensures Run(s, ctx, ops).transactionId != s.transactionId ==>
              exists i :: 0 <= i < |ops| && (ops[i].SignOp? || ops[i].SubmitOp?)
    decreases ops
  {
    if ops != [] {
      var t := Step(s, ctx, ops[0]);
      StepExtendsLogs(s, ctx, ops[0]);
      RunExtendsLogs(t, ctx, ops[1..]);
      if Run(t, ctx, ops[1..]).transactionId != t.transactionId {
        var i :| 0 <= i < |ops[1..]| && (ops[1..][i].SignOp? || ops[1..][i].SubmitOp?);
        assert ops[i + 1] == ops[1..][i];
      } else if Run(s, ctx, ops).transactionId != s.transactionId {
        assert ops[0].SignOp? || ops[0].SubmitOp?;
      }
    }
  }

  /** The event and request logs of `t` extend those of `s`. */
  ghost predicate Extends(s: State, t: State)
  {
    s.emitted <= t.emitted && s.requests <= t.requests
  }

  lemma OnErrorExtendsLogs(s: State, code: string, messages: Option<seq<ServiceMessage>>)
    ensures Extends(s, OnError(s, code, messages))
    ensures OnError(s, code, messages).transactionId == s.transactionId
  {
  }

  lemma CallApiExtendsLogs(s: State, ctx: Context, call: ApiCall)
    ensures Extends(s, CallApi(s, ctx, call).0)
    ensures CallApi(s, ctx, call).0.transactionId == s.transactionId
  {
    if AuthToken(s) == "" {
      OnErrorExtendsLogs(s, NoAuthToken, None);
    }
  }

  lemma SendExtendsLogs(s: State, ctx: Context, hash: string, reply: Reply, signOnly: bool)
    ensures Extends(s, SendTransaction(s, ctx, hash, reply, signOnly))
  {
    CallApiExtendsLogs(s, ctx, PostRawTransaction(hash, signOnly));
  }

  lemma RequestExtendsLogs(s: State, ctx: Context, hash: Option<string>, reply: Reply, signOnly: bool)
    ensures Extends(s, RequestTransaction(s, ctx, hash, reply, signOnly))
  {
    if s.isConnected && Truthy(hash) {
      SendExtendsLogs(OpenModalPlaceholder(s), ctx, hash.value, reply, signOnly);
    }
  }

  lemma OnConnectedExtendsLogs(s: State, ctx: Context, token: string, walletReply: Reply)
    ensures Extends(s, OnConnected(s, ctx, token, walletReply))
    ensures OnConnected(s, ctx, token, walletReply).transactionId == s.transactionId
  {
    CallApiExtendsLogs(s.(jar := s.jar[AuthCookieName := token]), ctx, GetWallet);
  }

  lemma OnEventExtendsLogs(s: State, ctx: Context, d: MessageData, walletReply: Reply)
    ensures Extends(s, OnEvent(s, ctx, d, walletReply))
    ensures OnEvent(s, ctx, d, walletReply).transactionId == s.transactionId
  {
    if d.code == EventConnected && Truthy(d.token) {
      OnConnectedExtendsLogs(s, ctx, d.token.value, walletReply);
    }
  }

  lemma StepExtendsLogs(s: State, ctx: Context, op: Op)
    ensures s.emitted <= Step(s, ctx, op).emitted
    ensures s.requests <= Step(s, ctx, op).requests
    ensures !op.SignOp? && !op.SubmitOp? ==> Step(s, ctx, op).transactionId == s.transactionId
  {
    match op
    case SignOp(hash, reply) => RequestExtendsLogs(s, ctx, hash, reply, true);
    case SubmitOp(hash, reply) => RequestExtendsLogs(s, ctx, hash, reply, false);
    case MessageOp(m, walletReply) =>
      if m.origin == ctx.domain && m.data.kind == "EVENT" {
        OnEventExtendsLogs(s, ctx, m.data, walletReply);
      }
    case _ =>
  }
}
