/** The session/transaction controller of `PalisadeIdentitySDK`
    (src/index.js) as a pure specification. A `State` holds what the SDK
    object and the page own: the session fields, the cookie jar, the single
    popup slot, and two logs of observable effects (the public events emitted
    and the HTTP requests sent). Each asynchronous call is one atomic step whose
    outcome (`Reply`) is an input. The class `Sdk.Session` is proved to follow
    these functions. */
module Controller {
  import opened Wrappers
  import opened ErrorClassifier
  import opened Utils

  const AuthCookieName := "PAL.auth"
  const ApproveTransaction := "APPROVE_TRANSACTION"

  /** The allow-list of the public event bus. */
  const PublicEventNames: seq<string> :=
    ["connected", "disconnected", "error", "transaction-approved", "transaction-rejected", "transaction-failed"]

  // Codes of the events the popup reports
  const EventConnected := "PAL.EVENT.001"
  const EventTransactionApproved := "PAL.EVENT.002"
  const EventTransactionRejected := "PAL.EVENT.003"
  const EventTransactionFailed := "PAL.EVENT.008"

  /** A parsed JSON response body (a wallet record, or `{ID: ...}`). */
  datatype Json = Json(fields: map<string, string>)

  /** `data.ID` of a parsed body. */
  function IdOf(data: Json): Option<string>
  {
    if "ID" in data.fields then Some(data.fields["ID"]) else None
  }

  /** A client configuration; a key that is absent (or undefined, which
      JSON encoding drops) is None. `others` holds the keys the controller
      never reads (iconUrl, logoUrl, options, ...). */
  datatype ClientConfig = ClientConfig(
    clientId: Option<string>,
    environment: Option<string>,
    domain: Option<string>,
    transactionId: Option<string>,
    action: Option<string>,
    others: map<string, string>)

  /** `this.clientConfig`: the caller's configuration with `domain` set to the
      host page's origin and `environment` defaulted to 'DEV'. */
  function MergeClientConfig(raw: ClientConfig, hostOrigin: string): ClientConfig
  {
    raw.(domain := Some(hostOrigin),
         environment := Some(if Truthy(raw.environment) then raw.environment.value else "DEV"))
  }

  /** The configuration sent to the popup to approve transaction `id`. */
  function TransactionConfig(base: ClientConfig, id: Option<string>): ClientConfig
  {
    base.(transactionId := id, action := Some(ApproveTransaction))
  }

  /** The keys of the encoded configuration (JSON encoding drops undefined). */
  function Keys(c: ClientConfig): set<string>
  {
    (if c.clientId.Some? then {"clientId"} else {})
    + (if c.environment.Some? then {"environment"} else {})
    + (if c.domain.Some? then {"domain"} else {})
    + (if c.transactionId.Some? then {"transactionId"} else {})
    + (if c.action.Some? then {"action"} else {})
    + c.others.Keys
  }

  /** Where a popup points: the blank placeholder, or the identity service
      with an encoded configuration (`${domain}?config=${base64(json)}`). */
  datatype Location = Blank | Identity(domain: string, config: ClientConfig)

  /** A popup window handle; `id` tells handles apart. */
  datatype Window = Window(id: nat, location: Location, closed: bool)

  /** The data passed with a public event. */
  datatype EventData =
    | Null
    | Undefined
    | WalletData(wallet: Json)
    | ErrorData(error: ErrorPayload)
    | ApprovedData(canonicalSignature: Option<string>, encodedTransaction: Option<string>,
                   signature: Option<string>, signedTransaction: Option<string>,
                   transactionId: Option<string>)
    | FailedData(transactionId: Option<string>, transactionStatus: Option<string>,
                 reasons: Option<seq<string>>)

  datatype PublicEvent = PublicEvent(name: string, data: EventData)

  /** The wallet service's endpoints: `GET /v1/connection/wallets` and
      `POST /v1/connection/transactions/raw` with body `{data, signOnly}`. */
  datatype ApiCall = GetWallet | PostRawTransaction(data: string, signOnly: bool)

  /** A request as sent: bearer token, X-Client-ID header and endpoint. */
  datatype Request = Request(authToken: string, clientId: Option<string>, call: ApiCall)

  /** How an awaited `fetch` ends: the promise rejects, or a response arrives
      whose `json()` either yields a body or rejects (None). */
  datatype Reply = Rejected | Response(status: int, body: Option<Json>)

  /** `response.ok` */
  predicate IsOk(status: int)
  {
    200 <= status <= 299
  }

  /** `event.data` of an inbound cross-window message. `messages` is
      `data.messages.error`: None when `data.messages` itself is absent (the
      listener then throws), Some([]) when it has no `error` list. */
  datatype MessageData = MessageData(
    kind: string,
    code: string,
    messages: Option<seq<ServiceMessage>>,
    token: Option<string>,
    canonicalSignature: Option<string>,
    encodedTransaction: Option<string>,
    signature: Option<string>,
    signedTransaction: Option<string>,
    transactionId: Option<string>,
    transactionStatus: Option<string>,
    reasons: Option<seq<string>>)

  datatype Message = Message(origin: string, data: MessageData)

  /** What the constructor fixes: `sdkConfig.domain` and `this.clientConfig`. */
  datatype Context = Context(domain: string, clientConfig: ClientConfig)

  function ContextOf(raw: ClientConfig, urlParam: Option<string>, hostOrigin: string): Context
  {
    Context(DomainForEnvironment(raw.environment, urlParam), MergeClientConfig(raw, hostOrigin))
  }

  datatype State = State(
    isConnected: bool,
    wallet: Option<Json>,
    transactionId: Option<string>,
    jar: map<string, string>,
    popup: Option<Window>,
    nextWindow: nat,
    emitted: seq<PublicEvent>,
    requests: seq<Request>)

  /** `getCookieValue(name)` on the jar: "" when there is no such cookie. */
  function CookieOf(jar: map<string, string>, name: string): string
  {
    if name in jar then jar[name] else ""
  }

  /** `#getAuthCookie()` */
  function AuthToken(s: State): string
  {
    CookieOf(s.jar, AuthCookieName)
  }

  /** `emit(name, data)` as seen by the log. */
  function Emit(s: State, name: string, data: EventData): State
  {
    s.(emitted := s.emitted + [PublicEvent(name, data)])
  }

  /** `#utils.onError(code, errorMessages)`: one `error` event. */
  function OnError(s: State, code: string, errorMessages: Option<seq<ServiceMessage>>): State
  {
    Emit(s, "error", ErrorData(Classify(code, errorMessages)))
  }

  /** `#utils.deleteCookie(name)`: only a cookie with a truthy value is expired. */
  function DeleteCookie(jar: map<string, string>, name: string): map<string, string>
  {
    if CookieOf(jar, name) != "" then jar - {name} else jar
  }

  /** `disconnect()` */
  function Disconnect(s: State): State
  {
    Emit(s.(jar := DeleteCookie(s.jar, AuthCookieName), isConnected := false), "disconnected", Null)
  }

  /** `#utils.closeModal()`, its 500 ms delay taken as zero. */
  function CloseModal(s: State): State
  {
    if s.popup.Some? then s.(popup := None) else s
  }

  /** `#utils.openModal(configEncoded)`: navigate a live popup, else open one. */
  function OpenModal(s: State, ctx: Context, config: ClientConfig): State
  {
    var location := Identity(ctx.domain, config);
    if s.popup.Some? && !s.popup.value.closed then
      s.(popup := Some(s.popup.value.(location := location)))
    else
      s.(popup := Some(Window(s.nextWindow, location, false)), nextWindow := s.nextWindow + 1)
  }

  /** `#utils.openModalPlaceholder()`: always a new blank popup in the slot. */
  function OpenModalPlaceholder(s: State): State
  {
    s.(popup := Some(Window(s.nextWindow, Blank, false)), nextWindow := s.nextWindow + 1)
  }

  /** The user closes the popup window (its `closed` flag becomes true). */
  function UserClosesPopup(s: State): State
  {
    if s.popup.Some? then s.(popup := Some(s.popup.value.(closed := true))) else s
  }

  /** The auth cookie expires in the browser. */
  function CookieExpires(s: State): State
  {
    s.(jar := s.jar - {AuthCookieName})
  }

  /** The synchronous part of an `#api` call: without a token it reports
      PAL.ERROR.102, disconnects, closes the popup and yields no response
      (false); otherwise the request goes out (true). */
  function CallApi(s: State, ctx: Context, call: ApiCall): (State, bool)
  {
    if AuthToken(s) == "" then
      (CloseModal(Disconnect(OnError(s, NoAuthToken, None))), false)
    else
      (s.(requests := s.requests + [Request(AuthToken(s), ctx.clientConfig.clientId, call)]), true)
  }

  /** `#loadWallet()` */
  function LoadWallet(s: State, ctx: Context, reply: Reply): State
  {
    var (s1, sent) := CallApi(s, ctx, GetWallet);
    if !sent then OnError(s1, UnableToGetWallet, None)
    else match reply
      case Rejected => s1
      case Response(status, body) =>
        if !IsOk(status) then
          if status == 401 then Disconnect(OnError(s1, JwtNotAuthenticated, None))
          else OnError(s1, UnableToGetWallet, None)
        else if body.None? then s1
        else Emit(s1, "connected", WalletData(body.value)).(isConnected := true, wallet := body)
  }

  /** The constructor: connectivity from the cookie, then either the
      configuration error or, when connected, the wallet load. */
  function Init(raw: ClientConfig, urlParam: Option<string>, hostOrigin: string,
                jar: map<string, string>, popup: Option<Window>, nextWindow: nat,
                walletReply: Reply): State
  {
    var ctx := ContextOf(raw, urlParam, hostOrigin);
    var s := State(CookieOf(jar, AuthCookieName) != "", None, None, jar, popup, nextWindow, [], []);
    match ValidateClientConfig(raw.clientId)
    case Invalid(code) => OnError(s, code, None)
    case IsValid => if s.isConnected then LoadWallet(s, ctx, walletReply) else s
  }

  /** `connect()` */
  function Connect(s: State, ctx: Context): State
  {
    OpenModal(s, ctx, ctx.clientConfig)
  }

  /** `signTransaction(hash)` (signOnly) and `submitTransaction(hash)`. They
      differ in the error reported on a refused request, and in that only
      signing disconnects after an empty hash. */
  function RequestTransaction(s: State, ctx: Context, hash: Option<string>, reply: Reply, signOnly: bool): State
  {
    if !s.isConnected then OnError(s, NotConnected, None)
    else if !Truthy(hash) then
      var s1 := OnError(s, InvalidTransactionHash, None);
      if signOnly then Disconnect(s1) else s1
    else SendTransaction(OpenModalPlaceholder(s), ctx, hash.value, reply, signOnly)
  }

  /** The part of sign/submit after the placeholder popup is open: the call
      to the wallet service and the handling of its reply. */
  function SendTransaction(s: State, ctx: Context, hash: string, reply: Reply, signOnly: bool): State
  {
    var (s1, sent) := CallApi(s, ctx, PostRawTransaction(hash, signOnly));
    if !sent then s1
    else match reply
      case Rejected => s1
      case Response(status, body) =>
        if !IsOk(status) then
          CloseModal(OnError(s1, if signOnly then UnableToSignTransaction else UnableToSubmitTransaction, None))
        else if body.None? then s1
        else
          var id := IdOf(body.value);
          OpenModal(s1.(transactionId := id), ctx, TransactionConfig(ctx.clientConfig, id))
  }

  /** The `catch` of the wallet fetch after a `connected` report. */
  function ConnectedFetchFailed(s: State): State
  {
    OnError(s.(isConnected := false), UnableToGetWallet, None)
  }

  /** True when a transaction-approved report lacks a required field. */
  predicate ApprovalIncomplete(d: MessageData)
  {
    !Truthy(d.encodedTransaction) || !Truthy(d.signature) || !Truthy(d.transactionId)
  }

  /** The `connected` report with a token: the cookie is set and the wallet
      fetched; the fetch's `then` does not look at `response.ok`. */
  function OnConnected(s: State, ctx: Context, token: string, walletReply: Reply): State
  {
    var (s1, sent) := CallApi(s.(jar := s.jar[AuthCookieName := token]), ctx, GetWallet);
    if !sent || walletReply.Rejected? || walletReply.body.None? then ConnectedFetchFailed(s1)
    else Emit(s1, "connected", WalletData(walletReply.body.value)).(isConnected := true, wallet := walletReply.body)
  }

  /** The `transaction-approved` report. */
  function OnApproved(s: State, d: MessageData): State
  {
    var s1 := if ApprovalIncomplete(d) then OnError(s, InvalidTransactionDetails, None) else s;
    Emit(s1, "transaction-approved",
         ApprovedData(d.canonicalSignature, d.encodedTransaction, d.signature, d.signedTransaction, d.transactionId))
  }

  /** `#utils.onEvent(event)`: the popup's reports. */
  function OnEvent(s: State, ctx: Context, d: MessageData, walletReply: Reply): State
  {
    if d.code == EventConnected then
      if !Truthy(d.token) then OnError(s, InvalidToken, None)
      else OnConnected(s, ctx, d.token.value, walletReply)
    else if d.code == EventTransactionApproved then OnApproved(s, d)
    else if d.code == EventTransactionRejected then
      Emit(s, "transaction-rejected", Undefined)
    else if d.code == EventTransactionFailed then
      Emit(s, "transaction-failed", FailedData(d.transactionId, d.transactionStatus, d.reasons))
    else s
  }

  /** The `message` listener: origin filter, then dispatch on `data.type`.
      LOG goes to the host's log sink, which changes nothing here. */
  function ReceiveMessage(s: State, ctx: Context, m: Message, walletReply: Reply): State
  {
    if m.origin != ctx.domain then s
    else if m.data.kind == "ERROR" then
      if m.data.messages.None? then s
      else OnError(s, m.data.code, m.data.messages)
    else if m.data.kind == "EVENT" then OnEvent(s, ctx, m.data, walletReply)
    else s
  }
}
