/** The error classifier (`#utils.onError` in src/index.js): it turns an error
    code, and the optional list of error descriptions supplied by the identity
    service, into the payload of the public `error` event. */
module ErrorClassifier {
  import opened Wrappers

  // SDK error codes (sdkConfig.errorCodes)
  const NotConnected := "PAL.ERROR.101"
  const NoAuthToken := "PAL.ERROR.102"
  const UnableToGetWallet := "PAL.ERROR.103"
  const UnableToSignTransaction := "PAL.ERROR.104"
  const UnableToSubmitTransaction := "PAL.ERROR.105"
  const JwtNotAuthenticated := "PAL.ERROR.106"
  const InvalidTransactionHash := "PAL.ERROR.107"
  const InvalidToken := "PAL.ERROR.108"
  const InvalidTransactionDetails := "PAL.ERROR.109"

  /** The canned descriptions of the SDK's own errors (sdkConfig.errorMessages). */
  const SdkErrorMessages: map<string, string> := map[
    NotConnected := "You need to connect before you can approve a transaction",
    NoAuthToken := "No auth token set",
    UnableToGetWallet := "Unable to get wallet information",
    UnableToSignTransaction := "Unable to sign transaction",
    UnableToSubmitTransaction := "Unable to submit transaction",
    JwtNotAuthenticated := "JWT is not authenticated so the app has disconnected",
    InvalidTransactionHash := "Invalid transaction hash",
    InvalidToken := "The token provided on connection is invalid",
    InvalidTransactionDetails := "Transaction details are not populated correctly"
  ]

  /** An entry of the service-supplied error list; absent keys are None. */
  datatype ServiceMessage = ServiceMessage(code: string, level: Option<string>, title: Option<string>, description: Option<string>)

  /** The payload of the `error` event, one variant per level. A SERVICE
      payload is the service entry spread over `{level: 'SERVICE'}`, so an
      entry's own `level` key wins. */
  datatype ErrorPayload =
    | ServicePayload(level: string, entry: ServiceMessage)
    | SdkPayload(code: string, description: string)
    | UnknownPayload(errorCode: string)

  /** The `level` field of a payload as the host sees it. */
  function LevelOf(p: ErrorPayload): string
  {
    match p
    case ServicePayload(level, _) => level
    case SdkPayload(_, _) => "SDK"
    case UnknownPayload(_) => "UNKNOWN"
  }

  /** `errorMessages.find(m => m.code === errorCode)`, as an index. */
  function FindByCode(messages: seq<ServiceMessage>, code: string): (r: Option<nat>)
    ensures r.Some? ==> r.value < |messages| && messages[r.value].code == code
    ensures r.Some? ==> forall j :: 0 <= j < r.value ==> messages[j].code != code
    ensures r.None? <==> forall j :: 0 <= j < |messages| ==> messages[j].code != code
  {
    if messages == [] then None
    else if messages[0].code == code then Some(0)
    else match FindByCode(messages[1..], code)
      case None => None
      case Some(i) => Some(i + 1)
  }

  /** True when some service entry carries `code`. */
  predicate HasServiceEntry(errorMessages: Option<seq<ServiceMessage>>, code: string)
  {
    errorMessages.Some? && exists i :: 0 <= i < |errorMessages.value| && errorMessages.value[i].code == code
  }

  /** The three-way precedence: the first service entry with the code, else the
      SDK's canned description, else UNKNOWN carrying the raw code. */
  function Classify(errorCode: string, errorMessages: Option<seq<ServiceMessage>>): (p: ErrorPayload)
    ensures p.ServicePayload? <==> HasServiceEntry(errorMessages, errorCode)
    ensures p.ServicePayload? ==>
              && p.entry.code == errorCode
              && (exists i :: 0 <= i < |errorMessages.value| && errorMessages.value[i] == p.entry
                    && forall j :: 0 <= j < i ==> errorMessages.value[j].code != errorCode)
              && LevelOf(p) == (if p.entry.level.Some? then p.entry.level.value else "SERVICE")
    ensures p.SdkPayload? <==> !HasServiceEntry(errorMessages, errorCode) && errorCode in SdkErrorMessages
    ensures p.SdkPayload? ==> p.code == errorCode && p.description == SdkErrorMessages[errorCode]
    ensures p.UnknownPayload? ==> p.errorCode == errorCode && LevelOf(p) == "UNKNOWN"
  {
    var found := if errorMessages.Some? then FindByCode(errorMessages.value, errorCode) else None;
    if found.Some? then
      var entry := errorMessages.value[found.value];
      ServicePayload(if entry.level.Some? then entry.level.value else "SERVICE", entry)
    else if errorCode in SdkErrorMessages then
      SdkPayload(errorCode, SdkErrorMessages[errorCode])
    else
      UnknownPayload(errorCode)
  }

  /** Every SDK error code the controller raises has a canned description, so
      without a service list it is classified at level SDK. */
  lemma {:induction false} SdkCodesClassifyAsSdk(code: string)
    requires code in {NotConnected, NoAuthToken, UnableToGetWallet, UnableToSignTransaction,
                      UnableToSubmitTransaction, JwtNotAuthenticated, InvalidTransactionHash,
                      InvalidToken, InvalidTransactionDetails}
    ensures Classify(code, None) == SdkPayload(code, SdkErrorMessages[code])
    ensures LevelOf(Classify(code, None)) == "SDK"
  {
  }

  /** A service entry for a code shadows the SDK's own description of it: the
      payload is the first entry of the list carrying the code. */
  lemma ServiceEntryShadowsSdk(code: string, messages: seq<ServiceMessage>, k: nat)
    requires code in SdkErrorMessages
    requires k < |messages| && messages[k].code == code
    ensures Classify(code, Some(messages)).ServicePayload?
    ensures FindByCode(messages, code).Some? && FindByCode(messages, code).value <= k
    ensures Classify(code, Some(messages)).entry == messages[FindByCode(messages, code).value]
  {
    assert HasServiceEntry(Some(messages), code);
  }
}
