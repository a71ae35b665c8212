/** Small pure helpers of the SDK: JavaScript truthiness and `substring`,
    the identity-service domain choice, the centre-ellipsis truncation and the
    client-configuration check. */
module Utils {
  import opened Wrappers

  /** `!!v` for a value that is a string or undefined: "" and undefined are falsy. */
  predicate Truthy(v: Option<string>)
  {
    v.Some? && v.value != ""
  }

  const DevelopmentDomain := "https://identity.development.palisade.co"
  const SandboxDomain := "https://identity.sandbox.palisade.co"
  const ProductionDomain := "https://identity.palisade.co"

  /** `getDomainForEnvironment`: a non-empty `domain` URL parameter wins; else
      the environment picks one of three domains, anything unknown (or absent)
      giving sandbox. */
  function DomainForEnvironment(environment: Option<string>, urlParam: Option<string>): (d: string)
    ensures Truthy(urlParam) ==> d == urlParam.value
    ensures !Truthy(urlParam) ==> d in {DevelopmentDomain, SandboxDomain, ProductionDomain}
    ensures !Truthy(urlParam) ==> (d == DevelopmentDomain <==> environment == Some("DEVELOPMENT"))
    ensures !Truthy(urlParam) ==> (d == ProductionDomain <==> environment == Some("PRODUCTION"))
    ensures !Truthy(urlParam) ==>
              (d == SandboxDomain <==> environment != Some("DEVELOPMENT") && environment != Some("PRODUCTION"))
  {
    if Truthy(urlParam) then urlParam.value
    else if environment == Some("DEVELOPMENT") then DevelopmentDomain
    else if environment == Some("SANDBOX") then SandboxDomain
    else if environment == Some("PRODUCTION") then ProductionDomain
    else SandboxDomain
  }

  /** A UTF-16 code unit: JavaScript strings are sequences of these, and
      `length` and `substring` count them. */
  newtype CodeUnit = x: int | 0 <= x < 0x1_0000

  /** A JavaScript string value. */
  type JsString = seq<CodeUnit>

  /** "..." as code units. */
  const Ellipsis: JsString := [0x2E, 0x2E, 0x2E]

  /** An index argument of `String.prototype.substring` clamped to [0, n]. */
  function Clamp(x: int, n: nat): (r: nat)
    ensures r <= n
    ensures 0 <= x <= n ==> r == x
    ensures x < 0 ==> r == 0
    ensures x > n ==> r == n
  {
    if x < 0 then 0 else if x > n then n else x
  }

  /** `s.substring(start, end)`: both indices are clamped into the string and
      swapped when `start` exceeds `end`. */
  function Substring<T>(s: seq<T>, start: int, end: int): (r: seq<T>)
    ensures |r| <= |s|
    ensures 0 <= start <= end <= |s| ==> r == s[start..end]
    ensures 0 <= end <= start <= |s| ==> r == s[end..start]
    ensures 0 <= start <= |s| <= end ==> r == s[start..]
    ensures 0 <= end <= |s| <= start ==> r == s[end..]
    ensures start <= 0 <= end <= |s| ==> r == s[..end]
    ensures end <= 0 <= start <= |s| ==> r == s[..start]
    ensures start <= 0 && end <= 0 ==> r == []
    ensures start >= |s| && end >= |s| ==> r == []
    ensures (start <= 0 && end >= |s|) || (end <= 0 && start >= |s|) ==> r == s
  {
    var a, b := Clamp(start, |s|), Clamp(end, |s|);
    if a <= b then s[a..b] else s[b..a]
  }

  /** `truncateWithCenterEllipsis(string, truncateLength = 5)`, lengths in
      UTF-16 code units. */
  function TruncateWithCenterEllipsis(s: JsString, truncateLength: int := 5): (r: JsString)
    ensures |s| <= truncateLength * 2 ==> r == s
    ensures truncateLength >= 0 && |s| > truncateLength * 2 ==>
              && |r| == 2 * truncateLength + 3
              && r[..truncateLength] == s[..truncateLength]
              && r[truncateLength..truncateLength + 3] == Ellipsis
              && r[truncateLength + 3..] == s[|s| - truncateLength..]
    ensures truncateLength < 0 ==> r == Ellipsis
  {
    var stringLength := |s|;
    if stringLength <= truncateLength * 2 then s
    else
      var prefix := Substring(s, 0, truncateLength);
      var suffix := Substring(s, stringLength - truncateLength, stringLength);
      prefix + Ellipsis + suffix
  }

  /** A string of 11 or 12 code units is "truncated" into a longer one with
      the default length: the check compares with 2 * 5, not 2 * 5 + 3. */
  lemma TruncationCanLengthen(s: JsString)
    requires |s| == 11
    ensures |TruncateWithCenterEllipsis(s)| == 13 > |s|
  {
  }

  /** Six characters outside the Basic Multilingual Plane (U+1F600 each) are
      twelve code units, so they are cut after the fifth unit, which is the
      first half of a surrogate pair. */
  lemma TruncationSplitsSurrogatePairs()
    ensures var emoji: JsString := [0xD83D, 0xDE00];
      var s := emoji + emoji + emoji + emoji + emoji + emoji;
      && TruncateWithCenterEllipsis(s) == [0xD83D, 0xDE00, 0xD83D, 0xDE00, 0xD83D] + Ellipsis
                                          + [0xDE00, 0xD83D, 0xDE00, 0xD83D, 0xDE00]
  {
  }

  /** The result of `#validateClientConfig`. */
  datatype Validation = IsValid | Invalid(errorCode: string)

  const InvalidClientConfigCode := "PAL.ERROR.003"

  /** `#validateClientConfig`: the configuration is valid exactly when its
      `clientId` is a string (None models a missing or non-string clientId). */
  function ValidateClientConfig(clientId: Option<string>): (v: Validation)
    ensures v.IsValid? <==> clientId.Some?
    ensures v.Invalid? ==> v.errorCode == InvalidClientConfigCode
  {
    if clientId.Some? then IsValid else Invalid(InvalidClientConfigCode)
  }
}
