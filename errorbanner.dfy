/** The error banner: an icon and a colour chosen by error code, the
    message, an optional status line and the retry and dismiss buttons. */
module ErrorBanner {
  import opened ChatApi

  /** The codes with an icon of their own. */
  const KnownCodes: seq<string> := ["NETWORK", "AUTH", "RATE_LIMIT", "SERVER", "TIMEOUT"]

  const DefaultIcon: string := "\U{274C}"
  const DestructiveStyle: string := "bg-destructive/10 border-destructive/50"
  const AccentStyle: string := "bg-accent/10 border-accent/50"

  /** `getIcon`: one icon per known code, the cross for every other. */
  function Icon(code: string): (r: string)
    ensures r == DefaultIcon <==> code !in KnownCodes
  {
    match code
    case "NETWORK" => "\U{1F310}"
    case "AUTH" => "\U{1F512}"
    case "RATE_LIMIT" => "\U{23F1}\U{FE0F}"
    case "SERVER" => "\U{26A0}\U{FE0F}"
    case "TIMEOUT" => "\U{23F0}"
    case _ => DefaultIcon
  }

  /** `getBgColor`: the accent style is for rate limiting only; every other
      code, authentication included, gets the destructive style. */
  function BgColor(code: string): (r: string)
    ensures r == AccentStyle <==> code == "RATE_LIMIT"
    ensures r == AccentStyle || r == DestructiveStyle
  {
    match code
    case "AUTH" => DestructiveStyle
    case "RATE_LIMIT" => AccentStyle
    case _ => DestructiveStyle
  }

  datatype Banner = Banner(
    icon: string, bgColor: string, message: string,
    statusLine: Option<int>, retryButton: bool, dismissButton: bool)

  /** A missing error renders nothing. Otherwise the banner shows the
      message, the status line only for a positive status, the retry button
      only for a retryable error when a retry handler is supplied, and the
      dismiss button always. */
  function Render(error: Option<ChatError>, hasOnRetry: bool): (r: Option<Banner>)
    ensures r.None? <==> error.None?
    ensures r.Some? ==> (r.value.statusLine.Some? <==> error.value.status > 0)
    ensures r.Some? && r.value.statusLine.Some? ==> r.value.statusLine.value == error.value.status
    ensures r.Some? ==> (r.value.retryButton <==> error.value.canRetry && hasOnRetry)
    ensures r.Some? ==> r.value.dismissButton && r.value.message == error.value.message
    ensures r.Some? ==> r.value.icon == Icon(error.value.code) && r.value.bgColor == BgColor(error.value.code)
  {
    if error.None? then None
    else
      var e := error.value;
      Some(Banner(Icon(e.code), BgColor(e.code), e.message,
                  if e.status > 0 then Some(e.status) else None,
                  e.canRetry && hasOnRetry, true))
  }

  /** The known codes have pairwise different icons. */
  lemma KnownIconsDistinct(i: nat, j: nat)
    requires i < j < |KnownCodes|
    ensures Icon(KnownCodes[i]) != Icon(KnownCodes[j])
  {
  }
}
