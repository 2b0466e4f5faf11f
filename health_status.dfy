/**
 * The connection indicator (src/components/HealthStatus.tsx): a colour and a
 * label chosen by two priority chains over the health hook's loading flag,
 * error and health verdict. The 30-second poll is one `CheckHealth` per tick.
 */
module HealthStatus {
  import opened Common
  import opened UseApi

  datatype Color = Yellow | Red | Green

  /** `getStatusColor()`; `!isHealthy` holds for false and for null. */
  function StatusColor(isLoading: bool, error: Option<string>, isHealthy: Option<bool>): (c: Color)
    ensures isLoading ==> c == Yellow
    ensures c == Green <==> !isLoading && !Truthy(error) && isHealthy == Some(true)
    ensures c == Red <==> !isLoading && (Truthy(error) || isHealthy != Some(true))
  {
    if isLoading then Yellow
    else if Truthy(error) || isHealthy != Some(true) then Red
    else Green
  }

  /** `getStatusText()` */
  function StatusText(isLoading: bool, error: Option<string>, isHealthy: Option<bool>): (t: string)
    ensures isLoading ==> t == "Checking..."
    ensures !isLoading && Truthy(error) ==> t == "Disconnected"
    ensures t == "Connected" <==> !isLoading && !Truthy(error) && isHealthy == Some(true)
    ensures t == "Unknown" <==> !isLoading && !Truthy(error) && isHealthy != Some(true)
  {
    if isLoading then "Checking..."
    else if Truthy(error) then "Disconnected"
    else if isHealthy == Some(true) then "Connected"
    else "Unknown"
  }

  /** The two chains agree: green exactly when the label is "Connected", yellow exactly while checking. */
  lemma ColorMatchesText(isLoading: bool, error: Option<string>, isHealthy: Option<bool>)
    ensures StatusColor(isLoading, error, isHealthy) == Green <==> StatusText(isLoading, error, isHealthy) == "Connected"
    ensures StatusColor(isLoading, error, isHealthy) == Yellow <==> StatusText(isLoading, error, isHealthy) == "Checking..."
  {
  }

  /**
   * After a check settles: an "ok" reply shows green "Connected", any other
   * reply red "Unknown"; a failure shows red, labelled "Disconnected" unless
   * the thrown message was empty, which is falsy and shows "Unknown".
   */
  method IndicatorAfterCheck(call: Result<HealthResponse, Thrown>) returns (c: Color, t: string)
    ensures call.Ok? && call.value.status == "ok" ==> c == Green && t == "Connected"
    ensures call.Ok? && call.value.status != "ok" ==> c == Red && t == "Unknown"
    ensures call.Err? ==> c == Red
    ensures call.Err? ==> (t == "Disconnected" <==> MessageOr(call.error, HealthFailedMessage) != "")
  {
    var h := new Health();
    h.CheckHealth(call);
    c := StatusColor(h.isLoading, h.error, h.isHealthy);
    t := StatusText(h.isLoading, h.error, h.isHealthy);
  }
}
