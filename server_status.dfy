/**
 * The `ServerStatus` component's health check: a tri-state `isOnline`
 * (`null` until the first check completes), the time of the last check,
 * a busy flag, and the `onStatusChange` notifications it sends. The
 * timeout, the 30-second interval and the clock are outside the model: a
 * timed-out request is one more thrown outcome, and the current time is
 * a parameter.
 */
module ServerStatus {
  import opened Wrappers
  import opened ApiConfig
  import opened Http
  import opened JsString

  /** The endpoint every check requests. */
  const HealthEndpoint: string := "/api/matches"

  /** A check reports the server online exactly when a 2xx response arrives. */
  function CheckResult(o: FetchOutcome): (online: bool)
    ensures online <==> o.Responded? && IsOk(o.status)
  {
    match o
    case Responded(status, _, _) => IsOk(status)
    case Rejected(_) => false
  }

  /** `getStatusColor()`: grey while unknown, green when online, red when offline. */
  function StatusColor(isOnline: Option<bool>): (color: string)
    ensures color == "bg-gray-400" <==> isOnline.None?
    ensures color == "bg-green-400" <==> isOnline == Some(true)
    ensures color == "bg-red-400" <==> isOnline == Some(false)
  {
    match isOnline
    case None => "bg-gray-400"
    case Some(true) => "bg-green-400"
    case Some(false) => "bg-red-400"
  }

  /** `getStatusText()`: each of the three labels belongs to exactly one state. */
  function StatusText(isOnline: Option<bool>): (text: string)
    ensures text == "Checking..." <==> isOnline.None?
    ensures text == "Online" <==> isOnline == Some(true)
    ensures text == "Offline" <==> isOnline == Some(false)
  {
    match isOnline
    case None => "Checking..."
    case Some(true) => "Online"
    case Some(false) => "Offline"
  }

  /** `getStatusDescription()`: the waiting text exactly while the state is unknown. */
  function StatusDescription(isOnline: Option<bool>): (d: string)
    ensures d == "Checking server status..." <==> isOnline.None?
    ensures isOnline.Some? ==> EndsWith(d, if isOnline.value then "normally" else "running.")
  {
    match isOnline
    case None => "Checking server status..."
    case Some(true) => "Server is responding normally"
    case Some(false) => "Server is not responding. Check if the backend is running."
  }

  /*
   * The three renderings make the same three-way split: each tells the
   * three states apart, so any one of them determines the state.
   */

  lemma StatusTextSplits(a: Option<bool>, b: Option<bool>)
    ensures StatusText(a) == StatusText(b) <==> a == b
  {
    if a != b {
      assert |StatusText(a)| != |StatusText(b)|;
    }
  }

  lemma StatusColorSplits(a: Option<bool>, b: Option<bool>)
    ensures StatusColor(a) == StatusColor(b) <==> a == b
  {
    if a != b {
      assert |StatusColor(a)| != |StatusColor(b)|;
    }
  }

  lemma StatusDescriptionSplits(a: Option<bool>, b: Option<bool>)
    ensures StatusDescription(a) == StatusDescription(b) <==> a == b
  {
    var checking, up, down := StatusDescription(None), StatusDescription(Some(true)), StatusDescription(Some(false));
    assert up[|up| - 1] != checking[|checking| - 1] && up[|up| - 1] != down[|down| - 1];
    assert checking[|checking| - 2] != down[|down| - 2];
  }

  /** One mounted `ServerStatus` component. */
  class ServerStatus {
    const baseUrl: string
    var isOnline: Option<bool>
    var lastChecked: Option<int>
    var isChecking: bool
    /** The URLs requested, in order. */
    var requests: seq<string>
    /** The arguments of the `onStatusChange` calls, in order. */
    var notifications: seq<bool>

    /** The displayed state is the one last reported, and unknown before any report. */
    ghost predicate Valid()
      reads this
    {
      && (notifications == [] <==> isOnline.None?)
      && (notifications != [] ==> isOnline == Some(notifications[|notifications| - 1]))
      && (lastChecked.None? ==> isOnline.None?)
    }

    constructor(baseUrl: string)
      ensures Valid()
      ensures this.baseUrl == baseUrl
      ensures isOnline.None? && lastChecked.None? && !isChecking
      ensures requests == [] && notifications == []
    {
      this.baseUrl := baseUrl;
      isOnline := None;
      lastChecked := None;
      isChecking := false;
      requests := [];
      notifications := [];
    }

    /** `checkServerStatus()`, where the request yields `outcome` and the clock reads `now`. */
    method CheckServerStatus(outcome: FetchOutcome, now: int)
      requires Valid()
      modifies this
      ensures Valid()
      ensures isOnline == Some(CheckResult(outcome))
      ensures notifications == old(notifications) + [CheckResult(outcome)]
      ensures requests == old(requests) + [BuildApiUrl(baseUrl, HealthEndpoint)]
      ensures !isChecking && lastChecked == Some(now)
    {
      isChecking := true;
      var url := BuildApiUrl(baseUrl, HealthEndpoint);
      requests := requests + [url];
      match outcome {
        case Responded(status, _, _) =>
          if IsOk(status) {
            Record(true);
          } else {
            Record(false);
          }
        case Rejected(_) =>
          Record(false);
      }
      isChecking := false;
      lastChecked := Some(now);
    }

    /** `setIsOnline(online); onStatusChange(online)` */
    method Record(online: bool)
      modifies this
      ensures isOnline == Some(online) && notifications == old(notifications) + [online]
      ensures requests == old(requests) && isChecking == old(isChecking) && lastChecked == old(lastChecked)
    {
      isOnline := Some(online);
      notifications := notifications + [online];
    }
  }

  /**
   * After a check the component shows a definite state: "Online" with a
   * 2xx response, "Offline" for any other status or a thrown request.
   */
  lemma StatusAfterCheck(o: FetchOutcome)
    ensures StatusText(Some(CheckResult(o))) == if o.Responded? && IsOk(o.status) then "Online" else "Offline"
    ensures StatusText(Some(CheckResult(o))) != StatusText(None)
  {
  }
}
