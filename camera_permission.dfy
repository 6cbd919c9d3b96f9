/** The camera permission hook: which permission to ask for on this
    platform, how a check or request result maps to the hook's status, and
    the flags derived from that status. */
module CameraPermission {

  /** `CameraPermissionStatus`. */
  datatype Status = Checking | Granted | Denied | Blocked

  /** The values `check` and `request` resolve to (`RESULTS.*`), and any
      other value the library might return. */
  datatype PermissionResult = Unavailable | DeniedResult | Limited | GrantedResult | BlockedResult | Other(value: string)

  /** How the awaited call turns out: a result, or a throw. */
  datatype CallOutcome = Resolved(result: PermissionResult) | Threw

  datatype Platform = Android | Ios | OtherPlatform(name: string)

  datatype Permission = AndroidCamera | IosCamera

  /** `getCameraPermission`. */
  function PermissionFor(p: Platform): (r: Permission)
    ensures r == AndroidCamera <==> p == Android
  {
    if p == Android then AndroidCamera else IosCamera
  }

  /** The `switch` of `checkPermission`, with its `catch`. */
  function CheckStatus(outcome: CallOutcome): Status
  {
    match outcome
    case Threw => Denied
    case Resolved(r) =>
      match r
      case Unavailable => Denied
      case DeniedResult => Denied
      case Limited => Granted
      case GrantedResult => Granted
      case BlockedResult => Blocked
      case Other(_) => Denied
  }

  /** The result of `requestPermission`: the status it sets, what it
      returns, and whether it shows the settings alert. */
  datatype RequestResult = RequestResult(status: Status, result: bool, alertShown: bool)

  /** The `switch` of `requestPermission`, with its `catch`. */
  function RequestOutcome(outcome: CallOutcome): RequestResult
  {
    match outcome
    case Threw => RequestResult(Denied, false, false)
    case Resolved(r) =>
      match r
      case Unavailable => RequestResult(Denied, false, false)
      case DeniedResult => RequestResult(Denied, false, false)
      case Limited => RequestResult(Granted, true, false)
      case GrantedResult => RequestResult(Granted, true, false)
      case BlockedResult => RequestResult(Blocked, false, true)
      case Other(_) => RequestResult(Denied, false, false)
  }

  /** Check and request agree on the status for the same outcome; request
      returns true exactly when the status is granted and alerts exactly
      when it is blocked; neither ever goes back to checking. */
  lemma CheckAndRequestAgree(outcome: CallOutcome)
    ensures RequestOutcome(outcome).status == CheckStatus(outcome)
    ensures RequestOutcome(outcome).result <==> CheckStatus(outcome) == Granted
    ensures RequestOutcome(outcome).alertShown <==> CheckStatus(outcome) == Blocked
    ensures CheckStatus(outcome) != Checking
  {
  }

  /** Granted comes only from `granted` or `limited`, blocked only from
      `blocked`; everything else, a throw included, is denied. */
  lemma StatusMapping(outcome: CallOutcome)
    ensures CheckStatus(outcome) == Granted <==> outcome in {Resolved(Limited), Resolved(GrantedResult)}
    ensures CheckStatus(outcome) == Blocked <==> outcome == Resolved(BlockedResult)
    ensures CheckStatus(outcome) == Denied <==>
      outcome.Threw? || outcome.result.Unavailable? || outcome.result.DeniedResult? || outcome.result.Other?
  {
  }

  /** `hasPermission`, `isBlocked` and `isChecking`. */
  datatype Flags = Flags(hasPermission: bool, isBlocked: bool, isChecking: bool)

  function FlagsOf(s: Status): Flags
  {
    Flags(s == Granted, s == Blocked, s == Checking)
  }

  /** At most one flag holds, and all three are off exactly when denied. */
  lemma FlagsExclusive(s: Status)
    ensures !(FlagsOf(s).hasPermission && FlagsOf(s).isBlocked)
    ensures !(FlagsOf(s).hasPermission && FlagsOf(s).isChecking)
    ensures !(FlagsOf(s).isBlocked && FlagsOf(s).isChecking)
    ensures !FlagsOf(s).hasPermission && !FlagsOf(s).isBlocked && !FlagsOf(s).isChecking <==> s == Denied
  {
  }

  class PermissionHook {
    var status: Status

    constructor ()
      ensures status == Checking
    {
      status := Checking;
    }

    /** `checkPermission`. */
    method Check(outcome: CallOutcome)
      modifies this
      ensures status == CheckStatus(outcome)
    {
      if outcome.Threw? {
        status := Denied;
        return;
      }
      var r := outcome.result;
      if r == Unavailable || r == DeniedResult {
        status := Denied;
      } else if r == Limited || r == GrantedResult {
        status := Granted;
      } else if r == BlockedResult {
        status := Blocked;
      } else {
        status := Denied;
      }
    }

    /** `requestPermission`. */
    method Request(outcome: CallOutcome) returns (granted: bool, alertShown: bool)
      modifies this
      ensures RequestResult(status, granted, alertShown) == RequestOutcome(outcome)
      ensures granted <==> status == Granted
    {
      if outcome.Threw? {
        status := Denied;
        return false, false;
      }
      var r := outcome.result;
      if r == Unavailable || r == DeniedResult {
        status := Denied;
        return false, false;
      } else if r == Limited || r == GrantedResult {
        status := Granted;
        return true, false;
      } else if r == BlockedResult {
        status := Blocked;
        return false, true;
      }
      status := Denied;
      return false, false;
    }
  }
}
