/** The status vocabularies shared by every component (types/types.go, utils/pod/util.go). */
module PodTypes {

  /** The service whose network the others share. */
  const INFRA_SERVICE := "networkproxy"

  datatype Option<+T> = None | Some(value: T)

  datatype PodStatus =
    | Staging
    | Starting
    | Running
    | Failed
    | Killed
    | Finished
    | PullFailed
    | ComposeCheckFailed
    | Empty

  datatype HealthStatus = HealthStarting | Healthy | Unhealthy | UnknownHealth

  /** One container of the pod, as docker-compose lists it. */
  datatype SvcContainer = SvcContainer(serviceName: string, containerId: string, pid: string)

  /** The statuses `SendPodStatus` refuses to leave. */
  predicate Final(status: PodStatus) {
    status.Failed? || status.Killed? || status.Finished?
  }

  function PodStatusString(status: PodStatus): string {
    match status
    case Staging => "POD_STAGING"
    case Starting => "POD_STARTING"
    case Running => "POD_RUNNING"
    case Failed => "POD_FAILED"
    case Killed => "POD_KILLED"
    case Finished => "POD_FINISHED"
    case PullFailed => "POD_PULL_FAILED"
    case ComposeCheckFailed => "POD_COMPOSE_CHECK_FAILED"
    case Empty => ""
  }

  function ToPodStatus(s: string): PodStatus {
    if s == "POD_STAGING" then Staging
    else if s == "POD_STARTING" then Starting
    else if s == "POD_RUNNING" then Running
    else if s == "POD_FAILED" then Failed
    else if s == "POD_KILLED" then Killed
    else if s == "POD_FINISHED" then Finished
    else if s == "POD_PULL_FAILED" then PullFailed
    else if s == "POD_COMPOSE_CHECK_FAILED" then ComposeCheckFailed
    else Empty
  }

  function ToHealthStatus(s: string): HealthStatus {
    if s == "starting" then HealthStarting
    else if s == "healthy" then Healthy
    else if s == "unhealthy" then Unhealthy
    else UnknownHealth
  }

  /** The verdicts cross a string channel between the health check and the launch tail;
      nothing is lost on the way. */
  lemma {:induction false} PodStatusSurvivesChannel(status: PodStatus)
    ensures ToPodStatus(PodStatusString(status)) == status
    ensures PodStatusString(status) == "" <==> status.Empty?
  {
    var s := PodStatusString(status);
    match status
    case Staging =>
    case Starting => assert |s| != |"POD_STAGING"|;
    case Running => assert s[5] != "POD_STAGING"[5];
    case Failed =>
    case Killed => assert s[4] != "POD_FAILED"[4];
    case Finished => assert s[6] != "POD_STARTING"[6];
    case PullFailed =>
    case ComposeCheckFailed =>
    case Empty =>
  }
}
