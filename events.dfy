/**
 * The upstream envelope: an event type tag plus optional per-kind payloads,
 * as the firehose's protocol-buffer message carries them. Only the fields
 * the producer reads are kept; the rest of each payload is opaque here.
 */
module Events {
  import opened Wrappers

  datatype EventType =
    | HttpStart
    | HttpStop
    | HttpStartStop
    | LogMessage
    | ValueMetric
    | CounterEvent
    | Error
    | ContainerMetric

  /** The log-message payload; `appId` is an optional protocol-buffer string. */
  datatype LogMessagePayload = LogMessagePayload(appId: Option<string>)

  /** The container-metric payload; `applicationId` is optional likewise. */
  datatype ContainerMetricPayload = ContainerMetricPayload(applicationId: Option<string>)

  /**
   * The tag decides which payload is meaningful, but nothing forces the
   * matching payload to be present.
   */
  datatype Envelope = Envelope(
    eventType: EventType,
    logMessage: Option<LogMessagePayload>,
    containerMetric: Option<ContainerMetricPayload>)

  /**
   * `GetLogMessage().GetAppId()`: protocol-buffer getters are nil-safe, so a
   * missing payload or a missing id reads as the empty string.
   */
  function LogMessageAppId(e: Envelope): string {
    match e.logMessage
    case None => ""
    case Some(m) => if m.appId.Some? then m.appId.value else ""
  }

  /** `GetContainerMetric().GetApplicationId()`, nil-safe in the same way. */
  function ContainerMetricAppId(e: Envelope): string {
    match e.containerMetric
    case None => ""
    case Some(m) => if m.applicationId.Some? then m.applicationId.value else ""
  }
}
