/**
 * The nozzle's configuration records, limited to the fields the
 * Kafka producer reads. Decoding them from a TOML file is not modelled.
 */
module Config {

  /** The `[kafka.topic]` table: static names and optional format strings. */
  datatype Topic = Topic(
    logMessage: string,
    logMessageFmt: string,
    valueMetric: string,
    containerMetric: string,
    containerMetricFmt: string)

  /** The `[kafka]` table; `retryBackoff` is in milliseconds, 0 means unset. */
  datatype Kafka = Kafka(
    brokers: seq<string>,
    topic: Topic,
    retryMax: int,
    retryBackoff: int)

  datatype Config = Config(kafka: Kafka)
}
