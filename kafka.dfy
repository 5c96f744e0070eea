/**
 * The Kafka-backed nozzle producer: construction from the configuration,
 * topic resolution, per-envelope dispatch and the consume loop.
 */
module Kafka {
  import opened Wrappers
  import opened Fmt
  import opened Events
  import opened Config
  import opened Stream

  /** Topic name template for log messages, and the topic name for value metrics. */
  const TopicAppLogTmpl: string := "app-log-%s"
  const TopicCFMetric: string := "cf-metrics"

  /** Default topic name for each forwarded event kind. */
  const DefaultContainerMetricTopic: string := "container-metric"
  const DefaultValueMetricTopic: string := "value-metric"
  const DefaultLogMessageTopic: string := "log-message"

  const DefaultKafkaRetryMax: int := 5
  /** 100 * time.Millisecond, in milliseconds. */
  const DefaultKafkaRetryBackoffMs: int := 100

  const ErrNoBrokers: string := "brokers are not provided"

  // ---------------------------------------------------------------------
  // The broker client's side, as far as the producer touches it.

  datatype Partitioner = HashPartitioner | RoundRobinPartitioner

  datatype RequiredAcks = NoResponse | WaitForLocal | WaitForAll

  /** The producer settings of the broker client's configuration. */
  datatype ProducerConfig = ProducerConfig(
    partitioner: Partitioner,
    returnSuccesses: bool,
    requiredAcks: RequiredAcks,
    retryMax: int,
    retryBackoffMs: int)

  /** The client library's own defaults; the constructor overwrites every one of them. */
  function NewConfig(): ProducerConfig {
    ProducerConfig(HashPartitioner, false, WaitForLocal, 3, 100)
  }

  /** The lazily serialised payload: only the envelope it will encode. */
  datatype JsonEncoder = JsonEncoder(event: Envelope)

  /** One record submitted to the broker client's input channel. */
  datatype ProducerMessage = ProducerMessage(topic: string, value: JsonEncoder)

  // ---------------------------------------------------------------------
  // The stats sink.

  /** The counter keys the producer uses. */
  datatype StatsType = Consume

  class Stats {
    var counts: map<StatsType, nat>

    constructor ()
      ensures counts == map[]
    {
      counts := map[];
    }

    function Count(t: StatsType): nat
      reads this
    {
      if t in counts then counts[t] else 0
    }

    method Inc(t: StatsType)
      modifies this
      ensures counts == old(counts)[t := old(Count(t)) + 1]
    {
      counts := counts[t := Count(t) + 1];
    }
  }

  // ---------------------------------------------------------------------
  // The producer.

  /** A format string is either unset or a one-verb template. */
  predicate FormatOk(f: string) {
    f == "" || IsTemplate(f)
  }

  class KafkaProducer {
    /** The broker client, fixed at construction. */
    const brokers: seq<string>
    const producerConfig: ProducerConfig

    /** The resolved topic configuration, fixed at construction. */
    const logMessageTopic: string
    const logMessageTopicFmt: string
    const valueMetricTopic: string
    const containerMetricTopic: string
    const containerMetricTopicFmt: string

    const stats: Stats

    /** Every record handed to the broker client's input channel, oldest first. */
    var brokerInput: seq<ProducerMessage>

    /** Static names are filled in, and any format string is a one-verb template. */
    predicate Valid() {
      && logMessageTopic != ""
      && valueMetricTopic != ""
      && containerMetricTopic != ""
      && FormatOk(logMessageTopicFmt)
      && FormatOk(containerMetricTopicFmt)
    }

    constructor (brokers: seq<string>, producerConfig: ProducerConfig, stats: Stats,
                 logMessageTopic: string, logMessageTopicFmt: string,
                 valueMetricTopic: string,
                 containerMetricTopic: string, containerMetricTopicFmt: string)
      requires logMessageTopic != "" && valueMetricTopic != "" && containerMetricTopic != ""
      requires FormatOk(logMessageTopicFmt) && FormatOk(containerMetricTopicFmt)
      ensures Valid()
      ensures this.brokers == brokers && this.producerConfig == producerConfig && this.stats == stats
      ensures this.logMessageTopic == logMessageTopic && this.logMessageTopicFmt == logMessageTopicFmt
      ensures this.valueMetricTopic == valueMetricTopic
      ensures this.containerMetricTopic == containerMetricTopic
      ensures this.containerMetricTopicFmt == containerMetricTopicFmt
      ensures brokerInput == []
    {
      this.brokers := brokers;
      this.producerConfig := producerConfig;
      this.stats := stats;
      this.logMessageTopic := logMessageTopic;
      this.logMessageTopicFmt := logMessageTopicFmt;
      this.valueMetricTopic := valueMetricTopic;
      this.containerMetricTopic := containerMetricTopic;
      this.containerMetricTopicFmt := containerMetricTopicFmt;
      brokerInput := [];
    }

    /**
     * A set format string wins and is rendered with the app id in place of
     * its verb; otherwise the static name is used, whatever the app id.
     */
    function LogMessageTopic(appID: string): (topic: string)
      requires Valid()
      ensures logMessageTopicFmt == "" ==> topic == logMessageTopic && topic != ""
      ensures forall i :: VerbAt(logMessageTopicFmt, i) ==>
                topic == logMessageTopicFmt[..i] + appID + logMessageTopicFmt[i + 2..]
    {
      if logMessageTopicFmt != "" then Sprintf(logMessageTopicFmt, appID) else logMessageTopic
    }

    /** Value metrics are not scoped to an app: always the one resolved name. */
    function ValueMetricTopic(): (topic: string)
      requires Valid()
      ensures topic == valueMetricTopic && topic != ""
    {
      valueMetricTopic
    }

    /** As LogMessageTopic, with the container-metric format string and name. */
    function ContainerMetricTopic(appID: string): (topic: string)
      requires Valid()
      ensures containerMetricTopicFmt == "" ==> topic == containerMetricTopic && topic != ""
      ensures forall i :: VerbAt(containerMetricTopicFmt, i) ==>
                topic == containerMetricTopicFmt[..i] + appID + containerMetricTopicFmt[i + 2..]
    {
      if containerMetricTopicFmt != "" then Sprintf(containerMetricTopicFmt, appID) else containerMetricTopic
    }

    /**
     * The record the dispatcher submits for one envelope, if any. Five kinds
     * are dropped; the other three are forwarded with the envelope itself as
     * payload, on the topic their resolver picks.
     */
    function MessageFor(e: Envelope): (m: Option<ProducerMessage>)
      requires Valid()
      ensures m.None? <==> e.eventType in {HttpStart, HttpStartStop, HttpStop, CounterEvent, Error}
      ensures m.Some? ==> m.value.value == JsonEncoder(e)
      ensures m.Some? && e.eventType == LogMessage ==> m.value.topic == LogMessageTopic(LogMessageAppId(e))
      ensures m.Some? && e.eventType == ValueMetric ==> m.value.topic == valueMetricTopic
      ensures m.Some? && e.eventType == ContainerMetric ==>
                m.value.topic == ContainerMetricTopic(ContainerMetricAppId(e))
    {
      match e.eventType
      case LogMessage => Some(ProducerMessage(LogMessageTopic(LogMessageAppId(e)), JsonEncoder(e)))
      case ValueMetric => Some(ProducerMessage(ValueMetricTopic(), JsonEncoder(e)))
      case ContainerMetric => Some(ProducerMessage(ContainerMetricTopic(ContainerMetricAppId(e)), JsonEncoder(e)))
      case _ => None
    }

    /** The records submitted for a sequence of envelopes, in order. */
    function Messages(events: seq<Envelope>): (ms: seq<ProducerMessage>)
      requires Valid()
      ensures |ms| <= |events|
    {
      if events == [] then [] else MessageFor(events[0]).ToSeq() + Messages(events[1..])
    }

    /** The positions of the envelopes in `events` that the dispatcher forwards. */
    ghost function ForwardedIndices(events: seq<Envelope>): set<int>
      requires Valid()
    {
      set k | 0 <= k < |events| && MessageFor(events[k]).Some?
    }

    /** Appending an envelope adds its position exactly when it is forwarded. */
    lemma ForwardedIndicesSnoc(init: seq<Envelope>, e: Envelope)
      requires Valid()
      ensures ForwardedIndices(init + [e]) ==
                ForwardedIndices(init) + (if MessageFor(e).Some? then {|init|} else {})
    {
      var events := init + [e];
      forall k | 0 <= k < |init| ensures events[k] == init[k] {}
      assert events[|init|] == e;
    }

    /** Exactly one record per forwarded envelope. */
    lemma {:induction false} MessagesCount(events: seq<Envelope>)
      requires Valid()
      ensures |Messages(events)| == |ForwardedIndices(events)|
      decreases |events|
    {
      if events == [] {
        assert ForwardedIndices(events) == {};
      } else {
        var n := |events| - 1;
        var init, e := events[..n], events[n];
        assert events == init + [e];
        MessagesCount(init);
        MessagesAppend(init, [e]);
        assert [e][1..] == [];
        assert |Messages([e])| == |MessageFor(e).ToSeq()|;
        ForwardedIndicesSnoc(init, e);
        assert n !in ForwardedIndices(init);
      }
    }

    /** Submission distributes over concatenation of the envelope stream. */
    lemma {:induction false} MessagesAppend(a: seq<Envelope>, b: seq<Envelope>)
      requires Valid()
      ensures Messages(a + b) == Messages(a) + Messages(b)
    {
      if a == [] {
        assert a + b == b;
      } else {
        assert (a + b)[0] == a[0] && (a + b)[1..] == a[1..] + b;
        MessagesAppend(a[1..], b);
      }
    }

    /**
     * A forwarded envelope's record sits right after the records of the
     * envelopes before it.
     */
    lemma MessageAt(events: seq<Envelope>, i: nat)
      requires Valid()
      requires i < |events| && MessageFor(events[i]).Some?
      ensures |Messages(events[..i])| < |Messages(events)|
      ensures Messages(events)[|Messages(events[..i])|] == MessageFor(events[i]).value
    {
      assert events == events[..i] + [events[i]] + events[i + 1..];
      MessagesAppend(events[..i] + [events[i]], events[i + 1..]);
      MessagesAppend(events[..i], [events[i]]);
      assert Messages([events[i]]) == [MessageFor(events[i]).value];
    }

    /**
     * Records keep the relative order of their envelopes: of two forwarded
     * envelopes, the earlier one's record comes first.
     */
    lemma MessagesOrder(events: seq<Envelope>, i: nat, j: nat)
      requires Valid()
      requires i < j < |events|
      requires MessageFor(events[i]).Some? && MessageFor(events[j]).Some?
      ensures |Messages(events[..i])| < |Messages(events[..j])| < |Messages(events)|
      ensures Messages(events)[|Messages(events[..i])|] == MessageFor(events[i]).value
      ensures Messages(events)[|Messages(events[..j])|] == MessageFor(events[j]).value
    {
      MessageAt(events, i);
      MessageAt(events, j);
      assert events[..j] == events[..i] + events[i..j];
      MessagesAppend(events[..i], events[i..j]);
      MessageAt(events[i..j], 0);
    }

    /**
     * `input`: dispatch one envelope. A forwarded kind bumps the Consume
     * counter and submits one record; a dropped kind changes nothing.
     */
    method Input(event: Envelope)
      requires Valid()
      modifies this, stats
      ensures brokerInput == old(brokerInput) + MessageFor(event).ToSeq()
      ensures MessageFor(event).Some? ==>
                stats.counts == old(stats.counts)[Consume := old(stats.Count(Consume)) + 1]
      ensures MessageFor(event).None? ==> stats.counts == old(stats.counts)
    {
      match event.eventType
      case HttpStart =>
      case HttpStartStop =>
      case HttpStop =>
      case LogMessage =>
        stats.Inc(Consume);
        var appID := LogMessageAppId(event);
        brokerInput := brokerInput + [ProducerMessage(LogMessageTopic(appID), JsonEncoder(event))];
      case ValueMetric =>
        stats.Inc(Consume);
        brokerInput := brokerInput + [ProducerMessage(ValueMetricTopic(), JsonEncoder(event))];
      case CounterEvent =>
      case Error =>
      case ContainerMetric =>
        stats.Inc(Consume);
        var appID := ContainerMetricAppId(event);
        brokerInput := brokerInput + [ProducerMessage(ContainerMetricTopic(appID), JsonEncoder(event))];
    }

    /**
     * The consume loop over one script of steps: every envelope delivered
     * before the first close or cancel step is dispatched, in order, and
     * nothing after that step is.
     */
    method Produce(script: seq<Step>) returns (exit: Exit)
      requires Valid()
      modifies this, stats
      ensures brokerInput == old(brokerInput) + Messages(Consumed(script))
      ensures stats.Count(Consume) == old(stats.Count(Consume)) + |Messages(Consumed(script))|
      ensures exit == ExitOf(script)
    {
      var i := 0;
      while i < |script|
        invariant 0 <= i <= |script|
        invariant |Consumed(script[..i])| == i
        invariant brokerInput == old(brokerInput) + Messages(Consumed(script[..i]))
        invariant stats.Count(Consume) == old(stats.Count(Consume)) + |Messages(Consumed(script[..i]))|
      {
        var step := script[i];
        assert script[..i + 1] == script[..i] + [step];
        if step.Close? || step.Cancel? {
          assert script == script[..i] + [step] + script[i + 1..];
          StopIsFinal(script[..i], step, script[i + 1..]);
          ExitAppend(script[..i], [step]);
          exit := if step.Close? then ChannelClosed else Cancelled;
          return;
        }
        ConsumedAppend(script[..i], [step]);
        assert Consumed([step]) == [step.event];
        MessagesAppend(Consumed(script[..i]), [step.event]);
        assert [step.event][1..] == [];
        Input(step.event);
        i := i + 1;
      }
      assert script[..i] == script;
      exit := Waiting;
    }

    /**
     * Value-metric records land on one topic whatever the envelopes hold;
     * the three-envelope run [ValueMetric, HttpStart, ValueMetric] yields
     * exactly the two value-metric records, in order.
     */
    lemma ValueMetricRun(v1: Envelope, h: Envelope, v2: Envelope)
      requires Valid()
      requires v1.eventType == ValueMetric && h.eventType == HttpStart && v2.eventType == ValueMetric
      ensures Messages([v1, h, v2]) ==
                [ProducerMessage(valueMetricTopic, JsonEncoder(v1)), ProducerMessage(valueMetricTopic, JsonEncoder(v2))]
    {
      assert [v1, h, v2][1..] == [h, v2];
      assert [h, v2][1..] == [v2];
      assert [v2][1..] == [];
      assert Messages([v2]) == [ProducerMessage(valueMetricTopic, JsonEncoder(v2))];
      assert Messages([h, v2]) == Messages([v2]);
    }

    /**
     * With the shipped template, a log message from app "app-42" is
     * submitted once, on topic "app-log-app-42", carrying that envelope.
     */
    lemma AppLogScenario(e: Envelope)
      requires Valid()
      requires logMessageTopicFmt == TopicAppLogTmpl
      requires e.eventType == LogMessage && e.logMessage == Some(LogMessagePayload(Some("app-42")))
      ensures Messages([e]) == [ProducerMessage("app-log-app-42", JsonEncoder(e))]
    {
      AppLogExample();
      assert [e][1..] == [];
    }

    /**
     * A format string that is the bare verb gives an empty topic name for
     * an envelope without an app id: the resolved name is not always non-empty.
     */
    lemma BareVerbGivesEmptyTopic()
      requires Valid()
      requires logMessageTopicFmt == "%s"
      ensures LogMessageTopic("") == ""
    {
    }
  }

  /**
   * Construction: retry and backoff defaults, the broker check, the call
   * into the client library (its outcome is `clientError`) and the default
   * topic names. A failure yields no producer.
   */
  method NewKafkaProducer(stats: Stats, config: Config, clientError: Option<string>)
    returns (r: Result<KafkaProducer, string>)
    requires FormatOk(config.kafka.topic.logMessageFmt) && FormatOk(config.kafka.topic.containerMetricFmt)
    ensures |config.kafka.brokers| < 1 ==> r == Failure(ErrNoBrokers)
    ensures |config.kafka.brokers| >= 1 && clientError.Some? ==> r == Failure(clientError.value)
    ensures |config.kafka.brokers| >= 1 && clientError.None? ==> r.Success?
    ensures r.Success? ==>
              && fresh(r.value) && r.value.Valid()
              && r.value.stats == stats && r.value.brokerInput == []
              && r.value.brokers == config.kafka.brokers
    ensures r.Success? ==>
              && r.value.producerConfig.partitioner == RoundRobinPartitioner
              && r.value.producerConfig.returnSuccesses
              && r.value.producerConfig.requiredAcks == WaitForAll
              && r.value.producerConfig.retryMax ==
                   (if config.kafka.retryMax == 0 then DefaultKafkaRetryMax else config.kafka.retryMax)
              && r.value.producerConfig.retryBackoffMs ==
                   (if config.kafka.retryBackoff == 0 then DefaultKafkaRetryBackoffMs else config.kafka.retryBackoff)
    ensures r.Success? ==>
              var t := config.kafka.topic;
              && r.value.logMessageTopic == (if t.logMessage == "" then DefaultLogMessageTopic else t.logMessage)
              && r.value.valueMetricTopic == (if t.valueMetric == "" then DefaultValueMetricTopic else t.valueMetric)
              && r.value.containerMetricTopic ==
                   (if t.containerMetric == "" then DefaultContainerMetricTopic else t.containerMetric)
              && r.value.logMessageTopicFmt == t.logMessageFmt
              && r.value.containerMetricTopicFmt == t.containerMetricFmt
  {
    var producerConfig := NewConfig();
    producerConfig := producerConfig.(partitioner := RoundRobinPartitioner);
    producerConfig := producerConfig.(returnSuccesses := true);
    producerConfig := producerConfig.(requiredAcks := WaitForAll);

    producerConfig := producerConfig.(retryMax := DefaultKafkaRetryMax);
    if config.kafka.retryMax != 0 {
      producerConfig := producerConfig.(retryMax := config.kafka.retryMax);
    }

    producerConfig := producerConfig.(retryBackoffMs := DefaultKafkaRetryBackoffMs);
    if config.kafka.retryBackoff != 0 {
      var backoff := config.kafka.retryBackoff;
      producerConfig := producerConfig.(retryBackoffMs := backoff);
    }

    var brokers := config.kafka.brokers;
    if |brokers| < 1 {
      return Failure(ErrNoBrokers);
    }

    if clientError.Some? {
      return Failure(clientError.value);
    }

    var kafkaTopic := config.kafka.topic;
    if kafkaTopic.logMessage == "" {
      kafkaTopic := kafkaTopic.(logMessage := DefaultLogMessageTopic);
    }
    if kafkaTopic.valueMetric == "" {
      kafkaTopic := kafkaTopic.(valueMetric := DefaultValueMetricTopic);
    }
    if kafkaTopic.containerMetric == "" {
      kafkaTopic := kafkaTopic.(containerMetric := DefaultContainerMetricTopic);
    }

    var kp := new KafkaProducer(brokers, producerConfig, stats,
                                kafkaTopic.logMessage, kafkaTopic.logMessageFmt,
                                kafkaTopic.valueMetric,
                                kafkaTopic.containerMetric, kafkaTopic.containerMetricFmt);
    return Success(kp);
  }
}
