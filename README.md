# Kafka firehose nozzle: the producer's routing engine

This project models the Kafka-backed producer of the firehose nozzle. The
nozzle reads typed telemetry envelopes from a platform's event stream and
republishes three kinds of them as records on Kafka topics. The model
covers four parts of `kafka.go`:

- **Construction** (`NewKafkaProducer`). It defaults the retry count and
  the backoff, rejects an empty broker list, calls the client library, and
  fills in the default static topic names.
- **Topic resolution** (`LogMessageTopic`, `ValueMetricTopic`,
  `ContainerMetricTopic`). A format string, when set, is rendered with the
  app id. Otherwise the static name is used.
- **Dispatch** (`input`). Log messages, value metrics and container
  metrics bump the `Consume` counter and submit one record each. The other
  five kinds are dropped.
- **The consume loop** (`Produce`). It runs until the channel closes or
  the context is cancelled.

Files, one module each:

- `wrappers.dfy`: `Option` and `Result`.
- `fmt.dfy`: the one-verb subset of `fmt.Sprintf`.
- `events.dfy`: the envelope and its nil-safe getters.
- `config.dfy`: the configuration records.
- `stream.dfy`: the loop's input as an explicit script of steps.
- `kafka.dfy`: constants, the stats sink, the producer class and its constructor function.

Modelling choices:

- **Topic fields.** The producer's topic fields are never written after
  construction, so they are `const` fields of `KafkaProducer`.
- **The input channel.** The broker client's input channel is the `var`
  field `brokerInput`, an append-only sequence of `(topic, payload)`
  records.
- **Payload.** The payload is `JsonEncoder(event)`, an opaque reference to
  the envelope. Serialisation happens later, inside the client library.
- **The `select`.** `Produce`'s `select` over the envelope channel and
  `ctx.Done()` becomes a script of `Deliver(e)`, `Close` and `Cancel`
  steps. The script fixes which case fires next. A script that ends before
  any stop step ends the run with `Waiting`: the real loop would still be
  blocked at that point.
- **What the stop steps stand for.** A `Close` step is the receive that
  reports the channel closed (kafka.go:141). Go delivers that only after
  every envelope already buffered in the channel has been received. A
  `Cancel` step is the `select` taking its `ctx.Done()` case
  (kafka.go:148). It is not the moment the context is cancelled. While
  both cases are ready, Go picks one at random, so envelopes still pending
  after cancellation can be dispatched. The script allows any number of
  `Deliver` steps between the cancellation and the `Cancel` step. No
  property that cancellation takes precedence over pending envelopes is
  claimed. What is proved is that nothing after the `Cancel` step is
  dispatched.
- **The client library call.** `sarama.NewAsyncProducer` becomes the
  parameter `clientError` of `NewKafkaProducer`. It is the error that call
  returns, if any.
- **Format strings.** A format string must be unset or a *template*:
  exactly one `%`, and that `%` starts a `%s`. `NewKafkaProducer` and
  `KafkaProducer.Valid()` both require this. Go's output for any other
  format string is not part of the model.

Two behaviours of the code are easy to miss:

- **One counter for all kinds.** The code increments a single `Consume`
  counter for all three forwarded kinds (kafka.go:165, 172, 182). There is
  no counter per event kind.
- **The topic name can be empty.** A resolved topic name is not always
  non-empty. The static names are filled in, so they are never empty
  (`Valid()`). A format string that is the bare verb `%s`, rendered with an
  empty app id, gives `""`. An envelope whose payload or app id is missing
  reads as the empty app id, because protocol-buffer getters are nil-safe.
  `KafkaProducer.BareVerbGivesEmptyTopic` states this case.

`Events.LogMessageAppId` and `Events.ContainerMetricAppId` are the nil-safe
protocol-buffer getters `GetLogMessage().GetAppId()` and
`GetContainerMetric().GetApplicationId()` (kafka.go:166, 183). They are
helpers of `MessageFor` and have no contract beyond their definition.

## Model

| member | source | states |
|---|---|---|
| `Fmt.Sprintf` | kafka.go:115 | For a one-verb template, the app id replaces the `%s` verbatim and every other character stays in place; the length is the template's minus two plus the argument's |
| `Fmt.IsTemplateIff` | kafka.go:114-115 | The recursive template check holds exactly when there is one position carrying `%s` and no `%` anywhere else (both directions) |
| `Fmt.SprintfAtVerb` | kafka.go:127 | Every template has a definite verb position, and the rendered topic is the text before it, then the argument, then the text after it |
| `Fmt.AppLogExample` | kafka.go:17 | The shipped `app-log-%s` is a template, and rendering it with `app-42` gives `app-log-app-42` |
| `Stream.Consumed` | kafka.go:138-146 | The envelopes dispatched are exactly those delivered before the first close or cancel step, at their own positions and in arrival order |
| `Stream.ExitOf` | kafka.go:139-152 | The loop keeps waiting exactly when no stop step occurs; otherwise it returns as closed or cancelled according to the first stop step |
| `Stream.StopIsFinal` | kafka.go:141-151 | Whatever follows a close or cancel step, no further envelope is consumed and the loop exits the same way |
| `Stream.ConsumedAppend` | kafka.go:138-146 | After a stretch of deliveries, the envelopes consumed are those of the stretch followed by those of the rest |
| `Stream.ExitAppend` | kafka.go:138-152 | After a stretch of deliveries, the rest of the script alone decides how the loop exits |
| `Kafka.Stats.Inc` | kafka.go:165 | Increments one counter by one and leaves every other counter as it was |
| `Kafka.KafkaProducer.constructor` | kafka.go:76-85 | The producer captures the client, the stats sink and the resolved topic configuration; nothing has been submitted yet |
| `Kafka.KafkaProducer.LogMessageTopic` | kafka.go:113-119 | With a format string, the template rendered with the app id substituted verbatim at its verb; without one, the static name, which is non-empty and the same for every app id |
| `Kafka.KafkaProducer.ValueMetricTopic` | kafka.go:121-123 | Always the resolved value-metric name, which is never empty; it has no envelope input |
| `Kafka.KafkaProducer.ContainerMetricTopic` | kafka.go:125-131 | As for log messages, using the container-metric format string and static name |
| `Kafka.KafkaProducer.MessageFor` | kafka.go:156-189 | No record for exactly the five dropped kinds; for the other three, one record carrying the envelope itself, on the topic that kind's resolver gives for the envelope's app id |
| `Kafka.KafkaProducer.MessagesCount` | kafka.go:164-187 | The number of records submitted for a sequence of envelopes is the number of its positions holding a forwarded kind. With `Produce`, the Consume counter grows by one per forwarded envelope consumed |
| `Kafka.KafkaProducer.MessagesAppend` | kafka.go:138-146 | The records for two consecutive stretches of envelopes are those of the first stretch followed by those of the second |
| `Kafka.KafkaProducer.MessageAt` | kafka.go:164-187 | A forwarded envelope's record comes right after the records for all envelopes before it |
| `Kafka.KafkaProducer.MessagesOrder` | kafka.go:138-146 | Of two forwarded envelopes, the earlier one's record is submitted first |
| `Kafka.KafkaProducer.Input` | kafka.go:156-189 | A forwarded envelope adds exactly one record and one to the Consume counter; a dropped one changes neither |
| `Kafka.KafkaProducer.Produce` | kafka.go:134-154 | The records submitted are those of the envelopes consumed before the first close or cancel step, in arrival order; the Consume counter grows by their number; the exit reason is that step's kind |
| `Kafka.KafkaProducer.ValueMetricRun` | kafka.go:171-176 | The run [ValueMetric, HttpStart, ValueMetric] gives exactly two records, both on the value-metric topic, in order |
| `Kafka.KafkaProducer.AppLogScenario` | kafka.go:164-170 | With template `app-log-%s`, a log message from `app-42` gives one record on `app-log-app-42` carrying that envelope |
| `Kafka.KafkaProducer.BareVerbGivesEmptyTopic` | kafka.go:113-119 | With format string `%s` and an empty app id, the resolved topic name is empty |
| `Kafka.NewKafkaProducer` | kafka.go:33-86 | Fails with "brokers are not provided" for an empty broker list. Otherwise it fails with the client library's error if there is one. Otherwise it returns a fresh valid producer: round robin, all-replica acks, retry max 5 or the configured nonzero value, backoff 100 ms or the configured nonzero value, empty static names replaced by their defaults, others kept |

## Left out

- Format strings other than one-verb templates: Go's `fmt.Sprintf` output for them (`%!s(MISSING)`, `%!(EXTRA …)`, `%%`, other verbs) is not modelled, and construction requires a template.
- NewKafkaProducer: the backoff is kept in integer milliseconds, so the int64 nanosecond overflow of `time.Duration(ms) * time.Millisecond` for values beyond about 292 years is not modelled.
- NewKafkaProducer: what `sarama.NewAsyncProducer` does is abstract (its error is a parameter); the client's partitioning, acknowledgement and success/error streams, retries and `Close` flushing are library behaviour.
- The `Logger` field, the `sync.Once` default-logger initialisation and every log line: side effects only.
- The `Errors()` and `Close()` methods the producer inherits from the client library: client behaviour with no logic in this file.
- The `Stats` type is not part of this model; only its `Inc(Consume)` call is, as a counter map keyed by `StatsType`, of which only `Consume` is used here.
- A nil envelope pointer read from the channel, and event-type codes outside the eight named kinds: both fall through the dispatch switch as no-ops in Go; the model's envelopes always carry one of the eight kinds.
- The debug `LogProducer` (producer.go) and configuration loading from TOML (config.go): outside the producer core; the configuration records keep only the fields the Kafka producer reads.
- Blocking on a full broker input channel (backpressure) and the real concurrency of `select`: a script of steps fixes the order of events instead.
- Purity of the resolvers (same inputs, same topic) needs no lemma: they are Dafny functions.
