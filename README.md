# reactivetools in Dafny

A verified model of the core of `reactivetools`, a Go toolkit for building
Kafka-driven workers. The toolkit has two bounded, ordered pipelines and the
components around them:

- **The check pipeline** (`checkservice.go`). A check-order provider reads
  orders from a Kafka topic. Each order is admitted under a parallelism bound
  and processed by a user function that is retried until it returns nil. Its
  result is published, also retried until nil. Finished orders are then
  acknowledged: the acknowledgement queue is coalesced to its newest order,
  whose offset commit covers every order before it.
- **The changes pipeline** (`changesconsumerservice.go`). It has the same
  shape for change events. An event is saved to SQL, not published.
- **The components.** The order and changes providers, with their filtering
  and the acks of skipped messages. The SQL saver and its value converters.
  The result publisher. The statistics path: DTO conversion, the expiring
  cache, the aggregator, the sender and the HTTP handler. The root that
  wires the service and collects the errors of its constructors.

Each Go file becomes one Dafny module:

| Dafny file | Go source |
|---|---|
| `base.dfy` | shared types: `Option`, `Result`, errors, config, Kafka message, 64-bit durations |
| `text.dfy` | `strings.ReplaceAll(",", ";")`, `strconv.Itoa`/`Atoi`, `strings.Join` |
| `stages.dfy` | the retry-until-nil loops and `lastOrDefault*` shared by both pipelines |
| `checkorder.dfy`, `checkresult.dfy`, `checkprocessor.dfy` | `checkorder.go`, `checkresult.go`, `checkprocessor.go` |
| `checkservice.dfy` | `checkservice.go` |
| `changesconsumer.dfy` | `changesconsumerservice.go` |
| `orderprovider.dfy`, `changesprovider.dfy` | `orderprovider.go`, `changesprovider.go` |
| `changessaver.dfy` | `changessaversimplesql.go` |
| `resultpublisher.dfy` | `resultpublisher.go` |
| `statistic.dfy`, `cache.dfy`, `aggregator.dfy`, `sender.dfy` | `statistic/dto.go`, `statistic/cache.go`, `statistic/aggregator.go`, `statistic/sender.go` |
| `statisticservice.dfy` | `statisticservice.go` |
| `checkserviceroot.dfy` | `checkserviceroot.go` |

**Pure code** is modelled as functions. This covers constructors, DTO
mapping, conversions, filtering and the error composition.

**Stateful code** is modelled as classes with `modifies` clauses:

- each pipeline (`CheckService.Pipeline`, `ChangesConsumer.Pipeline`);
- each provider goroutine (`OrderProvider.Provider`, `ChangesProvider.Provider`);
- the statistics cache and aggregator;
- the SQL table.

Every goroutine of a pipeline becomes one or more atomic step methods. A
goroutine that receives an item and then waits on it or blocks sending it
on holds that item between its steps (`pushing` and `awaiting` in the check
pipeline, `waiting` in the changes pipeline). A step that would block (a
full or empty channel, an order with no result yet) reports that it is not
enabled and changes nothing. The caller plays the scheduler,
so the proofs cover every interleaving of steps. Both pipelines keep the
same invariant (`Valid`):

- at most `parallelism` items hold an admission slot;
- each stage channel holds at most `parallelism` items;
- the stage queues hold consecutive dispatch positions, in order;
- an item in the acknowledgement queue has finished its stage. For the
  check pipeline that means published; for the changes pipeline it means
  saved;
- acks go to strictly increasing positions. A position dropped by
  coalescing is never acked itself. Every position up to an acked one has
  finished (`AckImpliesEarlierPublished`, `AckImpliesEarlierProcessed`).

Retry loops that run forever in Go are walked over a finite list of attempt
outcomes. The result is either the call that succeeded or "still retrying".
Sleeps are counted in milliseconds.

Where the code and its design description disagree, the model follows the
code:

- **Cache expiry is inverted in the code.** The statistics cache's `getAll`
  selects entries whose deadline is already *before* now, i.e. expired
  ones. The design describes a cache of unexpired statistics. The model
  keeps the code's comparison (`StatisticCache.Selected`), and
  `StatisticCache.ReadReturnsOnlyExpired` states it outright.
- **A closed source channel ends the two pipelines differently.** In the
  check pipeline, `run` returns nil once the order channel is closed and
  drained. In the changes pipeline, `Run` panics. Each `Run` contract
  states its own policy.

## Model

| member | source | states |
|---|---|---|
| Base.Config.GetString | orderprovider.go:34-45 | a string key lookup succeeds exactly when the key is present, and yields its value; otherwise the error names the missing key |
| Base.Config.GetInt | checkservice.go:84-87 | an integer key lookup succeeds exactly when the key is present, and yields its value; otherwise the error names the missing key |
| Base.Wrap64 | statistic/aggregator.go:30 | the result is a signed 64-bit value, congruent to the input modulo 2^64, and equal to it when it already fits |
| Base.Seconds | statistic/aggregator.go:30 | `time.Duration(n) * time.Second` is always a 64-bit nanosecond count |
| Base.SecondsExact | statistic/aggregator.go:30 | without overflow, the duration is n·10^9 ns, and it is zero exactly when n is zero |
| Base.SecondsWrapsToZero | statistic/aggregator.go:30-33 | a nonzero seconds value (2^55) can wrap to a zero duration |
| Text.CommaToSemicolon | changesprovider.go:143-145 | same length; every comma becomes a semicolon and every other character is kept; no comma remains |
| Text.CommaFreeUnchanged | changesprovider.go:143-145 | a string without commas is left unchanged |
| Text.RewriteIdempotent | changesprovider.go:143-145 | rewriting twice is the same as rewriting once |
| Text.Digits | orderprovider.go:104 | a decimal rendering is non-empty, all digits, and has no leading zero |
| Text.DecValueOfDigits | orderprovider.go:104 | reading the digits back gives the number |
| Text.Itoa | orderprovider.go:104 | the rendering is non-empty and starts with '-' exactly for negative numbers |
| Text.Atoi | changessaversimplesql.go:162-164 | success needs a sign or a digit first, and a negative result needs '-'; values are 64-bit; the error names the input |
| Text.AtoiItoa | changessaversimplesql.go:162-164 | parsing the rendering of any 64-bit integer gives the integer back |
| Text.AtoiSignedDigits | changessaversimplesql.go:162-164 | one or more digits, bare or after `+` or `-`, parse to their signed decimal value exactly when it fits in 64 bits, and otherwise fail with the error naming the input; a sign alone or the empty string fails |
| Text.AtoiRejectsNonDigit | changessaversimplesql.go:162-164 | a non-digit after the first character makes the parse fail |
| Text.JoinLength | checkserviceroot.go:93-102 | the joined length is the sum of the parts plus one separator between each pair |
| Text.JoinEnds | checkserviceroot.go:93-102 | the joined string starts with the first part and ends with the last |
| Statistic.SimpleStatisticError | orderprovider.go:115-117 | a simple statistic carries no error |
| Statistic.Convert | statistic/dto.go:8-17 | conversion fails exactly on a nil statistic, with "given Statistic is nil"; otherwise the DTO copies name, value and description |
| Statistic.ToStatistic | statistic/dto.go:31-49 | the proxy built from a DTO reports the DTO's name, value and description |
| Statistic.DtoRoundTrip | statistic/dto.go:8-49 | DTO → statistic → DTO is the identity |
| Statistic.StatisticRoundTrip | statistic/dto.go:8-49 | statistic → DTO → statistic keeps name, value and description |
| StatisticCache.Put | statistic/cache.go:25-35 | setting a statistic stores it under its name with the new deadline; other names keep their entries |
| StatisticCache.TimeoutError | statistic/cache.go:9-12 | a cache is refused exactly for a zero timeout, with "timeout must be greater than 0" |
| StatisticCache.Cache.New | statistic/cache.go:9-17 | a zero timeout is an error; otherwise a fresh empty cache with that timeout |
| StatisticCache.Cache.Set | statistic/cache.go:25-35 | nil leaves the cache unchanged; otherwise the cache becomes `Put` with deadline now + timeout |
| StatisticCache.Cache.GetAll | statistic/cache.go:37-48 | returns each selected entry's statistic exactly once, and only those, so no name is returned twice; nothing is removed |
| StatisticCache.PutTwiceKeepsLatest | statistic/cache.go:31-34 | setting the same name twice keeps only the later one |
| StatisticCache.ReadReturnsOnlyExpired | statistic/cache.go:43 | a statistic set at t is read back exactly when t + timeout < now, i.e. only after it has expired |
| StatisticCache.PutKeepsOtherSelections | statistic/cache.go:31-46 | setting one name does not change whether another name is read |
| StatisticAggregator.NewStatisticAggregator | statistic/aggregator.go:11-42 | nil logger, config and queue are refused in that order; then a missing `cache_timeout_in_secs` and a missing `topic` fail with their missing-key errors, in that order; a timeout that becomes a zero duration fails with "timeout must be greater than 0"; otherwise topic and timeout are taken from the config |
| StatisticAggregator.ZeroTimeoutRefused | statistic/aggregator.go:21-33 | within range, the aggregator is refused exactly when the configured seconds are zero |
| StatisticAggregator.Aggregator.Iteration | statistic/aggregator.go:62-79 | continues unless the read was cancelled; a fetched message is acked whether or not it parses; a parsed DTO is set in the cache |
| StatisticAggregator.CacheAfter | statistic/aggregator.go:62-79 | the cache after a run of iterations: keys are only added, each entry stays under its own name, and the last decoded statistic is stored with deadline clock + timeout |
| StatisticAggregator.AckedBy | statistic/aggregator.go:62-79 | the messages acked by a run of iterations: exactly the fetched ones, at most one per iteration |
| StatisticAggregator.Aggregator.Run | statistic/aggregator.go:51-60 | iterates until the first cancelled read, and stops right after it; the cache is `CacheAfter` and the acks are `AckedBy` of the iterations run |
| StatisticAggregator.Aggregator.Statistics | statistic/aggregator.go:81-83 | never errs; returns exactly the statistics the cache selects, no name twice |
| StatisticSender.NewStatisticSender | statistic/sender.go:13-38 | nil provider and nil queue are refused in that order; a nil config then panics; then a missing `topic` and a missing `interval_in_secs` fail with their missing-key errors, in that order; otherwise topic and interval come from the config |
| StatisticSender.SendSingleStatistic | statistic/sender.go:85-91 | a nil statistic is a conversion error and nothing is put; otherwise its DTO is put on the topic and the put's error is returned |
| StatisticSender.FirstFailure | statistic/sender.go:75-83 | the index of the first statistic that is nil or whose put fails |
| StatisticSender.Send | statistic/sender.go:75-83 | puts every statistic before the first failure, in order, and returns that failure's error (nil if there is none) |
| StatisticSender.Iterate | statistic/sender.go:67-73 | a provider error becomes "cant get statistics to send" with nothing sent; otherwise it stops at the first nil statistic (error "cant convert statistic: …", nothing put for it) or the first failing put (its error, that put made), and every put is the DTO of the statistic in the same position |
| CheckOrders.NewCheckOrder | checkorder.go:5-51 | the order reports the check name, object type, identifier and Kafka message it was built from |
| CheckResults.NewCheckResult | checkresult.go:3-39 | the result reports the five values it was built from |
| CheckProcessor.NewCheckOrderProcessor | checkprocessor.go:13-20 | refused exactly for a nil function, with "must be not-nil CheckOrderProcessorFunc" |
| CheckProcessor.ResultFor | checkprocessor.go:41-43 | the result carries the order's type, identifier and check name, plus the verdict's message and success |
| CheckProcessor.process | checkprocessor.go:32-39 | the user function's error is returned as is; on success the result for the order is written |
| CheckProcessor.Process | checkprocessor.go:28-30 | `Process` delegates to `process` |
| Stages.RetryUntilNil | checkservice.go:195-203 | stops at the first nil error; every earlier call failed; one back-off per failure; without a nil it is still retrying after all calls |
| Stages.LastOrDefault | checkservice.go:208-217 | drains the queue and returns its newest element, or the given one when the queue is empty |
| Stages.SentSnoc | checkservice.go:137-155 | the items delivered by an event history grow by at most the last event's offer |
| Stages.SentPrefix | checkservice.go:146-150 | a prefix of the history delivers a prefix of the items; once the channel is closed, nothing more is delivered |
| Stages.CoalesceKeepsAcks | checkservice.go:188-206 | coalescing the ack queue keeps its newest item to ack and drops the rest; the ack order stays increasing |
| Stages.AckKeepsAcks | checkservice.go:195-203 | recording a successful ack keeps the acks increasing and off dropped items |
| CheckService.NewCheckService | checkservice.go:64-101 | nil config, logger, provider, processor and publisher are refused in that order; a missing parallelism is an error; a negative one panics; otherwise built with that parallelism |
| CheckService.ErrorOf | checkservice.go:244-253 | the error of a processor call, nil exactly on success |
| CheckService.Attempts | checkservice.go:244-253 | one retry outcome per processor call, nil exactly where the call succeeded |
| CheckService.AdmitKeepsAdmission | checkservice.go:230-242 | admitting under the bound gives the new order a fresh slot |
| CheckService.PushKeepsQueues | checkservice.go:233-235 | queuing a new order for processing keeps the queues consecutive |
| CheckService.TakeKeepsQueues | checkservice.go:158-173 | `handleProcessing` taking the processing head keeps the queues consecutive |
| CheckService.WriteKeepsInvariants | checkservice.go:244-253 | writing an order's result releases exactly its slot |
| CheckService.PublishKeepsStages | checkservice.go:165-170 | publishing needs a written result |
| CheckService.ForwardKeepsQueues | checkservice.go:176-186 | `handlePublishing` forwarding its held, published order to acknowledging keeps the queues consecutive and published |
| CheckService.CoalesceKeepsInvariants | checkservice.go:188-217 | draining the ack queue keeps every invariant and drops only published orders |
| CheckService.Pipeline.constructor | checkservice.go:84-98 | an empty pipeline with the given parallelism satisfies the invariant |
| CheckService.Pipeline.Dispatch | checkservice.go:230-242 | admits exactly when a slot and a processing place are free; the order is appended and holds a slot; nothing else changes |
| CheckService.Pipeline.TakeProcessing | checkservice.go:158-163 | `handleProcessing` receives the processing head exactly when it holds no order and processing is not empty; nothing else changes |
| CheckService.Pipeline.SendPublishing | checkservice.go:164-170 | `handleProcessing` sends the order it holds to publishing exactly when publishing has room, and then holds nothing; nothing else changes |
| CheckService.Pipeline.CompleteProcess | checkservice.go:244-253 | runs only for a dispatched order whose result is unwritten and that `handleProcessing` has already received; retries the processor at 5 s intervals; on success writes its result and releases its slot |
| CheckService.Pipeline.WriteResult | checkprocessor.go:41-43 | `setResult` delivers the order's result; the dispatch goroutine (checkservice.go:237) then releases its slot; nothing else changes |
| CheckService.Pipeline.Publish | checkservice.go:165-170 | runs only for an order with a result that is not yet published; retries `publish` until nil, succeeding exactly when some attempt returns nil, then appends the result to the sink and marks the order published |
| CheckService.Pipeline.TakePublishing | checkservice.go:176-181 | `handlePublishing` receives the publishing head exactly when it holds no order and publishing is not empty; nothing else changes |
| CheckService.Pipeline.SendAcknowledging | checkservice.go:182-183 | once the order it holds is published, `handlePublishing` sends it to acknowledging exactly when that has room, and then holds nothing |
| CheckService.Pipeline.Acknowledge | checkservice.go:188-206 | coalesces the queue to its newest order, or resumes the pending one; retries `Ack` at 100 ms; a successful ack is recorded |
| CheckService.Pipeline.Coalesce | checkservice.go:191-194 | empties the ack queue and makes its newest order the one to ack |
| CheckService.Pipeline.RecordAck | checkservice.go:195-203 | records the pending ack and clears it |
| CheckService.Pipeline.DoStep | checkservice.go:158-206 | any stage step keeps the invariant and never changes what was dispatched |
| CheckService.Pipeline.DispatchQueued | checkservice.go:146-150 | dispatches a prefix of the queued orders, stopping only when the pipeline is full |
| CheckService.Pipeline.Deliver | checkservice.go:146-150 | an offer before close is queued, a close sets closed; no order is lost or reordered |
| CheckService.Pipeline.Run | checkservice.go:137-155 | never panics; cancellation returns nil; nil is returned only after a cancel or a close; the dispatched orders are a prefix of those offered; after a close with no cancel, nil means every offered order was dispatched |
| CheckService.HoldFirst | checkservice.go:158-183 | a reachable state: order 0 has passed `handleProcessing`, is held by `handlePublishing` unpublished, and its slot is free again |
| CheckService.PassSecond | checkservice.go:158-173 | from that state, order 1 is admitted, passes `handleProcessing` and gets its result, while order 0 stays held and unpublished |
| CheckService.OvertakingPublish | checkservice.go:158-186 | a reachable state: with parallelism 1, a later order is published while `handlePublishing` still waits on the earlier one, which is not yet published |
| CheckService.AckImpliesEarlierPublished | checkservice.go:188-206 | when an order is acked, it and every order before it have been published |
| ChangesConsumer.NewChangesConsumerService | changesconsumerservice.go:10-40 | nil config, logger, provider and saver are refused in that order; a missing parallelism is an error; a negative one panics; otherwise built with that parallelism |
| ChangesConsumer.AdmitKeepsInvariants | changesconsumerservice.go:100-113 | admitting under the bound gives a fresh slot and keeps the queues consecutive |
| ChangesConsumer.TakeKeepsQueues | changesconsumerservice.go:67-77 | taking the processing head into the single waiting place keeps the queues consecutive |
| ChangesConsumer.ForwardKeepsQueues | changesconsumerservice.go:67-77 | forwarding a processed event to acknowledging keeps the queues consecutive and processed |
| ChangesConsumer.CloseKeepsInvariants | changesconsumerservice.go:105-109 | closing `Processed` releases exactly that event's slot |
| ChangesConsumer.CoalesceKeepsInvariants | changesconsumerservice.go:79-98 | draining the ack queue keeps every invariant and drops only processed events |
| ChangesConsumer.Pipeline.constructor | changesconsumerservice.go:25-36 | an empty pipeline with the given parallelism satisfies the invariant |
| ChangesConsumer.Pipeline.Dispatch | changesconsumerservice.go:100-113 | admits exactly when a slot and a processing place are free; the event is appended and holds a slot |
| ChangesConsumer.Pipeline.CompleteProcess | changesconsumerservice.go:104-124 | runs only for a dispatched, unprocessed event; retries the saver at 5 s intervals; on success closes `Processed`, then releases the slot |
| ChangesConsumer.Pipeline.TakeProcessing | changesconsumerservice.go:67-77 | takes the processing head exactly when no event is waiting |
| ChangesConsumer.Pipeline.Forward | changesconsumerservice.go:67-77 | forwards the waiting event exactly when it is processed and acknowledging has room |
| ChangesConsumer.Pipeline.Acknowledge | changesconsumerservice.go:79-98 | coalesces to the newest event, or resumes the pending one; retries `Ack` at 100 ms; a successful ack is recorded |
| ChangesConsumer.Pipeline.Coalesce | changesconsumerservice.go:82-84 | empties the ack queue and makes its newest event the one to ack |
| ChangesConsumer.Pipeline.RecordAck | changesconsumerservice.go:85-93 | records the pending ack and clears it |
| ChangesConsumer.Pipeline.DoStep | changesconsumerservice.go:67-98 | any stage step keeps the invariant and never changes what was dispatched |
| ChangesConsumer.Pipeline.DispatchQueued | changesconsumerservice.go:52-65 | dispatches a prefix of the queued events, stopping only when the pipeline is full |
| ChangesConsumer.Pipeline.Deliver | changesconsumerservice.go:52-65 | an offer before close is queued, a close sets closed; no event is lost or reordered |
| ChangesConsumer.Pipeline.Run | changesconsumerservice.go:52-65 | nil only after a cancel; still running only with no cancel; a panic only after a close, with every offered event dispatched; the dispatched events are a prefix of those offered |
| ChangesConsumer.AckImpliesEarlierProcessed | changesconsumerservice.go:79-98 | when an event is acked, it and every event before it have been processed |
| OrderProvider.NewKafkaOrderProvider | orderprovider.go:25-66 | nil config and logger are refused in order; then each missing key fails with its own missing-key error, then the adapter error and the `EnsureTopic` error are returned as they are, in that order; on success the settings come from the config |
| OrderProvider.LagStatistic | orderprovider.go:95-107 | a lag error becomes "cant get consumer lag for kafka: …"; otherwise a statistic whose value is the lag in decimal |
| OrderProvider.LagValueParses | orderprovider.go:95-107 | the lag statistic's value parses back to the lag |
| OrderProvider.Statistics | orderprovider.go:85-93 | exactly one statistic (the lag), or the lag error |
| OrderProvider.Orders | orderprovider.go:137-161 | the orders a message history yields |
| OrderProvider.HistoryStep | orderprovider.go:137-161 | the orders, acks and failed reads of a history extend one message at a time |
| OrderProvider.OrdersWanted | orderprovider.go:151-158 | every queued order has the provider's object type and check name |
| OrderProvider.WantedAreSent | orderprovider.go:159-160 | every parsed message of the wanted type and check becomes a queued order |
| OrderProvider.DroppedNotWanted | orderprovider.go:151-158 | every parsed message of another type or check is acked and dropped |
| OrderProvider.Provider.constructor | orderprovider.go:55-64 | a provider with an empty channel, no acks and no sleep |
| OrderProvider.Provider.Iteration | orderprovider.go:137-161 | a failed read sleeps 1 s; an unparsable message is skipped without an ack; an unwanted one is acked; a wanted one is queued as an order |
| OrderProvider.Provider.Run | orderprovider.go:131-135 | after a history, the channel holds its orders, the acks are its dropped messages, and the sleep is 1 s per failed read |
| ChangesProvider.ChangeEvent.Data | changesprovider.go:143-145 | the event data with every comma replaced by a semicolon, and nothing else changed |
| ChangesProvider.DataIdempotent | changesprovider.go:143-145 | the data already has no comma to rewrite |
| ChangesProvider.NewChangesProvider | changesprovider.go:16-59 | nil config and logger, the topic key, the adapter, the event name key, the object type key and `EnsureTopic` are checked in the source's order, each failure returning exactly its own error |
| ChangesProvider.Events | changesprovider.go:77-107 | the events a message history yields |
| ChangesProvider.HistoryStep | changesprovider.go:77-107 | the events, acks and failed reads of a history extend one message at a time |
| ChangesProvider.EventsWanted | changesprovider.go:93-99 | every queued event has the target object type and event name |
| ChangesProvider.WantedAreSent | changesprovider.go:100-106 | every parsed message with the target type and name becomes a queued event |
| ChangesProvider.DroppedNotWanted | changesprovider.go:93-99 | every other parsed message is acked and dropped |
| ChangesProvider.Provider.constructor | changesprovider.go:48-58 | a provider with an empty channel, no acks and no sleep |
| ChangesProvider.Provider.Iteration | changesprovider.go:77-107 | a failed read sleeps 1 s; an unparsable message is skipped; an unwanted one is acked; a wanted one is queued as an event |
| ChangesProvider.Provider.Run | changesprovider.go:71-75 | after a history, the channel holds its events, the acks are its dropped messages, and the sleep is 1 s per failed read |
| ChangesSaver.Convert | changessaversimplesql.go:155-164 | the default converter never fails and yields the comma-free data; the int converter parses the data and fails exactly when the parse does |
| ChangesSaver.DefaultConvertsToData | changessaversimplesql.go:155-157 | the default converter yields exactly the event data |
| ChangesSaver.IntConvertsRendering | changessaversimplesql.go:162-164 | the int converter reads back any decimal-rendered 64-bit integer |
| ChangesSaver.NewSimpleSqlChangesSaver | changessaversimplesql.go:20-63 | nil config and logger are refused in order; a nil converter becomes the default one; then the first missing key among `conn_string`, `item_flags_table`, `item_column`, `data_column` fails with its missing-key error, and then the `sql.Open` error is returned; on success the target table and columns come from the config |
| ChangesSaver.NewCustomSqlChangesSaver | changessaversimplesql.go:65-97 | nil config, logger and processor function are refused in order; then a missing `conn_string`, the `sql.Open` error and the fabric's error are returned, in that order; on success the fabric's processor is used |
| ChangesSaver.Upsert | changessaversimplesql.go:124-130 | the row of the identifier holds the new value; other rows are unchanged |
| ChangesSaver.UpsertIdempotent | changessaversimplesql.go:124-130 | writing the same value twice is writing it once |
| ChangesSaver.UpsertLatestWins | changessaversimplesql.go:124-130 | a second write to a row replaces the first |
| ChangesSaver.Table.Process | changessaversimplesql.go:106-144 | a conversion error becomes "cant convert data: …" and an exec error is returned, in both cases with the table unchanged; otherwise the row is upserted |
| ResultPublisher.NewKafkaResultPublisher | resultpublisher.go:15-42 | nil config and logger are refused in order; then a missing results topic key, the adapter error and the `EnsureTopic` error are returned, in that order; on success the topic comes from the config |
| ResultPublisher.ToDTO | resultpublisher.go:52-73 | the DTO carries the result's five fields |
| ResultPublisher.FromDTO | resultpublisher.go:67-73 | a result built from the DTO's five fields |
| ResultPublisher.DtoRoundTrip | resultpublisher.go:52-73 | no field of the result is lost in its DTO |
| ResultPublisher.PublishCheckResult | resultpublisher.go:52-65 | an encoding error is returned with nothing put; otherwise exactly one put to the topic, which decodes to the result, and the put's error is returned |
| StatisticService.NewStatisticService | statisticservice.go:20-44 | nil config, provider and logger are refused in order; a missing port is an error; a port below 8000 is refused with "port must be above 8000" |
| StatisticService.StatisticHandler | statisticservice.go:72-100 | a provider or encoding error gives 500 with "Server side error: …"; otherwise 200 with one entry per statistic, in order |
| CheckServiceRoot.NewKafkaCheckServiceRoot | checkserviceroot.go:19-26 | refused exactly for a nil provider fabric, with "must be not-nil CheckProvider" |
| CheckServiceRoot.Messages | checkserviceroot.go:93-100 | each error's message, in order |
| CheckServiceRoot.ComposeErrors | checkserviceroot.go:93-102 | nil exactly for no errors; otherwise the messages joined by "; \r\n": one error keeps its message, the first message leads, and the length is known |
| CheckServiceRoot.SelectLogLevel | checkserviceroot.go:45-55 | the error level is chosen exactly when the config asks for it |
| CheckServiceRoot.NonNilCollectsErrors | checkserviceroot.go:60-65 | an error is collected exactly when some constructor returned it |
| CheckServiceRoot.NonNilAppend | checkserviceroot.go:60-65 | collecting over two runs of results is collecting over each |
| CheckServiceRoot.Register | checkserviceroot.go:36-76 | a config load error is the only error, with no logger; otherwise the log level comes from the config and the errors are the non-nil constructor errors, in call order |

## Left out

- Concurrency is sequentialised. Every goroutine step is atomic and the
  caller schedules them. Go's `select` races are covered because any order
  of steps is allowed.
- CheckService.Pipeline.Dispatch: in Go, the balancer slot is taken first,
  and the send to `processing` may then block while the slot is held. The
  model admits only when both have room, so the state "slot held, order
  not yet queued" does not exist.
- ChangesConsumer.Pipeline.Dispatch: the same simplification as in the
  check pipeline.
- Retry loops that never give up are modelled over finite attempt lists.
  Their infinite tail is "still retrying".
- Time is explicit. Clocks are integer parameters and sleeps are
  millisecond counters. Sleeps that are not cancellation-aware are not
  distinguished.
- Kafka, SQL, HTTP and JSON are inputs, not implementations. This covers
  `Get`/`Put`/`Ack`/`EnsureTopic`, the consumer lag, `sql.Open`/`Exec`,
  JSON marshal/unmarshal and the HTTP writer. Their errors and decoded
  values are parameters.
- OrderProvider.Provider.Iteration: the order channel is unbounded. Go
  blocks on its 64-slot buffer.
- ChangesProvider.Provider.Iteration: the event channel is unbounded. Go
  blocks on its 64-slot buffer.
- ChangesSaver.Table.Process: an exec error is assumed to leave the table
  unchanged. The SQL statement itself is abstracted to an upsert keyed by
  the object identifier.
- The fabric-built processor of `NewCustomSqlChangesSaver` is user code.
  Only its construction checks are modelled.
- StatisticService.StatisticHandler: an error from the final response
  write is only logged. Once the body is written, the status cannot change,
  so that path is not modelled.
- The HTTP server, `statisticService.Run` and `echo` are not part of this
  model. Neither is the wiring in `NewKafkaCheckService` and
  `Resolve`/`Release` of the root.
- CheckServiceRoot.Register: the logger object is reduced to its chosen
  level.
- The statistics sender's ticker loop (`Run`) is not part of this model.
  It only logs the error of each `iterate`. `iterate` is modelled.
- `changesboltaggregator.go` is not part of this model. Neither are the
  stub implementations and the test scenario in `checkservice_test.go`.
- Logging is left out. So is the mutex of the statistics cache; the model
  runs its operations one at a time.
- The wording of errors from external libraries is not modelled. Missing
  config keys, number parsing, Kafka and SQL are represented by abstract
  error values.
