# hitokoto notification worker — broker layer, dead-letter collectors and utilities

This project models the core of the hitokoto notification worker, a Go service that consumes
notification events from RabbitMQ and sends mail. Three parts are modelled:

- **The broker layer** (package `rabbitmq`):
  - the connection wrapper with its dial guard, bounded reconnect loop and close-error rule
    (AMQP reply code 504, `channel-error` in section 1.9 of the AMQP 0-9-1 specification, is tolerated);
  - consumers with topology declaration, manual ack/nack, channel recovery, `Get` and shutdown;
  - producers with the default-exchange routing-key rule, publishing and shutdown;
  - the instance with its UUID-keyed consumer and producer lists and its staged shutdown;
  - the per-delivery handler context and its producer cache.
- **The two failed-message (dead-letter) collectors**: they sum the `x-death` counts with int64
  wrap-around, check three headers in order, republish with a `4^count`-second backoff while the
  count is at most 5, and otherwise park the message, wrapped, in the `notification_failed_can`
  queue. The v1 copy caches producers in the handler context. The event copy keeps its own
  package-level `ProducerMapping`.
- **The pure and in-place utilities**: enum constants and validators, label formatters, integer
  recognition, timestamp classification for JSON dates, the recursive template-context merge, the
  dotted-path global setter, the priority filesystem, mail recipient assembly, and four small
  registries.

The broker itself is abstract (module `Broker`). A `Broker` object holds the log of client
calls made so far and the set of closed channels. What the broker answers to each call is a
parameter: channel ids, UUIDs and error replies arrive bundled as `ProducerSetup`,
`ConsumerSetup`, `ChannelShutdownReplies` and similar records. Go's objects whose fields are
updated in place are classes (`RabbitMQ`, `Consumer`, `ConsumerList`, `ProducerList`,
`Instance`, `Ctx`, `ProducerCache`, `ProducerMapping` and the registries). Each state-changing
method is proved against a specification function of the old state:

- `ShutdownRun` and `StageRun` for shutdown;
- `GetProducerRun` for the context's producer cache;
- `MappedLookupRun` for the event collector's `getProducer`;
- `HandleRun`, `Dispatch` and `Park` for both collectors' handler.

## Model

| member | source | states |
|---|---|---|
| Consts.PollMethodValues | consts/poll.go:5-10 | there are four poll methods, Approve..NeedCommonUserPoll = 1..4 |
| Consts.PollStatusValues | consts/poll.go:14-25 | there are ten poll statuses, pairwise distinct; Approved, Rejected and NeedModify are 200, 201 and 202 |
| Consts.HitokotoTypeValues | consts/hitokoto.go:5-18 | there are 12 category codes, the single letters "a" to "l", pairwise distinct; Game is "c", Literature "d", Philosophy "k", Joke "l" |
| ConstsValidator.ValidateHitokotoTypeValue | utils/validator/consts_validator.go:8-29 | the code is returned exactly when the value has the category type and is one of the 12 codes; otherwise nil |
| ConstsValidator.ValidatePollMethodValue | utils/validator/consts_validator.go:31-41 | the int is returned exactly when the value has the poll-method type and is 1..4 |
| ConstsValidator.ValidatePollStatusValue | utils/validator/consts_validator.go:43-62 | the int is returned exactly when the value has the poll-status type and is one of the ten statuses, -1 and 0 included |
| ConstsValidator.WrongTypeRejected | utils/validator/consts_validator.go:9-28 | a value of any other dynamic type gives nil from each validator |
| ConstsValidator.CategoryExamples | utils/validator/consts_validator.go:8-29 | "a" validates and "zXca" does not |
| Formatter.FormatPollMethod | utils/formatter/poll.go:6-19 | the label is never empty, and it is 未知 exactly for values that are not poll methods |
| Formatter.FormatPollStatus | utils/formatter/poll.go:22-45 | the label is never empty, and it is 未知 exactly for -1 and every unlisted value |
| Formatter.FormatHitokotoType | utils/formatter/hitokoto.go:5-34 | the label is never empty, and it is "Unknown - 未知" exactly for unknown codes |
| Formatter.PollMethodLabelsDistinct | utils/formatter/poll.go:7-15 | distinct poll methods get distinct labels |
| Formatter.PollStatusLabelRoundTrip | utils/formatter/poll.go:23-41 | each of the nine listed statuses is recovered from its label |
| Formatter.PollStatusLabelsDistinct | utils/formatter/poll.go:23-41 | distinct listed statuses get distinct labels |
| Formatter.HitokotoTypeLabelRoundTrip | utils/formatter/hitokoto.go:6-30 | each code is recovered from its label |
| Formatter.HitokotoTypeLabelsDistinct | utils/formatter/hitokoto.go:6-30 | distinct codes get distinct labels |
| LegacyFormatter.FormatHitokotoType | utils/formatter.go:18-23 | a known code gives its table entry, and an unknown one gives "未知分类" (exactly then); never empty |
| LegacyFormatter.TableCoversCategories | utils/formatter.go:3-16 | the table's keys are exactly the 12 category codes |
| LegacyFormatter.DiffersFromFormatter | utils/formatter.go:4-15 | the legacy label equals the current formatter's label exactly for "a", "b" and "l" |
| LegacyFormatter.LabelsDiffer | utils/formatter.go:6-14 | for the other nine codes the two formatters disagree |
| LegacyFormatter.RenamedCategories | utils/formatter.go:7-8 | the legacy table calls "d" Novel and "e" Myself, where the current formatter says Literature and Original |
| StrUtils.DigitsValue | utils/strutils/numeric.go:8-11 | a digit string denotes a non-negative value |
| StrUtils.Atoi | utils/strutils/numeric.go:8-11 | strconv.Atoi with a 64-bit int: succeeds exactly on decimal syntax whose value fits int64, and gives that value |
| StrUtils.IsInteger | utils/strutils/numeric.go:8-11 | holds exactly on decimal syntax whose value fits int64; never on "", "+" or "-" |
| StrUtils.ParseInt64 | utils/strutils/numeric.go:26-28 | base-10 parsing succeeds exactly on an optional sign plus at least one digit whose value fits int64, and then gives that value |
| StrUtils.MustInt | utils/strutils/numeric.go:22-24 | a value is returned exactly when IsInteger holds, and it is the decimal value, within int range; otherwise a panic |
| StrUtils.MustInt64 | utils/strutils/numeric.go:26-28 | a returned value is the decimal value of well-formed input, within int64 |
| StrUtils.IsIntegerMustInt64 | utils/strutils/numeric.go:8-11 | with a 64-bit int, IsInteger holds exactly when MustInt64 does not panic, and both then agree |
| StrUtils.FormatNat | utils/strutils/numeric.go:8-11 | rendering a natural number gives a non-empty digit string |
| StrUtils.DigitsValueFormatNat | utils/strutils/numeric.go:8-11 | the rendered digits read back as the number |
| StrUtils.FormatNatDecimal | utils/strutils/numeric.go:8-11 | the rendered number is well-formed decimal syntax of that value |
| StrUtils.AtoiFormatInt | utils/strutils/numeric.go:8-11 | every int64, signed, renders to a string IsInteger accepts and Atoi reads back |
| StrUtils.SignExamples | utils/strutils/numeric.go:8-11 | "+7" and "-7" are integers; "+" and "" are not |
| VCarbon.Error | consumers/notification/v1/internal/vcarbon/carbon.go:24-26 | the message is "invalid carbon parse parameter: " + Parameter + ", " + Msg, checked piece by piece |
| VCarbon.Unwrap | consumers/notification/v1/internal/vcarbon/carbon.go:28-30 | the wrapped parse error is returned as stored; an invalid-length error wraps nothing |
| VCarbon.UnitForLength | consumers/notification/v1/internal/vcarbon/carbon.go:48-61 | a timestamp unit exists exactly for lengths 10, 13, 16 and 19 |
| VCarbon.UnmarshalJSON | consumers/notification/v1/internal/vcarbon/carbon.go:39-75 | cases: non-string input gives the decoder's error and leaves the receiver alone; an integer of a known length is a timestamp in that unit; any other length is rejected with "invalid timestamp length"; other text goes to the parser, is stored, and on failure wraps the parser's error |
| VCarbon.EpochSecondsExample | consumers/notification/v1/internal/vcarbon/carbon.go:45-50 | "1696347595" decodes as a seconds timestamp without error |
| VCarbon.UnparsableExample | consumers/notification/v1/internal/vcarbon/carbon.go:66-73 | "WWWWW" gives InvalidCarbonParseParameterError, and it unwraps to the parser error |
| VCarbon.SignedLengthExample | consumers/notification/v1/internal/vcarbon/carbon.go:45-50 | the sign counts toward the length: "-123456789" is a 10-character seconds timestamp |
| Strings.Split | django/provider.go:11 | splitting always yields at least one part |
| Strings.JoinSplit | django/provider.go:11 | joining the parts back with the separator gives the original string |
| Strings.SplitNoSeparator | django/provider.go:11 | a string without the separator splits to itself alone |
| Strings.SplitAtSeparator | django/provider.go:11 | splitting advances one separator at a time |
| Strings.SplitJoin | mail/driver/alicloud/sender.go:39 | splitting a join of separator-free parts gives the parts back |
| DjangoContext.Merge | django/utils.go:45-56 | the merged keys are dst's plus src's; src's leaves overwrite; src's contexts stay contexts; dst keys absent from src are kept |
| DjangoContext.PartialMergeDone | django/utils.go:46-55 | merging key by key over all of src's keys is the whole merge, whatever the order |
| DjangoContext.CopyPongoContextRecursive | django/utils.go:45-56 | the loop with its recursive calls yields Merge(dst, src) |
| DjangoContext.LeafOverwritten | django/utils.go:43-54 | a plain value of src overwrites the one dst already holds, against the doc comment's "if dst does not have the key" |
| DjangoContext.NestedKeysSurvive | django/utils.go:47-51 | when both sides hold a context under k, dst's other nested keys survive |
| DjangoContext.MergeIntoEmpty | django/utils.go:47-51 | merging into an empty context copies src exactly |
| DjangoContext.MergeIdempotent | django/utils.go:45-56 | merging the same src twice changes nothing more |
| DjangoContext.MergeContext | django/utils.go:58-64 | the result is the left-to-right merge of the arguments from an empty context; no arguments gives empty; the last argument's leaves win |
| DjangoContext.MergeContextSingle | django/utils.go:58-64 | merging a single context gives it back |
| DjangoGlobals.SetAsWritten | django/provider.go:15-31 | the walk as written: a single segment sets a top-level key; the first segment is always present and no key is lost |
| DjangoGlobals.NonDescendingCounterexample | django/provider.go:25-28 | on an empty map, "a.b" sets root["b"] next to an empty "a", so the value cannot be read back under a.b |
| DjangoGlobals.SetPath | django/provider.go:10-32 | the intended walk adds only the first segment at top level and leaves the other keys alone |
| DjangoGlobals.GetSetPath | django/provider.go:10-32 | with the intended walk, a value set under a path is read back under that path |
| DjangoGlobals.AsWrittenAgreesWhenDescending | django/provider.go:25-30 | when every intermediate segment already holds a context, the written walk equals the intended one |
| DjangoGlobals.SplitNeverEmpty | django/provider.go:11-14 | the "invalid path" panic cannot happen |
| DjangoGlobals.Globals.constructor | django/provider.go:8 | the global map starts empty |
| DjangoGlobals.Globals.SetGlobals | django/provider.go:10-32 | the in-place walk with its loop leaves GetGlobals equal to SetAsWritten of the old map |
| DjangoFs.Open | django/fs.go:7-16 | the result is an open from the last filesystem that succeeds, and it succeeds iff some filesystem does; otherwise, and always for an empty list, fs.ErrNotExist |
| MailSender.SendNormalMail | mail/driver/alicloud/sender.go:23-47 | an empty To fails before anything is sent; otherwise one request to To ++ CC ++ BCC joined by ",", with the subject and body unchanged; a failure comes back wrapped |
| MailSender.RecipientsRecovered | mail/driver/alicloud/sender.go:28-39 | the joined address list splits back into To ++ CC ++ BCC, in order |
| MailSender.SendSingle | mail/driver/alicloud/sender.go:12-21 | a template mail gives the unsupported-template error, an unknown type gives the unknown-type error, and a normal mail gets exactly what SendNormalMail gives: the empty-recipients error when To is empty, otherwise one request to the joined To, CC and BCC with subject and body unchanged, and the SDK error wrapped |
| MailDrivers.Drivers.constructor | mail/driver/instance.go:3-7 | the registry starts empty |
| MailDrivers.Drivers.Register | mail/driver/instance.go:15-17 | the driver is stored under its type, replacing any earlier one; other types are unchanged |
| MailDrivers.Drivers.Get | mail/driver/instance.go:19-21 | the registered driver is found; an unregistered type gives none |
| ConsumerConfigs.Provider.constructor | consumers/provider/manager.go:5 | the list starts empty |
| ConsumerConfigs.Provider.Register | consumers/provider/manager.go:7-9 | the config is appended at the end |
| ConsumerConfigs.Provider.Get | consumers/provider/manager.go:11-13 | all configs come back in registration order |
| ConsumerConfigs.RegisterTwice | consumers/provider/manager.go:7-9 | there is no deduplication: two registrations of one config leave it listed twice more |
| ConfigCallbacks.Callbacks.constructor | config/callback.go:3 | the callback list starts empty and nothing has been invoked |
| ConfigCallbacks.Callbacks.RegisterCallback | config/callback.go:7-9 | the callback is appended, duplicates kept, and nothing is invoked |
| ConfigCallbacks.Callbacks.ExecuteCallbacks | config/callback.go:11-15 | every registered callback is invoked once, in registration order |
| KvContext.Context.NewFromContext | context/context.go:15-20 | the map starts empty, so every Get is nil |
| KvContext.Context.Get | context/context.go:26-28 | a set key gives its value; a never-set key gives nil |
| KvContext.Context.Set | context/context.go:30-32 | Get then returns the value, and every other key is unchanged |
| RabbitCore.Tolerated | rabbitmq/core.go:124-131 | no close error is tolerated, and an AMQP close error is tolerated exactly when its code is 504 |
| RabbitCore.ConnectionCloseVerdict | rabbitmq/core.go:124-131 | a close error is returned, formatted, exactly when it is an AMQP error whose code is not 504 |
| RabbitCore.CloseCodeRule | rabbitmq/core.go:126 | an AMQP close error is tolerated iff its code is 504 |
| RabbitCore.NonAmqpCloseErrorSwallowed | rabbitmq/core.go:125-130 | a close error that is not an AMQP error is swallowed |
| RabbitCore.ShutdownChannelCalls | rabbitmq/core.go:134-149 | Cancel(tag, noWait=true) is always issued first; Close follows iff Cancel's error is tolerated |
| RabbitCore.ShutdownChannelVerdict | rabbitmq/core.go:134-149 | a Cancel error that is not tolerated is returned formatted; otherwise the Close error is returned as is |
| RabbitCore.ShutdownChannel | rabbitmq/core.go:134-149 | the broker sees exactly those calls, the channel is closed iff Close was issued, and the verdict above is returned |
| RabbitCore.FirstSuccess | rabbitmq/core.go:63-80 | picks the first successful attempt, and none iff every attempt failed |
| RabbitCore.FirstSuccessAt | rabbitmq/core.go:63-80 | a success preceded only by failures is the one picked |
| RabbitCore.RabbitMQ.NewWrapper | rabbitmq/core.go:25-30 | the wrapper keeps its config; nothing is dialled yet |
| RabbitCore.RabbitMQ.Dial | rabbitmq/core.go:40-48 | with no config an error is returned and nothing is dialled; otherwise one dial, its error returned, and a close watcher installed on success |
| RabbitCore.RabbitMQ.Reconnect | rabbitmq/core.go:56-84 | at most 5 dials; the first success sends exactly one update notification and stops the loop; 5 failures are fatal |
| RabbitCore.RabbitMQ.Shutdown | rabbitmq/core.go:87-89 | one connection close, with its error classified by the 504 rule; with no connection (Close on nil) a panic and no broker call |
| RabbitProducer.NewProducerResult | rabbitmq/producer.go:44-74 | with no connection, or a failed channel or UUID, the matching error; otherwise a producer with that channel and UUID, the session's options, and no binding declared |
| RabbitProducer.NewProducer | rabbitmq/producer.go:44-74 | the result above; a channel is opened only when connected, and nothing is declared |
| RabbitProducer.GetRoutingKey | rabbitmq/producer.go:90-98 | an empty exchange name gives the queue name; otherwise the configured routing key, even when it is empty |
| RabbitProducer.Publish | rabbitmq/producer.go:101-137 | one publish to the session's exchange under GetRoutingKey, with its Mandatory/Immediate, passing the message unchanged; the broker's error is returned |
| RabbitProducer.Shutdown | rabbitmq/producer.go:152-169 | with no publishing options, an error and nothing touched; otherwise the channel shutdown and its verdict |
| RabbitConsumer.DeclareCalls | rabbitmq/consumer.go:128-173 | declares exchange, then queue, then binding, stopping right after the first failed step |
| RabbitConsumer.DeclareVerdict | rabbitmq/consumer.go:128-173 | Register succeeds iff all three declarations succeed |
| RabbitConsumer.RegisterStopsAtFirstError | rabbitmq/consumer.go:128-173 | the error returned is the one of the last step attempted |
| RabbitConsumer.Settlement | rabbitmq/consumer.go:219-245 | with manual ack by error, a handler error gives exactly one Nack(false, false) and a success exactly one Ack(false); otherwise nothing is sent |
| RabbitConsumer.SettleAllShape | rabbitmq/consumer.go:219-245 | over a run of deliveries, each one settles once, in order, or none do |
| RabbitConsumer.FirstOpened | rabbitmq/consumer.go:100-122 | picks the first channel reopened, and none iff every attempt failed |
| RabbitConsumer.FirstOpenedAt | rabbitmq/consumer.go:100-122 | a success preceded only by failures is the one picked |
| RabbitConsumer.Consumer.constructor | rabbitmq/consumer.go:68-81 | the consumer holds its UUID, connection, channel and session, and is not consuming yet |
| RabbitConsumer.Consumer.Register | rabbitmq/consumer.go:128-173 | the broker sees exactly DeclareCalls and the error is DeclareVerdict |
| RabbitConsumer.Consumer.Consume | rabbitmq/consumer.go:177-197 | one consume call; on failure its error is returned and no handler is installed; on success the handler is installed |
| RabbitConsumer.Consumer.Deliver | rabbitmq/consumer.go:198-245 | the delivery loop adds exactly the settlements of its deliveries, in order |
| RabbitConsumer.Consumer.HandleError | rabbitmq/consumer.go:91-125 | a nil close event stops the watcher; with no connection the first attempt panics before any broker call; otherwise at most 5 channel opens, the first success replaces the channel (nothing is declared or consumed on it), and 5 failures are fatal |
| RabbitConsumer.Consumer.Get | rabbitmq/consumer.go:277-299 | one get call; the handler runs iff a message came, and its error is returned; no message gives nil; a failed get returns its error |
| RabbitConsumer.Consumer.Shutdown | rabbitmq/consumer.go:303-322 | the channel shutdown and its verdict; done is closed iff that succeeded and Consume never ran |
| RabbitConsumer.NewConsumer | rabbitmq/consumer.go:59-88 | with no connection, an error before any channel is opened; with a channel error, that error wrapped; otherwise declaration runs and its error gives a nil consumer; success gives a fresh consumer |
| RabbitRegistry.Uuids | rabbitmq/exports.go:209-218 | the UUIDs of the list's units, in order |
| RabbitRegistry.Find | rabbitmq/exports.go:209-218 | the first unit with that UUID, and none iff the UUID is absent |
| RabbitRegistry.Without | rabbitmq/exports.go:220-228 | removal keeps no unit with that UUID and never grows the list |
| RabbitRegistry.WithoutAbsent | rabbitmq/exports.go:220-228 | removing an absent UUID leaves the list unchanged |
| RabbitRegistry.WithoutAppend | rabbitmq/exports.go:220-228 | removal commutes with appending units of other UUIDs |
| RabbitRegistry.WithoutKeepsAbsent | rabbitmq/exports.go:220-228 | removal never brings back an absent UUID |
| RabbitRegistry.Splice | rabbitmq/exports.go:220-228 | the in-place splice equals removal: it cuts out the one matching unit, keeping the others in order |
| RabbitRegistry.SpliceOne | rabbitmq/exports.go:220-228 | in a list of unique UUIDs, removal cuts out exactly the matching unit |
| RabbitRegistry.StageRun | rabbitmq/exports.go:230-240 | a shutdown stage never reopens a channel: the closed set only grows |
| RabbitRegistry.StageRunAppends | rabbitmq/exports.go:230-240 | a shutdown stage adds the units' calls and closed channels in list order |
| RabbitRegistry.StageVerdictIsFirstError | rabbitmq/exports.go:230-240 | a stage fails iff some unit fails, and then it reports the first failure in list order |
| RabbitRegistry.ConsumerTargets | rabbitmq/exports.go:230-240 | each consumer is shut down on its channel with its tag |
| RabbitRegistry.ShutdownConsumerUnit | rabbitmq/exports.go:233-236 | one consumer's shutdown matches its unit's calls, closed channels and verdict |
| RabbitRegistry.ShutdownConsumers | rabbitmq/exports.go:230-240 | the loop over consumers equals the stage run, stopping at the first error |
| RabbitRegistry.ProducerTargets | rabbitmq/exports.go:294-304 | each producer is shut down on its channel with its tag |
| RabbitRegistry.ShutdownProducerUnit | rabbitmq/exports.go:297-300 | one producer's shutdown matches its unit's calls, closed channels and verdict |
| RabbitRegistry.LiveProducer | rabbitmq/exports.go:270-282 | a producer is found iff its UUID is listed and its channel is not closed |
| RabbitRegistry.GetAsWritten | rabbitmq/exports.go:270-282 | Get as written blocks for ever exactly when the UUID is listed and its channel is closed; otherwise it finds the live producer or reports it absent |
| RabbitRegistry.ConsumerList.constructor | rabbitmq/exports.go:182-185 | the consumer list starts empty with unique UUIDs |
| RabbitRegistry.ConsumerList.Add | rabbitmq/exports.go:194-198 | exactly one unit is appended, and UUIDs stay unique |
| RabbitRegistry.ConsumerList.Get | rabbitmq/exports.go:209-218 | the first matching consumer, or (nil, false); the list is not modified |
| RabbitRegistry.ConsumerList.Remove | rabbitmq/exports.go:220-228 | the unit with that UUID is removed and the others keep their order; an absent UUID changes nothing |
| RabbitRegistry.ConsumerList.Shutdown | rabbitmq/exports.go:230-240 | units are shut down in list order; the first error leaves the list untouched, and full success empties it |
| RabbitRegistry.ProducerList.constructor | rabbitmq/exports.go:243-246 | the producer list starts empty with unique UUIDs |
| RabbitRegistry.ProducerList.Add | rabbitmq/exports.go:255-259 | exactly one unit is appended, and UUIDs stay unique |
| RabbitRegistry.ProducerList.Get | rabbitmq/exports.go:270-282 | a producer is returned only if its channel is open; a listed producer whose channel is closed is removed and not-found is reported |
| RabbitRegistry.ProducerList.Remove | rabbitmq/exports.go:284-292 | the unit with that UUID is removed and the others keep their order; an absent UUID changes nothing |
| RabbitRegistry.ProducerList.Shutdown | rabbitmq/exports.go:294-304 | units are shut down in list order; the first error leaves the list untouched, and full success empties it |
| RabbitInstance.RegisterError | rabbitmq/exports.go:119-139 | registration succeeds iff there is a connection, the channel opens, the declarations succeed and the consume call succeeds |
| RabbitInstance.RegisterCalls | rabbitmq/exports.go:119-139 | no connection means no broker call; otherwise the first call opens a channel |
| RabbitInstance.AllRegisteredStep | rabbitmq/exports.go:94-116 | subscribing one more consumer succeeds iff the earlier ones did and this one does |
| RabbitInstance.SubscribeVerdict | rabbitmq/exports.go:94-116 | a subscription error is always wrapped with the subscribe message |
| RabbitInstance.SubscribeVerdictMeaning | rabbitmq/exports.go:94-116 | ConsumerSubscribe fails iff some registration fails, and then it reports one of those errors wrapped with that consumer's options |
| RabbitInstance.SubscribedUuidsExclude | rabbitmq/exports.go:94-116 | configs not yet subscribed have not had their UUIDs listed |
| RabbitInstance.ShutdownRun | rabbitmq/exports.go:41-61 | the broker log and closed set only grow; an error is returned iff one is recorded; producers are cleared only after consumers; the connection stage panics exactly when both lists shut down and there is no connection, and otherwise ends with a connection close |
| RabbitInstance.ShutdownStages | rabbitmq/exports.go:41-61 | consumers, then producers, then the connection; the run stops at the first error and clears exactly the lists that shut down; a nil connection panics in the last stage |
| RabbitInstance.Instance.New | rabbitmq/exports.go:23-29 | a fresh instance: empty lists, no pending configs, not closed |
| RabbitInstance.Instance.Init | rabbitmq/exports.go:32-38 | one dial; a missing config or dial error comes back wrapped |
| RabbitInstance.Instance.Shutdown | rabbitmq/exports.go:41-61 | the staged shutdown above; the stage error is recorded, and `closed` is always signalled, by the deferred send even when the last stage panics |
| RabbitInstance.Instance.RegisterCloseHandler | rabbitmq/exports.go:64-73 | the handler receives the error Shutdown recorded, and the instance then reports closed |
| RabbitInstance.Instance.RegisterConsumerConfig | rabbitmq/exports.go:85-87 | the config is appended to the pending list, in order, and nothing else is created |
| RabbitInstance.Instance.ConsumerSubscribe | rabbitmq/exports.go:90-116 | every pending config is registered; the error is nil iff all succeed, else one failing config's error wrapped; the list gains exactly the UUIDs that succeeded |
| RabbitInstance.Instance.SubscribeOne | rabbitmq/exports.go:102-110 | one subscription: its calls are logged, its UUID is listed iff it succeeded, and the first error seen is kept |
| RabbitInstance.Instance.RegisterConsumer | rabbitmq/exports.go:119-139 | on success exactly one unit, keyed by the new consumer's UUID and consuming with the callback; on error the list is unchanged |
| RabbitInstance.Instance.RegisterProducer | rabbitmq/exports.go:149-159 | on success exactly one unit keyed by the new producer's UUID; on error the list is unchanged |
| RabbitInstance.Instance.GetConsumer | rabbitmq/exports.go:162-164 | the consumer list's Get |
| RabbitInstance.Instance.GetProducer | rabbitmq/exports.go:167-169 | the producer list's Get, with its removal of a closed producer |
| RabbitCtx.DefaultOptions | rabbitmq/ctx.go:45-59 | a durable direct exchange and a durable queue under the given names, with the given routing key |
| RabbitCtx.LookupKey | rabbitmq/ctx.go:65-67 | the key is never empty: an empty routing key becomes exchange + "." + queue |
| RabbitCtx.Resolved | rabbitmq/ctx.go:65-67 | only the routing key is rewritten, to the lookup key |
| RabbitCtx.ResolvedIdempotent | rabbitmq/ctx.go:65-67 | resolving twice changes nothing more |
| RabbitCtx.AfterGet | rabbitmq/exports.go:270-282 | looking up a live or absent UUID leaves the producer list unchanged |
| RabbitCtx.GetProducerRun | rabbitmq/ctx.go:63-89 | a lookup opens at most one channel, and only when connected; it lists at most one new producer; a failed lookup leaves no cache entry under the lookup key |
| RabbitCtx.CacheHit | rabbitmq/ctx.go:68-74 | a cached UUID that is still live is returned; nothing is registered and the cache is unchanged |
| RabbitCtx.CacheMiss | rabbitmq/ctx.go:75-88 | otherwise the stale entry is deleted and a producer registered; failure adds no entry; success maps GetRoutingKey to the new UUID; the stale producer is gone from the list |
| RabbitCtx.RegisteredIsCached | rabbitmq/ctx.go:83-88 | a successful registration is cached under its routing key and appended to the list, with other entries kept |
| RabbitCtx.SecondLookupHits | rabbitmq/ctx.go:63-89 | with a named exchange, a second identical lookup hits the cache and changes nothing |
| RabbitCtx.EmptyExchangeMisses | rabbitmq/ctx.go:65-67 | with an empty exchange the lookup key "." + queue differs from the cached key (the queue name), so every lookup registers and lists another producer and the earlier ones are never reused |
| RabbitCtx.StaleProducerHangs | rabbitmq/ctx.go:68-74 | after a producer is registered and cached, and the broker closes its channel, the next identical lookup reaches Get as written on a closed producer, which blocks for ever |
| RabbitCtx.LookupKeepsAbsent | rabbitmq/ctx.go:63-89 | a lookup lists no UUID other than the one it registers |
| RabbitCtx.ProducerCache.constructor | rabbitmq/ctx.go:68 | the producer cache starts empty |
| RabbitCtx.Ctx.NewCtxFromContext | rabbitmq/ctx.go:25-31 | a new context has an empty key/value map |
| RabbitCtx.Ctx.Get | rabbitmq/ctx.go:33-35 | a set key gives its value; a never-set key gives nil |
| RabbitCtx.Ctx.Set | rabbitmq/ctx.go:37-39 | Get then returns the value, and every other key is unchanged |
| RabbitCtx.Ctx.GetProducerByUUID | rabbitmq/ctx.go:91-93 | the instance's GetProducer |
| RabbitCtx.Ctx.GetProducerWithOptions | rabbitmq/ctx.go:63-89 | the in-place cache update and registration equal GetProducerRun on the old cache, list and log |
| RabbitCtx.Ctx.Evict | rabbitmq/ctx.go:68-82 | a live cached producer is returned with nothing changed; otherwise the key is deleted and the stale producer dropped from the list |
| RabbitCtx.Ctx.GetProducer | rabbitmq/ctx.go:45-61 | GetProducerWithOptions with the default options |
| DeadLetter.CollectorOptions | consumers/notification/v1/hitokotoFailedMessageCollector.go:49-70 | the collector queue dead-letters back to itself through notification_failed, and the consumer acks by error without auto-ack |
| DeadLetter.WrapInt64 | consumers/notification/v1/hitokotoFailedMessageCollector.go:25-36 | int64 wrap-around: the result is in range, equal to the input when it fits, and congruent modulo 2^64 |
| DeadLetter.WrapAdd | consumers/notification/v1/hitokotoFailedMessageCollector.go:36 | wrapping after each addition equals wrapping once at the end |
| DeadLetter.RecordCount | consumers/notification/v1/hitokotoFailedMessageCollector.go:27-36 | a record contributes iff it is a table with an int64 "count" |
| DeadLetter.XDeathSum | consumers/notification/v1/hitokotoFailedMessageCollector.go:22-39 | a count that is returned lies in int64, and every record then had an int64 count |
| DeadLetter.XDeathSumIsWrappedTotal | consumers/notification/v1/hitokotoFailedMessageCollector.go:22-39 | with every record well-formed, the sum is the wrapped total of the counts, and exactly the total when that fits |
| DeadLetter.XDeathSumPanics | consumers/notification/v1/hitokotoFailedMessageCollector.go:27-36 | one record without an int64 count makes the loop panic |
| DeadLetter.XDeathSumSmall | consumers/notification/v1/hitokotoFailedMessageCollector.go:22-39 | no records give 0; one record gives its count |
| DeadLetter.XDeathCount | consumers/notification/v1/hitokotoFailedMessageCollector.go:115 | a count is returned only for an array header whose records all have an int64 count, and it lies in int64 |
| DeadLetter.CheckXDeathCount | consumers/notification/v1/hitokotoFailedMessageCollector.go:22-39 | the accumulator loop equals XDeathSum, and its result stays in int64 |
| DeadLetter.BackoffSeconds | consumers/notification/v1/hitokotoFailedMessageCollector.go:116 | the backoff is 0 exactly for a negative count, and at most 1024 seconds for any count that is retried |
| DeadLetter.BackoffTable | consumers/notification/v1/hitokotoFailedMessageCollector.go:116 | the backoff is 1, 4, 16, 64, 256 and 1024 seconds for counts 0..5, each step ×4, and 0 for a negative count |
| DeadLetter.RouteOf | consumers/notification/v1/hitokotoFailedMessageCollector.go:94-109 | headers are checked in order x-death, x-first-death-exchange, x-first-death-queue, each with its own error; non-string names panic |
| DeadLetter.PublishCall | rabbitmq/producer.go:101-137 | a producer with publishing options makes one publish call to its exchange and routing key |
| DeadLetter.PublishVerdict | consumers/notification/v1/hitokotoFailedMessageCollector.go:119-125 | a publish failure is returned wrapped; success returns nil |
| DeadLetter.HandleRun | consumers/notification/v1/hitokotoFailedMessageCollector.go:94-151 | without a destination the store is untouched and nothing sleeps; any sleep is at most 1024 seconds; a nil result means the last broker call was a publish |
| DeadLetter.Dispatch | consumers/notification/v1/hitokotoFailedMessageCollector.go:115-151 | the handler sleeps exactly when the count is known and at most 5, and then at most 1024 seconds; a nil result means the last broker call was a publish |
| DeadLetter.Park | consumers/notification/v1/hitokotoFailedMessageCollector.go:127-151 | the can path never sleeps; a nil result means the last broker call was a publish |
| DeadLetter.MissingHeaderStops | consumers/notification/v1/hitokotoFailedMessageCollector.go:94-105 | a missing header returns its error; nothing is looked up, published or slept |
| DeadLetter.ResolveBeforeCount | consumers/notification/v1/hitokotoFailedMessageCollector.go:106-114 | the original producer is resolved with routing key "" before the count; its failure is returned even when the message would be parked |
| DeadLetter.RetryRepublishes | consumers/notification/v1/hitokotoFailedMessageCollector.go:115-126 | count ≤ 5: it sleeps 4^count seconds, then makes one persistent publish of the unchanged headers and body to the original producer |
| DeadLetter.QuarantinePublishes | consumers/notification/v1/hitokotoFailedMessageCollector.go:127-151 | count > 5: the can producer is resolved, the encoded {header, body} is published persistently with the headers unchanged, and each failure is returned |
| DeadLetter.BadCountPanics | consumers/notification/v1/hitokotoFailedMessageCollector.go:115 | a malformed x-death makes the handler panic after the original producer is resolved |
| CollectorV1.Collect | consumers/notification/v1/hitokotoFailedMessageCollector.go:71-153 | the in-place handler equals HandleRun over the context's producer cache |
| CollectorV1.Forward | consumers/notification/v1/hitokotoFailedMessageCollector.go:115-151 | the count and retry step equals Dispatch |
| CollectorV1.Quarantine | consumers/notification/v1/hitokotoFailedMessageCollector.go:127-151 | the can step equals Park |
| CollectorV1.ParkedInCan | consumers/notification/v1/hitokotoFailedMessageCollector.go:130-149 | with no can producer cached: one channel opened, the producer cached under notification_failed.notification_failed_can, and one persistent publish of the encoded delivery to notification_failed |
| CollectorEvent.ProducerMapping.constructor | event/notification/hitokotoFailedMessageCollector.go:17 | the mapping starts empty |
| CollectorEvent.MappedLookupRun | event/notification/hitokotoFailedMessageCollector.go:20-58 | a lookup opens at most one channel, and only when connected; it lists at most one new producer; the mapping loses no key |
| CollectorEvent.MappedAgreesWithCtx | event/notification/hitokotoFailedMessageCollector.go:20-58 | getProducer matches the context cache in result, list and broker calls; the only difference is that a stale key is kept when registration fails |
| CollectorEvent.MappingOnlyGrows | event/notification/hitokotoFailedMessageCollector.go:25-56 | the mapping never loses a key; failure leaves it unchanged; an entry changes only to the new UUID after a miss |
| CollectorEvent.MappedUnderRoutingKey | event/notification/hitokotoFailedMessageCollector.go:39-56 | a registration is mapped under GetRoutingKey: the lookup key with a named exchange, the queue name otherwise |
| CollectorEvent.MappedKeepsAbsent | event/notification/hitokotoFailedMessageCollector.go:20-58 | a lookup lists no UUID other than the one it registers |
| CollectorEvent.GetMappedProducer | event/notification/hitokotoFailedMessageCollector.go:20-58 | the in-place getProducer equals MappedLookupRun on the old mapping, list and log |
| CollectorEvent.MappedLive | event/notification/hitokotoFailedMessageCollector.go:25-31 | a live mapped producer is returned; a closed one is dropped from the list, and the mapping is not touched |
| CollectorEvent.Collect | event/notification/hitokotoFailedMessageCollector.go:109-195 | the in-place handler equals HandleRun over the package mapping |
| CollectorEvent.Forward | event/notification/hitokotoFailedMessageCollector.go:155-193 | the count and retry step equals Dispatch |
| CollectorEvent.Quarantine | event/notification/hitokotoFailedMessageCollector.go:167-193 | the can step equals Park |
| CollectorEvent.RetryProducerReused | event/notification/hitokotoFailedMessageCollector.go:22-31 | once the original producer is registered, the next lookup for it hits the mapping and changes nothing |

## Left out

- RabbitRegistry.ConsumerList.Add requires a consumer UUID that is not listed yet (a random v4 UUID in the source), as RabbitRegistry.ProducerList.Add does for producers.
- AMQP client calls are not performed. Each is an entry in the abstract broker's call log, and its reply is a parameter. Channel and UUID values are parameters too, and a producer UUID must be fresh (a random v4 UUID in the source).
- Concurrency is not modelled: goroutines, `sync.RWMutex`, Go channels and `errgroup`. The delivery loop, the close watchers and the subscription goroutines run sequentially.
- RabbitInstance.Instance.ConsumerSubscribe registers the configs in list order. Its verdict is stated as "one of the failing configs' errors", because errgroup returns whichever goroutine fails first.
- RabbitConsumer.Consumer.Deliver does not model the per-delivery timeout, a handler still running after it, or the block on `done`, because these are timing behaviours.
- The subscribe timeout of `ConsumerSubscribe` is not modelled: it is never passed on to `RegisterConsumer`.
- RabbitRegistry.ProducerList.Get models the intended remove-then-not-found effect. In Go, `Remove` takes the write lock while `Get` holds the read lock, which deadlocks; RabbitRegistry.GetAsWritten models that (see Findings).
- `registerChannelRecover` and `ConsumerList.UpdateInstance` are not modelled: they re-point the consumers after a reconnect by reading a Go channel in a goroutine.
- RabbitCore.RabbitMQ.Reconnect models only the watcher's reaction to a non-nil close event. The graceful close, where the Go channel is closed, is left out.
- RabbitConsumer.Consumer.HandleError handles one close event. The Go loop ranges over the NotifyClose of the channel it started with, so after a recovery the close events of the new channel are never watched; the new channel is also never declared or consumed on, so deliveries stop.
- The producer's `HandleError` is not modelled: it only logs and never replaces the channel.
- `Instance.IsClosed` is a field read; `Ctx.Instance()` and `RabbitMQ.Conn()` are accessors.
- OS signal handling (`registerSignalHandler`) is not modelled.
- Logging is not modelled.
- The sleep is not performed: the collectors return the number of seconds they would sleep.
- Floating-point `math.Pow` is replaced by the integer power of 4. A negative count gives 0 seconds, as the conversion of `4^count < 1` to a `time.Duration` truncates.
- JSON is not modelled. `wrapperHeader`'s marshalling is an `encode` parameter of the collectors, and `sonic.Unmarshal` is a `decode` parameter of `UnmarshalJSON`.
- `carbon.Parse` and the timestamp constructors are an abstract `parse` parameter and an uninterpreted instant.
- `IsFloat` and `IsNumeric` are not modelled: they parse floating-point numbers.
- The event collector imports a different `rabbitmq` package whose source is not part of this model. Its `Instance.GetProducer` and `RegisterProducer` are modelled by the same `Instance` as the main tree's.
- DjangoContext.CopyPongoContextRecursive follows the code, which overwrites keys dst already holds, and not its doc comment (django/utils.go:43), which says only missing keys are copied. The later-wins order of MergeContext relies on the overwrite, so the comment reads as stale; DjangoContext.LeafOverwritten pins the difference.
- The pongo2 contexts are values: CopyPongoContextRecursive returns the new `dst` instead of writing through shared nested maps, so aliasing between contexts is not modelled.
- DjangoGlobals.Globals.SetGlobals likewise rebuilds the nested map along the walked path instead of writing through shared references.
- The template engine, embedded filesystem walking (`getAllFiles`), `executablePath`, `must`, the Aliyun SDK request, and config and process bootstrap are not modelled: they are I/O or foreign calls.
- The `Args amqp.Table` fields of `Exchange` and `BindingOptions` (rabbitmq/types.go:44, 78) are not modelled: no caller sets them, so they are always nil. `Queue` keeps its arguments, which the collectors set.
- Errors are a small datatype (failure, wrapped, formatted, AMQP). Stack traces and message rendering beyond the collectors' wrapping are not modelled.

## Findings

| source | as written | input that shows it | evidently intended | confidence | as-written member | corrected member |
|---|---|---|---|---|---|---|
| rabbitmq/exports.go:270-282 | Get calls Remove, which takes the write lock, while Get still holds the read lock | a lookup whose cached producer's channel the broker has closed | the closed producer is removed and reported as not found, so the caller registers a new one | not executed | RabbitCtx.StaleProducerHangs | RabbitRegistry.ProducerList.Get |
| django/provider.go:25-28 | a missing or non-context intermediate segment is replaced by an empty context but not descended into, so later segments are written at the current level | SetGlobals("a.b", v) on an empty map gives {"a": {}, "b": v}, and v cannot be read at a.b | the walk descends into the new context, so the value is read back under its path | not executed | DjangoGlobals.NonDescendingCounterexample | DjangoGlobals.GetSetPath |
