# aricpp: a verified model of its stateful parts

aricpp is a C++ client for the Asterisk REST interface (ARI). This project models the parts of it that keep
state over time, and its encoders, in Dafny, and proves properties of all their runs. `dafny verify
dfyconfig.toml` checks the whole project.

Every stateful part appears twice. A class in the form of the source updates its fields step by step. A state
machine on values says what one step does, and the `ensures` clauses of the class tie each method to a step of
the machine. The theorems about runs are about the machine, and hold for the class through these clauses. For the
classes that make objects, `AriModel` and the two call containers, the methods `Serve` and `ServeBoth` carry them
over to the objects there are after any sequence of events. What a run was given (requests, attachments, events of
the server, symbols) is folded from its events alone, by functions that know nothing of the machines: `Requests`,
`Issues` and `Attached`, `Fold`, `OrderFor`, `Added`.

| part | source | class | machine and theorems |
|---|---|---|---|
| HTTP request pipeline | `httpclient.h` | `HttpClient.dfy` | `Pipeline.dfy`, `PipelineRuns.dfy` |
| promises returned by commands | `proxy.h` | `Proxy.dfy` | `ProxyModel.dfy`, `ProxyRuns.dfy`, `ProxyPlain.dfy` |
| commands: promises on the pipeline | `proxy.h`, `httpclient.h` | | `Command.dfy`, `CommandRuns.dfy` |
| channel registry | `arimodel.h`, `channel.h` | `AriModel.dfy` | `Registry.dfy`, `RegistryRuns.dfy` |
| two-party call controllers | the two dial examples | `HighLevelDial.dfy`, `LowLevelDial.dfy` | `HighCalls.dfy`, `LowCalls.dfy`, `CallMachine.dfy`, `CallMachineRuns.dfy`, `CallOrders.dfy`, `HighOrders.dfy`, `LowOrders.dfy`, `DialExamples.dfy`, `DialCommands.dfy` |
| digit-sequence detector | `digitsequence.cpp` | `Detection.dfy` | `Detection.dfy` |
| encoders and query strings | `basicauth.h`, `urlencode.h`, `channel.h` | methods in `Base64.dfy`, `UrlEncode.dfy` | `Base64.dfy`, `UrlEncode.dfy`, `Queries.dfy` |

How the environment enters the model:

* The event loop is a scheduler that completes any outstanding operation, at any time, with any outcome; the
  one thing it never does is to run a completion handler inside another one. "The response handler of the front
  request is running" is a state of its own, in which requests can be submitted.
* A handler given to a promise is modelled by the registrations it makes on that promise while it runs, nested
  to any depth, and by whether it throws. A handler of `HttpClient` is modelled by the requests it submits, a
  handler of `AriModel` by the channels it creates.
* A JSON event is a decoded record, and the "value" of a response body an optional string.
* The two dial examples assume of the server what `CallMachine.Allowed` says: channel ids are non-empty and not
  of the form the library generates, a channel is announced before it enters the application, enters it at most
  once and does not come back after its destruction, generated ids are announced only once they are used, and
  there are fewer than 2^64 calls. The registry assumes nothing, except where `RegistryRuns.Regular` is named.

What turned out to be different from what one might expect:

* `ProxyImpl<void>` asks for `done` in `After` and never sets it. An After handler attached to a `Proxy` after a
  success is stored and never runs (`ProxyRuns.VoidLateAfterNeverRuns`); those attached before it run once.
* `ProxyImpl<std::string>` can end up with `done` and `error` both set: exactly if an After handler throws
  while the response is delivered (`ProxyRuns.StringDoneAndError`).
* The comment in `SendRequest` says that a queued request finds a connected socket. After a failed resolve or
  connect the next queued request is written all the same. What is proved is that it is answered.
* `CallBack` starts the next write before the buffer and the response are cleared. This is harmless, because
  the next read is started only by the completion of that write (`PipelineRuns.RepliesStayInTheirExchange`).
* `AriModel::CreateChannel` constructs the channel object before it knows whether the id is free. If it is not,
  the destructor of the rejected object sends a Hangup for the channel that owns the id. This happens exactly if
  the generated id is listed (`RegistryRuns.CreateChannelRejectedIff`), so never with a regular server;
  `RegistryRuns.RejectedOnce` is a run with another one.
* `SendDtmf` puts the channel id into the path unencoded. A server that follows RFC 3986 reads the id exactly if
  it may stand in a path as a segment of its own: every character is unreserved, a sub-delimiter, `:` or `@`, and
  it is not `.` or `..` (`Queries.SendDtmfRecoveredIff`). The channel `%41`, for one, is read as the channel `A`
  (`Queries.SendDtmfMisread`).
* When the called leg enters or rings after the calling leg is gone, both dial examples still answer the caller or
  let it ring: the high-level one names the dead channel, the low-level one, which has cleared the id, sends a
  command without a channel id (`DialCommands.SameCommands`).
* An empty registered sequence never matches, and with no sequences at all the first symbol is invalid.

## Model

| member | source | states |
|---|---|---|
| `Pipeline.StepInv` | `include/aricpp/httpclient.h:81-230` | Whatever happens next (a submission, also inside a handler; a completion with any outcome; the return of a handler) keeps the whole pipeline invariant: the queue is the tail of what was submitted, one operation serves its front, buffer and response are empty between reads, and the account of completions balances |
| `PipelineRuns.AnsweredOnceInOrder` | `include/aricpp/httpclient.h:81-137` | In every run the requests handed to `SendRequest`, as the events tell them, are the answered ones followed by the queue, the k-th answer answers the k-th request, and neither `assert(!pending.empty())` fails |
| `PipelineRuns.RunLog` | `include/aricpp/httpclient.h:81-230` | In every run the requests, completions, failures and the times the queue stopped being empty that the machine counts are those of the events |
| `PipelineRuns.RepliesTellTheOutcome` | `include/aricpp/httpclient.h:91-230` | A completion of any of the four kinds calls the handler of the front request exactly if it failed or was the read, with an error exactly if it failed; otherwise it starts the next of resolve, connect, write, read for the same request |
| `PipelineRuns.ReturnGoesOn` | `include/aricpp/httpclient.h:116-137` | When a handler returns, its request leaves the queue and the next one is written at once, or the socket is closed after the last |
| `PipelineRuns.SocketIsAsConnected` | `include/aricpp/httpclient.h:122-151` | The socket is as the last connect left it, until the queue has drained |
| `PipelineRuns.AnswersAreFinal` | `include/aricpp/httpclient.h:116-137` | Later steps only add answers and submissions; none is withdrawn or changed |
| `PipelineRuns.OneOperationInFlight` | `include/aricpp/httpclient.h:87-137` | Outside handlers the queue is non-empty exactly if one operation is outstanding, and it serves the front request; inside there is none; with an empty queue the socket is closed, and closing it has never cancelled an operation |
| `PipelineRuns.RepliesStayInTheirExchange` | `include/aricpp/httpclient.h:189-230` | Every read starts with an empty buffer and a default response, and every byte given to a handler was received by the exchange of its own request |
| `PipelineRuns.ReadDeliversItsBytes` | `include/aricpp/httpclient.h:200-229` | A successful read answers the front request with the status and reason received and exactly the bytes its parser consumed of what this read received |
| `PipelineRuns.WrittenRequestIsStable` | `include/aricpp/httpclient.h:153-187` | While a write is outstanding `request` is the front request, and no step replaces it |
| `PipelineRuns.CompletionsAreBounded` | `include/aricpp/httpclient.h:81-230` | At most 2 completions per request plus 2 per time the queue stopped being empty, all counted on the events; exactly that many, less what failures made unnecessary, once the queue is drained |
| `PipelineRuns.MeasureDecreases` | `include/aricpp/httpclient.h:116-230` | Every completion and every handler return lowers a measure of the work left |
| `PipelineRuns.CanMove` | `include/aricpp/httpclient.h:81-230` | While a request is queued or unanswered, a completion or a handler return is possible: the pipeline never gets stuck |
| `PipelineRuns.QueueDrains` | `include/aricpp/httpclient.h:81-230` | Without new submissions a run is no longer than that measure, and where it can go no further the queue is empty and every request is answered |
| `Http.TurnIsRun` | `include/aricpp/httpclient.h:91-137` | A completion, the handler it calls, the requests that handler submits and its return are a run of the pipeline |
| `Http.TurnIsHandled` | `include/aricpp/httpclient.h:81-230` | The completion handlers of the source, entered on a state that keeps the invariant, do just what such a turn does |
| `Http.HttpClient.SendRequest` | `include/aricpp/httpclient.h:81-101` | The request as given is last in the queue, a resolve is started exactly if the queue was empty, and nothing else changes |
| `Http.HttpClient.CallBack` | `include/aricpp/httpclient.h:116-137` | The front request is answered and removed, after its handler submitted what it liked; then the socket is closed or the next write started |
| `Http.HttpClient.ReadDone` | `include/aricpp/httpclient.h:200-229` | The answer is taken from the response as read, and buffer and response are cleared after `CallBack` |
| `Http.HttpClient.RunOne` | `include/aricpp/httpclient.h:81-230` | Each completion keeps the invariant and performs the turn of the pipeline |
| `ProxyModel.ClosureDoes` | `include/aricpp/proxy.h:62-72` | Calling the nested closure means: run the list of handlers it denotes, in order, each followed by what it registers on a settled side, up to the first exception |
| `ProxyModel.RegisterDoes` | `include/aricpp/proxy.h:54-94` | Registering a handler runs it, and what it registers, right away on a settled side, and runs nothing otherwise |
| `ProxyRuns.ResponseRunsRegisteredList` | `include/aricpp/proxy.h:96-129` | A response runs the registration-ordered list of the matching side, in all three specialisations, with the exact effect of exceptions: they end the list and leave `OnResponse`, except that the string one catches that of an After handler and then runs the error handlers, first those registered before and then those the After handlers left, with `Error::unknown` |
| `ProxyRuns.ListRunsInOrder` | `include/aricpp/proxy.h:62-94` | Handlers that neither register nor throw run in registration order, each once, with the same arguments |
| `ProxyRuns.ClosureCollects` | `include/aricpp/proxy.h:62-94` | On a side that stays unsettled, running a closure calls what it denotes and leaves the stored closure denoting all registrations in order, also those made meanwhile |
| `ProxyRuns.ClosureBalances` | `include/aricpp/proxy.h:54-94` | On a settled side, whatever is registered while a closure runs has been called as often as it was registered |
| `ProxyRuns.RegisterInv` | `include/aricpp/proxy.h:54-94` | A registration at any time, with whatever it leads to, keeps "each handler of the settled side ran once, none of the other" |
| `ProxyRuns.ArrivalInv` | `include/aricpp/proxy.h:96-129` | The response establishes it, with handlers that register further handlers on both sides |
| `ProxyRuns.HandlersRunOnce` | `include/aricpp/proxy.h:54-129` | For every interleaving of registrations, nested or not, with at most one response: before it nothing runs; after a success every After handler has run once with the same result and no error handler has, after a failure the reverse |
| `ProxyRuns.HandlersGetTheResponse` | `include/aricpp/proxy.h:96-129` | In every run with one response all handlers called, early or late, get what it means: the object of the command, the text of the body, nothing for `void`, or the code and text of the error |
| `ProxyPlain.RespondPlain` | `include/aricpp/proxy.h:96-129` | Handlers that neither register nor throw are called by the response in the order of their registration |
| `ProxyPlain.RegisterPlain` | `include/aricpp/proxy.h:54-94` | A late registration of such a handler keeps that order |
| `ProxyRuns.StringDoneAndError` | `include/aricpp/proxy.h:192-234` | In every run with one response, handlers throwing or not: `done` and `error` are both set if and only if an After handler throws while a 2xx response with a readable value is delivered |
| `ProxyRuns.FreshUntilResponse` | `include/aricpp/proxy.h:54-94` | Before the response, registrations of any handlers call nothing, settle nothing, and leave both closures denoting them in order |
| `ProxyRuns.RegistrationsOnly` | `include/aricpp/proxy.h:54-94` | Registrations at any time change no result, error or response, forget no handler, and call nothing on a side that is not settled |
| `ProxyRuns.StringWithoutValue` | `include/aricpp/proxy.h:192-234` | A 2xx response without a readable value reaches error handlers only, with `Error::unknown` |
| `ProxyRuns.VoidLateAfterNeverRuns` | `include/aricpp/proxy.h:254-322` | After a success of `ProxyImpl<void>`, whatever is registered later, by handlers that throw or not: the After handlers called are and remain those registered by the time of the response; a later one runs neither at once nor ever |
| `Proxies.ProxyImpl.AddAfter` | `include/aricpp/proxy.h:54-73` | `After` runs the handler on a completed promise and extends the closure otherwise, exceptions included |
| `Proxies.ProxyImpl.AddOnError` | `include/aricpp/proxy.h:75-94` | `OnError`, likewise on the error side |
| `Proxies.ProxyImpl.OnResponse` | `include/aricpp/proxy.h:192-212` | `OnResponse` of all three specialisations, with the `catch` of the string one |
| `CommandRuns.HttpRun` | `include/aricpp/proxy.h:347-359` | Commands, attachments and completions drive the request pipeline in one of its runs, so all theorems about it apply |
| `CommandRuns.HttpIssues` | `include/aricpp/proxy.h:347-359` | The k-th request of the pipeline is that of the k-th command |
| `CommandRuns.RunKnown` | `include/aricpp/proxy.h:347-369` | In every run the k-th promise knows what was attached to the k-th command, on which side, before and after the answer, and its one response is made of the answer to its request, the message and body of that completion and the object of the command |
| `CommandRuns.CommandsSettleTheirPromise` | `include/aricpp/proxy.h:347-369` | Nothing attached to a command is called before its own request is answered; then every handler attached to the matching side has been called, none on the other, all with what the answer means; in the order of attachment if the handlers register nothing themselves; for `Proxy` after a success, just those attached before the answer |
| `Registry.ReferenceMeaning` | `include/aricpp/arimodel.h:85-91` | The reference account of an id is present exactly if it was created or announced and not destroyed since |
| `Registry.ParseName` | `include/aricpp/channel.h:497-512` | Each name the server has for a state is parsed to that state |
| `Registry.ParseUnknownIff` | `include/aricpp/channel.h:497-512` | A text gives `unknown` if and only if it is the name of no other state |
| `Registry.StepInv` | `include/aricpp/arimodel.h:154-216` | Every event, with the channels its handler creates, keeps: keys are ids, entries do not alias, live objects are listed, nothing listed is dead, states are those last reported and caller data those last entered |
| `RegistryRuns.RunAccounted` | `include/aricpp/arimodel.h:85-91` | History and id counter are a fold over the events alone, which knows of no objects and no map |
| `RegistryRuns.DirectoryIsFold` | `include/aricpp/arimodel.h:154-216` | After any events `channels` is "created or announced and not destroyed since"; each object has its key as id, is not dead, has the state whose name was last reported and the caller data of the last entry, and is listed once |
| `RegistryRuns.DeadObjectsAreFrozen` | `include/aricpp/channel.h:489-517` | No event changes a dead object, and no object changes its id |
| `RegistryRuns.DeathIsRecorded` | `include/aricpp/arimodel.h:192-205` | A destroyed channel object keeps for ever the cause it was destroyed with, and its id, state and caller data |
| `RegistryRuns.LiveWithoutCause` | `include/aricpp/channel.h:513-517` | An object that is not dead has no cause |
| `RegistryRuns.SameObjectIffAlive` | `include/aricpp/arimodel.h:160-204` | An id listed before and after a run denotes the same object if and only if that object has not died: a later announcement makes a different one |
| `RegistryRuns.CreateChannelRejectedIff` | `include/aricpp/arimodel.h:85-91` | `emplace` rejects the new object, whose destructor then hangs up the existing channel, if and only if the generated id is listed |
| `RegistryRuns.RejectedOnce` | `include/aricpp/arimodel.h:85-91` | A server that announces `aricpp-c0` itself makes the first `CreateChannel` hang up that channel |
| `RegistryRuns.CreatedChannelsAreNew` | `include/aricpp/arimodel.h:85-91` | If the server makes up no id of the generated form, the next generated id is never listed and no object is ever rejected |
| `Ari.AriModel.CreateChannel` | `include/aricpp/arimodel.h:85-91` | The returned object is the one listed under the generated id, a new one exactly if that id was free |
| `Ari.AriModel.ChannelCreated` | `include/aricpp/arimodel.h:154-173` | A known channel has its state updated in place, an unknown one gets a new object |
| `Ari.AriModel.StasisStart` | `include/aricpp/arimodel.h:175-191` | The listed object gets the caller data; an unknown id changes nothing |
| `Ari.AriModel.ChannelStateChange` | `include/aricpp/arimodel.h:206-216` | The listed object gets the state; an unknown id changes nothing |
| `Ari.AriModel.Dispatch` | `include/aricpp/arimodel.h:152-216` | A whole event on shared channel objects is one step of the registry and keeps its invariant; the objects added are new ones |
| `Ari.Serve` | `include/aricpp/arimodel.h:152-216` | After any sequence of events the map of the real objects lists exactly the ids created or announced and not destroyed since, each under an object of its own that has this id, is not dead, has the state whose name was last reported and the caller data of the last entry |
| `Ari.Channel.StateChanged` | `include/aricpp/channel.h:497-512` | The state is the one whose name the text is, unknown if it is none, and nothing else changes |
| `CallMachine.NamesDiffer` | `examples/low_level_dial.cpp:307-308` | Different legs have different ids, in either example's naming |
| `CallMachine.RunInv` | `examples/high_level_dial.cpp:56-214` | In every run of the abstract machine the status of a listed call says which of its legs were destroyed, and no leg is in two calls |
| `CallMachineRuns.OneHangupPerCall` | `examples/high_level_dial.cpp:93-137` | In every run a call is listed exactly until both its legs are destroyed, ends once, and has had one leg hung up if one was destroyed, none otherwise |
| `CallMachineRuns.DeathOfALeg` | `examples/high_level_dial.cpp:127-137` | The destruction of the first leg hangs up the other one and keeps the call; that of the second takes the call off the list in the same step and hangs up nothing |
| `HighCalls.FindsSameCall` | `examples/high_level_dial.cpp:210-214` | `FindCallByChannel` finds the call of a dying leg: no other call has that id, not even as a dead leg |
| `HighCalls.StepRefines` | `examples/high_level_dial.cpp:119-214` | Every event, handled by `AriModel` and then by the dead-flag controller, is a step of the call machine |
| `HighCalls.RunRefines` | `examples/high_level_dial.cpp:109-214` | The high-level example composed with `AriModel` refines the call machine: same calls, same live legs, same Hangup commands |
| `CallOrders.FoundIsLive` | `examples/high_level_dial.cpp:210-214` | In every run a leg is found in a call exactly if it takes part in one and is not gone, and the other leg and the bridge are those of that call |
| `HighOrders.StepSends` | `examples/high_level_dial.cpp:71-99` | On every event the high-level example sends exactly the commands the call machine calls for: it dials for a new caller, answers the caller when the called leg enters, lets it ring when that rings, bridges both when the caller is up, and hangs up the leg left behind |
| `HighOrders.RunSends` | `examples/high_level_dial.cpp:117-214` | All commands of a run, in order, are those the call machine calls for |
| `LowCalls.RunRefines` | `examples/low_level_dial.cpp:231-362` | The low-level example refines the same machine, with a dead leg shown as an empty id |
| `LowOrders.StepSends` | `examples/low_level_dial.cpp:129-226` | The same for the low-level example, which names a leg that is gone by an empty id and drops the bridge of a call that is over |
| `LowOrders.RunSends` | `examples/low_level_dial.cpp:235-362` | All commands of a run, in order, are those the call machine calls for |
| `DialExamples.SameCalls` | `examples/high_level_dial.cpp:163-214` | On the same run of the server both examples hold the same calls in the same order, with the same legs alive, the same bridges and the same Hangup commands, up to the renaming of generated ids |
| `DialCommands.SameCommands` | `examples/low_level_dial.cpp:129-226` | After any run, on any event, the low-level example sends what the high-level one sends, ids renamed and those of channels that are gone empty, except for the variable the one asks for, music on hold, and the bridge the other drops |
| `DialCommands.FirstCaller` | `examples/low_level_dial.cpp:307-319` | The first caller makes the examples dial `aricpp-c0` and `aricpp-0` |
| `DialExamples.HighLevelSafety` | `examples/high_level_dial.cpp:93-137` | No listed call has two dead legs; a call is listed until both its legs are destroyed; one Hangup per call has been sent if a leg was destroyed, none otherwise |
| `DialExamples.LowLevelSafety` | `examples/low_level_dial.cpp:187-264` | Each listed call has a non-empty leg, non-empty legs are pairwise distinct, a listed call shows a leg of the n-th call exactly until both its legs are destroyed, a call is erased once, then, and the bridge deletions sent are those of the ended calls that had stored a bridge |
| `HighLevelDial.Call.ChHangup` | `examples/high_level_dial.cpp:93-99` | Hangs up the other leg unless it is dead, and says whether it is |
| `HighLevelDial.CallContainer.FindCallByChannel` | `examples/high_level_dial.cpp:210-214` | The first call with this channel on that side, or none |
| `HighLevelDial.CallContainer.Dispatch` | `examples/high_level_dial.cpp:117-155` | On shared channel and call objects each event does what the high-level machine says, keeps the registry as `AriModel` needs it, and adds new objects only |
| `HighLevelDial.Serve` | `examples/high_level_dial.cpp:109-214` | A container on a new `AriModel` that is given the events of a run is in the state of the high-level machine after that run |
| `LowLevelDial.Call.ChHangup` | `examples/low_level_dial.cpp:187-198` | Clears one id through a pointer, then looks at the other: sends the bridge deletion or the Hangup, and says whether the call is over |
| `LowLevelDial.CallContainer.Dispatch` | `examples/low_level_dial.cpp:235-286` | On call objects each event does what the low-level machine says, and adds new objects only |
| `LowLevelDial.Serve` | `examples/low_level_dial.cpp:231-362` | A container that is given the events of a run is in the state of the low-level machine after that run |
| `DialExamples.ServeBoth` | `examples/low_level_dial.cpp:231-362` | The two containers, each given the same run, hold call objects that agree in order: a low-level id is the renamed id of the channel object, empty once that is dead; the bridges agree, no call has two dead legs, and the commands sent are exactly those the call machine calls for |
| `Detection.DetectsPrefixes` | `examples/digitsequence.cpp:67-103` | For every string of symbols handlers run for exactly the prefixes that are registered, shortest first, the first registered on duplicates, up to the shortest prefix that is not registered and no shorter than the longest sequence; there the invalid handler runs once; later symbols are ignored; the stored input never exceeds the longest sequence by more than one |
| `Detection.TimerEndsDetection` | `examples/digitsequence.cpp:72-127` | The timer matters exactly if its first expiry precedes any match; then it ends the detection with one more call of the invalid handler and all later symbols are ignored |
| `Detection.InvalidAtMostTwice` | `examples/digitsequence.cpp:83-127` | Per detection the invalid handler runs at most once from `Symbol`, at most once from the timer after that, and never from the timer if there was a match |
| `Detection.EveryDetectionIsFresh` | `examples/digitsequence.cpp:67-127` | Whatever a detector has been through, from `StartDetection` on it goes through the states of a new detector with the sequences added so far, and adds the same output to what there was |
| `Detection.EveryDetectionDetects` | `examples/digitsequence.cpp:67-103` | So the matches and the invalid call of every detection of every detector are those of the prefixes of its own symbols |
| `Detection.LiveSequences` | `examples/digitsequence.cpp:67-71` | Nothing but `AddSequence` changes the sequences, and `maxSeqSize` is always the length of the longest |
| `Detection.MaxSizeIsLongest` | `examples/digitsequence.cpp:67-71` | That length is attained by a sequence and exceeded by none; it is 0 without sequences |
| `Detection.SequenceDetector.AddSequence` | `examples/digitsequence.cpp:67-71` | `maxSeqSize` stays the length of the longest sequence |
| `Detection.SequenceDetector.OnSymbol` | `examples/digitsequence.cpp:83-103` | The loop over the sequences does what the specification of one symbol says; true is returned exactly on a match |
| `Detection.SequenceDetector.StartDetection` | `examples/digitsequence.cpp:78-82` | The input is empty, the detector valid and the timer armed; sequences and output stay |
| `Base64.DecodeEncode` | `include/aricpp/basicauth.h:43-86` | A decoder after section 4 of RFC 4648 inverts the encoding of every byte string |
| `Base64.EncodeDecode` | `include/aricpp/basicauth.h:43-86` | That decoder accepts nothing but encodings |
| `Base64.EncodeLength` | `include/aricpp/basicauth.h:43-86` | Four characters for every three bytes begun |
| `Base64.AlphabetIsStandard` | `include/aricpp/basicauth.h:45-47` | The alphabet is that of table 1 of RFC 4648 |
| `Base64.MaskedSextets` | `include/aricpp/basicauth.h:60-63` | The masks, shifts and additions of the source, on 32-bit integers with the sign extension of a negative `char`, give the four sextets, and all are below 64 |
| `Base64.Base64Encode` | `include/aricpp/basicauth.h:43-86` | The loop with its two arrays, left-over bytes and padding computes the encoding |
| `Base64.CredentialsRecoveredIff` | `include/aricpp/basicauth.h:93-96` | Decoding the header and splitting at the first colon (section 2 of RFC 7617) returns user and password if and only if the user has no colon |
| `UrlEncoding.DecodeUrlEncode` | `include/aricpp/urlencode.h:44-68` | Percent-decoding (section 2.1 of RFC 3986) inverts `UrlEncode` on every byte string |
| `UrlEncoding.UrlEncodeCanonical` | `include/aricpp/urlencode.h:44-68` | The output is unreserved characters (section 2.3 of RFC 3986) and `%` with two uppercase hexadecimal digits |
| `UrlEncoding.UrlEncodeLength` | `include/aricpp/urlencode.h:54-59` | Unreserved text is left as it is, and every other byte takes exactly three characters |
| `UrlEncoding.UrlEncodeStream` | `include/aricpp/urlencode.h:44-68` | The stream with its fill, width and case flags produces that encoding |
| `Queries.ReadJoin` | `include/aricpp/channel.h:246-252` | Splitting a query at `&` and `=` gives back the fields it was printed from |
| `Queries.DialRecovered` | `include/aricpp/channel.h:237-256` | A server (RFC 3986: fragment and query cut off, path cut into segments, dot segments resolved, segments and values decoded) reads from the URL of `Dial` the path and every argument, whatever strings they are |
| `Queries.CreateRecovered` | `include/aricpp/channel.h:265-276` | The same for `Create` |
| `Queries.SendDtmfRecoveredIff` | `include/aricpp/channel.h:302-314` | A server reads the channel id, the digits and the numbers that are not negative, and nothing else, if and only if the id may stand unencoded as a segment of a path; if not, no segment is read as the id |
| `Queries.SendDtmfMisread` | `include/aricpp/channel.h:302-314` | The channel `%41` is read as the channel `A` |
| `Decimal.ParseToString` | `include/aricpp/channel.h:302-314` | The decimal text of a number is digits only and reads back as the number |

## Left out

- WebSocket connect, ping and reconnect: their guarantees depend on the network library, and overlapping attempts leave no invariant to prove.
- Sockets, name resolution, timers and HTTP formatting: operations of the event loop with arbitrary outcomes; an operation that never completes is a run that stops there.
- JSON parsing: events are decoded records; a body is represented by its optional "value". The text an unreadable body or a throwing handler passes to error handlers is a constant.
- Event dispatch in `Client` and the forwarding of raw commands: an event reaches the handler named in the model.
- One-line command wrappers of `Channel`, `Bridge`, `Recording` and `Playback`, and the enumerations with text: constants and forwarding only.
- Queries built from unencoded arguments (`Move`, `Snoop`, `Continue`, `Redirect`'s path, the low-level example's own URL), and the request body with variables of `Dial`.
- Events of `AriModel` for variables, tones, digits, playbacks and text messages: they look up a channel and forward.
- The Hangup sent by the destructor of a channel object that is still alive when the last reference goes; only that of an object rejected by `emplace` is modelled.
- Bridge moves, the destructor of `Bridge`, and a bridge request that fails (it stores nothing in either example).
- `main` functions, option parsing, tracing, the HTTP timeout macro, deprecated overloads, and the call classes of the digit-sequence example.
- That a write finds a connected socket: not true after a failed resolve or connect.
- Liveness that needs the server to report the destruction of a channel.
- A response handler of `HttpClient` that throws: `CallBack` is then left before it removes the request.
- CommandsSettleTheirPromise: the handlers attached do not throw, and what they do besides registering handlers on their own promise appears as further events of the run. Handlers registered inside other handlers are called too, which is why the order of attachment is stated for handlers that register nothing.
- HandlersRunOnce: assumes handlers that do not throw; with exceptions the exact behaviour on the response is that of `ResponseRunsRegisteredList`, which `FreshUntilResponse` carries to every run. Once the promise is settled it says how often each handler ran, not in which order nested registrations interleave.
- VoidLateAfterNeverRuns: a handler of `ProxyImpl<void>` that attaches an After handler replaces the function object that is being called; the model keeps running the old one, where C++ leaves the behaviour open.
- RunOne: a handler of `HttpClient` is the sequence of requests it submits; that it may do so at any point of its body is covered by the machine, where submissions and the return of the handler are separate events.
- SameCalls: the clean-up Hangup that both examples send to the calling leg when the response to their dial command is an error is not among the commands compared; the low-level example also sends it on a network error, the high-level one does not.
- LowLevelSafety: bridge responses are those of listed calls; one that arrives after its call was erased refers to a deleted object in the source.
- Dispatch: handlers of the dial examples get their events one at a time, and error messages written to the console are not modelled.
- InvalidAtMostTwice: cancelling the timer is assumed to take effect, and the handlers do not call the detector again.
- UrlEncodeStream: `isalnum` is taken in the "C" locale, where it is false for characters outside ASCII.
