# A model of the Command Code plugin

The plugin turns chat requests into Command Code's private wire format, tries a weighted pool of keys until one
answers, and turns the upstream NDJSON stream back into OpenAI output, either as live chunks or as one buffered
object. This project models those paths in Dafny and proves what they keep.

## How the model is laid out

| module | models |
|---|---|
| `Lines`, `Protocol`, `FinishReasons`, `StreamModel` | cutting lines out of chunked bytes, upstream events, the delta emitter and the accumulator, and what a whole stream means to each of them |
| `Executor` | the receive loops, `Execute`, `ExecuteStream` and the in-flight counter as the methods of one object |
| `Parser`, `Answers` | which lines are which events, and what an answer holds in either form, event by event |
| `Agreement`, `Runs` | when the two output forms agree, and the shape and ending of every streamed run |
| `Timeouts` | the timeout counter over a sequence of requests |
| `Admission` | the in-flight cap as a state machine over interleaved atomic steps |
| `Pool`, `Failover` | the weighted order and the retry loop |
| `Chat`, `Responses`, `Anthropic`, `CcRequest` | the two converters and the envelope builder |
| `ToolNaming`, `WireText`, `WireImages`, `WireSystem` | what a request's tools, texts, images and system texts become after both stages |
| `Session` | sessions with a sweep, and the init calls of interleaved requests |
| `ManagedFiles`, `Reconcile` | the wanted auth files and the reconcile loop over the host's files |
| `Fingerprint`, `Decimal`, `Slug` | rendezvous choice, the integer printer and the slug |
| `Text`, `Lexicographic` | trimming, defaulting and joining of strings, reading lists element by element, and the order of byte and character strings |

Objects whose methods update fields (`ccStreamState`, `ccAccumulator`, the executor, the session manager, the host's
files) are classes, and loops are loops. Each method is proved against a function of its inputs or of the old state;
the results about whole streams, runs and histories are proved about those functions, mostly against a second,
independent definition: events read one by one or off from the end, runs of items instead of a pending message, blocks
read one after the other, the configured weights, maximal runs of word characters, a session table that never deletes.

What the code takes from elsewhere is a parameter: JSON decoding and encoding, Unicode lower-casing, SHA-256, the clock,
random draws and identifiers, the outcome of each upstream attempt and of each host call, the order in which goroutines
take their steps, and the point at which a cancelled context makes a send fail. `Protocol.PluginWire` puts `parseCCEvent`
and `mapFinishReason` into the place of the parameter over which the stream results are stated. JSON objects are records
of the keys that the code reads; a key that is only read as a string is held as that string.

## What was found

Some things that one would expect of the code do not hold on all inputs. For each, a lemma says exactly when it holds, and
where that does not show the failing inputs by itself, another gives one.

- The two output forms do not agree on every stream. `Agreement.FormsAgreeIff` says for every byte stream whether they
  do. They part when a failure is reported only by `finish` (`Agreement.FinishOnlyFailureDiverges`), when usage comes
  after the last `finish` (`Agreement.LateUsageDiverges`), when there are two different errors
  (`Agreement.TwoErrorsDiverge`), when a tool call has a blank id (`Agreement.IdsAgreeIffGiven`), and when the last line
  has no newline and matters (`Agreement.OpenLineWithoutFinish`, `Agreement.OpenLineAfterAnswer`).
- Under concurrency a request can be rejected although nobody holds a slot (`Admission.SpuriousRejection`,
  `Admission.RejectedIff`).
- Interleaved requests can leave a key without a fingerprint: `Session.FingerprintCanBeLost` is a history in which the
  next init sends none, and `Session.InitSendsOwnIff` says when an init sends its key's own.
- A sweep can cut an init's quiet period short: `Session.QuietCanBeCutShort` is such a case, `Session.InitThrottle` says
  exactly when.
- `itoa` prints the least int64 as a bare minus sign (`Decimal.ShownRoundTrip`).
- An assistant message with an empty block list is sent as the text `[]` (`Anthropic.AssistantSaysItsTextIff`).
- Reasoning in Responses input is lost unless it is the last of its run and something in the run speaks
  (`Responses.ReasoningIsKeptIff`).
- Of a system list, an empty text without a cache marker is dropped (`WireSystem.SystemListIsKeptIff`).
- The repository's own `README.md` (lines 44-46) says that managed files are removed when their key disappears. The code
  removes such a file only if the host lists a path for it (`Reconcile.KeyGoneFileStays`, `Reconcile.UnshownFileStays`).

## Model

| member | source | states |
|---|---|---|
| `Agreement.FormsAgreeIff` | executor.go:263-309 | for every byte stream, an open last line included, folding the streamed items gives the buffered answer, or the same error, if and only if a condition read off from the events holds; each form has its own clock |
| `Agreement.OrdinaryFormsAgree` | protocol.go:99-185 | streams with at most one error event, or with given ids and one closing `finish` whose reason fits the last step reason, always give the same answer or the same error in both forms |
| `Agreement.PluginFormsAgreeIff` | protocol.go:35-71 | the exact condition for the plugin's own event parser and reason mapping, whatever the JSON decoder |
| `Agreement.PluginOrdinaryFormsAgree` | protocol.go:448-463 | agreement on ordinary streams for the plugin's own parser and mapping |
| `Agreement.EventsAgreeIff` | protocol.go:271-357 | the same equivalence on the decoded events: those of the terminated lines, which both forms see, and the one of the open line, which only the streamed form sees |
| `Agreement.OrdinaryIsAgreeing` | protocol.go:158-180 | ordinary streams meet the exact condition |
| `Agreement.AnswersAgree` | protocol.go:330-357 | without error events the folded deltas equal the built message exactly when the open line's event is silent, all ids are given, and the last finish chunk shows the reason and usage the accumulator ends with |
| `Agreement.ContentAgrees` | protocol.go:111-157 | text, reasoning, and the names, arguments and number of tool calls always agree, whatever the finishing events say |
| `Agreement.IdsAgreeIffGiven` | protocol.go:131-134 | both forms give a call the same id exactly when the upstream's id is not blank, whatever the clocks read |
| `Agreement.MadeUpIdsDistinct` | protocol.go:129-157 | the calls that a run sends for events without an id get distinct ids, whatever the clock reads and whether or not an error event follows |
| `Agreement.StreamToolIdsDistinct` | fingerprint.go:230-250 | ids made from different indices differ for any two clock readings |
| `Agreement.FoldsKeepErrors` | protocol.go:106-109 | the emitter holds the first error event and the accumulator the last |
| `Agreement.FoldsKeepFinish` | protocol.go:302-310 | the emitter ends with the last step reason and the tokens known at the last `finish`, the accumulator with the last reason and usage of either kind |
| `Agreement.FinishChunkShows` | protocol.go:169-180 | the last finish chunk shows the step reason if there is one, else its own, and the usage known by then |
| `Agreement.VerdictsRead` | protocol.go:212-220 | which error each form ends with, for all events: its error event, its finish, its reason, its usage |
| `Agreement.FinishOnlyFailureDiverges` | protocol.go:160-172 | an upstream failure reported only by `finish` is delivered when streamed and refused when buffered |
| `Agreement.LateUsageDiverges` | protocol.go:176-178 | usage reported after the last `finish` is an empty response when streamed and a success when buffered |
| `Agreement.TwoErrorsDiverge` | executor.go:430-433 | of two errors one form reports the first, the other the last |
| `Agreement.OpenLineWithoutFinish` | executor.go:445-463 | when the terminated lines do not finish, an open last line keeps the forms in agreement exactly when it does not finish either (or fails in the words of the buffered error) |
| `Agreement.OpenLineAfterAnswer` | executor.go:445-463 | when both forms give one answer to the terminated lines, an open last line keeps it exactly when it adds nothing, reports no upstream failure, and as a `finish` shows the same reason and usage |
| `Runs.ErrorComesLast` | executor.go:403-435 | an error is the last item on the channel, so there is at most one, also when a cancelled context cuts the sends short |
| `Runs.ClosesCleanlyIffComplete` | executor.go:445-464 | after the upstream closed, the channel closes without an error if and only if there was no error event, a finishing event, no upstream failure as step reason, and output at the last `finish` |
| `Runs.IncompleteRunsReport` | protocol.go:212-220 | a closed stream without an error event that is not complete is refused with 502 as cut short if nothing finished or the step reason was an upstream failure, and else with 429 as empty |
| `Runs.BrokenRunsReport` | executor.go:437-469 | a run cut off by a transport error or a timeout reports exactly one error, an error event among the complete lines taking precedence; a cancelled run adds none |
| `Runs.SentIsPrefix` | executor.go:421-436 | what a cut-off run has sent is a prefix of what any longer run of the stream sends |
| `Runs.EveryRunIsShaped` | protocol.go:110-185 | finish chunks have an empty delta, delta chunks carry exactly one of text, reasoning and a call, the role is on the first delta chunk and no other, calls are numbered from 0, and the two counters count them |
| `Runs.RoleOnceAndToolsNumbered` | protocol.go:115-157 | no chunk after a delta chunk announces the role, and call indices rise |
| `Executor.Executor.Receive` | executor.go:393-485 | the streamed items and the timeout count depend only on the bytes received, on how the input ended and on how many sends go through, not on how the bytes were cut into chunks |
| `Executor.Executor.StreamLoop` | executor.go:395-398 | the same, and the goroutine gives back exactly one slot |
| `Executor.Executor.TakeChunk` | executor.go:470-481 | after a chunk `pending` is what follows the last newline, so the 4 MiB branch feeds no line |
| `Executor.Executor.Emit` | executor.go:409-420 | chunks are sent in order until a send fails |
| `Executor.Executor.Process` | executor.go:421-436 | feeds exactly the complete lines, in order, and stops after an error event or a failed send |
| `Executor.Executor.CollectNonStream` | executor.go:263-296 | the buffered result depends only on the bytes received and on how the input ended |
| `Executor.Executor.FinishNonStream` | executor.go:298-309 | the three refusals in order, and otherwise the built message |
| `Executor.Executor.Execute` | executor.go:206-261 | the slot is given back on every path; otherwise the members tried, the result and the timeout count are those of the order, the attempts and the winning stream |
| `Executor.Executor.ExecuteStream` | executor.go:311-373 | the slot is kept exactly when a stream was started |
| `Executor.Executor.AcquireInflight` | executor.go:88-98 | admits exactly below the limit and leaves the counter alone when it rejects |
| `Executor.Executor.NextTimeout` | executor.go:106-115 | counts a timeout and words its error by the count |
| `Timeouts.HintFromThirdTimeout` | executor.go:106-121 | over any sequence of requests, a run that times out advises to shorten the context exactly when two runs before it timed out with no success since the first of them |
| `Lines.SplitRoundTrip` | executor.go:268-274 | cutting loses no byte and leaves no newline in a piece |
| `Lines.SplitIsUnique` | executor.go:268-270 | the lines and the tail are determined by the bytes |
| `Lines.SplitResumes` | executor.go:470-472 | cutting a grown stream is cutting the tail together with the new bytes |
| `Protocol.CCStreamState.HandleEvent` | protocol.go:99-185 | the emitter's whole new state and output for an event |
| `Protocol.CCAccumulator.FeedEvent` | protocol.go:271-311 | the accumulator's whole new state for an event |
| `Protocol.CCAccumulator.BuildCompletion` | protocol.go:330-357 | the built message |
| `Protocol.CCAccumulator.OutputTokens` | protocol.go:323-328 | the tokens, and the stored usage normalised as a side effect |
| `Parser.NoEventIff` | protocol.go:35-48 | the plugin's parser skips a line exactly when its trimmed text is empty, the end marker, a comment or no JSON object, or the object has no type |
| `Parser.EventIsRead` | protocol.go:49-71 | what every other line reads as, by the name of its type: which keys make the text, the call, the reason and the usage; an unknown type is kept by its name |
| `Parser.EventIsReadBack` | protocol.go:35-71 | a line with the object that stands for a data event is read as that event, a text delta of white space as an empty one |
| `Parser.StreamIsRead` | protocol.go:35-71 | lines that each carry the object of an event are read as those events, in order |
| `Parser.ErrorIsRead` | protocol.go:384-408 | an error object gives the first message it has, the mapped status it reports (in its message, or else beside it), and a wait exactly for 402 and 429 |
| `Parser.StatusIsShown` | protocol.go:361-382 | the status table, number by number |
| `Parser.ReasonIsRead` | protocol.go:448-463 | a finish reason goes by its trimmed text, character by character in lower case |
| `Answers.StreamTells` | protocol.go:110-157 | the streamed chunks of any events add up to their text deltas, reasoning deltas and calls before the first error, in order; each call has its own name, its own text or JSON as arguments or `{}` without input, and its own id unless that is empty |
| `Answers.BufferTells` | protocol.go:271-300 | the buffered completion holds all text deltas, reasoning deltas and calls in order, each call with its own name and arguments, and its own id unless that is blank |
| `Answers.DeliveredStreamTells` | protocol.go:99-185 | a delivered stream tells every event of the stream, and ends with the last step reason, or that of the last `finish`, and the usage known by then, in client words and whole numbers |
| `Answers.DeliveredBufferTells` | protocol.go:330-357 | a delivered completion tells every event of the terminated lines, and ends with the last reason and the last usage |
| `Answers.UsageIsShown` | protocol.go:229-253 | usage without output shows zeros; otherwise input, output, their sum and the cached tokens |
| `Answers.TruncateMeans` | protocol.go:241-253 | fractions are dropped towards zero |
| `Protocol.EventRoundTrip` | protocol.go:35-71 | every data event is read back from the object that stands for it, except that a text delta of white space is read as empty |
| `Protocol.EventErrorStatus` | protocol.go:384-408 | a status written into the message beats the one beside it, and waiting is advised exactly for 402 and 429 |
| `FinishReasons.MapFinishReasonIdempotent` | protocol.go:448-463 | a mapped reason is never empty and is mapped to itself |
| `FinishReasons.CanonicalIff` | protocol.go:448-463 | which texts each word of the vocabulary stands for; every other text stands for itself |
| `FinishReasons.UpstreamErrorIff` | protocol.go:459-461 | exactly the spelled-out network, connection and upstream errors are upstream errors |
| `Admission.RunKeepsInv` | executor.go:88-104 | in every interleaving the holders never exceed the limit and the counter is holders plus rejections in progress |
| `Admission.StepKeepsInv` | executor.go:311-320 | every atomic step keeps that, the hand-over to the stream goroutine included |
| `Admission.AtRest` | executor.go:364-398 | once nothing runs the counter is 0 and every admission was released exactly once |
| `Admission.AddAdmitsIff` | executor.go:88-98 | wherever a schedule has led, an arriving request is admitted, and holds a slot from then on, exactly without a limit or below it |
| `Admission.UndoTakesBack` | executor.go:93-96 | a rejected request lowers the counter again and is gone, without an admission or a release |
| `Admission.SpawnKeepsTheSlot` | executor.go:364-366 | the hand-over changes neither the holders nor the counter |
| `Admission.ReturnReleasesIffOwn` | executor.go:315-320 | a returning caller gives its slot back if it has not handed it over, and nothing otherwise |
| `Admission.LoopEndsReleases` | executor.go:395-398 | a stream that ends gives its slot back |
| `Admission.StepsRunOut` | executor.go:311-398 | every effective step but an arrival uses up one of its request's finitely many steps and touches no other request |
| `Admission.DoneIffNoStepLeft` | executor.go:311-398 | a request is done exactly when no step of it does anything |
| `Admission.EveryRunCanFinish` | executor.go:311-398 | from wherever a schedule has led, all requests can be brought to an end without a new one; then the counter is 0 and every admission was released exactly once |
| `Admission.RejectedIff` | executor.go:93-96 | a request is rejected exactly when holders and rejections in progress reach the limit |
| `Admission.SpuriousRejection` | executor.go:93-96 | a request can be rejected while nobody holds a slot |
| `Pool.Order` | pool.go:153-179 | the in-place algorithm computes the order that the draws determine |
| `Pool.OrderIsPermutation` | pool.go:161-178 | every order lists each member once |
| `Pool.SelectShare` | pool.go:166-174 | in a round exactly `weight(i)` of the possible draws, an interval, select member i |
| `Pool.ShareIsWeight` | config.go:63-68 | the number of those draws is the normalised weight |
| `Pool.DrawsForIsExact` | pool.go:153-179 | the set of draw sequences counted for an order is exactly the set that leads to it |
| `Pool.OrdersWeighTheSame` | pool.go:153-179 | the number of draw sequences that lead to an order is the product of the normalised weights |
| `Pool.OrderChance` | pool.go:153-179 | the chance of an order is, position by position, the member's weight in what it and all members after it weigh: the draw sequences that lead to it are as many as the product of the weights, and each is one in the product of those totals |
| `Pool.ConfiguredShare` | config.go:63-68 | of a round's possible draws a member of positive weight is selected by as many as it weighs, and any other by one |
| `Pool.ConfiguredTotal` | pool.go:161-165 | a round has as many possible draws as the remaining weights add up to, one for each that is not positive |
| `Pool.ConfiguredChance` | pool.go:153-179 | in configured weights: as many draw sequences lead to an order as the product of its members' weights, each one in the product of the sums of the weights left before each round |
| `Failover.TryMembers` | executor.go:223-260 | stops at the first success or final failure, reports the last failure, and reaches the generic 502 only with an empty pool |
| `Failover.PoolRun` | executor.go:223-260 | no member twice, every attempt but the last failed retryably, nothing after a success, and everyone if all fail retryably |
| `Failover.RetriedIff` | executor.go:223-251 | an attempt is retried exactly if there was no client, or if the request was still wanted and the failure was no status but 401, 429 or a five hundred |
| `Failover.ReadStreamErrorBody` | executor.go:571-598 | at most 1 MiB, the piece with the read error included, independent of the cutting |
| `Responses.ConvertItems` | responses.go:48-103 | the pending machine yields one message for each run of items between flushes, from the run's last text, last reasoning and all its calls |
| `Responses.ReadAll` | responses.go:49-83 | reading the items by type and role, with a made-up id for a call without one |
| `Responses.FlushPending` | responses.go:26-43 | appends the run's message and nothing for a run without text and calls |
| `Responses.ConvertResponsesToChat` | responses.go:9-103 | instructions first, then the string input or the converted items |
| `Responses.ConversionConserves` | responses.go:48-103 | the messages show exactly the calls, outputs and non-empty user and system texts, in order |
| `Responses.NoEmptyAssistant` | responses.go:37-40 | no assistant message without text and calls |
| `Responses.LastSaidMeans` | responses.go:63-66 | of a run's assistant texts exactly the last non-empty one is kept |
| `Responses.ReasoningIsKeptIff` | responses.go:37-58 | the reasoning of the messages is, in order, exactly that of the items which are the last reasoning of their run, in runs with a non-empty text or a call |
| `Responses.ConvertedReads` | responses.go:26-103 | whatever is read from single items is read from the messages, once and in order |
| `Anthropic.ConvertAnthropicToOpenAI` | anthropic.go:6-173 | the leading system message and the converted messages |
| `Anthropic.ConvertAssistant` | anthropic.go:46-97 | sorts the blocks and leaves the latest name of every id in the table |
| `Anthropic.ConvertUser` | anthropic.go:99-172 | results first, named by the table, then the user's own text or parts; the outputs reported are those of the result blocks, in order: a text as it is, a list as its texts in lines |
| `Anthropic.ReadResult` | anthropic.go:138-152 | the text of one result, by the kind of its content |
| `Anthropic.TraceIsActs` | anthropic.go:46-163 | the tool uses and outputs of the input are those of its blocks, one by one: a use by an assistant, an output by a user |
| `Anthropic.AssistantTextIsKept` | anthropic.go:81-88 | no text is lost between the two layouts |
| `Anthropic.UserTextIsKept` | anthropic.go:164-171 | likewise for a user, and a message is left out only without text |
| `Anthropic.AssistantSaysItsTextIff` | anthropic.go:52-55 | an assistant message says what its body says if and only if that is not an empty list of blocks, which says `[]`; its thinking is always kept |
| `CcRequest.BuildMessages` | request.go:25-43 | the wire messages, each result named from the calls before it |
| `CcRequest.CcMessage` | request.go:163-188 | one wire message by role; the name table first, the message's own name second |
| `CcRequest.CcAssistantMessage` | request.go:217-260 | reasoning, text and calls in this order, each call with its arguments: an object as it is, text decoded to an object or `null`, anything else as an empty object |
| `CcRequest.CcUserContent` | request.go:190-215 | a user's parts, images rewritten with their type |
| `CcRequest.WireKeepsTrace` | request.go:28-43 | every call and every output of the chat is on the wire once and in order, each call with its decoded input, each output named |
| `CcRequest.SystemBlocksFromMessages` | request.go:120-161 | the kept blocks, all but the last with a newline |
| `CcRequest.SystemTextPreserved` | request.go:155-160 | the concatenated wire blocks are the kept texts joined by one newline, and every block keeps its marker |
| `CcRequest.PlaceMarker` | request.go:45-70 | a marker is added to the last system block exactly when there is a key, a block, and no marker anywhere |
| `ToolNaming.AnthropicResultsAreNamed` | anthropic.go:137-163 | through both stages every tool use block, with its decoded input, and every result block, with its text as it is or its list's texts in lines, is on the wire once and in order, and every result bears the name of the latest tool use before it with its id, or an empty name |
| `ToolNaming.TranslateAnthropic` | translator.go:31-39 | the same of what the two stages return |
| `ToolNaming.ResponsesOutputsAreNamed` | responses.go:78-99 | the same for function calls and their outputs, as the items are sent: by their type, and a call under its `call_id`, its `id` or a made-up id |
| `ToolNaming.TranslateResponses` | translator.go:33-39 | the same of what the two stages return |
| `ToolNaming.AgreeOnMessage` | anthropic.go:70-79 | the converter's table and the builder's table stay consistent over every message |
| `ToolNaming.ReadCallsHaveIds` | responses.go:79-83 | every call read from a request has an id |
| `WireText.ConversationReachesWire` | request.go:25-43 | through both stages the wire shows, message by message and in order, everything that a conversation's users and assistants say and think |
| `WireText.ItemsReachWire` | responses.go:48-103 | the same for Responses input: every non-empty user turn, and for every run in which something speaks its last text and its last reasoning |
| `WireText.AssistantReachesWire` | anthropic.go:52-95 | an assistant's text and thinking reach the wire whole and in order, except that an empty list of blocks shows as `[]` |
| `WireText.UserReachesWire` | request.go:190-215 | a user's text reaches the wire whole and in order |
| `WireImages.ImagesReachWire` | anthropic.go:118-128 | through both stages the images of the users' messages, and no others, reach the wire in order, each under its URL or its data as a URL; one without either is dropped |
| `WireImages.MimeOfMeans` | request.go:201-206 | the type read out of a URL is what stands between a leading `data:` and the first semicolon, if anything does |
| `WireImages.MediaTypeSurvives` | request.go:201-206 | of an image with data the builder reads out of the converter's URL the media type that was given, exactly when that is not blank and has no semicolon; a blank one becomes `image/png` |
| `WireSystem.SystemReachesWire` | anthropic.go:10-43 | the system blocks of a whole Anthropic request are those of its own system text that neither stage drops |
| `WireSystem.SystemListIsKeptIff` | request.go:137-139 | a system list reads on the wire as its texts joined by newlines exactly when they join to nothing or no text without a cache marker is empty |
| `WireSystem.InstructionsReachWire` | responses.go:10-15 | instructions and system turns of Responses input are the wire's system text, in order and each in its own line, empty ones left out |
| `Session.SessionManager.EnsureSession` | session.go:76-101 | the new tables and the id, sweep included |
| `Session.SessionManager.EnsureInitialized` | session.go:127-158 | an init with nothing in between: the new table and the fingerprint sent, if any |
| `Session.SessionManager.CheckDue` | session.go:103-130 | its first half: the key is known afterwards, and is due or not |
| `Session.SweepIsInvisible` | session.go:76-101 | for every history with a nondecreasing clock the ids are those of a manager that never deletes |
| `Session.IdLife` | session.go:17-22 | every returned id was minted for its key less than 13 hours before, and within 12 hours of a mint every call returns the minted id |
| `Session.InitSendsOwnIff` | session.go:103-125 | in every interleaving of requests an init sends its key's own fingerprint, unless a mark found the key forgotten and the key has been known ever since |
| `Session.ForgottenMidInit` | session.go:121-123 | a mark finds its key forgotten only if a sweep found the key's session expired between the request's check and its mark |
| `Session.FingerprintCanBeLost` | session.go:80-86 | a history of requests that each check their key, mark it and ask for their session, with a key more than is kept without sweeping, in which an init sends no fingerprint |
| `Session.GivesUp` | session.go:103-130 | a request that checks its key, is cancelled and asks for no session leaves nothing behind but the fingerprint of a key that was not known |
| `Session.QuietCanBeCutShort` | session.go:80-86 | in the same history a sweep makes a key send again one nanosecond after its mark |
| `Session.InitsSendOwnFingerprint` | session.go:103-115 | in histories where every mark directly follows its check, an init sends its key's own fingerprint |
| `Session.QuietIff` | session.go:127-131 | in every interleaving a check sends nothing exactly when the latest mark of its key is not due yet and the key has not been forgotten since |
| `Session.InitThrottle` | session.go:117-125 | within 8 hours of the latest mark a check sends exactly when a sweep has found the key's own session expired in between; after 10 hours it always sends |
| `ManagedFiles.ManagedAuthFiles` | managed_auth.go:46-94 | in ascending order of name exactly the wanted files, none when scheduling is not shared |
| `ManagedFiles.SortByName` | managed_auth.go:92 | ascending, and the same files |
| `ManagedFiles.OneFilePerKeyAndProxy` | managed_auth.go:63-69 | with unambiguous hashes and no NUL in the fields, a member has a file exactly when it is the first with its key and proxy |
| `ManagedFiles.FileHoldsMember` | managed_auth.go:57-86 | a member's file holds its trimmed key and proxy, its own priority, weight and cooling or the defaults, and the plugin's mark, under the name of their hash |
| `ManagedFiles.BeforeMeans` | managed_auth.go:92 | the order of the names: the first differing character decides, a proper prefix comes first |
| `Reconcile.Host.Sync` | cmd/commandcode/managed_auth.go:25-65 | the files after a run, and no error exactly when no call failed that mattered |
| `Reconcile.Host.Remove` | cmd/commandcode/managed_auth.go:67-90 | removes only a readable, marked file, and reports only read and remove failures |
| `Reconcile.UnmarkedFilesAreSafe` | cmd/commandcode/managed_auth.go:79-85 | whatever fails, no unmarked file outside the wanted places is changed or removed, and none is created there |
| `Reconcile.RemovedExactly` | cmd/commandcode/managed_auth.go:67-90 | whatever is listed and whatever fails, a file goes exactly when it is marked, reported under a stale name, readable and removable |
| `Reconcile.SyncConvergesIff` | cmd/commandcode/managed_auth.go:41-63 | for every listing: without failures every wanted file is stored with its content and nothing is left over, if and only if the host reports under stale names the place of every leftover and of no wanted file |
| `Reconcile.TruthfulSyncConvergesIff` | cmd/commandcode/managed_auth.go:41-63 | when the listing is truthful, this holds if and only if the host shows the path of every leftover |
| `Reconcile.UnshownFileStays` | cmd/commandcode/managed_auth.go:68-71 | with a truthful listing and no failures a leftover stays exactly when the host shows no path for it |
| `Reconcile.KeyGoneFileStays` | cmd/commandcode/managed_auth.go:68-71 | with all keys gone a file that is listed without a path stays, whatever the calls do |
| `Reconcile.RepeatChangesNothingIff` | cmd/commandcode/managed_auth.go:25-65 | once the wanted files are stored, a further run changes nothing exactly when it reports no removable file under a stale name |
| `Reconcile.SyncIsIdempotent` | cmd/commandcode/managed_auth.go:25-65 | with truthful listings a further run changes nothing, even if calls fail in it |
| `Reconcile.PluginFilesAreManaged` | managed_auth.go:75-90 | the synthesized files meet what convergence asks of the wanted files |
| `Fingerprint.Pick` | fingerprint.go:120-131 | the first candidate of greatest digest; position 0 of an empty list |
| `Fingerprint.LessMeans` | fingerprint.go:120-131 | the order of digests: the first differing byte decides, a proper prefix is less |
| `Fingerprint.FirstGreatestUnique` | fingerprint.go:88-99 | the rule determines the choice |
| `Fingerprint.RemovalKeepsChoice` | fingerprint.go:120-131 | removing an unchosen candidate keeps the chosen one |
| `Fingerprint.AppendingChangesOnlyToNew` | fingerprint.go:120-131 | a new candidate changes the choice only to itself |
| `Fingerprint.ChoiceIgnoresOrder` | fingerprint.go:120-131 | with distinct digests the choice does not depend on order or repetition |
| `Decimal.Itoa` | fingerprint.go:230-250 | the 20 byte buffer never underruns and holds the decimal form |
| `Decimal.ShownRoundTrip` | fingerprint.go:230-250 | reading back what was printed gives the number exactly for all int64 but the least |
| `Decimal.ShownInjective` | fingerprint.go:230-250 | distinct numbers print differently |
| `Slug.SlugifyProjectPath` | request.go:347-366 | the maximal runs of word characters joined by dashes, or `root` |
| `Slug.SlugIsStable` | request.go:347-366 | never empty, only a-z, 0-9 and single inner dashes, and idempotent |
| `Slug.WordCharsIff` | request.go:347-366 | word characters are the ASCII letters of either case, the digits, and the two characters that lower to a letter |
| `Slug.SlugIgnoresCase` | request.go:347-366 | paths that differ only in the case of ASCII letters share a slug |
| `Slug.SlugTellsWords` | request.go:347-366 | two paths share a slug exactly when they have the same words, or none and the word `root` |

## Left out

- HTTP transports, proxies, TLS and the C interface: an upstream attempt is an oracle for a failure or for a status with its chunks.
- JSON text: decoding and encoding are parameters, so chunk objects are not rendered to bytes.
- Executor.Executor.Receive: the items are chunk objects; the `data: ` framing of their bytes and the skipping of blank payloads, which no chunk has, are not modelled.
- Timeouts.HintFromThirdTimeout: concurrent requests share the counter only one after the other.
- Executor.Executor.Execute: the calls to the session manager between attempts are modelled in `Session`, not here.
- Usage numbers are exact reals, truncated to unbounded integers; rounding and overflow of float64 and of the sum of weights are not modelled.
- Failover.TryMembers: an attempt's outcome is a function of the member, which loses nothing because no member is tried twice.
- Session: the two init calls over the network have no outcome here, as the code ignores theirs; a request that brings its own session id asks for none, but how the id is chosen is not modelled.
- ManagedFiles: the library's sort is replaced by an insertion sort, which gives the same list because the names differ.
- Envelope fields that are copied or defaulted (model, limits, temperature, tools, tool choice, config block), response identifiers and timestamps.
- The Responses output object, the model catalogue, routing, auth parsing, configuration parsing, plugin registration, token counting, header building and logging.
